/** An abstract model of the platform heap as the allocation wrappers
    xmalloc and xrealloc, and free, see it.

    The wrappers never return null: a request either succeeds or ends the
    process. Each live block has an identity, standing for its address, and
    a size in bytes. A reallocated block is given a new identity: realloc
    may move the block, and the old address must not be used afterwards,
    so the model treats every reallocation as a move. An identity is never
    handed out twice, so a freed or moved block can never be mistaken for a
    live one. */
module Allocation {

  /** The identity (address) of a heap block. */
  type BlockId = nat

  /** blocks maps every live block to its size in bytes; next is above every
      identity handed out so far; reallocs counts reallocation requests. */
  datatype Heap = Heap(blocks: map<BlockId, nat>, next: BlockId, reallocs: nat)

  /** The result of an allocation: the new block and the heap holding it. */
  datatype Allocated = Allocated(id: BlockId, heap: Heap)

  /** Every live block has an identity below next, so next is fresh. */
  predicate WellFormed(h: Heap)
  {
    forall id | id in h.blocks :: id < h.next
  }

  /** xmalloc(bytes): a new live block of the given size. */
  function Malloc(h: Heap, bytes: nat): Allocated
  {
    Allocated(h.next, Heap(h.blocks[h.next := bytes], h.next + 1, h.reallocs))
  }

  /** xrealloc(block, bytes): the block is replaced by one of the new size
      at a new address; the bytes of the old block up to the smaller size
      move with it. */
  function Realloc(h: Heap, id: BlockId, bytes: nat): Allocated
    requires id in h.blocks
  {
    Allocated(h.next, Heap((h.blocks - {id})[h.next := bytes], h.next + 1, h.reallocs + 1))
  }

  /** free(block): the whole block goes back to the heap. */
  function Free(h: Heap, id: BlockId): Heap
    requires id in h.blocks
  {
    Heap(h.blocks - {id}, h.next, h.reallocs)
  }

}
