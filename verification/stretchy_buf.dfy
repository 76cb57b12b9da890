/** The type-erased growable array ("stretchy buffer") of common.h.

    In C a buffer is one heap block: a header of three size_t fields
    (cap, len, elem_size) followed by the element payload, and callers hold
    only the payload address. Here the header is a record that also names
    the block it lives in, the payload is the sequence of the len elements
    in use, each the elem_size bytes the caller copied in, and every
    operation that may reallocate returns the new buffer value. The heap is
    threaded through each call so that allocations can be counted and a
    moved or freed buffer can be told apart from a live one.

    Several C bodies do not compile as written; this model reads them as
    follows:
    - buf_init allocates `size` bytes, an undeclared name: it is taken to be
      the header size, offsetof(Buf, content).
    - buf_fit, buf_push and buf_grow are declared without parameters: their
      arguments are the ones their bodies use, namely content and amount,
      content and elem, and content and new_len.
    - buf_fit and buf_push are declared void, yet buf_fit assigns the grown
      address to content and buf_push writes through content after fitting:
      both are read as updating the caller's handle, as a macro would, so
      Fit and Push return the possibly moved buffer.
    - buf_fit calls buf__grow, which is declared as buf_grow returning void
      although its body returns new_buf->content: it is read as buf__grow
      returning the new payload address, which is Grow's returned buffer.
    - NOP, undeclared, is read as doing nothing.
    - elem_size and content are declared const, yet buf_init writes
      elem_size and buf_push writes into content; both writes are taken as
      intended.
    - content is a void pointer and cannot be indexed: the write in
      buf_push is read as copying the elem_size bytes of elem into slot
      len.
    - CLAMP_MIN(x, m) is undeclared: it is taken to be "x, but at least m",
      that is MAX(x, m). */
module StretchyBuf {

  import opened MinMax
  import opened SizeT
  import opened Results
  import opened Allocation

  /** offsetof(Buf, content): the header holds three size_t fields and the
      payload is a byte array, so it starts right after them. */
  const HEADER_BYTES: nat := 3 * SIZE_BYTES

  /** The capacity floor of the growth policy. */
  const MIN_CAP: nat := 16

  /** One byte of the payload (common.h's byte, a char). */
  newtype Byte = x: int | 0 <= x < 256

  /** One element: the buffer is type-erased, so an element is only the
      bytes the caller stored, elem_size of them. */
  type Elem = seq<Byte>

  /** Header and payload of one buffer, and the block holding them (the
      block's address is what the caller's handle points into). */
  datatype Buf = Buf(block: BlockId, cap: nat, len: nat, elemSize: nat, elems: seq<Elem>)

  /** A buffer together with the heap after the call that produced it. */
  datatype Step = Step(buf: Buf, heap: Heap)

  /** The fail-fast path: the allocation wrapper could not provide the
      block and the process ends, reporting the requested byte count. */
  datatype Fatal = ReallocFailed(bytes: nat)

  /** Bytes of the block holding a header and cap elements. */
  function BlockBytes(cap: nat, elemSize: nat): nat
  {
    HEADER_BYTES + cap * elemSize
  }

  /** A capacity whose block size, and the capacity itself, can be held in
      a size_t. */
  predicate Fits(cap: nat, elemSize: nat)
  {
    cap <= SIZE_MAX && BlockBytes(cap, elemSize) <= SIZE_MAX
  }

  /** x has the size of the buffer's elements. */
  predicate SizedElem(x: Elem, elemSize: nat)
  {
    |x| == elemSize
  }

  /** Every element of xs has elemSize bytes. */
  predicate AllSized(xs: seq<Elem>, elemSize: nat)
  {
    forall i | 0 <= i < |xs| :: SizedElem(xs[i], elemSize)
  }

  /** The header invariant: len counts the elements in use and never
      exceeds cap; an element has at least one byte (every C object type
      does) and every element in use has elemSize bytes; the block exists,
      so its size is a size_t. */
  predicate Valid(b: Buf)
  {
    && b.len == |b.elems|
    && b.len <= b.cap
    && 1 <= b.elemSize
    && AllSized(b.elems, b.elemSize)
    && Fits(b.cap, b.elemSize)
  }

  /** The buffer's handle is current: its block is live in the heap and is
      exactly as large as its header says. A buffer value whose block was
      moved by a reallocation, or freed, no longer holds. */
  predicate Holds(h: Heap, b: Buf)
  {
    && WellFormed(h)
    && b.block in h.blocks
    && h.blocks[b.block] == BlockBytes(b.cap, b.elemSize)
  }

  /** Every block other than the buffer's own is as it was. */
  predicate SameElsewhere(h: Heap, b: Buf, h': Heap, b': Buf)
  {
    h'.blocks - {b'.block} == h.blocks - {b.block}
  }

  /** buf_init(elem_size): allocates a new header-only block and returns an
      empty buffer in it. */
  function Init(elemSize: nat, h: Heap): (s: Step)
    requires 1 <= elemSize <= SIZE_MAX
    requires WellFormed(h)
    ensures Valid(s.buf) && Holds(s.heap, s.buf)
    ensures s.buf.cap == 0 && s.buf.len == 0 && s.buf.elems == []
    ensures s.buf.elemSize == elemSize
    ensures s.buf.block !in h.blocks
    ensures s.heap.blocks == h.blocks[s.buf.block := HEADER_BYTES]
    ensures s.heap.reallocs == h.reallocs
  {
    var a := Malloc(h, HEADER_BYTES);
    Step(Buf(a.id, 0, 0, elemSize, []), a.heap)
  }

  /** buf_cap(content): the capacity read from the header. */
  function Cap(b: Buf): (n: nat)
    requires Valid(b)
    ensures |b.elems| <= n
    ensures BlockBytes(n, b.elemSize) <= SIZE_MAX
  {
    b.cap
  }

  /** buf_len(content): the length read from the header. */
  function Len(b: Buf): (n: nat)
    requires Valid(b)
    ensures n == |b.elems|
    ensures n <= Cap(b)
  {
    b.len
  }

  /** buf_elem_size(content): the element size read from the header. */
  function ElemSize(b: Buf): (n: nat)
    requires Valid(b)
    ensures 1 <= n
    ensures BlockBytes(Cap(b), n) <= SIZE_MAX
    ensures forall i | 0 <= i < |b.elems| :: |b.elems[i]| == n
  {
    b.elemSize
  }

  /** The header read through a current handle describes the live block:
      the block is exactly header plus capacity times element size bytes,
      and every element in use has the element size. */
  lemma HeaderDescribesBlock(b: Buf, h: Heap)
    requires Valid(b) && Holds(h, b)
    ensures h.blocks[b.block] == BlockBytes(Cap(b), ElemSize(b))
    ensures forall i | 0 <= i < Len(b) :: |b.elems[i]| == ElemSize(b)
  {
  }

  /** The capacity buf__grow chooses: at least twice the old capacity, at
      least the requested length, at least the floor, and no more than the
      largest of these three. */
  function GrowCap(cap: nat, newLen: nat): (r: nat)
    ensures r >= 2 * cap && r >= newLen && r >= MIN_CAP
    ensures r == 2 * cap || r == newLen || r == MIN_CAP
  {
    Max(2 * cap, Max(newLen, MIN_CAP))
  }

  /** buf__grow(content, new_len): reallocates the block to hold the header
      and GrowCap(cap, new_len) elements and records the new capacity; the
      length, the element size and the elements in use move with the block,
      and the old handle is no longer valid. When that block is larger than
      a size_t can describe, the request cannot be met and the process
      ends. */
  function Grow(b: Buf, newLen: nat, h: Heap): (r: Result<Step, Fatal>)
    requires Valid(b) && Holds(h, b)
    ensures r.Success? <==> Fits(GrowCap(b.cap, newLen), b.elemSize)
    ensures r.Failure? ==> r.error.bytes == HEADER_BYTES + GrowCap(b.cap, newLen) * b.elemSize
    ensures r.Success? ==>
      var s := r.value;
      && s.buf.cap >= 2 * b.cap && s.buf.cap >= newLen && s.buf.cap >= MIN_CAP
      && (s.buf.cap == 2 * b.cap || s.buf.cap == newLen || s.buf.cap == MIN_CAP)
      && s.buf.len == b.len && s.buf.elemSize == b.elemSize && s.buf.elems == b.elems
      && Valid(s.buf) && Holds(s.heap, s.buf)
      && s.heap.blocks[s.buf.block] == HEADER_BYTES + s.buf.cap * s.buf.elemSize
      && SameElsewhere(h, b, s.heap, s.buf)
      && !Holds(s.heap, b)
      && s.heap.reallocs == h.reallocs + 1
  {
    var newCap := GrowCap(b.cap, newLen);
    if Fits(newCap, b.elemSize) then
      var a := Realloc(h, b.block, BlockBytes(newCap, b.elemSize));
      Success(Step(b.(block := a.id, cap := newCap), a.heap))
    else
      Failure(ReallocFailed(BlockBytes(newCap, b.elemSize)))
  }

  /** buf_fit(content, amount): makes room for amount elements. When the
      capacity already suffices it is a no-op that touches neither the
      buffer nor the heap; otherwise it grows the buffer, which moves it. */
  function Fit(b: Buf, amount: nat, h: Heap): (r: Result<Step, Fatal>)
    requires Valid(b) && Holds(h, b)
    ensures amount <= b.cap ==> r == Success(Step(b, h))
    ensures r.Failure? <==> amount > b.cap && !Fits(GrowCap(b.cap, amount), b.elemSize)
    ensures r.Success? ==>
      var s := r.value;
      && s.buf.cap >= amount && s.buf.cap >= b.cap
      && s.buf.len == b.len && s.buf.elemSize == b.elemSize && s.buf.elems == b.elems
      && Valid(s.buf) && Holds(s.heap, s.buf)
      && SameElsewhere(h, b, s.heap, s.buf)
      && (s.buf.cap != b.cap <==> amount > b.cap)
      && (amount > b.cap ==> s.buf.cap == GrowCap(b.cap, amount) && !Holds(s.heap, b))
      && s.heap.reallocs == h.reallocs + (if amount > b.cap then 1 else 0)
  {
    if amount <= b.cap then Success(Step(b, h)) else Grow(b, amount, h)
  }

  /** buf_push(content, elem): fits the buffer to len + 1 elements, then
      writes elem into slot len and increments len. A full buffer doubles
      its capacity, or goes to the floor of 16 when it is smaller than 8,
      and moves; a buffer with room keeps its block and touches no
      allocator. */
  function Push(b: Buf, x: Elem, h: Heap): (r: Result<Step, Fatal>)
    requires Valid(b) && Holds(h, b) && SizedElem(x, b.elemSize)
    ensures r.Failure? <==> b.len == b.cap && !Fits(Max(2 * b.cap, MIN_CAP), b.elemSize)
    ensures r.Success? ==>
      var s := r.value;
      && Valid(s.buf) && Holds(s.heap, s.buf)
      && s.buf.len == b.len + 1
      && s.buf.elems[b.len] == x
      && s.buf.elems[..b.len] == b.elems
      && s.buf.elemSize == b.elemSize
      && SameElsewhere(h, b, s.heap, s.buf)
      && (b.len < b.cap ==> s.buf.cap == b.cap && s.buf.block == b.block && s.heap == h)
      && (b.len == b.cap ==>
            && s.buf.cap == Max(2 * b.cap, MIN_CAP)
            && !Holds(s.heap, b)
            && s.heap.reallocs == h.reallocs + 1)
  {
    match Fit(b, b.len + 1, h)
    case Failure(e) => Failure(e)
    case Success(s) =>
      Success(Step(s.buf.(len := s.buf.len + 1, elems := s.buf.elems + [x]), s.heap))
  }

  /** buf_free(content): frees the whole block, header included. Afterwards
      the buffer no longer holds, so it can be neither used nor freed
      again. */
  function Release(b: Buf, h: Heap): (h': Heap)
    requires Valid(b) && Holds(h, b)
    ensures WellFormed(h')
    ensures h'.blocks == h.blocks - {b.block}
    ensures |h'.blocks| == |h.blocks| - 1
    ensures !Holds(h', b)
    ensures h'.reallocs == h.reallocs
  {
    Free(h, b.block)
  }

}
