/** buf__grow's arithmetic as the C code computes it.

    new_cap is MAX(2 * cap, MAX(new_len, 16)) and the block requested from
    xrealloc is offsetof(Buf, content) + new_cap * elem_size, every
    operation on size_t. Nothing checks these for overflow: when the true
    block size exceeds SIZE_MAX the request wraps to a small number, the
    reallocation succeeds with too few bytes, and the header still records
    new_cap, so later appends write past the end of the block.

    StretchyBuf.Grow is the corrected operation: it asks for the true block
    size, which no allocator can provide when it exceeds SIZE_MAX, so the
    process ends through the fail-fast path instead. */
module GrowOverflow {

  import opened MinMax
  import opened SizeT
  import opened Results
  import opened Allocation
  import opened StretchyBuf

  /** The pair (new_cap, new_size) computed by buf__grow in size_t. */
  function GrowAsWritten(cap: size, newLen: size, elemSize: size): (r: (size, size))
    ensures r.0 >= newLen && r.0 >= MIN_CAP
  {
    var newCap: size := Max(Wrap(2 * cap), Max(newLen, MIN_CAP));
    (newCap, Wrap(HEADER_BYTES + Wrap(newCap * elemSize)))
  }

  /** Whenever the corrected block fits in a size_t, the C arithmetic
      computes exactly the growth law and the true block size. */
  lemma AsWrittenAgreesWhenFits(cap: size, newLen: size, elemSize: size)
    requires Fits(GrowCap(cap, newLen), elemSize)
    ensures GrowAsWritten(cap, newLen, elemSize)
         == (GrowCap(cap, newLen), BlockBytes(GrowCap(cap, newLen), elemSize))
  {
  }

  /** buf_fit(content, 2^61) on a fresh buffer of 8-byte elements: the C
      code records a capacity of 2^61 elements yet requests only the 24
      header bytes, because 2^61 * 8 wraps to 0. */
  lemma AsWrittenUndersizedFit()
    ensures
      var (newCap, newSize) := GrowAsWritten(0, 0x2000_0000_0000_0000, 8);
      && newCap == 0x2000_0000_0000_0000
      && newSize == HEADER_BYTES
      && newSize < BlockBytes(newCap, 8)
  {
  }

  /** The corrected operation on the same call: fitting a fresh buffer of
      8-byte elements to 2^61 elements ends in the fatal path, reporting
      the true block size. */
  lemma CorrectedRejectsUndersizedFit(h: Heap)
    requires WellFormed(h)
    ensures
      var s0 := Init(8, h);
      Fit(s0.buf, 0x2000_0000_0000_0000, s0.heap)
        == Failure(ReallocFailed(HEADER_BYTES + 0x2000_0000_0000_0000 * 8))
  {
  }

  /** The first append to a fresh buffer of 2^60-byte elements: the C code
      records a capacity of 16 elements yet requests only the 24 header
      bytes, because 16 * 2^60 wraps to 0. */
  lemma AsWrittenUndersizedBlock()
    ensures
      var (newCap, newSize) := GrowAsWritten(0, 1, 0x1000_0000_0000_0000);
      && newCap == 16
      && newSize == HEADER_BYTES
      && newSize < BlockBytes(newCap, 0x1000_0000_0000_0000)
  {
  }

  /** The corrected operation on the same input: the first append to a
      fresh buffer of 2^60-byte elements ends in the fatal path, reporting
      the true block size, instead of recording a capacity it does not
      have. */
  lemma CorrectedRejectsUndersizedBlock(x: Elem, h: Heap)
    requires SizedElem(x, 0x1000_0000_0000_0000) && WellFormed(h)
    ensures
      var s0 := Init(0x1000_0000_0000_0000, h);
      Push(s0.buf, x, s0.heap) == Failure(ReallocFailed(HEADER_BYTES + 16 * 0x1000_0000_0000_0000))
  {
  }

}
