/** Properties of sequences of buffer operations: N appends from a fresh
    buffer, the amortised capacity bound, appends that need no
    reallocation, the balance of allocation and release, and the growth
    steps of a buffer of four-byte elements. */
module StretchyBufProps {

  import opened MinMax
  import opened SizeT
  import opened Results
  import opened Allocation
  import opened StretchyBuf

  /** buf_push applied to each element of xs in order, stopping at the
      first fatal allocation failure. */
  function PushAll(b: Buf, xs: seq<Elem>, h: Heap): (r: Result<Step, Fatal>)
    requires Valid(b) && Holds(h, b) && AllSized(xs, b.elemSize)
    ensures r.Success? ==>
      var s := r.value;
      && Valid(s.buf) && Holds(s.heap, s.buf)
      && s.buf.len == b.len + |xs|
      && s.buf.elems == b.elems + xs
      && s.buf.elemSize == b.elemSize
      && s.buf.cap >= b.cap
      && SameElsewhere(h, b, s.heap, s.buf)
      && (s.buf.block != b.block ==> !Holds(s.heap, b))
      && s.heap.reallocs >= h.reallocs
    decreases |xs|
  {
    if xs == [] then Success(Step(b, h))
    else
      match Push(b, xs[0], h)
      case Failure(e) => Failure(e)
      case Success(s) =>
        assert s.buf.elems == b.elems + [xs[0]];
        assert b.elems + [xs[0]] + xs[1..] == b.elems + xs;
        PushAll(s.buf, xs[1..], s.heap)
  }

  /** The capacity is at most twice the length, or the floor of 16: the
      space a buffer wastes is bounded by the space it uses. */
  predicate Amortised(b: Buf)
  {
    b.cap <= Max(MIN_CAP, 2 * b.len)
  }

  /** Multiplying by the same natural number keeps the order. */
  lemma MulMono(a: nat, c: nat, k: nat)
    requires a <= c
    ensures a * k <= c * k
  {
    assert c * k == a * k + (c - a) * k;
  }

  /** A smaller capacity of the same element size fits as well. */
  lemma FitsMono(c0: nat, c1: nat, e: nat)
    requires c0 <= c1 && Fits(c1, e)
    ensures Fits(c0, e)
  {
    MulMono(c0, c1, e);
  }

  /** Appending to a buffer that keeps the amortised bound cannot fail
      while the bound for the final length describes a block that fits,
      and the result keeps the bound. */
  lemma {:induction false} PushAllAmortised(b: Buf, xs: seq<Elem>, h: Heap)
    requires Valid(b) && Holds(h, b) && AllSized(xs, b.elemSize) && Amortised(b)
    requires Fits(Max(MIN_CAP, 2 * (b.len + |xs|)), b.elemSize)
    ensures PushAll(b, xs, h).Success?
    ensures Amortised(PushAll(b, xs, h).value.buf)
    decreases |xs|
  {
    if xs != [] {
      var bound := Max(MIN_CAP, 2 * (b.len + |xs|));
      if b.len == b.cap {
        FitsMono(Max(2 * b.cap, MIN_CAP), bound, b.elemSize);
      }
      var s := Push(b, xs[0], h).value;
      PushAllAmortised(s.buf, xs[1..], s.heap);
    }
  }

  /** N appends to a fresh buffer: the length is N, the elements are the
      ones appended in order, the capacity is at least N, and the element
      size is the one given at creation. A fresh buffer keeps the amortised
      bound, so PushAllAmortised also bounds the capacity by max(16, 2 N). */
  lemma {:induction false} PushesFromInit(elemSize: nat, xs: seq<Elem>, h: Heap)
    requires 1 <= elemSize <= SIZE_MAX && AllSized(xs, elemSize) && WellFormed(h)
    requires Fits(Max(MIN_CAP, 2 * |xs|), elemSize)
    ensures
      var s0 := Init(elemSize, h);
      var r := PushAll(s0.buf, xs, s0.heap);
      && r.Success?
      && r.value.buf.len == |xs|
      && r.value.buf.elems == xs
      && |xs| <= r.value.buf.cap
      && r.value.buf.elemSize == elemSize
  {
    var s0 := Init(elemSize, h);
    PushAllAmortised(s0.buf, xs, s0.heap);
  }

  /** Create, N appends, release: afterwards exactly the blocks that were
      live before are live, with the same sizes, so nothing leaks, and the
      released buffer no longer holds, so it cannot be freed twice. */
  lemma {:induction false} Lifecycle(elemSize: nat, xs: seq<Elem>, h: Heap)
    requires 1 <= elemSize <= SIZE_MAX && AllSized(xs, elemSize) && WellFormed(h)
    requires Fits(Max(MIN_CAP, 2 * |xs|), elemSize)
    ensures
      var s0 := Init(elemSize, h);
      var r := PushAll(s0.buf, xs, s0.heap);
      && r.Success?
      && |r.value.heap.blocks| == |h.blocks| + 1
      && var h' := Release(r.value.buf, r.value.heap);
      && h'.blocks == h.blocks
      && !Holds(h', r.value.buf)
  {
    PushesFromInit(elemSize, xs, h);
    var s0 := Init(elemSize, h);
    var s := PushAll(s0.buf, xs, s0.heap).value;
    assert s0.heap.blocks - {s0.buf.block} == h.blocks;
    assert s.heap.blocks == h.blocks[s.buf.block := s.heap.blocks[s.buf.block]];
  }

  /** Appends that stay within the capacity neither reallocate nor touch
      the heap: the buffer keeps its capacity and only gains elements. */
  lemma {:induction false} PushAllWithinCapacity(b: Buf, xs: seq<Elem>, h: Heap)
    requires Valid(b) && Holds(h, b) && AllSized(xs, b.elemSize) && b.len + |xs| <= b.cap
    ensures PushAll(b, xs, h) == Success(Step(b.(len := b.len + |xs|, elems := b.elems + xs), h))
    decreases |xs|
  {
    if xs != [] {
      var s := Push(b, xs[0], h).value;
      assert s.buf == b.(len := b.len + 1, elems := b.elems + [xs[0]]);
      PushAllWithinCapacity(s.buf, xs[1..], s.heap);
      assert b.elems + [xs[0]] + xs[1..] == b.elems + xs;
    }
  }

  /** buf_fit twice with the same amount reallocates at most once: the
      second call is a no-op. */
  lemma FitIdempotent(b: Buf, amount: nat, h: Heap)
    requires Valid(b) && Holds(h, b) && Fit(b, amount, h).Success?
    ensures
      var s := Fit(b, amount, h).value;
      Fit(s.buf, amount, s.heap) == Success(s)
  {
  }

  /** A buffer of four-byte elements: 16 appends grow it once, from 0
      straight to 16; the 17th grows it once more, to 32. */
  lemma FourByteGrowth(xs: seq<Elem>, h: Heap)
    requires |xs| == 17 && AllSized(xs, 4) && WellFormed(h)
    ensures
      var s0 := Init(4, h);
      var r16 := PushAll(s0.buf, xs[..16], s0.heap);
      && r16.Success?
      && r16.value.buf.cap == 16 && r16.value.buf.len == 16
      && r16.value.heap.reallocs == h.reallocs + 1
      && var r17 := Push(r16.value.buf, xs[16], r16.value.heap);
      && r17.Success?
      && r17.value.buf.cap == 32 && r17.value.buf.len == 17
      && r17.value.heap.reallocs == h.reallocs + 2
  {
    var s0 := Init(4, h);
    var s1 := Push(s0.buf, xs[0], s0.heap).value;
    PushAllWithinCapacity(s1.buf, xs[..16][1..], s1.heap);
  }

}
