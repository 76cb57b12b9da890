# Stretchy buffer of chess-ai, in Dafny

This project models the type-erased growable array ("stretchy buffer") of
`common.h` in the chess-ai repository, and proves properties of the model.

In C a buffer is a single heap block. The block starts with a header of three
`size_t` fields: `cap`, `len` and `elem_size`. The element payload follows the
header, and callers hold only the payload address. The operations are:

- `buf_init` creates a buffer;
- `buf_cap`, `buf_len` and `buf_elem_size` read the header;
- `buf_fit` makes room for a number of elements;
- `buf__grow` reallocates with the policy `max(2·cap, max(new_len, 16))`;
- `buf_push` appends one element;
- `buf_free` releases the block.

Growth may move the block, so the caller must store the address that growth
returns.

The model is functional:

- `StretchyBuf.Buf` is the header as a record, with the elements in use as a
  sequence. The buffer is type-erased, so each element is just the
  `elem_size` bytes the caller stored.
- Every operation that can reallocate returns the new buffer value.
- The allocation wrappers become an abstract heap, `Allocation.Heap`, which
  is threaded through every call. It maps each live block's identity (its
  address) to its size in bytes and counts reallocation requests.
- Each buffer names its block. A reallocation gives the block a new
  identity, because `realloc` may move it. Freed or replaced identities are
  never reused.
- `StretchyBuf.Holds` says that a buffer's block is live and has the size
  its header describes. A buffer value left over from before a reallocation,
  or after a release, no longer satisfies `Holds`, so no operation accepts
  it.
- Pure reads, no-op fits and appends without growth are stated as leaving
  the heap untouched.
- `size_t` is 64 bits wide, so `offsetof(Buf, content)` is 24 bytes.

Modules:

- `MinMax`: the `MIN`/`MAX` helpers.
- `SizeT`: `size_t` and its modular arithmetic.
- `Results`: the success-or-fatal outcome.
- `Allocation`: the heap ledger.
- `StretchyBuf`: the buffer and its operations.
- `StretchyBufProps`: properties of sequences of operations.
- `GrowOverflow`: `buf__grow`'s arithmetic exactly as written in C.

Several C bodies do not compile as written. The model reads them as follows:

- The undeclared `size` in `buf_init` is the header size, `offsetof(Buf, content)`.
- The parameterless `buf_fit`, `buf_push` and `buf_grow` take the arguments their bodies use.
- `buf_fit` and `buf_push` are declared `void`. Both are read as updating the caller's handle, as a macro would, so `Fit` and `Push` return the possibly moved buffer.
- `buf_fit` calls `buf__grow`, but the function is declared as `buf_grow` returning `void`, although its body returns `new_buf->content`. It is read as `buf__grow` returning the new payload address, which is the buffer `Grow` returns.
- The undeclared `NOP` does nothing.
- `elem_size` and `content` are declared `const` (common.h:172-173), yet `buf_init` writes `elem_size` and `buf_push` writes into `content`. Both writes are taken as intended.
- `content` is a `void*` and cannot be indexed. The write in `buf_push` is read as copying the `elem_size` bytes of `elem` into slot `len`.
- The undeclared `CLAMP_MIN` is "at least", that is `MAX`.

## Model

| member | source | states |
|---|---|---|
| MinMax.Min | common.h:77-82 | `MIN(a, b)` is no larger than either argument and is one of them |
| MinMax.Max | common.h:84-89 | `MAX(a, b)` is no smaller than either argument and is one of them |
| StretchyBuf.Init | common.h:176-185 | a new buffer has `cap == 0`, `len == 0` and no elements; its `elem_size` is the argument; it satisfies the header invariant; exactly one new block, of header size and with a fresh identity, was added to the heap, and nothing was reallocated |
| StretchyBuf.Cap | common.h:193-197 | the capacity read from the header covers every element in use, and the block it describes fits in a `size_t`; with StretchyBuf.HeaderDescribesBlock, it is the capacity of the live block |
| StretchyBuf.Len | common.h:199-203 | the length read from the header is the number of elements in use and is at most the capacity |
| StretchyBuf.ElemSize | common.h:205-209 | the element size read from the header is at least one byte and is the size of every element in use, and header plus capacity times element size fits in a `size_t`; with StretchyBuf.HeaderDescribesBlock, it sizes the live block |
| StretchyBuf.HeaderDescribesBlock | common.h:169-209 | through a current handle, the live block is exactly the header plus `buf_cap · buf_elem_size` bytes, and each of the `buf_len` elements in use has `buf_elem_size` bytes |
| StretchyBuf.GrowCap | common.h:225 | the new capacity is at least `2·cap`, at least `new_len` and at least 16, and it equals one of those three: it is their maximum |
| StretchyBuf.Grow | common.h:223-230 | growth sets `cap` by the doubling-with-floor-16 law and keeps `len`, `elem_size` and every element; exactly one reallocation happens; the block is replaced by one of header plus `new_cap · elem_size` bytes, every other block is untouched, and the pre-growth buffer value no longer holds; the call fails, reporting that byte count, exactly when that block cannot be described by a `size_t` |
| StretchyBuf.Fit | common.h:211-215 | when `amount <= cap` it returns the same buffer and heap, so nothing is allocated; otherwise, on success, `cap >= amount` and `cap` never decreases; the contents are unchanged; the reallocation count rises by one exactly when `amount > cap`; in that case the new capacity is `max(2·cap, max(amount, 16))` and the old buffer value no longer holds; failure happens only when growth was needed and the grown block does not fit |
| StretchyBuf.Push | common.h:217-221 | given an element of `elem_size` bytes: on success `len` is the old `len + 1`, slot `len` holds the element and every earlier slot is unchanged; the invariant holds; a buffer with room keeps its capacity and its heap untouched; a full buffer goes to `max(2·cap, 16)` with one reallocation, and its pre-growth value no longer holds; failure happens exactly when the buffer is full and that block does not fit |
| StretchyBuf.Release | common.h:232-236 | freeing removes exactly the buffer's block, header and payload together, from the live blocks; afterwards the buffer no longer holds, so it can be neither used nor freed again |
| StretchyBufProps.PushAll | common.h:217-221 | N appends, on success: `len` grows by N; the elements are the old ones followed by the appended ones in order; `elem_size` is unchanged; capacity never decreases; the invariant holds; every other block is unchanged; if the buffer moved, its old value no longer holds |
| StretchyBufProps.PushAllAmortised | common.h:217-230 | if the capacity is at most `max(16, 2·len)`, as it is for a fresh buffer, and a block of that bound for the final length fits, then appending never fails and keeps the bound |
| StretchyBufProps.PushesFromInit | common.h:176-230 | after N appends starting from `buf_init`, the appends succeed whenever a block of `max(16, 2·N)` elements fits; then `len == N`, the elements are the appended ones, `cap >= N`, and `elem_size` is the creation argument |
| StretchyBufProps.Lifecycle | common.h:176-236 | create, N appends, then free: exactly the blocks live before are live afterwards, with the same sizes, so nothing leaks; the released buffer no longer holds, so it cannot be freed twice |
| StretchyBufProps.PushAllWithinCapacity | common.h:211-221 | appends that fit within the current capacity leave the capacity and the heap unchanged, so no reallocation happens |
| StretchyBufProps.FitIdempotent | common.h:211-215 | fitting twice to the same amount is the same as fitting once: at most one reallocation |
| StretchyBufProps.FourByteGrowth | common.h:176-230 | with four-byte elements, 16 appends give `cap == 16` after exactly one reallocation (from 0 straight to 16); a 17th append gives `cap == 32` after exactly one more |
| GrowOverflow.GrowAsWritten | common.h:223-230 | with wrap-around `size_t` arithmetic, the C code's `new_cap` still covers `new_len` and the floor of 16 |
| GrowOverflow.AsWrittenAgreesWhenFits | common.h:225-226 | whenever the true block fits in a `size_t`, the C arithmetic computes exactly the growth law and the true block size |
| GrowOverflow.AsWrittenUndersizedFit | common.h:225-228 | with 8-byte elements, `buf_fit(content, 2^61)` on a fresh buffer records `cap == 2^61` in the C code but requests only the 24 header bytes |
| GrowOverflow.CorrectedRejectsUndersizedFit | common.h:211-230 | in the corrected model, the same fit ends on the fatal path and reports the true byte count |
| GrowOverflow.AsWrittenUndersizedBlock | common.h:225-228 | with 2^60-byte elements, the first growth of the C code records `cap == 16` but requests only the 24 header bytes |
| GrowOverflow.CorrectedRejectsUndersizedBlock | common.h:223-230 | in the corrected model, the same first append ends on the fatal path and reports the true byte count |

## Left out

- `fatal` (common.h:55-75) formats a message to stderr and exits. The model keeps only its outcome: a `ReallocFailed` value carrying the requested byte count.
- `xmalloc` and `xrealloc` (common.h:120-134, 153-167) become ledger updates that always succeed for a block a `size_t` can describe. A real allocator that runs out of memory earlier is not modelled, and neither is `errno`.
- `xcalloc` (common.h:136-151) is not used by the buffer, and its body calls `calloc` with an undeclared argument.
- The `TIMED_BLOCK` instrumentation (common.h:91-118) is incomplete, does not compile, and depends on clock timing.
- The address arithmetic of `buf__header` (common.h:187-191) and the byte-level `free` are left out. The header is a field of the buffer value, and blocks are identified abstractly.
- A reallocation is always treated as a move, so the old handle is rejected. When `realloc` keeps the address, using the old handle works in practice, but it is undefined behaviour: section 7.22.3.5 of the C11 standard says `realloc` deallocates the old object.
- The bytes in slots between `len` and `cap` are unspecified in C and are not modelled. The payload is the sequence of the `len` elements in use.
- The compile-time type check in `MIN`/`MAX` (common.h:80-81, 87-88) is left out.
- The attribute and typedef macros (common.h:13-53) and `defs.h`, which holds only constants and the `Board` record, are left out.
- StretchyBuf.Init: requires `elem_size >= 1`. Every C object type has a `sizeof` of at least one. With size 0, `len + 1` in `buf_push` could wrap, and the model does not cover that.
- StretchyBuf.Grow: fails whenever `2·cap` or the block size exceeds `SIZE_MAX`, which is the corrected behaviour described under Findings. The C code instead wraps. With one-byte elements and `cap >= 2^63`, the C code can still grow safely by a single element.

## Findings

| source | as written | input that shows it | evidently intended | confidence | as-written member | corrected member |
|---|---|---|---|---|---|---|
| common.h:225-228 | `new_cap * elem_size` and the header offset are added in `size_t` with no overflow check. The wrapped size goes to `xrealloc`, and `cap` is set to `new_cap` anyway. | a fresh buffer of 8-byte elements, then `buf_fit(content, 1ULL << 61)`: `new_cap = 2^61`, and `2^61 · 8` wraps to 0, so the 24-byte header block is "grown" to 24 bytes while `cap` becomes 2^61. The first `buf_push` onto 2^60-byte elements wraps the same way. | the block holds the header plus `new_cap` elements, or the process ends on the fail-fast path | high for the arithmetic, though it needs a block of more than 2^64 bytes; not executed | GrowOverflow.AsWrittenUndersizedFit | StretchyBuf.Grow |
