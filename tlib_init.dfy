/** Model of `tlib_init` (tlib.c:7-27): round the requested pool size up to the
    alignment, ask the aligned allocator for that many bytes, and build an empty
    context around the buffer it returns. */
module TlibInit {
  import opened TlibHeader
  import opened TlibLayout

  // ---------------------------------------------------------------------------
  // Rounding the pool size (tlib.c:9)
  // ---------------------------------------------------------------------------

  /** The largest request whose rounding does not wrap: SIZE_MAX - (MEM_ALIGN - 1). */
  const MAX_UNWRAPPED: bv64 := 0xFFFF_FFFF_FFFF_FFFC

  /** `(mem_size + TLIB_MEM_ALIGN - 1) & (~(TLIB_MEM_ALIGN - 1))` in `size_t`
      arithmetic. The macro is textual, so the expression is written with the
      literal 4 it expands to; the addition wraps modulo 2^64 like `size_t`, and
      `~(4 - 1)` is the `int` -4, which converts to the `size_t` mask with every
      bit but the low two set.

      The result is always a multiple of 4. Without wrap-around it is the least
      multiple of 4 not below `n`: at least `n` and less than `n + 4`, so no
      multiple of 4 lies in [n, r). When `n + 3` wraps, the result is 0. */
  function AlignUp(n: bv64): (r: bv64)
    ensures r % 4 == 0
    ensures n <= 0xFFFF_FFFF_FFFF_FFFC ==> n <= r && r - n < 4
    ensures n > 0xFFFF_FFFF_FFFF_FFFC ==> r == 0 && r < n
  {
    (n + (4 - 1)) & !(4 - 1)
  }

  /** The same constants as AlignUp's contract, by their names. */
  lemma AlignUpBounds()
    ensures MEM_ALIGN == 4 && MAX_UNWRAPPED == SIZE_MAX - (MEM_ALIGN - 1)
  {
  }

  /** Round `n` up to a multiple of 4 by plain arithmetic, without a bit mask:
      add the distance from `n` to the next multiple unless `n` is one. */
  function RoundUp(n: bv64): bv64
    requires n <= MAX_UNWRAPPED
  {
    if n % 4 == 0 then n else n + (4 - n % 4)
  }

  /** The bit-mask rounding equals the arithmetic one whenever `n + 3` does not
      wrap. */
  lemma AlignUpIsRoundUp(n: bv64)
    requires n <= MAX_UNWRAPPED
    ensures AlignUp(n) == RoundUp(n)
  {
    AlignUpAddsGap(n);
    RoundUpAddsGap(n);
  }

  /** Distance from `n` up to the next multiple of 4, read off its two low bits. */
  function LowBitsGap(n: bv64): (d: bv64)
    ensures d < 4
  {
    var low := n & 3;
    if low == 0 then 0 else 4 - low
  }

  /** The mask adds the gap: one case per value of the two low bits. The four
      cases are separate lemmas because the solver does not finish them within
      its resource budget as one obligation. */
  lemma AlignUpAddsGap(n: bv64)
    requires n <= 0xFFFF_FFFF_FFFF_FFFC
    ensures AlignUp(n) == n + LowBitsGap(n)
  {
    var low := n & 3;
    if low == 0 {
      AlignUpLow0(n);
    } else if low == 1 {
      AlignUpLow1(n);
    } else if low == 2 {
      AlignUpLow2(n);
    } else {
      AlignUpLow3(n);
    }
  }

  lemma AlignUpLow0(n: bv64)
    requires n & 3 == 0
    ensures AlignUp(n) == n + LowBitsGap(n)
  {
  }

  lemma AlignUpLow1(n: bv64)
    requires n & 3 == 1 && n <= 0xFFFF_FFFF_FFFF_FFFC
    ensures AlignUp(n) == n + LowBitsGap(n)
  {
  }

  lemma AlignUpLow2(n: bv64)
    requires n & 3 == 2 && n <= 0xFFFF_FFFF_FFFF_FFFC
    ensures AlignUp(n) == n + LowBitsGap(n)
  {
  }

  lemma AlignUpLow3(n: bv64)
    requires n & 3 == 3 && n <= 0xFFFF_FFFF_FFFF_FFFC
    ensures AlignUp(n) == n + LowBitsGap(n)
  {
  }

  /** The arithmetic round-up adds the same gap. */
  lemma RoundUpAddsGap(n: bv64)
    requires n <= 0xFFFF_FFFF_FFFF_FFFC
    ensures RoundUp(n) == n + LowBitsGap(n)
  {
    assert n % 4 == n & 3;
  }

  /** The rounding leaves a multiple of 4 unchanged. */
  lemma AlignUpFixesMultiples(n: bv64)
    requires n % 4 == 0
    ensures AlignUp(n) == n
  {
  }

  /** Rounding twice is rounding once, on every input including those that wrap. */
  lemma AlignUpIdempotent(n: bv64)
    ensures AlignUp(AlignUp(n)) == AlignUp(n)
  {
    AlignUpFixesMultiples(AlignUp(n));
  }

  /** The mask only rounds correctly for a power-of-two alignment: with the same
      expression and alignment 6, the request 1 becomes 2, which is not a
      multiple of 6. */
  lemma MaskNeedsPowerOfTwo()
    ensures var a: bv64 := 6; (1 + a - 1) & !(a - 1) == 2 && 2 % a != 0
  {
  }

  // ---------------------------------------------------------------------------
  // The allocator and the result of initialisation (tlib.c:10-26)
  // ---------------------------------------------------------------------------

  /** `_aligned_malloc(size, alignment)`: a block of memory or NULL. The model
      only sees which of the two it returns. */
  type Allocator = (bv64, bv64) -> Ptr

  /** Outcome of initialisation. `tlib_init` has no way to report a failed
      allocation (its failure branch is a bare `return;`), so the model makes
      that branch an explicit result. `SizeTooLarge` is produced only by
      InitChecked. */
  datatype InitResult =
    | Initialised(ctx: Context)
    | AllocationFailed(requested: bv64)
    | SizeTooLarge(requested: bv64)

  /** The allocation request tlib_init makes: the rounded size, at alignment 4. */
  function Request(params: InitParams): (bv64, bv64)
  {
    (AlignUp(params.memSize), MEM_ALIGN)
  }

  /** A freshly initialised context over `buffer` with `size` bytes: the
      compound literal at tlib.c:22-25 names only the first two members, so the
      object count is 0 and both list ends are NULL. */
  function EmptyContext(size: bv64, buffer: Ptr): (c: Context)
    ensures ContextValid(c)
    ensures c.memSize == size && c.memBuffer == buffer
    ensures c.nObjects == 0 && c.objectBegin == Null && c.objectEnd == Null
  {
    Context(size, buffer, 0, Null, Null, [])
  }

  /** `tlib_init`, as written. It succeeds exactly when the allocator, asked
      for AlignUp(mem_size) bytes at alignment 4, returns a buffer; the context
      then owns that buffer, has that capacity, an empty chain, and satisfies
      the context invariant. Otherwise it reports the size it asked for. The
      caller's `mem_buffer` is not consulted. */
  function Init(params: InitParams, alloc: Allocator): (r: InitResult)
    ensures var buffer := alloc(AlignUp(params.memSize), MEM_ALIGN);
      && (r.Initialised? <==> buffer != Null)
      && (r.AllocationFailed? <==> buffer == Null)
      && (r.AllocationFailed? ==> r.requested == AlignUp(params.memSize))
      && (r.Initialised? ==>
            && ContextValid(r.ctx)
            && r.ctx.memSize == AlignUp(params.memSize) && r.ctx.memBuffer == buffer
            && r.ctx.nObjects == 0 && r.ctx.objectBegin == Null && r.ctx.objectEnd == Null
            && r.ctx.records == [])
  {
    var (size, align) := Request(params);
    var buffer := alloc(size, align);
    if buffer == Null then AllocationFailed(size)
    else Initialised(EmptyContext(size, buffer))
  }

  /** A buffer supplied by the caller changes nothing: two requests that differ
      only in `mem_buffer` initialise identically. */
  lemma InitIgnoresCallerBuffer(p: InitParams, q: InitParams, alloc: Allocator)
    requires p.memSize == q.memSize
    ensures Init(p, alloc) == Init(q, alloc)
  {
  }

  /** The capacity of a context tlib_init returns: a multiple of 4 and, unless
      the request is within 3 of SIZE_MAX, the least such multiple not below the
      request. */
  lemma InitCapacity(params: InitParams, alloc: Allocator)
    requires Init(params, alloc).Initialised?
    ensures var size := Init(params, alloc).ctx.memSize;
      && size % 4 == 0
      && (params.memSize <= MAX_UNWRAPPED ==> size == RoundUp(params.memSize))
  {
    if params.memSize <= MAX_UNWRAPPED {
      AlignUpIsRoundUp(params.memSize);
    }
  }

  // ---------------------------------------------------------------------------
  // A request within 3 of SIZE_MAX
  // ---------------------------------------------------------------------------

  /** As written, the largest request wraps: tlib_init asks the allocator for 0
      bytes, and if that succeeds it returns a context of capacity 0 although
      SIZE_MAX bytes were requested. */
  lemma InitWrapsNearSizeMax(alloc: Allocator)
    requires alloc(0, 4) != Null
    ensures var r := Init(InitParams(SIZE_MAX, Null), alloc);
      r.Initialised? && r.ctx.memSize == 0 && r.ctx.memSize < SIZE_MAX
  {
  }

  /** Initialisation that refuses a request whose rounding would wrap, and is
      tlib_init otherwise. */
  function InitChecked(params: InitParams, alloc: Allocator): (r: InitResult)
    ensures r.SizeTooLarge? <==> params.memSize > MAX_UNWRAPPED
    ensures params.memSize <= MAX_UNWRAPPED ==> r == Init(params, alloc)
    ensures r.Initialised? ==>
      && ContextValid(r.ctx)
      && params.memSize <= r.ctx.memSize
      && r.ctx.memSize - params.memSize < 4
      && r.ctx.memSize % 4 == 0
  {
    if params.memSize > MAX_UNWRAPPED then SizeTooLarge(params.memSize)
    else Init(params, alloc)
  }

  /** Whenever InitChecked succeeds, its capacity is the arithmetic round-up of
      the request, so it never returns less memory than was asked for. */
  lemma InitCheckedCapacity(params: InitParams, alloc: Allocator)
    requires InitChecked(params, alloc).Initialised?
    ensures InitChecked(params, alloc).ctx.memSize == RoundUp(params.memSize)
    ensures InitChecked(params, alloc) == Init(params, alloc)
  {
    AlignUpIsRoundUp(params.memSize);
  }
}
