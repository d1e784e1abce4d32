/** Model of the declarations in tlib.h: the build constants, the element-type,
    backend and operation enums, the type-size table, and the three structs the
    arena is made of (the context, the allocation record and the tensor header),
    each with the well-formedness its declaration and comments document.

    Widths follow the C declarations: `size_t` fields are `bv64` where the model
    computes on them bit by bit (the context capacity) and naturals that the
    well-formedness predicates bound by 2^64 elsewhere; `int` is 32-bit signed and `int64_t` 64-bit signed.
    Pointers into the pool are buffer-relative addresses, because the record
    comment fixes buffer start as address 0. */
module TlibHeader {

  // ---------------------------------------------------------------------------
  // Machine limits
  // ---------------------------------------------------------------------------

  /** The largest `size_t` value. */
  const SIZE_MAX: bv64 := 0xFFFF_FFFF_FFFF_FFFF
  /** 2^64: every `size_t` value is below it. */
  const SIZE_LIMIT: nat := 0x1_0000_0000_0000_0000
  const INT_MAX: int := 0x7FFF_FFFF
  const INT64_MIN: int := -0x8000_0000_0000_0000
  const INT64_MAX: int := 0x7FFF_FFFF_FFFF_FFFF

  // ---------------------------------------------------------------------------
  // Properties (tlib.h:11-13)
  // ---------------------------------------------------------------------------

  /** Alignment of the pool, in bytes. */
  const MEM_ALIGN: bv64 := 4
  /** Tensors have one to four dimensions. */
  const MAX_TENSOR_DIM: nat := 4
  /** Length of a tensor's name buffer, in bytes. */
  const MAX_NAME: nat := 32

  /** The rounding at tlib.c:9 clears the low bits with the mask ~(MEM_ALIGN - 1);
      that is a round-down to a multiple of MEM_ALIGN only because MEM_ALIGN is a
      power of two: exactly one bit set, so MEM_ALIGN - 1 is the low-bit mask. */
  lemma MemAlignIsPowerOfTwo()
    ensures MEM_ALIGN != 0 && MEM_ALIGN & (MEM_ALIGN - 1) == 0
    ensures MEM_ALIGN == 1 << 2 && MEM_ALIGN - 1 == 3
  {
  }

  // ---------------------------------------------------------------------------
  // Types, backends and the type-size table (tlib.h:19-31)
  // ---------------------------------------------------------------------------

  /** `enum tlib_types` without its counting sentinel TLIB_TYPE_COUNT. */
  datatype ElemType = TypeF32

  /** TLIB_TYPE_COUNT: the sentinel that follows the last element type. */
  const TYPE_COUNT: nat := 1

  /** The enum value C assigns to each element type (declaration order, from 0). */
  function TypeOrdinal(t: ElemType): (k: nat)
    ensures k < TYPE_COUNT
  {
    match t
    case TypeF32 => 0
  }

  /** `sizeof(float)` for the IEEE-754 single-precision `float` of the targets
      the source is written for. */
  const SIZEOF_FLOAT: nat := 4

  /** TLIB_TYPE_SIZE, indexed by TypeOrdinal. */
  const TYPE_SIZE: seq<nat> := [SIZEOF_FLOAT]

  /** Bytes per element of type `t`: the table lookup TLIB_TYPE_SIZE[t]. */
  function TypeSize(t: ElemType): (s: nat)
    ensures s > 0
    ensures t == TypeF32 ==> s == SIZEOF_FLOAT
  {
    TYPE_SIZE[TypeOrdinal(t)]
  }

  /** The table has one entry per element type, so every lookup is in bounds. */
  lemma TypeSizeTableTotal()
    ensures |TYPE_SIZE| == TYPE_COUNT
    ensures forall t: ElemType :: TypeOrdinal(t) < |TYPE_SIZE|
  {
  }

  /** `enum tlib_backend`: a single variant. */
  datatype Backend = BackendCpu

  /** `enum tlib_ops`. */
  datatype Op = OpNone | OpAdd | OpMul

  // ---------------------------------------------------------------------------
  // Pointers
  // ---------------------------------------------------------------------------

  /** A C pointer: NULL, or an address. Addresses of records and tensors are
      buffer-relative; the address of the pool itself is an opaque handle that
      comes from the allocator. */
  datatype Ptr = Null | At(addr: int)

  // ---------------------------------------------------------------------------
  // Initialisation parameters (tlib.h:37-47)
  // ---------------------------------------------------------------------------

  /** `struct tlib_init_params`: requested pool size and an optional buffer. */
  datatype InitParams = InitParams(memSize: bv64, memBuffer: Ptr)

  // ---------------------------------------------------------------------------
  // Allocation records (tlib.h:59-74)
  // ---------------------------------------------------------------------------

  /** TLIB_OBJECT_SIZE, `sizeof(struct tlib_object)`: two `size_t` and one
      pointer on a 64-bit target. The layout lemmas use only that it is positive. */
  const OBJECT_SIZE: nat := 24

  /** TLIB_TENSOR_SIZE, `sizeof(struct tlib_tensor)` on a 64-bit target.
      The layout lemmas use only that it is positive. */
  const TENSOR_SIZE: nat := 160

  /** `struct tlib_object`: the payload starts at `offset` (absolute, buffer
      start is 0) and is `size` bytes long; `next` links the chain. */
  datatype Object = Object(offset: nat, size: nat, next: Ptr)

  /** Address of the record header, which sits immediately before its payload. */
  function HeaderAddr(o: Object): int
  {
    o.offset - OBJECT_SIZE
  }

  /** One past the payload: the position marked `next` in the layout comment. */
  function PayloadEnd(o: Object): nat
  {
    o.offset + o.size
  }

  /** The layout comment of tlib.h:64-70, over a chain of records in list order:
      the first header at buffer start, each payload large enough for a tensor
      header, each following header exactly where the previous payload ends, and
      `offset` and `size` within `size_t`. */
  predicate LaidOut(rs: seq<Object>)
  {
    && (|rs| > 0 ==> rs[0].offset == OBJECT_SIZE)
    && (forall i :: 0 <= i < |rs| ==> TENSOR_SIZE <= rs[i].size < SIZE_LIMIT && rs[i].offset < SIZE_LIMIT)
    && (forall i :: 0 < i < |rs| ==> HeaderAddr(rs[i]) == PayloadEnd(rs[i - 1]))
  }

  /** The `next` fields: each record points at the header that follows its payload,
      and the tail points nowhere. */
  predicate Linked(rs: seq<Object>)
  {
    && (forall i :: 0 <= i < |rs| - 1 ==> rs[i].next == At(PayloadEnd(rs[i])))
    && (|rs| > 0 ==> rs[|rs| - 1].next == Null)
  }

  /** First byte after the chain: where the next record's header would go. */
  function FreeOffset(rs: seq<Object>): nat
  {
    if rs == [] then 0 else PayloadEnd(rs[|rs| - 1])
  }

  /** A chain that is laid out, linked, and fits in a pool of `capacity` bytes. */
  predicate ChainValid(rs: seq<Object>, capacity: nat)
  {
    LaidOut(rs) && Linked(rs) && FreeOffset(rs) <= capacity
  }

  // ---------------------------------------------------------------------------
  // The context (tlib.h:49-57)
  // ---------------------------------------------------------------------------

  /** `struct tlib_context`. `records` is the content of the pool as far as the
      chain is concerned: the allocation records written into the buffer, in
      list order. */
  datatype Context = Context(
    memSize: bv64,
    memBuffer: Ptr,
    nObjects: int,
    objectBegin: Ptr,
    objectEnd: Ptr,
    records: seq<Object>)

  /** Pointer to the header of the first record, NULL for an empty chain. */
  function HeadPtr(rs: seq<Object>): Ptr
  {
    if rs == [] then Null else At(HeaderAddr(rs[0]))
  }

  /** Pointer to the header of the last record, NULL for an empty chain. */
  function TailPtr(rs: seq<Object>): Ptr
  {
    if rs == [] then Null else At(HeaderAddr(rs[|rs| - 1]))
  }

  /** The context's invariant (tlib.h:54-56): `n_objects` counts the records,
      `object_begin` and `object_end` point at the first and last header, and the
      chain fits in the pool. */
  predicate ContextValid(c: Context)
  {
    && 0 <= c.nObjects <= INT_MAX
    && c.nObjects == |c.records|
    && c.objectBegin == HeadPtr(c.records)
    && c.objectEnd == TailPtr(c.records)
    && ChainValid(c.records, c.memSize as nat)
  }

  // ---------------------------------------------------------------------------
  // Tensor headers (tlib.h:87-106)
  // ---------------------------------------------------------------------------

  /** `struct tlib_tensor`. `nElements` and `nBytes` are its two fixed arrays of
      MAX_TENSOR_DIM slots; `grad`, `src0`, `src1` and `data` are pointers. */
  datatype Tensor = Tensor(
    nDims: int,
    nElements: seq<int>,
    nBytes: seq<nat>,
    grad: Ptr,
    src0: Ptr,
    src1: Ptr,
    isParam: bool,
    data: Ptr,
    elemType: ElemType,
    backend: Backend,
    op: Op,
    name: seq<char>)

  /** What the declaration fixes: one to four dimensions in use, both arrays
      exactly four slots of their C types, and a 32-byte name buffer. */
  predicate TensorValid(t: Tensor)
  {
    && 1 <= t.nDims <= MAX_TENSOR_DIM
    && |t.nElements| == MAX_TENSOR_DIM
    && |t.nBytes| == MAX_TENSOR_DIM
    && (forall d :: 0 <= d < |t.nElements| ==> INT64_MIN <= t.nElements[d] <= INT64_MAX)
    && (forall d :: 0 <= d < |t.nBytes| ==> t.nBytes[d] < SIZE_LIMIT)
    && |t.name| == MAX_NAME
  }
}
