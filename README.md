# tlib arena initialisation and data model, in Dafny

tlib is a fixed-capacity memory arena for tensors. One aligned pool is
allocated up front. Every tensor then lives in it behind an allocation
record, and the records form a singly linked list threaded through the pool.
This project models the part of the library whose code is present:

- `tlib_init` (tlib.c): it rounds the requested pool size up to the 4-byte
  alignment in `size_t` arithmetic, asks the aligned allocator for that many
  bytes, and returns an empty context around the buffer.
- The declarations of tlib.h: the constants, the element-type, backend and
  operation enums, the type-size table, and the context, allocation-record and
  tensor-header structs. Each struct gets the well-formedness that its fields
  and comments document.

Three modules, one per concern:

- `TlibHeader` (`tlib_header.dfy`) holds the declarations of tlib.h as
  datatypes and constants. It also has the predicates `LaidOut`, `Linked`,
  `ChainValid`, `ContextValid` and `TensorValid`.
- `TlibLayout` (`tlib_layout.dfy`) holds what the record layout comment
  promises about a pool: where headers and payloads lie, that records do not
  overlap, that records are packed with no gaps, and that following `next`
  from `object_begin` visits exactly the records.
- `TlibInit` (`tlib_init.dfy`) holds `tlib_init`, its rounding, and the
  correction for requests whose rounding wraps.

Modelling choices:

- The `size_t` rounding is computed on `bv64`, so the wrap-around of
  `mem_size + 3` is the real one.
- The `#define` is textual, so the rounding expression is written with the
  literal 4 it expands to.
- `~(4 - 1)` is the `int` -4. Converted to `size_t`, it is the mask with every
  bit but the low two set.
- The allocator `_aligned_malloc` is a function parameter that returns a
  pointer or NULL.
- A failed allocation makes `tlib_init` execute a bare `return;`, which hands
  the caller no context. The model returns `AllocationFailed` instead.
- Record and tensor pointers are addresses relative to the start of the pool,
  as the comment on `offset` fixes it (tlib.h:61).
- The records stored in the pool are the `records` field of the context, in
  list order. The C list lives inside the buffer bytes that this field stands
  for.
- The first record's header is taken to sit at buffer start: the layout
  comment begins with a record header.

Where the header's comments and the code differ, the model follows the code:

- The comment on `mem_buffer` (tlib.h:46) says the pool is allocated
  internally only when the caller passes NULL. `tlib_init` never reads
  `mem_buffer` and always allocates; `InitIgnoresCallerBuffer` states this.
- `tlib_init` does not check that the requested size is positive, so `Init`
  has no precondition. A request of 0 rounds to 0.

## Model

| member | source | states |
|---|---|---|
| `TlibHeader.MemAlignIsPowerOfTwo` | tlib.h:11 | TLIB_MEM_ALIGN is non-zero with a single bit set (it is 1 << 2), so MEM_ALIGN - 1 is the mask of the low bits that the rounding clears |
| `TlibHeader.TypeOrdinal` | tlib.h:19-23 | every element type's enum value is below the sentinel TLIB_TYPE_COUNT |
| `TlibHeader.TypeSize` | tlib.h:29-31 | looking up TLIB_TYPE_SIZE gives a positive byte count, and TLIB_TYPE_F32 maps to sizeof(float) = 4 |
| `TlibHeader.TypeSizeTableTotal` | tlib.h:19-31 | the table has TLIB_TYPE_COUNT = 1 entries and every element type indexes it in bounds |
| `TlibHeader.LaidOut` | tlib.h:59-70 | the layout comment over the chain in list order: the first record's header is at buffer start (a modelling choice: the comment's picture begins with a header), every payload holds at least a tensor header, each following header starts exactly at the previous offset + size, and offset and size fit in size_t |
| `TlibHeader.Linked` | tlib.h:72 | each non-tail record's `next` points at the header that follows its payload, at offset + size; the tail's `next` is NULL |
| `TlibHeader.ChainValid` | tlib.h:59-72 | a chain is laid out, linked, and its first free byte is within the pool's capacity |
| `TlibHeader.ContextValid` | tlib.h:49-57 | the context invariant: n_objects is a non-negative `int` equal to the number of records; object_begin and object_end point at the first and last header, or are both NULL for an empty chain; the chain is valid within mem_size |
| `TlibHeader.TensorValid` | tlib.h:87-105 | a tensor header has n_dims in 1..TLIB_MAX_TENSOR_DIM, both fixed arrays have exactly 4 slots holding `int64_t` counts and `size_t` strides, and the name buffer is TLIB_MAX_NAME = 32 bytes |
| `TlibLayout.RecordsDisjoint` | tlib.h:59-70 | in a laid-out chain, the payload of record i ends at or before the header of every later record j: records never overlap and come in increasing address order |
| `TlibLayout.RecordLayout` | tlib.h:59-70 | record i's header occupies [offset - TLIB_OBJECT_SIZE, offset) at a non-negative address; its payload [offset, offset + size) starts with a whole tensor header and ends inside the pool; a non-tail record's `next` points at `offset + size`, where the next header starts; the tail's `next` is NULL |
| `TlibLayout.FreeOffsetIsFootprint` | tlib.h:64-70 | records are packed with no gaps: the first free byte after the chain equals the sum of all record headers and payloads |
| `TlibLayout.FootprintLowerBound` | tlib.h:62 | a chain of k records whose payloads each hold a tensor header takes at least k * (TLIB_OBJECT_SIZE + TLIB_TENSOR_SIZE) bytes |
| `TlibLayout.ObjectCountBound` | tlib.h:49-57 | in a valid context, n_objects records fit in mem_size: n_objects * (TLIB_OBJECT_SIZE + TLIB_TENSOR_SIZE) <= mem_size |
| `TlibLayout.ContextEnds` | tlib.h:54-56 | the chain is empty exactly when n_objects is 0 and object_begin and object_end are both NULL; when it is not empty, object_begin is the header at buffer start and object_end is set |
| `TlibLayout.Footprint` | tlib.h:62-70 | the bytes a chain takes: one record header plus the payload size per record, summed independently of where the records are placed |
| `TlibLayout.Walk` | tlib.h:72 | following the list: dereference a pointer to a record header, take that record, continue at its `next`, and stop at NULL, at an address with no header, or after the step bound |
| `TlibLayout.FindHeader` | tlib.h:72 | dereferencing a record pointer: the result is the first record whose header is at the given address, or none when no header is there |
| `TlibLayout.HeaderFound` | tlib.h:61-72 | in a laid-out chain, the pointer to record i's header dereferences to record i and not to any other record |
| `TlibLayout.WalkFrom` | tlib.h:72 | following `next` from record i's header visits exactly records i, i+1, ... in order and then stops at NULL |
| `TlibLayout.ChainTraversal` | tlib.h:54-72 | the list is well formed: following `next` from object_begin visits exactly the records in order and reaches NULL after n_objects of them, for any step bound at least n_objects; object_end points at the last record |
| `TlibInit.AlignUp` | tlib.c:9 | the rounded size is always a multiple of 4; when mem_size <= SIZE_MAX - 3 it is at least mem_size and less than mem_size + 4, so it is the least multiple of 4 not below the request; when mem_size + 3 wraps it is 0, below the request |
| `TlibInit.RoundUp` | tlib.c:9 | the independent arithmetic reference for the rounding: n if n is a multiple of 4, else n + (4 - n mod 4), for requests whose rounding does not wrap |
| `TlibInit.Request` | tlib.c:13 | the allocation request tlib_init makes: AlignUp(mem_size) bytes at alignment TLIB_MEM_ALIGN; mem_buffer takes no part |
| `TlibInit.AlignUpBounds` | tlib.c:9 | the literals in AlignUp's contract are TLIB_MEM_ALIGN and SIZE_MAX - (TLIB_MEM_ALIGN - 1) |
| `TlibInit.AlignUpIsRoundUp` | tlib.c:9 | without wrap-around, the bit-mask rounding equals the arithmetic round-up "add 4 - n mod 4 unless n is a multiple of 4" |
| `TlibInit.LowBitsGap` | tlib.c:9 | the distance to the next multiple of 4 is below 4 |
| `TlibInit.AlignUpAddsGap` | tlib.c:9 | without wrap-around, the mask adds exactly the distance from n to the next multiple of 4, as read off the two low bits |
| `TlibInit.RoundUpAddsGap` | tlib.c:9 | the arithmetic round-up adds the same distance |
| `TlibInit.AlignUpFixesMultiples` | tlib.c:9 | a size that is already a multiple of 4 is left unchanged |
| `TlibInit.AlignUpIdempotent` | tlib.c:9 | rounding twice equals rounding once, for every size_t value including the ones that wrap |
| `TlibInit.MaskNeedsPowerOfTwo` | tlib.c:9 | illustration only, not a model of source behaviour (the source never uses alignment 6): the same mask expression with the non-power-of-two alignment 6 rounds 1 to 2, which is not a multiple of 6 |
| `TlibInit.EmptyContext` | tlib.c:22-25 | the compound literal sets only mem_size and mem_buffer; n_objects is 0, both list ends are NULL, and the context satisfies the context invariant |
| `TlibInit.Init` | tlib.c:7-27 | succeeds exactly when the allocator, asked for AlignUp(mem_size) bytes at alignment 4, returns non-NULL; a success context owns that buffer, has capacity AlignUp(mem_size), n_objects 0, both list ends NULL, and is valid; otherwise the result is AllocationFailed with the size that was asked for |
| `TlibInit.InitIgnoresCallerBuffer` | tlib.c:10-13 | two requests that differ only in mem_buffer initialise identically: a caller-supplied buffer is ignored |
| `TlibInit.InitCapacity` | tlib.c:9-23 | a context's capacity is a multiple of 4, and without wrap-around it is the arithmetic round-up of the request |
| `TlibInit.InitWrapsNearSizeMax` | tlib.c:9-26 | a request of SIZE_MAX makes the allocator be asked for 0 bytes; if that allocation succeeds, the context has capacity 0, below the request |
| `TlibInit.InitChecked` | tlib.c:7-27 | refuses exactly the requests above SIZE_MAX - 3 and is tlib_init's result on every other request; a success context is valid, its capacity is a multiple of 4, at least the request and less than 4 above it |
| `TlibInit.InitCheckedCapacity` | tlib.c:9-26 | a success of the checked initialisation is the arithmetic round-up of the request and coincides with tlib_init's result |

## Left out

- `main` (tlib.c:29-41) is left out. It is a demonstration driver that initialises a 16 MiB pool and prints its size.
- The `fprintf` diagnostics (tlib.c:18, 40) are left out because they are console output. This includes the `%d` used for a `size_t` argument.
- `_aligned_malloc` is a foreign Windows allocator, so it is a function parameter. The model sees only whether it returns a block or NULL. The memory itself and the pointer's actual alignment are not modelled.
- `tlib_new_tensor`, `tlib_new_tensor_impl`, `tlib_new_tensor_1d`, `tlib_dup_tensor`, `tlib_add`, `tlib_mul` and `tlib_set_param` (tlib.h:108-141) are only declared, and their bodies are not part of this model. So no operation appends records, fills tensor headers or wires graph links. The chain predicates say what any valid pool looks like, and only `tlib_init` produces one, the empty one.
- The row-major stride rule and trailing element counts of 1 belong to the missing tensor-creation code. `TensorValid` therefore fixes only the field shapes and widths, not stride values.
- Tensor element data (`void *data`, `float` values) is not modelled. This is floating-point payload that nothing in the core computes.
- TLIB_OBJECT_SIZE and TLIB_TENSOR_SIZE are fixed at their 64-bit `sizeof` values, 24 and 160. The layout lemmas rely only on the constants being positive, not on their exact values.
- The `name` buffer is modelled only as 32 characters, with no contents rules. The single-variant `enum tlib_backend` is an opaque tag.
- Pointers to the pool's own records are relative to buffer start. The model does not represent machine addresses of the buffer or pointer casts.
- `AlignUp`: the "least multiple of 4 not below the request" property is stated in 64-bit unsigned arithmetic, under the no-wrap hypothesis where that arithmetic is exact. It is not restated after conversion to mathematical integers.

## Findings

| source | as written | input that shows it | evidently intended | confidence | as-written member | corrected member |
|---|---|---|---|---|---|---|
| tlib.c:9-26 | `mem_size + TLIB_MEM_ALIGN - 1` is `size_t` addition, so it wraps for the three largest requests and the mask then gives 0; no check follows | `mem_size` = SIZE_MAX (or SIZE_MAX - 1, SIZE_MAX - 2): the allocator is asked for 0 bytes, and a non-NULL answer makes a context of capacity 0 | a request whose rounding would overflow is refused, so a returned context never holds less than was asked for | medium; not executed | `TlibInit.InitWrapsNearSizeMax` | `TlibInit.InitChecked` |
