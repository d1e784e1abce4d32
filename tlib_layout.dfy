/** What the declarations of tlib.h promise about a pool: where each allocation
    record and its payload lie, that records do not overlap, that the chain
    reached from `object_begin` by following `next` is exactly the records in
    order, and how much of the pool a chain occupies. */
module TlibLayout {
  import opened TlibHeader

  datatype Option<T> = None | Some(value: T)

  // ---------------------------------------------------------------------------
  // Placement of one record
  // ---------------------------------------------------------------------------

  /** Records of a laid-out chain come in increasing address order, each one
      entirely before the next: record i's payload ends at or before the header
      of any later record j. */
  lemma {:induction false} RecordsDisjoint(rs: seq<Object>, i: nat, j: nat)
    requires LaidOut(rs)
    requires i < j < |rs|
    ensures PayloadEnd(rs[i]) <= HeaderAddr(rs[j])
    decreases j - i
  {
    if i + 1 < j {
      RecordsDisjoint(rs, i + 1, j);
      assert HeaderAddr(rs[i + 1]) == PayloadEnd(rs[i]);
    }
  }

  /** The layout comment of tlib.h:64-70 for record i of a valid chain: its
      header occupies [offset - OBJECT_SIZE, offset) inside the buffer, the
      payload [offset, offset + size) starts with a whole tensor header and lies
      inside the pool, and the next record's header (which `next` points at)
      begins at offset + size; the tail's `next` is NULL. */
  lemma RecordLayout(rs: seq<Object>, capacity: nat, i: nat)
    requires ChainValid(rs, capacity)
    requires i < |rs|
    ensures 0 <= HeaderAddr(rs[i]) && HeaderAddr(rs[i]) + OBJECT_SIZE == rs[i].offset
    ensures rs[i].offset + TENSOR_SIZE <= PayloadEnd(rs[i]) <= capacity
    ensures i + 1 < |rs| ==> rs[i].next == At(PayloadEnd(rs[i])) && HeaderAddr(rs[i + 1]) == PayloadEnd(rs[i])
    ensures i + 1 == |rs| ==> rs[i].next == Null
  {
    var last := |rs| - 1;
    if i < last {
      RecordsDisjoint(rs, i, last);
      assert PayloadEnd(rs[last]) == FreeOffset(rs);
    }
    if i > 0 {
      assert HeaderAddr(rs[i]) == PayloadEnd(rs[i - 1]);
    }
  }

  // ---------------------------------------------------------------------------
  // Space taken by a chain
  // ---------------------------------------------------------------------------

  /** Bytes taken by the records of `rs`: a header and a payload each. */
  function Footprint(rs: seq<Object>): nat
  {
    if rs == [] then 0 else Footprint(rs[..|rs| - 1]) + OBJECT_SIZE + rs[|rs| - 1].size
  }

  /** Records are packed with no gaps: the first free byte is the sum of the
      headers and payloads of all records before it. */
  lemma {:induction false} FreeOffsetIsFootprint(rs: seq<Object>)
    requires LaidOut(rs)
    ensures FreeOffset(rs) == Footprint(rs)
    decreases |rs|
  {
    if |rs| > 1 {
      var front := rs[..|rs| - 1];
      assert LaidOut(front) by {
        assert forall i :: 0 <= i < |front| ==> front[i] == rs[i];
      }
      FreeOffsetIsFootprint(front);
      assert HeaderAddr(rs[|rs| - 1]) == PayloadEnd(rs[|rs| - 2]);
    } else if |rs| == 1 {
      assert rs[..0] == [];
    }
  }

  /** Every record holds at least a header and a tensor header. */
  lemma {:induction false} FootprintLowerBound(rs: seq<Object>)
    requires forall i :: 0 <= i < |rs| ==> rs[i].size >= TENSOR_SIZE
    ensures Footprint(rs) >= |rs| * (OBJECT_SIZE + TENSOR_SIZE)
    decreases |rs|
  {
    if rs != [] {
      var front := rs[..|rs| - 1];
      assert forall i :: 0 <= i < |front| ==> front[i] == rs[i];
      FootprintLowerBound(front);
    }
  }

  /** The pool bounds the object count: each record costs a record header and a
      tensor header, so n_objects of them fit in mem_size bytes. */
  lemma ObjectCountBound(c: Context)
    requires ContextValid(c)
    ensures c.nObjects * (OBJECT_SIZE + TENSOR_SIZE) <= c.memSize as nat
  {
    FreeOffsetIsFootprint(c.records);
    FootprintLowerBound(c.records);
  }

  /** The context's list ends (tlib.h:54-56): the chain is empty exactly when
      n_objects is 0 and both ends are NULL; otherwise both ends are set and the
      head is the header at buffer start. */
  lemma ContextEnds(c: Context)
    requires ContextValid(c)
    ensures c.records == [] <==> (c.nObjects == 0 && c.objectBegin == Null && c.objectEnd == Null)
    ensures c.records != [] ==> c.objectBegin == At(0) && c.objectEnd.At?
  {
  }

  // ---------------------------------------------------------------------------
  // Following the `next` pointers
  // ---------------------------------------------------------------------------

  /** Index of the first record whose header starts at address `a`. */
  function FindHeader(rs: seq<Object>, a: int): (r: Option<nat>)
    ensures r.Some? ==> r.value < |rs| && HeaderAddr(rs[r.value]) == a
    ensures r.Some? ==> forall k :: 0 <= k < r.value ==> HeaderAddr(rs[k]) != a
    ensures r.None? ==> forall k :: 0 <= k < |rs| ==> HeaderAddr(rs[k]) != a
    decreases |rs|
  {
    if rs == [] then None
    else if HeaderAddr(rs[0]) == a then Some(0)
    else match FindHeader(rs[1..], a)
      case None => None
      case Some(k) => Some(k + 1)
  }

  /** The records reached from pointer `p` by dereferencing it and following
      `next`, for at most `fuel` steps; a pointer to no header ends the walk. */
  function Walk(rs: seq<Object>, p: Ptr, fuel: nat): seq<Object>
    decreases fuel
  {
    if fuel == 0 then []
    else match p
      case Null => []
      case At(a) =>
        match FindHeader(rs, a)
        case None => []
        case Some(i) => [rs[i]] + Walk(rs, rs[i].next, fuel - 1)
  }

  /** In a laid-out chain, the header of record i is found at record i. */
  lemma HeaderFound(rs: seq<Object>, i: nat)
    requires LaidOut(rs)
    requires i < |rs|
    ensures FindHeader(rs, HeaderAddr(rs[i])) == Some(i)
  {
    forall k | 0 <= k < i
      ensures HeaderAddr(rs[k]) < HeaderAddr(rs[i])
    {
      RecordsDisjoint(rs, k, i);
    }
  }

  lemma {:induction false} WalkFrom(rs: seq<Object>, i: nat, fuel: nat)
    requires LaidOut(rs) && Linked(rs)
    requires i < |rs| && fuel >= |rs| - i
    ensures Walk(rs, At(HeaderAddr(rs[i])), fuel) == rs[i..]
    decreases |rs| - i
  {
    HeaderFound(rs, i);
    if i + 1 < |rs| {
      assert rs[i].next == At(HeaderAddr(rs[i + 1]));
      WalkFrom(rs, i + 1, fuel - 1);
      assert rs[i..] == [rs[i]] + rs[i + 1..];
    } else {
      assert rs[i].next == Null;
      assert rs[i..] == [rs[i]];
    }
  }

  /** The list of tlib.h:55-56 is well formed: starting at `object_begin` and
      following `next`, one visits exactly the records in order and reaches NULL
      after n_objects of them, and `object_end` points at the last one. */
  lemma ChainTraversal(c: Context, fuel: nat)
    requires ContextValid(c)
    requires fuel >= c.nObjects
    ensures Walk(c.records, c.objectBegin, fuel) == c.records
    ensures c.records != [] ==> FindHeader(c.records, c.objectEnd.addr) == Some(c.nObjects - 1)
  {
    if c.records != [] {
      WalkFrom(c.records, 0, fuel);
      assert c.records[0..] == c.records;
      HeaderFound(c.records, |c.records| - 1);
    }
  }
}
