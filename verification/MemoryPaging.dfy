/** Listing the memory page by page. */
module MemoryPaging {
  import opened Workflow
  import opened MemoryLedger
  import opened MemoryCatalog

  const DEFAULT_LIMIT := 50
  const MAX_LIMIT := 100

  datatype Filter = Filter(kind: Option<MemoryType>, state: Option<MemoryState>, sensitivity: Option<Sensitivity>, writer: Option<Writer>)

  datatype Cursor = Cursor(revision: nat, last: RecordId, filter: Filter)

  datatype Page = Page(revision: nat, items: seq<Record>, next: Option<Cursor>) | Denied(code: Code)

  predicate Wanted(r: Record, f: Filter)
  {
    && (f.kind.Some? ==> r.traits.kind == f.kind.value) && (f.state.Some? ==> r.state == f.state.value)
    && (f.sensitivity.Some? ==> r.traits.sensitivity == f.sensitivity.value) && (f.writer.Some? ==> r.traits.writer == f.writer.value)
  }

  predicate Past(r: Record, last: Option<RecordId>) { last.Some? ==> r.id > last.value }

  /** What a listing shows of a record: everything but its content. */
  function Metadata(r: Record): Record { r.(content := "") }

  /** The wanted records past a point, in order. */
  function Matching(records: seq<Record>, f: Filter, last: Option<RecordId>): (m: seq<Record>)
    ensures |m| <= |records|
  {
    if records == [] then []
    else
      var n := |records| - 1;
      Matching(records[..n], f, last) + if Past(records[n], last) && Wanted(records[n], f) then [records[n]] else []
  }

  function Shown(rs: seq<Record>): (items: seq<Record>)
    ensures |items| == |rs| && forall i :: 0 <= i < |rs| ==> items[i] == Metadata(rs[i])
  {
    seq(|rs|, i requires 0 <= i < |rs| => Metadata(rs[i]))
  }

  function LastOf(cursor: Option<Cursor>): Option<RecordId> { if cursor.Some? then Some(cursor.value.last) else None }

  /** The page that a listing returns. */
  function PageOf(revision: nat, records: seq<Record>, f: Filter, cursor: Option<Cursor>, limit: int): Page
  {
    var size := if limit == 0 then DEFAULT_LIMIT else limit;
    if size < 1 || size > MAX_LIMIT || f.writer == Some(Engine) then Denied(Invalid)
    else if cursor.Some? && (cursor.value.revision != revision || cursor.value.filter != f) then Denied(Conflict)
    else
      var matches := Matching(records, f, LastOf(cursor));
      if |matches| <= size then Page(revision, Shown(matches), None)
      else Page(revision, Shown(matches[..size]), Some(Cursor(revision, matches[size - 1].id, f)))
  }

  method Select(records: seq<Record>, f: Filter, last: Option<RecordId>) returns (matches: seq<Record>)
    ensures matches == Matching(records, f, last)
  {
    hide Past, Wanted;
    var i := 0;
    matches := [];
    while i < |records|
      invariant 0 <= i <= |records| && matches == Matching(records[..i], f, last)
    {
      assert records[..i + 1][..i] == records[..i];
      if Past(records[i], last) && Wanted(records[i], f) { matches := matches + [records[i]]; }
      i := i + 1;
    }
    assert records[..i] == records;
  }

  method ListMemory(revision: nat, records: seq<Record>, f: Filter, cursor: Option<Cursor>, limit: int) returns (page: Page)
    ensures page == PageOf(revision, records, f, cursor, limit)
  {
    hide Matching, Metadata, LastOf;
    var size := limit;
    if size == 0 { size := DEFAULT_LIMIT; }
    if size < 1 || size > MAX_LIMIT { return Denied(Invalid); }
    if f.writer == Some(Engine) { return Denied(Invalid); }
    if cursor.Some? && (cursor.value.revision != revision || cursor.value.filter != f) { return Denied(Conflict); }
    var matches := Select(records, f, LastOf(cursor));
    var count := if size < |matches| then size else |matches|;
    var items, j := [], 0;
    while j < count
      invariant 0 <= j <= count && items == Shown(matches[..j])
    {
      assert matches[..j + 1] == matches[..j] + [matches[j]];
      items := items + [Metadata(matches[j])];
      j := j + 1;
    }
    assert matches[..count] == if |matches| <= size then matches else matches[..size];
    if |matches| > count { return Page(revision, items, Some(Cursor(revision, matches[count - 1].id, f))); }
    return Page(revision, items, None);
  }

  // ----- paging loses nothing -----

  lemma {:induction false} MatchingBelow(records: seq<Record>, f: Filter, last: Option<RecordId>, bound: RecordId)
    requires InOrder(records) && forall i :: 0 <= i < |records| ==> records[i].id <= bound
    ensures Matching(records, f, Some(bound)) == []
    ensures forall i :: 0 <= i < |Matching(records, f, last)| ==> Matching(records, f, last)[i].id <= bound
  {
    if records != [] {
      var n := |records| - 1;
      assert forall i :: 0 <= i < n ==> records[..n][i] == records[i];
      MatchingBelow(records[..n], f, last, bound);
    }
  }

  /** The last record comes after every match among the others. */
  lemma LastIsPast(records: seq<Record>, f: Filter, last: Option<RecordId>, k: nat)
    requires InOrder(records) && records != [] && k < |Matching(records[..|records| - 1], f, last)|
    ensures Past(records[|records| - 1], Some(Matching(records[..|records| - 1], f, last)[k].id)) && Past(records[|records| - 1], last)
    ensures InOrder(records[..|records| - 1])
  {
    var n := |records| - 1;
    var rest := records[..n];
    assert forall i :: 0 <= i < n ==> rest[i] == records[i];
    hide Matching;
    MatchingBelow(rest, f, last, records[n].id - 1);
    MatchedPast(rest, f, last, k);
  }

  /** What is past the k-th match is what follows it. */
  lemma {:induction false} PastMatch(records: seq<Record>, f: Filter, last: Option<RecordId>, k: nat)
    requires InOrder(records) && k < |Matching(records, f, last)|
    ensures Matching(records, f, Some(Matching(records, f, last)[k].id)) == Matching(records, f, last)[k + 1..]
  {
    var n := |records| - 1;
    var rest := records[..n];
    var before, all := Matching(rest, f, last), Matching(records, f, last);
    if k < |before| {
      LastIsPast(records, f, last, k);
      PastMatch(rest, f, last, k);
      hide InOrder, Past, Wanted;
      assert all[k] == before[k];
    } else {
      assert all == before + [records[n]];
      MatchingBelow(rest, f, last, records[n].id);
    }
  }

  lemma {:induction false} MatchedPast(records: seq<Record>, f: Filter, last: Option<RecordId>, k: nat)
    requires k < |Matching(records, f, last)|
    ensures Past(Matching(records, f, last)[k], last)
  {
    var n := |records| - 1;
    if k < |Matching(records[..n], f, last)| { MatchedPast(records[..n], f, last, k); }
  }

  /** Follows the cursors, with any limits, and collects what the pages show. */
  ghost function Follow(revision: nat, records: seq<Record>, f: Filter, cursor: Option<Cursor>, limits: seq<int>): (r: (seq<Record>, bool))
    decreases |limits|
  {
    if limits == [] then ([], false)
    else
      var page := PageOf(revision, records, f, cursor, limits[0]);
      if page.Denied? then ([], false)
      else if page.next.None? then (page.items, true)
      else
        var (more, ended) := Follow(revision, records, f, page.next, limits[1..]);
        (page.items + more, ended)
  }

  ghost predicate LimitsOk(limits: seq<int>) { forall i :: 0 <= i < |limits| ==> 0 <= limits[i] <= MAX_LIMIT }

  lemma ShownConcat(a: seq<Record>, b: seq<Record>)
    ensures Shown(a + b) == Shown(a) + Shown(b)
  {
  }

  ghost predicate CursorOk(cursor: Option<Cursor>, revision: nat, f: Filter)
  {
    cursor.Some? ==> cursor.value.revision == revision && cursor.value.filter == f
  }

  /** A page shows the first matches; its cursor stands before the others. */
  lemma PageStep(revision: nat, records: seq<Record>, f: Filter, cursor: Option<Cursor>, limit: int) returns (size: nat)
    requires InOrder(records) && 0 <= limit <= MAX_LIMIT && f.writer != Some(Engine) && CursorOk(cursor, revision, f)
    ensures size > 0
    ensures
      var page, matches := PageOf(revision, records, f, cursor, limit), Matching(records, f, LastOf(cursor));
      && page.Page?
      && (|matches| <= size ==> page.next.None? && page.items == Shown(matches))
      && (|matches| > size ==>
            && page.next.Some? && page.items == Shown(matches[..size]) && CursorOk(page.next, revision, f)
            && Matching(records, f, LastOf(page.next)) == matches[size..])
  {
    size := if limit == 0 then DEFAULT_LIMIT else limit;
    var matches := Matching(records, f, LastOf(cursor));
    if |matches| > size { PastMatch(records, f, LastOf(cursor), size - 1); }
  }

  /** Sequences cut at the same place. */
  lemma Prefixed(head: seq<Record>, items: seq<Record>, rest: seq<Record>)
    requires items <= rest
    ensures head + items <= head + rest
  {
    assert (head + rest)[..|head + items|] == head + rest[..|items|];
  }

  lemma {:induction false} FollowFrom(revision: nat, records: seq<Record>, f: Filter, cursor: Option<Cursor>, limits: seq<int>)
    requires InOrder(records) && LimitsOk(limits) && f.writer != Some(Engine) && CursorOk(cursor, revision, f)
    ensures
      var (items, ended) := Follow(revision, records, f, cursor, limits);
      var all := Shown(Matching(records, f, LastOf(cursor)));
      items <= all && (ended ==> items == all) && (|limits| > |all| ==> ended)
    decreases |limits|
  {
    hide PageOf, Matching, InOrder, LastOf, CursorOk, Shown;
    if limits != [] {
      var size := PageStep(revision, records, f, cursor, limits[0]);
      var matches, page := Matching(records, f, LastOf(cursor)), PageOf(revision, records, f, cursor, limits[0]);
      if |matches| > size {
        FollowFrom(revision, records, f, page.next, limits[1..]);
        assert matches == matches[..size] + matches[size..];
        ShownConcat(matches[..size], matches[size..]);
        Prefixed(page.items, Follow(revision, records, f, page.next, limits[1..]).0, Shown(matches[size..]));
      }
    }
  }

  /** At a fixed revision and filter, following the cursors with any limits shows exactly
      the wanted records, each once and in order, and ends. */
  lemma PagingIsLossless(revision: nat, records: seq<Record>, f: Filter, limits: seq<int>)
    requires InOrder(records) && LimitsOk(limits) && f.writer != Some(Engine) && |limits| > |records|
    ensures Follow(revision, records, f, None, limits) == (Shown(Matching(records, f, None)), true)
  {
    FollowFrom(revision, records, f, None, limits);
  }

  lemma {:induction false} Matched(records: seq<Record>, f: Filter, last: Option<RecordId>, r: Record)
    ensures r in Matching(records, f, last) <==> r in records && Past(r, last) && Wanted(r, f)
  {
    if records != [] {
      var n := |records| - 1;
      Matched(records[..n], f, last, r);
      hide Past, Wanted;
      assert records == records[..n] + [records[n]];
    }
  }

  lemma {:induction false} MatchingInOrder(records: seq<Record>, f: Filter, last: Option<RecordId>)
    requires InOrder(records)
    ensures InOrder(Matching(records, f, last))
  {
    if records != [] {
      var n := |records| - 1;
      var rest := records[..n];
      assert forall i :: 0 <= i < n ==> rest[i] == records[i];
      MatchingInOrder(rest, f, last);
      if n > 0 { MatchingBelow(rest, f, last, records[n].id - 1); }
      hide Past, Wanted;
    }
  }

  /** The wanted records are exactly those of the catalog that the filter accepts, in order. */
  lemma MatchingIsComplete(records: seq<Record>, f: Filter, last: Option<RecordId>)
    requires InOrder(records)
    ensures InOrder(Matching(records, f, last))
    ensures forall r :: r in Matching(records, f, last) <==> r in records && Past(r, last) && Wanted(r, f)
  {
    MatchingInOrder(records, f, last);
    hide *;
    forall r: Record ensures r in Matching(records, f, last) <==> r in records && Past(r, last) && Wanted(r, f) {
      Matched(records, f, last, r);
    }
  }
}
