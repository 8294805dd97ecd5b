/** The memory catalog as it is stored: records in identity order, found by binary search,
    changed on a copy and committed once the whole catalog has passed its check. */
module MemoryCatalog {
  import opened Workflow
  import opened MemoryLedger

  // ----- records in order, and the map they stand for -----

  ghost predicate InOrder(records: seq<Record>)
  {
    forall i, j :: 0 <= i < j < |records| ==> records[i].id < records[j].id
  }

  ghost predicate Holds(records: seq<Record>, id: RecordId) { exists i :: 0 <= i < |records| && records[i].id == id }

  ghost function ById(records: seq<Record>): map<RecordId, Record>
    requires InOrder(records)
  {
    if records == [] then map[]
    else
      var n := |records| - 1;
      ById(records[..n])[records[n].id := records[n]]
  }

  lemma {:induction false} ByIdHas(records: seq<Record>, id: RecordId)
    requires InOrder(records)
    ensures id in ById(records) <==> Holds(records, id)
    ensures id in ById(records) ==> ById(records)[id].id == id && ById(records)[id] in records
  {
    if records != [] {
      var n := |records| - 1;
      ByIdHas(records[..n], id);
      hide ById;
      if i :| 0 <= i < n && records[..n][i].id == id { assert records[i].id == id; }
      if i :| 0 <= i < |records| && records[i].id == id {
        if i < n { assert records[..n][i].id == id; }
      }
    }
  }

  lemma ByIdMeans(records: seq<Record>)
    requires InOrder(records)
    ensures forall id :: id in ById(records) <==> Holds(records, id)
    ensures forall i :: 0 <= i < |records| ==> records[i].id in ById(records) && ById(records)[records[i].id] == records[i]
    ensures forall id :: id in ById(records) ==> ById(records)[id].id == id
  {
    hide ById;
    forall id: RecordId ensures (id in ById(records) <==> Holds(records, id)) && (id in ById(records) ==> ById(records)[id].id == id) {
      ByIdHas(records, id);
    }
    forall i | 0 <= i < |records| ensures records[i].id in ById(records) && ById(records)[records[i].id] == records[i] {
      ByIdHas(records, records[i].id);
      assert Holds(records, records[i].id);
      var j :| 0 <= j < |records| && records[j] == ById(records)[records[i].id];
    }
  }

  lemma {:induction false} ByIdSize(records: seq<Record>)
    requires InOrder(records)
    ensures |ById(records)| == |records|
  {
    if records != [] {
      var n := |records| - 1;
      ByIdSize(records[..n]);
      ByIdHas(records[..n], records[n].id);
      forall i | 0 <= i < n ensures records[..n][i].id != records[n].id { assert records[i].id < records[n].id; }
      assert ById(records).Keys == ById(records[..n]).Keys + {records[n].id};
    }
  }

  /** An ordered list whose records are exactly those of a map stands for that map. */
  lemma SameMap(records: seq<Record>, m: map<RecordId, Record>)
    requires InOrder(records)
    requires forall i :: 0 <= i < |records| ==> records[i].id in m && m[records[i].id] == records[i]
    requires forall id :: id in m ==> Holds(records, id)
    ensures ById(records) == m
  {
    ByIdMeans(records);
    forall id | id in ById(records) ensures id in m && m[id] == ById(records)[id] {
      var i :| 0 <= i < |records| && records[i].id == id;
    }
  }

  lemma ReplacedAt(records: seq<Record>, i: nat, r: Record)
    requires InOrder(records) && i < |records| && r.id == records[i].id
    ensures InOrder(records[i := r]) && ById(records[i := r]) == ById(records)[r.id := r]
  {
    hide ById;
    var after, m := records[i := r], ById(records)[r.id := r];
    ByIdMeans(records);
    forall j | 0 <= j < |after| ensures after[j].id in m && m[after[j].id] == after[j] {
      if j != i { assert after[j] == records[j] && (j < i || i < j); }
    }
    forall id | id in m ensures Holds(after, id) {
      if id == r.id {
        assert after[i].id == id;
      } else {
        var j :| 0 <= j < |records| && records[j].id == id;
        assert after[j].id == id;
      }
    }
    SameMap(after, m);
  }

  lemma InsertedInOrder(records: seq<Record>, i: nat, r: Record)
    requires InOrder(records) && i <= |records|
    requires (forall j :: 0 <= j < i ==> records[j].id < r.id) && (forall j :: i <= j < |records| ==> r.id < records[j].id)
    ensures InOrder(records[..i] + [r] + records[i..])
  {
    var after := records[..i] + [r] + records[i..];
    forall j, k | 0 <= j < k < |after| ensures after[j].id < after[k].id {
      assert after[j] == (if j < i then records[j] else if j == i then r else records[j - 1]);
      assert after[k] == (if k < i then records[k] else if k == i then r else records[k - 1]);
    }
  }

  lemma InsertedAt(records: seq<Record>, i: nat, r: Record)
    requires InOrder(records) && i <= |records| && r.id !in ById(records)
    requires (forall j :: 0 <= j < i ==> records[j].id < r.id) && (forall j :: i <= j < |records| ==> r.id < records[j].id)
    ensures var after := records[..i] + [r] + records[i..]; InOrder(after) && ById(after) == ById(records)[r.id := r]
  {
    InsertedInOrder(records, i, r);
    ByIdMeans(records);
    hide ById, InOrder;
    var after, m := records[..i] + [r] + records[i..], ById(records)[r.id := r];
    forall j | 0 <= j < |after| ensures after[j].id in m && m[after[j].id] == after[j] { InsertedElement(records, i, r, j); }
    forall id | id in m ensures Holds(after, id) {
      if id == r.id {
        assert after[i].id == id;
      } else {
        InsertedKeeps(records, i, r, id);
      }
    }
    hide Holds;
    SameMap(after, m);
  }

  lemma InsertedKeeps(records: seq<Record>, i: nat, r: Record, id: RecordId)
    requires i <= |records| && Holds(records, id)
    ensures Holds(records[..i] + [r] + records[i..], id)
  {
    var j :| 0 <= j < |records| && records[j].id == id;
    assert (records[..i] + [r] + records[i..])[if j < i then j else j + 1].id == id;
  }

  lemma InsertedElement(records: seq<Record>, i: nat, r: Record, j: nat)
    requires InOrder(records) && i <= |records| && r.id !in ById(records) && j <= |records|
    ensures
      var after, m := records[..i] + [r] + records[i..], ById(records)[r.id := r];
      after[j].id in m && m[after[j].id] == after[j]
  {
    ByIdMeans(records);
    hide ById, InOrder;
    var after := records[..i] + [r] + records[i..];
    if j != i { assert after[j] == records[if j < i then j else j - 1]; }
  }

  /** Binary search for a record, or -1. */
  method FindRecord(records: seq<Record>, id: RecordId) returns (index: int)
    requires InOrder(records)
    ensures -1 <= index < |records|
    ensures index >= 0 ==> records[index].id == id
    ensures index < 0 <==> id !in ById(records)
  {
    var low, high := 0, |records|;
    while low < high
      invariant 0 <= low <= high <= |records|
      invariant forall j :: 0 <= j < low ==> records[j].id < id
      invariant forall j :: high <= j < |records| ==> records[j].id >= id
    {
      var mid := (low + high) / 2;
      if records[mid].id >= id { high := mid; } else { low := mid + 1; }
    }
    ByIdMeans(records);
    if low < |records| && records[low].id == id { return low; }
    return -1;
  }

  /** Adds a record and restores the order. */
  method InsertRecord(records: seq<Record>, r: Record) returns (after: seq<Record>)
    requires InOrder(records) && r.id !in ById(records)
    ensures InOrder(after) && ById(after) == ById(records)[r.id := r]
  {
    var i := 0;
    while i < |records| && records[i].id < r.id
      invariant 0 <= i <= |records|
      invariant forall j :: 0 <= j < i ==> records[j].id < r.id
    {
      i := i + 1;
    }
    ByIdMeans(records);
    InsertedAt(records, i, r);
    after := records[..i] + [r] + records[i..];
  }

  // ----- the operations on a copy of the records -----

  datatype Work = Done(records: seq<Record>, id: RecordId, affected: seq<RecordId>) | Failed(code: Code)

  ghost predicate Agrees(w: Work, c: Change)
  {
    match w
    case Done(records, id, affected) => InOrder(records) && c == Changed(ById(records), id, affected)
    case Failed(code) => c == Refused(code)
  }

  method CreateOn(ids: Identities, records: seq<Record>, m: MutationId, body: Body, now: int) returns (w: Work)
    requires InOrder(records)
    ensures Agrees(w, Apply(ids, ById(records), m, CreateRequest(body), now))
  {
    ByIdSize(records);
    hide ById, RecordOk;
    if |records| >= MAX_RECORDS { return Failed(Conflict); }
    var id := ids(Create, m);
    var index := FindRecord(records, id);
    if index >= 0 { return Failed(Conflict); }
    var record := Build(id, [], body, now);
    if !RecordOk(record) { return Failed(Invalid); }
    var after := InsertRecord(records, record);
    return Done(after, id, []);
  }

  method CheckTargets(records: seq<Record>, targets: seq<RecordId>) returns (fault: Option<Code>)
    requires InOrder(records)
    ensures fault == TargetFault(ById(records), targets)
  {
    hide ById;
    ByIdMeans(records);
    var i := 0;
    while i < |targets|
      invariant 0 <= i <= |targets| && TargetFault(ById(records), targets) == TargetFault(ById(records), targets[i..])
    {
      assert targets[i..][0] == targets[i] && targets[i..][1..] == targets[i + 1..];
      var index := FindRecord(records, targets[i]);
      if index < 0 { return Some(NotFound); }
      if records[index].state != Active { return Some(Conflict); }
      i := i + 1;
    }
    return None;
  }

  lemma RetireStep(records: map<RecordId, Record>, targets: seq<RecordId>, i: nat, now: int)
    requires i < |targets| && Sorted(targets) && targets[i] in records
    ensures RetireAll(records, targets[..i + 1], now) == RetireAll(records, targets[..i], now)[targets[i] := Retire(records[targets[i]], now)]
    ensures targets[i] in RetireAll(records, targets[..i], now) && RetireAll(records, targets[..i], now)[targets[i]] == records[targets[i]]
  {
    assert targets[..i + 1] == targets[..i] + [targets[i]];
    assert targets[i] !in targets[..i];
  }

  lemma NothingRetired(records: map<RecordId, Record>, now: int)
    ensures RetireAll(records, [], now) == records && UseAll(records, [], now) == records
  {
  }

  /** Marks every target as superseded, in place. */
  method RetireTargets(records: seq<Record>, targets: seq<RecordId>, now: int) returns (ok: bool, after: seq<Record>)
    requires InOrder(records) && Sorted(targets) && TargetFault(ById(records), targets).None?
    requires forall id :: id in ById(records) ==> ById(records)[id].id == id
    ensures ok == forall t :: t in targets ==> t in ById(records) && RecordOk(Retire(ById(records)[t], now))
    ensures ok ==> InOrder(after) && ById(after) == RetireAll(ById(records), targets, now)
  {
    hide ById, RecordOk, RetireAll, Sorted;
    NoTargetFault(ById(records), targets);
    after := records;
    var i := 0;
    assert targets[..0] == [];
    NothingRetired(ById(records), now);
    while i < |targets|
      invariant 0 <= i <= |targets| && InOrder(after) && ById(after) == RetireAll(ById(records), targets[..i], now)
      invariant forall t :: t in targets[..i] ==> t in ById(records) && RecordOk(Retire(ById(records)[t], now))
    {
      RetireStep(ById(records), targets, i, now);
      assert targets[i] in targets && targets[..i + 1] == targets[..i] + [targets[i]];
      var index := FindRecord(after, targets[i]);
      ByIdMeans(after);
      var retired := Retire(after[index], now);
      if !RecordOk(retired) { return false, after; }
      ReplacedAt(after, index, retired);
      after := after[index := retired];
      i := i + 1;
    }
    assert targets[..i] == targets;
    ok := true;
  }

  method SupersedeOn(ids: Identities, records: seq<Record>, m: MutationId, targets: seq<RecordId>, body: Body, now: int) returns (w: Work)
    requires InOrder(records) && Sorted(targets) && forall id :: id in ById(records) ==> ById(records)[id].id == id
    ensures Agrees(w, Apply(ids, ById(records), m, SupersedeRequest(targets, body), now))
  {
    ByIdSize(records);
    hide ById, RecordOk, Sorted;
    if |records| >= MAX_RECORDS { return Failed(Conflict); }
    var fault := CheckTargets(records, targets);
    if fault.Some? { return Failed(fault.value); }
    NoTargetFault(ById(records), targets);
    var id := ids(Supersede, m);
    var index := FindRecord(records, id);
    if index >= 0 { return Failed(Conflict); }
    var replacement := Build(id, targets, body, now);
    if !RecordOk(replacement) { return Failed(Invalid); }
    var ok, retired := RetireTargets(records, targets, now);
    if !ok { return Failed(Invalid); }
    assert id !in RetireAll(ById(records), targets, now);
    var after := InsertRecord(retired, replacement);
    return Done(after, id, targets);
  }

  method DeleteOn(ids: Identities, records: seq<Record>, m: MutationId, id: RecordId, writer: Writer, now: int) returns (w: Work)
    requires InOrder(records) && forall id :: id in ById(records) ==> ById(records)[id].id == id
    ensures Agrees(w, Apply(ids, ById(records), m, DeleteRequest(id, writer), now))
  {
    hide ById, RecordOk;
    ByIdMeans(records);
    var index := FindRecord(records, id);
    if index < 0 { return Failed(NotFound); }
    if records[index].state == Deleted { return Failed(Conflict); }
    var buried := Bury(records[index], now);
    if !RecordOk(buried) { return Failed(Invalid); }
    ReplacedAt(records, index, buried);
    return Done(records[index := buried], id, [id]);
  }

  method CheckUses(records: seq<Record>, used: seq<RecordId>, now: int) returns (fault: Option<Code>)
    requires InOrder(records)
    ensures fault == UseFault(ById(records), used, now)
  {
    hide ById;
    ByIdMeans(records);
    var i := 0;
    while i < |used|
      invariant 0 <= i <= |used| && UseFault(ById(records), used, now) == UseFault(ById(records), used[i..], now)
    {
      assert used[i..][0] == used[i] && used[i..][1..] == used[i + 1..];
      var index := FindRecord(records, used[i]);
      if index < 0 { return Some(NotFound); }
      var r := records[index];
      if r.state != Active { return Some(Conflict); }
      if r.expires.Some? && r.expires.value <= now { return Some(Conflict); }
      if r.maxUses > 0 && r.uses >= r.maxUses { return Some(Conflict); }
      i := i + 1;
    }
    return None;
  }

  lemma UseStep(records: map<RecordId, Record>, used: seq<RecordId>, i: nat, now: int)
    requires i < |used| && Sorted(used) && used[i] in records
    ensures UseAll(records, used[..i + 1], now) == UseAll(records, used[..i], now)[used[i] := Use(records[used[i]], now)]
    ensures used[i] in UseAll(records, used[..i], now) && UseAll(records, used[..i], now)[used[i]] == records[used[i]]
  {
    assert used[..i + 1] == used[..i] + [used[i]];
    assert used[i] !in used[..i];
  }

  method ConsumeOn(ids: Identities, records: seq<Record>, m: MutationId, used: seq<RecordId>, now: int) returns (w: Work)
    requires InOrder(records) && Sorted(used) && used != [] && forall id :: id in ById(records) ==> ById(records)[id].id == id
    ensures Agrees(w, Apply(ids, ById(records), m, ConsumeRequest(used), now))
  {
    hide ById, RecordOk, UseAll, Sorted;
    var fault := CheckUses(records, used, now);
    if fault.Some? { return Failed(fault.value); }
    NoUseFault(ById(records), used, now);
    var after, i := records, 0;
    assert used[..0] == [];
    NothingRetired(ById(records), now);
    while i < |used|
      invariant 0 <= i <= |used| && InOrder(after) && ById(after) == UseAll(ById(records), used[..i], now)
    {
      assert used[i] in used;
      UseStep(ById(records), used, i, now);
      var index := FindRecord(after, used[i]);
      ByIdMeans(after);
      var spent := Use(after[index], now);
      ReplacedAt(after, index, spent);
      after := after[index := spent];
      i := i + 1;
    }
    assert used[..i] == used;
    return Done(after, used[0], used[1..]);
  }

  method ApplyOn(ids: Identities, records: seq<Record>, m: MutationId, r: Request, now: int) returns (w: Work)
    requires InOrder(records) && RequestOk(r)
    ensures Agrees(w, Apply(ids, ById(records), m, r, now))
  {
    ByIdMeans(records);
    hide ById, Apply, BodyOk, InOrder;
    match r {
      case CreateRequest(body) => w := CreateOn(ids, records, m, body, now);
      case SupersedeRequest(targets, body) => w := SupersedeOn(ids, records, m, targets, body, now);
      case DeleteRequest(id, writer) => w := DeleteOn(ids, records, m, id, writer, now);
      case ConsumeRequest(used) => w := ConsumeOn(ids, records, m, used, now);
    }
  }

  // ----- the whole-catalog check -----

  ghost predicate ListOk(records: seq<Record>)
  {
    InOrder(records) && |records| <= MAX_RECORDS && forall i :: 0 <= i < |records| ==> RecordOk(records[i])
  }

  lemma ListIsSound(records: seq<Record>)
    requires InOrder(records)
    ensures ListOk(records) <==> |ById(records)| <= MAX_RECORDS && RecordsOk(ById(records))
  {
    ByIdSize(records);
    ByIdMeans(records);
    hide ById, RecordOk;
    if RecordsOk(ById(records)) {
      forall i | 0 <= i < |records| ensures RecordOk(records[i]) { assert RecordOk(ById(records)[records[i].id]); }
    }
    if ListOk(records) {
      forall id | id in ById(records) ensures RecordOk(ById(records)[id]) { var i :| 0 <= i < |records| && records[i].id == id; }
    }
  }

  method CheckRecords(records: seq<Record>) returns (ok: bool)
    ensures ok == ListOk(records)
  {
    hide RecordOk;
    if |records| > MAX_RECORDS { return false; }
    var i := 0;
    while i < |records|
      invariant 0 <= i <= |records|
      invariant forall j :: 0 < j < i ==> records[j - 1].id < records[j].id
      invariant forall j, k :: 0 <= j < k < i ==> records[j].id < records[k].id
      invariant forall j :: 0 <= j < i ==> RecordOk(records[j])
    {
      if i > 0 && records[i].id <= records[i - 1].id { return false; }
      if !RecordOk(records[i]) { return false; }
      i := i + 1;
    }
    ok := true;
  }

  /** One receipt against the records, which are looked up by binary search. */
  method CheckReceipt(revision: nat, records: seq<Record>, receipts: seq<Receipt>, i: nat) returns (ok: bool)
    requires InOrder(records) && i < |receipts|
    ensures ok == ReceiptOk(Ledger(revision, ById(records), receipts), i)
  {
    hide ById;
    ByIdMeans(records);
    var r := receipts[i];
    if !(0 < r.revision <= revision) || (i > 0 && r.revision <= receipts[i - 1].revision) || !Sorted(r.affected) { return false; }
    var index := FindRecord(records, r.id);
    if index < 0 { return false; }
    var j := 0;
    while j < |r.affected|
      invariant 0 <= j <= |r.affected| && forall a :: a in r.affected[..j] ==> a in ById(records)
    {
      assert r.affected[..j + 1] == r.affected[..j] + [r.affected[j]];
      var found := FindRecord(records, r.affected[j]);
      if found < 0 { return false; }
      j := j + 1;
    }
    assert r.affected[..j] == r.affected;
    match r.request {
      case CreateRequest(_) => return r.affected == [];
      case SupersedeRequest(_, _) => return 1 <= |r.affected| <= MAX_SUPERSEDES && records[index].supersedes == r.affected;
      case DeleteRequest(_, _) => return r.affected == [r.id];
      case ConsumeRequest(_) => return |r.affected| < MAX_SELECTED && (r.affected != [] ==> r.id < r.affected[0]);
    }
  }

  method CheckReceipts(revision: nat, records: seq<Record>, receipts: seq<Receipt>) returns (ok: bool)
    requires InOrder(records)
    ensures ok == ReceiptsOk(Ledger(revision, ById(records), receipts))
  {
    hide ById, ReceiptOk;
    ghost var l := Ledger(revision, ById(records), receipts);
    if |receipts| > MAX_RECEIPTS { return false; }
    var seen: set<MutationId>, i := {}, 0;
    while i < |receipts|
      invariant 0 <= i <= |receipts|
      invariant forall m :: m in seen <==> exists j :: 0 <= j < i && receipts[j].mutation == m
      invariant forall j :: 0 <= j < i ==> ReceiptOk(l, j)
      invariant forall j, k :: 0 <= j < k < i ==> receipts[j].mutation != receipts[k].mutation
    {
      ok := CheckReceipt(revision, records, receipts, i);
      if !ok { return false; }
      if receipts[i].mutation in seen { return false; }
      seen, i := seen + {receipts[i].mutation}, i + 1;
    }
    ok := revision > 0 ==> receipts != [] && receipts[|receipts| - 1].revision == revision;
  }

  // ----- the store -----

  class Catalog {
    const ids: Identities
    var revision: nat
    var records: seq<Record>
    var receipts: seq<Receipt>

    ghost predicate Valid()
      reads this
    {
      InOrder(records) && LedgerOk(Contents())
    }

    ghost function Contents(): Ledger
      requires InOrder(records)
      reads this
    {
      Ledger(revision, ById(records), receipts)
    }

    constructor (ids: Identities)
      ensures Valid() && this.ids == ids && Contents() == Ledger(0, map[], [])
    {
      this.ids := ids;
      revision, records, receipts := 0, [], [];
    }

    method FindMutation(m: MutationId) returns (found: Option<Receipt>)
      ensures found == FindReceipt(receipts, m)
    {
      var i := 0;
      while i < |receipts|
        invariant 0 <= i <= |receipts| && FindReceipt(receipts, m) == FindReceipt(receipts[i..], m)
      {
        assert receipts[i..][0] == receipts[i] && receipts[i..][1..] == receipts[i + 1..];
        if receipts[i].mutation == m { return Some(receipts[i]); }
        i := i + 1;
      }
      return None;
    }

    /** Replays a mutation, or has it applied to a copy and commits the copy if it passes. */
    method MutateMemory(m: MutationId, r: Request, now: int) returns (reply: Reply)
      requires Valid()
      modifies this
      ensures Valid() && (Contents(), reply) == Mutate(ids, old(Contents()), m, r, now)
    {
      hide ById, RecordOk, Apply, RequestOk, RecordsOk, ReceiptsOk, InOrder;
      if !RequestOk(r) { return Rejected(Invalid); }
      var found := FindMutation(m);
      if found.Some? {
        if found.value.request != r { return Rejected(Conflict); }
        return Accepted(found.value.revision, found.value.id, found.value.affected, true);
      }
      var w := ApplyOn(ids, records, m, r, now);
      if w.Failed? { return Rejected(w.code); }
      var next := revision + 1;
      var log := receipts + [Receipt(m, r, next, w.id, w.affected)];
      if |log| > MAX_RECEIPTS { log := log[|log| - MAX_RECEIPTS..]; }
      var ok := CheckCatalog(next, w.records, log);
      if !ok { return Rejected(Corrupt); }
      revision, records, receipts := next, w.records, log;
      return Accepted(next, w.id, w.affected, false);
    }

    method CheckCatalog(revision: nat, records: seq<Record>, receipts: seq<Receipt>) returns (ok: bool)
      requires InOrder(records) && revision > 0
      ensures ok == LedgerOk(Ledger(revision, ById(records), receipts))
    {
      ListIsSound(records);
      hide ById, RecordOk, ReceiptOk;
      ok := CheckRecords(records);
      if ok { ok := CheckReceipts(revision, records, receipts); }
    }
  }
}
