/** What holds over every history of a project's memory. */
module MemoryHistory {
  import opened Workflow
  import opened MemoryLedger

  // ----- the check after a change -----

  /** Changing records keeps identities, and what a record supersedes. */
  ghost predicate Grows(a: map<RecordId, Record>, b: map<RecordId, Record>)
  {
    forall id :: id in a ==> id in b && b[id].supersedes == a[id].supersedes && b[id].created == a[id].created && b[id].maxUses == a[id].maxUses
  }

  lemma ChangeGrows(ids: Identities, records: map<RecordId, Record>, m: MutationId, r: Request, now: int)
    requires Apply(ids, records, m, r, now).Changed?
    ensures Grows(records, Apply(ids, records, m, r, now).records)
  {
  }

  lemma ChangeSize(ids: Identities, records: map<RecordId, Record>, m: MutationId, r: Request, now: int)
    requires Apply(ids, records, m, r, now).Changed? && |records| <= MAX_RECORDS
    ensures |Apply(ids, records, m, r, now).records| <= MAX_RECORDS
  {
    var c := Apply(ids, records, m, r, now);
    match r
    case CreateRequest(_) =>
      assert c.records.Keys == records.Keys + {c.id};
      assert |c.records.Keys| == |records.Keys| + 1;
    case SupersedeRequest(targets, _) =>
      assert c.records.Keys == records.Keys + {c.id};
      assert |c.records.Keys| == |records.Keys| + 1;
    case DeleteRequest(_, _) => assert c.records.Keys == records.Keys;
    case ConsumeRequest(used) => assert c.records.Keys == records.Keys;
  }

  /** A change keeps every record sound, except that a use before a record's creation
      dates its update before its creation. */
  lemma ChangeRecords(ids: Identities, l: Ledger, m: MutationId, r: Request, now: int)
    requires LedgerOk(l) && RequestOk(r) && Apply(ids, l.records, m, r, now).Changed?
    ensures
      var records := Apply(ids, l.records, m, r, now).records;
      (forall id :: id in records ==> records[id].id == id && RecordOk(records[id]))
        <==> (r.ConsumeRequest? ==> forall id :: id in r.ids ==> id in l.records && l.records[id].created <= now)
  {
    hide ReceiptOk;
    var records := Apply(ids, l.records, m, r, now).records;
    match r
    case CreateRequest(_) =>
    case SupersedeRequest(targets, _) => NoTargetFault(l.records, targets);
    case DeleteRequest(_, _) =>
    case ConsumeRequest(used) =>
      NoUseFault(l.records, used, now);
      forall id | id in used ensures RecordOk(records[id]) <==> l.records[id].created <= now { assert RecordOk(l.records[id]); }
      forall id | id in records && id !in used ensures RecordOk(records[id]) { assert RecordOk(l.records[id]); }
  }

  ghost function Appended(l: Ledger, m: MutationId, r: Request, c: Change): Ledger
    requires c.Changed?
  {
    Ledger(l.revision + 1, c.records, l.receipts + [Receipt(m, r, l.revision + 1, c.id, c.affected)])
  }

  lemma OldReceiptsOk(l: Ledger, m: MutationId, r: Request, c: Change, i: nat)
    requires ReceiptsOk(l) && c.Changed? && Grows(l.records, c.records) && i < |l.receipts|
    ensures ReceiptOk(Appended(l, m, r, c), i)
  {
    var after := Appended(l, m, r, c);
    assert ReceiptOk(l, i) && after.receipts[i] == l.receipts[i];
    if i > 0 { assert after.receipts[i - 1] == l.receipts[i - 1]; }
  }

  /** The new receipt fits the change it records. */
  lemma NewReceiptOk(ids: Identities, l: Ledger, m: MutationId, r: Request, now: int)
    requires LedgerOk(l) && RequestOk(r) && Apply(ids, l.records, m, r, now).Changed?
    ensures ReceiptOk(Appended(l, m, r, Apply(ids, l.records, m, r, now)), |l.receipts|)
  {
    hide RecordOk;
    var n := |l.receipts|;
    var after := Appended(l, m, r, Apply(ids, l.records, m, r, now));
    if n > 0 { assert ReceiptOk(l, n - 1) && after.receipts[n - 1] == l.receipts[n - 1]; }
    match r
    case CreateRequest(_) =>
    case SupersedeRequest(targets, _) => NoTargetFault(l.records, targets);
    case DeleteRequest(_, _) =>
    case ConsumeRequest(used) => NoUseFault(l.records, used, now);
  }

  /** Forgetting the oldest receipts keeps the rest sound. */
  lemma WindowOk(l: Ledger, after: Ledger)
    requires after == l.(receipts := Window(l.receipts)) && l.receipts != []
    requires forall i :: 0 <= i < |l.receipts| ==> ReceiptOk(l, i)
    requires forall i, j :: 0 <= i < j < |l.receipts| ==> l.receipts[i].mutation != l.receipts[j].mutation
    requires l.receipts[|l.receipts| - 1].revision == l.revision
    ensures ReceiptsOk(after)
  {
    var k := |l.receipts| - |after.receipts|;
    forall i | 0 <= i < |after.receipts| ensures ReceiptOk(after, i) {
      assert ReceiptOk(l, k + i) && after.receipts[i] == l.receipts[k + i];
      if i > 0 { assert after.receipts[i - 1] == l.receipts[k + i - 1]; }
    }
    forall i, j | 0 <= i < j < |after.receipts| ensures after.receipts[i].mutation != after.receipts[j].mutation {
      assert after.receipts[i] == l.receipts[k + i] && after.receipts[j] == l.receipts[k + j];
    }
    assert after.receipts[|after.receipts| - 1] == l.receipts[|l.receipts| - 1];
  }

  lemma ProposedReceiptsOk(ids: Identities, l: Ledger, m: MutationId, r: Request, now: int)
    requires LedgerOk(l) && RequestOk(r) && FindReceipt(l.receipts, m).None? && Apply(ids, l.records, m, r, now).Changed?
    ensures ReceiptsOk(Proposed(l, m, r, Apply(ids, l.records, m, r, now)))
  {
    hide RecordOk, ReceiptOk;
    var c := Apply(ids, l.records, m, r, now);
    ChangeGrows(ids, l.records, m, r, now);
    hide Apply, Grows;
    var after := Appended(l, m, r, c);
    forall i | 0 <= i < |after.receipts| ensures ReceiptOk(after, i) {
      if i < |l.receipts| { OldReceiptsOk(l, m, r, c, i); } else { NewReceiptOk(ids, l, m, r, now); }
    }
    FindReceiptMeans(l.receipts, m);
    WindowOk(after, Proposed(l, m, r, c));
  }

  /** The check after a change fails exactly when a record is used at a time before its
      own creation. */
  lemma CheckFailsOnlyForEarlyUse(ids: Identities, l: Ledger, m: MutationId, r: Request, now: int)
    requires LedgerOk(l) && RequestOk(r) && FindReceipt(l.receipts, m).None? && Apply(ids, l.records, m, r, now).Changed?
    ensures LedgerOk(Proposed(l, m, r, Apply(ids, l.records, m, r, now))) <==>
              (r.ConsumeRequest? ==> forall id :: id in r.ids ==> id in l.records && l.records[id].created <= now)
  {
    hide RecordOk, Apply, ReceiptsOk;
    ChangeSize(ids, l.records, m, r, now);
    ChangeRecords(ids, l, m, r, now);
    ProposedReceiptsOk(ids, l, m, r, now);
  }

  // ----- the log -----

  /** One accepted mutation; entry i made revision i + 1. */
  datatype Entry = Entry(mutation: MutationId, request: Request, id: RecordId)

  datatype Memory = Memory(ledger: Ledger, log: seq<Entry>)

  datatype Event = Event(mutation: MutationId, request: Request, now: int)

  ghost function Next(ids: Identities, s: Memory, e: Event): Memory
  {
    var (after, reply) := Mutate(ids, s.ledger, e.mutation, e.request, e.now);
    if reply.Accepted? && !reply.replayed then Memory(after, s.log + [Entry(e.mutation, e.request, reply.id)]) else s
  }

  ghost function Reached(ids: Identities, events: seq<Event>): Memory
  {
    if events == [] then Memory(Ledger(0, map[], []), [])
    else Next(ids, Reached(ids, events[..|events| - 1]), events[|events| - 1])
  }

  predicate Names(e: Entry, id: RecordId) { e.request.ConsumeRequest? && id in e.request.ids }

  /** How many accepted uses name a record. */
  function Uses(log: seq<Entry>, id: RecordId): nat
  {
    if log == [] then 0 else Uses(log[..|log| - 1], id) + if Names(log[|log| - 1], id) then 1 else 0
  }

  predicate Makes(e: Entry) { e.request.CreateRequest? || e.request.SupersedeRequest? }

  function TargetsOf(e: Entry): seq<RecordId> { if e.request.SupersedeRequest? then e.request.targets else [] }

  /** The receipts are the log's last entries. */
  ghost predicate ReceiptsMatch(l: Ledger, log: seq<Entry>)
  {
    && |log| == l.revision && |l.receipts| == (if |log| <= MAX_RECEIPTS then |log| else MAX_RECEIPTS)
    && forall j :: 0 <= j < |l.receipts| ==>
         var e := log[|log| - |l.receipts| + j];
         l.receipts[j].mutation == e.mutation && l.receipts[j].request == e.request
  }

  /** Every record was made by one entry, whose targets it supersedes. */
  ghost predicate BirthsOk(ids: Identities, records: map<RecordId, Record>, log: seq<Entry>)
  {
    && (forall i :: 0 <= i < |log| && Makes(log[i]) ==>
          log[i].id == ids(OpOf(log[i].request), log[i].mutation) && log[i].id in records && records[log[i].id].supersedes == TargetsOf(log[i]))
    && (forall i, j :: 0 <= i < j < |log| && Makes(log[i]) && Makes(log[j]) ==> log[i].id != log[j].id)
    && (forall id :: id in records ==> exists i :: 0 <= i < |log| && Makes(log[i]) && log[i].id == id)
  }

  ghost predicate UsesOk(records: map<RecordId, Record>, log: seq<Entry>)
  {
    forall id :: id in records ==> records[id].uses == Uses(log, id)
  }

  /** A superseded record was superseded once, after it was made, and is not active. */
  ghost predicate SupersedesOk(records: map<RecordId, Record>, log: seq<Entry>)
  {
    && (forall i, t :: 0 <= i < |log| && t in TargetsOf(log[i]) ==> t in records && records[t].state != Active && MadeBefore(log, t, i))
    && (forall i, j, t :: 0 <= i < j < |log| && t in TargetsOf(log[i]) ==> t !in TargetsOf(log[j]))
  }

  ghost predicate MadeBefore(log: seq<Entry>, id: RecordId, n: nat)
  {
    exists i :: 0 <= i < n && i < |log| && Makes(log[i]) && log[i].id == id
  }

  /** A deleted record was deleted once. */
  ghost predicate DeletesOk(records: map<RecordId, Record>, log: seq<Entry>)
  {
    && (forall i :: 0 <= i < |log| && log[i].request.DeleteRequest? ==>
          log[i].request.id in records && records[log[i].request.id].state == Deleted)
    && (forall i, j :: 0 <= i < j < |log| && log[i].request.DeleteRequest? && log[j].request.DeleteRequest? ==>
          log[i].request.id != log[j].request.id)
  }

  ghost predicate HistoryOk(ids: Identities, s: Memory)
  {
    && LedgerOk(s.ledger) && ReceiptsMatch(s.ledger, s.log) && BirthsOk(ids, s.ledger.records, s.log)
    && UsesOk(s.ledger.records, s.log) && UsesKnown(s.ledger.records, s.log) && SupersedesOk(s.ledger.records, s.log) && DeletesOk(s.ledger.records, s.log)
  }

  // ----- one accepted mutation -----

  lemma ReceiptsStay(ids: Identities, s: Memory, e: Event, c: Change)
    requires ReceiptsMatch(s.ledger, s.log) && c.Changed?
    ensures ReceiptsMatch(Proposed(s.ledger, e.mutation, e.request, c), s.log + [Entry(e.mutation, e.request, c.id)])
  {
  }

  lemma UsesStep(log: seq<Entry>, e: Entry, id: RecordId)
    ensures Uses(log + [e], id) == Uses(log, id) + if Names(e, id) then 1 else 0
  {
    assert (log + [e])[..|log|] == log;
  }

  lemma {:induction false} NeverUsed(records: map<RecordId, Record>, log: seq<Entry>, id: RecordId)
    requires id !in records && forall i :: 0 <= i < |log| && Names(log[i], id) ==> id in records
    ensures Uses(log, id) == 0
  {
    if log != [] {
      var n := |log| - 1;
      assert forall i :: 0 <= i < n ==> log[..n][i] == log[i];
      NeverUsed(records, log[..n], id);
    }
  }

  /** What an accepted change means for the records. */
  ghost predicate Effect(ids: Identities, records: map<RecordId, Record>, after: map<RecordId, Record>, e: Entry)
  {
    && (if Makes(e) then
          && e.id == ids(OpOf(e.request), e.mutation) && e.id !in records && after.Keys == records.Keys + {e.id}
          && after[e.id].supersedes == TargetsOf(e) && after[e.id].state == Active && after[e.id].uses == 0
        else after.Keys == records.Keys)
    && (forall id :: id in records && id in after ==> Step(records[id], after[id], e))
    && (forall t :: t in TargetsOf(e) ==> t in records && records[t].state == Active)
    && (e.request.DeleteRequest? ==> e.id == e.request.id && e.id in records && records[e.id].state != Deleted)
    && (forall id :: Names(e, id) ==> id in records)
  }

  /** What an entry does to a record that was there before. */
  ghost predicate Step(a: Record, b: Record, e: Entry)
  {
    && b.supersedes == a.supersedes && b.created == a.created && b.id == a.id && b.maxUses == a.maxUses
    && b.uses == a.uses + (if Names(e, a.id) then 1 else 0)
    && b.state == (if a.id in TargetsOf(e) then Superseded else if e.request.DeleteRequest? && e.request.id == a.id then Deleted else a.state)
  }

  lemma CreatingHasEffect(ids: Identities, records: map<RecordId, Record>, m: MutationId, r: Request, now: int)
    requires RecordsOk(records) && Apply(ids, records, m, r, now).Changed? && r.CreateRequest?
    ensures var c := Apply(ids, records, m, r, now); Effect(ids, records, c.records, Entry(m, r, c.id))
  {
    hide RecordOk;
  }

  lemma SupersedingHasEffect(ids: Identities, records: map<RecordId, Record>, m: MutationId, r: Request, now: int)
    requires RecordsOk(records) && Apply(ids, records, m, r, now).Changed? && r.SupersedeRequest?
    ensures var c := Apply(ids, records, m, r, now); Effect(ids, records, c.records, Entry(m, r, c.id))
  {
    hide RecordOk, TargetFault, RequestOk, Step, RecordsOk;
    NoTargetFault(records, r.targets);
    forall id | id in records ensures Step(records[id], Apply(ids, records, m, r, now).records[id], Entry(m, r, Apply(ids, records, m, r, now).id)) {
      SupersedingSteps(ids, records, m, r, now, id);
    }
  }

  lemma SupersedingSteps(ids: Identities, records: map<RecordId, Record>, m: MutationId, r: Request, now: int, id: RecordId)
    requires RecordsOk(records) && Apply(ids, records, m, r, now).Changed? && r.SupersedeRequest? && id in records
    ensures var c := Apply(ids, records, m, r, now); id in c.records && Step(records[id], c.records[id], Entry(m, r, c.id))
  {
    hide RecordOk, TargetFault;
  }

  lemma DeletingHasEffect(ids: Identities, records: map<RecordId, Record>, m: MutationId, r: Request, now: int)
    requires RecordsOk(records) && Apply(ids, records, m, r, now).Changed? && r.DeleteRequest?
    ensures var c := Apply(ids, records, m, r, now); Effect(ids, records, c.records, Entry(m, r, c.id))
  {
    hide RecordOk;
  }

  lemma UsingHasEffect(ids: Identities, records: map<RecordId, Record>, m: MutationId, r: Request, now: int)
    requires RecordsOk(records) && Apply(ids, records, m, r, now).Changed? && r.ConsumeRequest?
    ensures var c := Apply(ids, records, m, r, now); Effect(ids, records, c.records, Entry(m, r, c.id))
  {
    hide RecordOk;
    NoUseFault(records, r.ids, now);
  }

  lemma ChangeHasEffect(ids: Identities, records: map<RecordId, Record>, m: MutationId, r: Request, now: int)
    requires RecordsOk(records) && RequestOk(r) && Apply(ids, records, m, r, now).Changed?
    ensures var c := Apply(ids, records, m, r, now); Effect(ids, records, c.records, Entry(m, r, c.id))
  {
    hide RecordsOk, RequestOk, Apply, Effect;
    match r
    case CreateRequest(_) => CreatingHasEffect(ids, records, m, r, now);
    case SupersedeRequest(_, _) => SupersedingHasEffect(ids, records, m, r, now);
    case DeleteRequest(_, _) => DeletingHasEffect(ids, records, m, r, now);
    case ConsumeRequest(_) => UsingHasEffect(ids, records, m, r, now);
  }

  // ----- the log's invariants -----

  lemma BirthsStep(ids: Identities, records: map<RecordId, Record>, after: map<RecordId, Record>, log: seq<Entry>, e: Entry)
    requires BirthsOk(ids, records, log) && Effect(ids, records, after, e)
    ensures BirthsOk(ids, after, log + [e])
  {
    var more := log + [e];
    forall i | 0 <= i < |more| && Makes(more[i])
      ensures more[i].id == ids(OpOf(more[i].request), more[i].mutation) && more[i].id in after && after[more[i].id].supersedes == TargetsOf(more[i])
    {
      if i < |log| { assert more[i] == log[i] && log[i].id in records && Step(records[log[i].id], after[log[i].id], e); }
    }
    forall i, j | 0 <= i < j < |more| && Makes(more[i]) && Makes(more[j]) ensures more[i].id != more[j].id {
      assert more[i] == log[i];
    }
    forall id | id in after ensures exists i :: 0 <= i < |more| && Makes(more[i]) && more[i].id == id {
      if id in records {
        var i :| 0 <= i < |log| && Makes(log[i]) && log[i].id == id;
        assert more[i] == log[i];
      } else {
        assert more[|log|] == e;
      }
    }
  }

  ghost predicate UsesKnown(records: map<RecordId, Record>, log: seq<Entry>)
  {
    forall i, id :: 0 <= i < |log| && Names(log[i], id) ==> id in records
  }

  lemma UsesStepOk(ids: Identities, records: map<RecordId, Record>, after: map<RecordId, Record>, log: seq<Entry>, e: Entry)
    requires UsesOk(records, log) && UsesKnown(records, log) && RecordsOk(records) && Effect(ids, records, after, e)
    ensures UsesOk(after, log + [e]) && UsesKnown(after, log + [e])
  {
    forall id | id in after ensures after[id].uses == Uses(log + [e], id) {
      UsesStep(log, e, id);
      if id in records { assert Step(records[id], after[id], e); } else { NeverUsed(records, log, id); }
    }
  }

  lemma TargetStep(ids: Identities, records: map<RecordId, Record>, after: map<RecordId, Record>, log: seq<Entry>, e: Entry, i: nat, t: RecordId)
    requires SupersedesOk(records, log) && BirthsOk(ids, records, log) && RecordsOk(records) && Effect(ids, records, after, e)
    requires i <= |log| && t in TargetsOf((log + [e])[i])
    ensures t in after && after[t].state != Active && MadeBefore(log + [e], t, i)
  {
    hide RecordOk;
    var more := log + [e];
    if i < |log| {
      assert more[i] == log[i] && MadeBefore(log, t, i);
      var j :| 0 <= j < i && j < |log| && Makes(log[j]) && log[j].id == t;
      assert more[j] == log[j];
    } else {
      var j :| 0 <= j < |log| && Makes(log[j]) && log[j].id == t;
      assert more[j] == log[j];
    }
    assert t in records && Step(records[t], after[t], e);
  }

  lemma TargetOnce(ids: Identities, records: map<RecordId, Record>, after: map<RecordId, Record>, log: seq<Entry>, e: Entry, i: nat, j: nat, t: RecordId)
    requires SupersedesOk(records, log) && Effect(ids, records, after, e)
    requires i < j <= |log| && t in TargetsOf((log + [e])[i])
    ensures t !in TargetsOf((log + [e])[j])
  {
    hide MadeBefore, Step;
    var more := log + [e];
    assert more[i] == log[i];
    if j < |log| { assert more[j] == log[j]; }
  }

  lemma SupersedesStep(ids: Identities, records: map<RecordId, Record>, after: map<RecordId, Record>, log: seq<Entry>, e: Entry)
    requires SupersedesOk(records, log) && BirthsOk(ids, records, log) && RecordsOk(records) && Effect(ids, records, after, e)
    ensures SupersedesOk(after, log + [e])
  {
    hide BirthsOk, RecordsOk, Effect, MadeBefore;
    var more := log + [e];
    forall i, t | 0 <= i < |more| && t in TargetsOf(more[i]) ensures t in after && after[t].state != Active && MadeBefore(more, t, i) {
      TargetStep(ids, records, after, log, e, i, t);
    }
    forall i, j, t | 0 <= i < j < |more| && t in TargetsOf(more[i]) ensures t !in TargetsOf(more[j]) {
      TargetOnce(ids, records, after, log, e, i, j, t);
    }
  }

  lemma DeletesStep(ids: Identities, records: map<RecordId, Record>, after: map<RecordId, Record>, log: seq<Entry>, e: Entry)
    requires DeletesOk(records, log) && RecordsOk(records) && Effect(ids, records, after, e)
    ensures DeletesOk(after, log + [e])
  {
    var more := log + [e];
    forall i | 0 <= i < |more| && more[i].request.DeleteRequest?
      ensures more[i].request.id in after && after[more[i].request.id].state == Deleted
    {
      var id := more[i].request.id;
      assert id in records by { if i < |log| { assert more[i] == log[i]; } }
      assert Step(records[id], after[id], e);
      if i < |log| { assert more[i] == log[i]; }
    }
    forall i, j | 0 <= i < j < |more| && more[i].request.DeleteRequest? && more[j].request.DeleteRequest?
      ensures more[i].request.id != more[j].request.id
    {
      assert more[i] == log[i];
      if j < |log| { assert more[j] == log[j]; }
    }
  }

  /** The log and the records stay in step. */
  lemma LogStep(ids: Identities, s: Memory, e: Event)
    requires HistoryOk(ids, s) && RequestOk(e.request) && Apply(ids, s.ledger.records, e.mutation, e.request, e.now).Changed?
    requires LedgerOk(Proposed(s.ledger, e.mutation, e.request, Apply(ids, s.ledger.records, e.mutation, e.request, e.now)))
    ensures
      var c := Apply(ids, s.ledger.records, e.mutation, e.request, e.now);
      HistoryOk(ids, Memory(Proposed(s.ledger, e.mutation, e.request, c), s.log + [Entry(e.mutation, e.request, c.id)]))
  {
    var records := s.ledger.records;
    var c := Apply(ids, records, e.mutation, e.request, e.now);
    var entry := Entry(e.mutation, e.request, c.id);
    hide Apply, Effect, BirthsOk, UsesOk, UsesKnown, SupersedesOk, DeletesOk, ReceiptsMatch, RecordsOk, ReceiptsOk, RequestOk;
    ChangeHasEffect(ids, records, e.mutation, e.request, e.now);
    ReceiptsStay(ids, s, e, c);
    BirthsStep(ids, records, c.records, s.log, entry);
    UsesStepOk(ids, records, c.records, s.log, entry);
    SupersedesStep(ids, records, c.records, s.log, entry);
    DeletesStep(ids, records, c.records, s.log, entry);
  }

  lemma NextOk(ids: Identities, s: Memory, e: Event)
    requires HistoryOk(ids, s)
    ensures HistoryOk(ids, Next(ids, s, e))
  {
    hide HistoryOk, LedgerOk, RequestOk, Apply, Proposed;
    var (after, reply) := Mutate(ids, s.ledger, e.mutation, e.request, e.now);
    if reply.Accepted? && !reply.replayed { LogStep(ids, s, e); }
  }

  lemma {:induction false} ReachedOk(ids: Identities, events: seq<Event>)
    ensures HistoryOk(ids, Reached(ids, events))
  {
    if events != [] {
      ReachedOk(ids, events[..|events| - 1]);
      NextOk(ids, Reached(ids, events[..|events| - 1]), events[|events| - 1]);
    }
  }

  // ----- guarantees -----

  /** A record's use count is the number of accepted uses that name it, and a positive
      limit is never passed. */
  lemma UsesAreConserved(ids: Identities, events: seq<Event>, id: RecordId)
    requires id in Reached(ids, events).ledger.records
    ensures
      var s := Reached(ids, events);
      s.ledger.records[id].uses == Uses(s.log, id) && (s.ledger.records[id].maxUses > 0 ==> Uses(s.log, id) <= s.ledger.records[id].maxUses)
  {
    ReachedOk(ids, events);
    assert RecordOk(Reached(ids, events).ledger.records[id]);
  }

  function Standing(state: MemoryState): nat
  {
    match state
    case Active => 0
    case Superseded => 1
    case Deleted => 2
  }

  /** No record is ever removed, and its state only moves on: from active to superseded or
      deleted, and from superseded to deleted. */
  lemma StatesMoveOn(ids: Identities, events: seq<Event>, e: Event, id: RecordId)
    requires id in Reached(ids, events).ledger.records
    ensures
      var s, t := Reached(ids, events), Next(ids, Reached(ids, events), e);
      id in t.ledger.records && Standing(s.ledger.records[id].state) <= Standing(t.ledger.records[id].state)
      && t.ledger.records[id].supersedes == s.ledger.records[id].supersedes
  {
    ReachedOk(ids, events);
    hide BirthsOk, UsesOk, UsesKnown, SupersedesOk, DeletesOk, ReceiptsMatch, ReceiptsOk;
    var s := Reached(ids, events);
    var (after, reply) := Mutate(ids, s.ledger, e.mutation, e.request, e.now);
    if reply.Accepted? && !reply.replayed {
      ChangeHasEffect(ids, s.ledger.records, e.mutation, e.request, e.now);
      EffectMovesOn(ids, s.ledger.records, after.records, Entry(e.mutation, e.request, reply.id), id);
    }
  }

  lemma EffectMovesOn(ids: Identities, records: map<RecordId, Record>, after: map<RecordId, Record>, e: Entry, id: RecordId)
    requires Effect(ids, records, after, e) && RecordsOk(records) && id in records
    ensures id in after && Standing(records[id].state) <= Standing(after[id].state) && after[id].supersedes == records[id].supersedes
  {
    assert Step(records[id], after[id], e);
  }

  /** When a record was made, as a revision. */
  ghost function MadeAt(log: seq<Entry>, id: RecordId): nat
    requires exists i :: 0 <= i < |log| && Makes(log[i]) && log[i].id == id
  {
    var i :| 0 <= i < |log| && Makes(log[i]) && log[i].id == id;
    i + 1
  }

  /** Supersession is a forest: a record is superseded by at most one other, which was made
      at a later revision, and whatever is superseded exists and is no longer active. */
  lemma SupersessionIsForest(ids: Identities, events: seq<Event>, x: RecordId, y: RecordId, z: RecordId)
    requires var records := Reached(ids, events).ledger.records; y in records && z in records && x in records[y].supersedes
    ensures
      var s := Reached(ids, events);
      var records := s.ledger.records;
      && x in records && records[x].state != Active && (x in records[z].supersedes ==> y == z)
      && (exists i :: 0 <= i < |s.log| && Makes(s.log[i]) && s.log[i].id == x)
      && (exists i :: 0 <= i < |s.log| && Makes(s.log[i]) && s.log[i].id == y)
      && MadeAt(s.log, x) < MadeAt(s.log, y)
  {
    hide LedgerOk, UsesOk, UsesKnown, DeletesOk, ReceiptsMatch, Reached, MadeAt, TargetsOf, OpOf;
    ReachedOk(ids, events);
    var s := Reached(ids, events);
    var j := BornAt(ids, s, y);
    var k := BornAt(ids, s, z);
    assert x in TargetsOf(s.log[j]) && MadeBefore(s.log, x, j);
    var i :| 0 <= i < j && Makes(s.log[i]) && s.log[i].id == x;
    if x in s.ledger.records[z].supersedes { assert x in TargetsOf(s.log[k]); }
    MadeOnce(ids, s, x, i);
    MadeOnce(ids, s, y, j);
  }

  lemma BornAt(ids: Identities, s: Memory, id: RecordId) returns (i: nat)
    requires BirthsOk(ids, s.ledger.records, s.log) && id in s.ledger.records
    ensures i < |s.log| && Makes(s.log[i]) && s.log[i].id == id && s.ledger.records[id].supersedes == TargetsOf(s.log[i])
  {
    i :| 0 <= i < |s.log| && Makes(s.log[i]) && s.log[i].id == id;
  }

  lemma MadeOnce(ids: Identities, s: Memory, id: RecordId, i: nat)
    requires BirthsOk(ids, s.ledger.records, s.log) && i < |s.log| && Makes(s.log[i]) && s.log[i].id == id
    ensures (exists j :: 0 <= j < |s.log| && Makes(s.log[j]) && s.log[j].id == id) && MadeAt(s.log, id) == i + 1
  {
    var j := MadeAt(s.log, id) - 1;
    assert 0 <= j < |s.log| && Makes(s.log[j]) && s.log[j].id == id;
  }

  /** A mutation identity makes at most one record by each operation, however long ago, for
      the record it made is still there. */
  lemma MakingHappensOnce(ids: Identities, events: seq<Event>, i: nat, j: nat)
    requires var log := Reached(ids, events).log; i < |log| && j < |log| && Makes(log[i]) && Makes(log[j])
    requires var log := Reached(ids, events).log;
             log[i].mutation == log[j].mutation && OpOf(log[i].request) == OpOf(log[j].request)
    ensures i == j
  {
    hide LedgerOk, UsesOk, UsesKnown, SupersedesOk, DeletesOk, ReceiptsMatch, Reached;
    ReachedOk(ids, events);
    var s := Reached(ids, events);
    assert s.log[i].id == s.log[j].id;
  }

  /** A deletion takes effect once for each record: a second one is refused. */
  lemma DeletingHappensOnce(ids: Identities, events: seq<Event>, i: nat, j: nat)
    requires var log := Reached(ids, events).log; i < |log| && j < |log| && log[i].request.DeleteRequest? && log[j].request.DeleteRequest?
    requires var log := Reached(ids, events).log; log[i].request.id == log[j].request.id
    ensures i == j
  {
    ReachedOk(ids, events);
    var s := Reached(ids, events);
  }

  /** While its receipt is within the window, any mutation is only replayed, with the answer
      it was given; a different request under the same identity is refused. */
  lemma RecentMutationReplays(ids: Identities, events: seq<Event>, i: nat, e: Event)
    requires var log := Reached(ids, events).log; i < |log| && |log| - i <= MAX_RECEIPTS && log[i].mutation == e.mutation && RequestOk(e.request)
    ensures
      var s := Reached(ids, events);
      var (after, reply) := Mutate(ids, s.ledger, e.mutation, e.request, e.now);
      after == s.ledger && if e.request == s.log[i].request then reply.Accepted? && reply.replayed else reply == Rejected(Conflict)
  {
    ReachedOk(ids, events);
    var s := Reached(ids, events);
    hide RecordsOk, BirthsOk, UsesOk, UsesKnown, SupersedesOk, DeletesOk, ReceiptOk;
    var receipts := s.ledger.receipts;
    var j := i - (|s.log| - |receipts|);
    assert receipts[j].mutation == e.mutation && receipts[j].request == s.log[i].request;
    FindReceiptMeans(receipts, e.mutation);
    var k :| 0 <= k < |receipts| && receipts[k] == FindReceipt(receipts, e.mutation).value;
    assert k == j;
  }

  /** An accepted mutation that is new, step by step. */
  lemma AcceptedNext(ids: Identities, s: Memory, e: Event)
    requires HistoryOk(ids, s) && RequestOk(e.request) && FindReceipt(s.ledger.receipts, e.mutation).None?
    requires Apply(ids, s.ledger.records, e.mutation, e.request, e.now).Changed?
    requires e.request.ConsumeRequest? ==> forall id :: id in e.request.ids ==> id in s.ledger.records && s.ledger.records[id].created <= e.now
    ensures
      var c := Apply(ids, s.ledger.records, e.mutation, e.request, e.now);
      HistoryOk(ids, Next(ids, s, e))
      && Next(ids, s, e) == Memory(Proposed(s.ledger, e.mutation, e.request, c), s.log + [Entry(e.mutation, e.request, c.id)])
  {
    hide BirthsOk, UsesOk, UsesKnown, SupersedesOk, DeletesOk, ReceiptsMatch, RecordsOk, ReceiptsOk;
    NextOk(ids, s, e);
    CheckFailsOnlyForEarlyUse(ids, s.ledger, e.mutation, e.request, e.now);
  }

  // ----- the check over histories -----

  /** A use of records that could all be used, at a time before one of them was made. */
  ghost predicate EarlyUse(l: Ledger, e: Event)
  {
    && RequestOk(e.request) && FindReceipt(l.receipts, e.mutation).None? && e.request.ConsumeRequest?
    && (forall id :: id in e.request.ids ==> id in l.records && Usable(l.records[id], e.now))
    && exists id :: id in e.request.ids && l.records[id].created > e.now
  }

  /** In every reachable catalog, a mutation is answered as corrupt exactly when it is an
      early use. */
  lemma CorruptMeansEarlyUse(ids: Identities, events: seq<Event>, e: Event)
    ensures
      var l := Reached(ids, events).ledger;
      Mutate(ids, l, e.mutation, e.request, e.now).1 == Rejected(Corrupt) <==> EarlyUse(l, e)
  {
    hide LedgerOk, HistoryOk, Reached, RecordOk, BodyOk, Sorted;
    var l := Reached(ids, events).ledger;
    ReachedOk(ids, events);
    HistoryIsSound(ids, Reached(ids, events));
    if RequestOk(e.request) && FindReceipt(l.receipts, e.mutation).None? {
      if Apply(ids, l.records, e.mutation, e.request, e.now).Changed? { CheckFailsOnlyForEarlyUse(ids, l, e.mutation, e.request, e.now); }
      if e.request.ConsumeRequest? { NoUseFault(l.records, e.request.ids, e.now); }
      NeverCorruptItself(ids, l.records, e);
    }
  }

  lemma HistoryIsSound(ids: Identities, s: Memory)
    requires HistoryOk(ids, s)
    ensures LedgerOk(s.ledger)
  {
  }

  lemma {:induction false} FaultCodes(records: map<RecordId, Record>, targets: seq<RecordId>, now: int)
    ensures TargetFault(records, targets) in {None, Some(NotFound), Some(Conflict)}
    ensures UseFault(records, targets, now) in {None, Some(NotFound), Some(Conflict)}
  {
    if targets != [] { FaultCodes(records, targets[1..], now); }
  }

  lemma NeverCorruptItself(ids: Identities, records: map<RecordId, Record>, e: Event)
    ensures Apply(ids, records, e.mutation, e.request, e.now) != Refused(Corrupt)
  {
    match e.request
    case SupersedeRequest(targets, _) => FaultCodes(records, targets, e.now);
    case ConsumeRequest(used) => FaultCodes(records, used, e.now);
    case _ =>
  }

  /** The clock that the mutations read does not go back. */
  predicate Forward(events: seq<Event>) { forall i, j :: 0 <= i < j < |events| ==> events[i].now <= events[j].now }

  lemma MadeNow(ids: Identities, s: Memory, e: Event, id: RecordId)
    requires id in Next(ids, s, e).ledger.records
    ensures
      var after := Next(ids, s, e).ledger.records;
      if id in s.ledger.records then after[id].created == s.ledger.records[id].created else after[id].created == e.now
  {
    hide RequestOk, RecordOk, LedgerOk;
    var c := Apply(ids, s.ledger.records, e.mutation, e.request, e.now);
    if c.Changed? { ChangeGrows(ids, s.ledger.records, e.mutation, e.request, e.now); }
  }

  /** Every record was made by an event that happened. */
  lemma {:induction false} MadeInThePast(ids: Identities, events: seq<Event>, id: RecordId)
    requires id in Reached(ids, events).ledger.records
    ensures exists i :: 0 <= i < |events| && Reached(ids, events).ledger.records[id].created == events[i].now
    decreases |events|
  {
    hide Next;
    var n := |events| - 1;
    var before := Reached(ids, events[..n]);
    MadeNow(ids, before, events[n], id);
    if id in before.ledger.records {
      MadeInThePast(ids, events[..n], id);
      var i :| 0 <= i < n && before.ledger.records[id].created == events[..n][i].now;
      assert events[..n][i] == events[i];
    }
  }

  /** With a clock that does not go back, no mutation of any history is answered as corrupt. */
  lemma NeverCorrupt(ids: Identities, events: seq<Event>, e: Event)
    requires Forward(events + [e])
    ensures Mutate(ids, Reached(ids, events).ledger, e.mutation, e.request, e.now).1 != Rejected(Corrupt)
  {
    hide Mutate, Reached, RequestOk, Usable;
    var l := Reached(ids, events).ledger;
    forall i | 0 <= i < |events| ensures events[i].now <= e.now {
      assert (events + [e])[i] == events[i] && (events + [e])[|events|] == e;
    }
    CorruptMeansEarlyUse(ids, events, e);
    forall id | id in l.records ensures l.records[id].created <= e.now { MadeInThePast(ids, events, id); }
  }

  // ----- a deletion identity used twice -----

  const IDENTITIES: Identities := (o, m) => 2 * m + if o == Create then 0 else 1

  const NOTE := Body(Traits(Fact, Public, User), "note", None, 0)

  function NewNote(id: RecordId): Record { Build(id, [], NOTE, 0) }

  /** Two notes, the first one deleted by mutation 3, and then n uses of the second. */
  ghost predicate AfterUses(s: Memory, n: nat)
  {
    && HistoryOk(IDENTITIES, s) && |s.log| == 3 + n && s.log[2] == Entry(3, DeleteRequest(2, User), 2)
    && (forall i :: 0 <= i < |s.log| ==> s.log[i].mutation == i + 1)
    && s.ledger.records == map[2 := Bury(NewNote(2), 0), 4 := NewNote(4).(uses := n)]
  }

  lemma Unbound(s: Memory, m: MutationId)
    requires HistoryOk(IDENTITIES, s)
    requires forall i :: |s.log| - |s.ledger.receipts| <= i < |s.log| && 0 <= i ==> s.log[i].mutation != m
    ensures FindReceipt(s.ledger.receipts, m).None?
  {
    hide LedgerOk, BirthsOk, UsesOk, UsesKnown, SupersedesOk, DeletesOk;
    FindReceiptMeans(s.ledger.receipts, m);
    forall j | 0 <= j < |s.ledger.receipts| ensures s.ledger.receipts[j].mutation != m {
      assert s.ledger.receipts[j].mutation == s.log[|s.log| - |s.ledger.receipts| + j].mutation;
    }
  }

  /** The first three mutations are bound to 1, 2 and 3. */
  ghost predicate Beginning(s: Memory, n: nat, records: map<RecordId, Record>)
  {
    HistoryOk(IDENTITIES, s) && |s.log| == n && (forall i :: 0 <= i < n ==> s.log[i].mutation == i + 1) && s.ledger.records == records
  }

  lemma OneMore(s: Memory, n: nat, e: Event, after: map<RecordId, Record>)
    requires HistoryOk(IDENTITIES, s) && |s.log| == n && (forall i :: 0 <= i < n ==> s.log[i].mutation == i + 1)
    requires e.mutation == n + 1 && RequestOk(e.request)
    requires var c := Apply(IDENTITIES, s.ledger.records, e.mutation, e.request, e.now); c.Changed? && c.records == after
    requires e.request.ConsumeRequest? ==> forall id :: id in e.request.ids ==> id in s.ledger.records && s.ledger.records[id].created <= e.now
    ensures
      var t := Next(IDENTITIES, s, e);
      Beginning(t, n + 1, after) && t.log[..n] == s.log && t.log[n].request == e.request
      && t.log[n].id == Apply(IDENTITIES, s.ledger.records, e.mutation, e.request, e.now).id
  {
    hide LedgerOk, BirthsOk, UsesOk, UsesKnown, SupersedesOk, DeletesOk, Apply;
    Unbound(s, n + 1);
    AcceptedNext(IDENTITIES, s, e);
  }

  lemma TwoNotes() returns (events: seq<Event>)
    ensures AfterUses(Reached(IDENTITIES, events), 0)
  {
    hide HistoryOk, Reached, Next;
    var e1, e2, e3 := Event(1, CreateRequest(NOTE), 0), Event(2, CreateRequest(NOTE), 0), Event(3, DeleteRequest(2, User), 0);
    var s1 := FirstNote(e1);
    var r1, r2 := map[2 := NewNote(2)], map[2 := NewNote(2), 4 := NewNote(4)];
    OneMore(s1, 1, e2, r2);
    var s2 := Next(IDENTITIES, s1, e2);
    OneMore(s2, 2, e3, map[2 := Bury(NewNote(2), 0), 4 := NewNote(4)]);
    var s3 := Next(IDENTITIES, s2, e3);
    events := [e1, e2, e3];
    ThreeEvents(e1, e2, e3);
    assert s3.log[2] == Entry(3, DeleteRequest(2, User), 2);
    assert NewNote(4).(uses := 0) == NewNote(4);
  }

  lemma FirstNote(e: Event) returns (s: Memory)
    requires e == Event(1, CreateRequest(NOTE), 0)
    ensures s == Reached(IDENTITIES, [e]) && Beginning(s, 1, map[2 := NewNote(2)])
  {
    hide LedgerOk, BirthsOk, UsesOk, UsesKnown, SupersedesOk, DeletesOk, ReceiptsMatch;
    ReachedOk(IDENTITIES, []);
    assert [e][..0] == [];
    s := Next(IDENTITIES, Reached(IDENTITIES, []), e);
    OneMore(Reached(IDENTITIES, []), 0, e, map[2 := NewNote(2)]);
  }

  lemma ThreeEvents(a: Event, b: Event, c: Event)
    ensures Reached(IDENTITIES, [a, b, c]) == Next(IDENTITIES, Next(IDENTITIES, Reached(IDENTITIES, [a]), b), c)
  {
    hide Next;
    assert [a, b, c][..2] == [a, b] && [a, b][..1] == [a];
  }

  lemma OneUse(s: Memory, n: nat)
    requires AfterUses(s, n)
    ensures AfterUses(Next(IDENTITIES, s, Event(4 + n, ConsumeRequest([4]), 0)), n + 1)
  {
    hide HistoryOk, Next;
    var after := map[2 := Bury(NewNote(2), 0), 4 := NewNote(4).(uses := n + 1)];
    NoUseFault(s.ledger.records, [4], 0);
    assert UseAll(s.ledger.records, [4], 0) == after;
    OneMore(s, 3 + n, Event(4 + n, ConsumeRequest([4]), 0), after);
  }

  lemma {:induction false} ManyUses(n: nat) returns (events: seq<Event>)
    ensures AfterUses(Reached(IDENTITIES, events), n)
  {
    hide AfterUses, Next;
    if n == 0 {
      events := TwoNotes();
    } else {
      var before := ManyUses(n - 1);
      var e := Event(3 + n, ConsumeRequest([4]), 0);
      OneUse(Reached(IDENTITIES, before), n - 1);
      events := before + [e];
      assert events[..|before|] == before;
    }
  }

  /** A deletion's identity is forgotten with its receipt: once 4096 later mutations have
      pushed the receipt out, the same identity deletes another record. */
  lemma DeleteIdentityReused() returns (events: seq<Event>, i: nat, j: nat)
    ensures
      var log := Reached(IDENTITIES, events).log;
      i < j < |log| && log[i].request.DeleteRequest? && log[j].request.DeleteRequest? && log[i].mutation == log[j].mutation
  {
    hide LedgerOk, BirthsOk, UsesOk, UsesKnown, SupersedesOk, DeletesOk;
    var before := ManyUses(MAX_RECEIPTS);
    var s := Reached(IDENTITIES, before);
    var e := Event(3, DeleteRequest(4, User), 0);
    Unbound(s, 3);
    AcceptedNext(IDENTITIES, s, e);
    events := before + [e];
    assert events[..|before|] == before;
    i, j := 2, |s.log|;
  }

  /** Exactly when a forgotten deletion identity takes effect again: its record exists and
      is not deleted yet, so never for the record it deleted before. */
  lemma ForgottenDeletion(ids: Identities, events: seq<Event>, e: Event)
    requires e.request.DeleteRequest? && RequestOk(e.request) && FindReceipt(Reached(ids, events).ledger.receipts, e.mutation).None?
    requires var records := Reached(ids, events).ledger.records; e.request.id in records ==> records[e.request.id].created <= e.now
    ensures
      var s := Reached(ids, events);
      Next(ids, s, e) != s <==> e.request.id in s.ledger.records && s.ledger.records[e.request.id].state != Deleted
  {
    hide BirthsOk, UsesOk, UsesKnown, SupersedesOk, DeletesOk, ReceiptsMatch, ReceiptsOk, Reached;
    ReachedOk(ids, events);
    var s := Reached(ids, events);
    if e.request.id in s.ledger.records && s.ledger.records[e.request.id].state != Deleted {
      assert RecordOk(s.ledger.records[e.request.id]);
      AcceptedNext(ids, s, e);
    }
  }

  // ----- a use before the creation -----

  /** A note is made at time 1, the clock goes back to 0, and the note's use then is
      answered as a corrupt catalog. */
  lemma EarlyUseIsCorrupt()
    ensures
      var made, use := Event(1, CreateRequest(NOTE), 1), Event(2, ConsumeRequest([2]), 0);
      && !Forward([made, use]) && Reached(IDENTITIES, [made]).ledger.records == map[2 := Build(2, [], NOTE, 1)]
      && Mutate(IDENTITIES, Reached(IDENTITIES, [made]).ledger, use.mutation, use.request, use.now).1 == Rejected(Corrupt)
  {
    hide Mutate, LedgerOk, BirthsOk, UsesOk, UsesKnown, SupersedesOk, DeletesOk, ReceiptsMatch;
    var made, use := Event(1, CreateRequest(NOTE), 1), Event(2, ConsumeRequest([2]), 0);
    assert !Forward([made, use]) by { assert [made, use][0] == made && [made, use][1] == use; }
    ReachedOk(IDENTITIES, []);
    assert [made][..0] == [];
    OneMore(Reached(IDENTITIES, []), 0, made, map[2 := Build(2, [], NOTE, 1)]);
    var s := Reached(IDENTITIES, [made]);
    assert s == Next(IDENTITIES, Reached(IDENTITIES, []), made);
    Unbound(s, 2);
    CorruptMeansEarlyUse(IDENTITIES, [made], use);
    assert EarlyUse(s.ledger, use) by { assert s.ledger.records[2].created > use.now && 2 in use.request.ids; }
  }
}
