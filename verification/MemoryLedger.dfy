/** A project's memory: records that are created, superseded, deleted and used, a revision
    counter, and a sliding window of receipts that makes mutations idempotent. */
module MemoryLedger {
  import opened Workflow

  const MAX_RECORDS := 2048
  const MAX_RECEIPTS := 4096
  const MAX_SUPERSEDES := 16
  const MAX_SELECTED := 32
  const MAX_USES := 10000

  type RecordId = nat
  type MutationId = nat

  datatype Op = Create | Supersede | Delete | Consume

  datatype MemoryState = Active | Superseded | Deleted

  datatype MemoryType = Decision | Constraint | Fact | Procedure | Preference

  datatype Sensitivity = Public | ProjectOnly

  datatype Writer = User | HostAgent | Migration | Engine

  datatype Traits = Traits(kind: MemoryType, sensitivity: Sensitivity, writer: Writer)

  datatype Record = Record(id: RecordId, traits: Traits, content: string, created: int, updated: int,
    supersedes: seq<RecordId>, state: MemoryState, uses: nat, expires: Option<int>, maxUses: nat)

  datatype Body = Body(traits: Traits, content: string, expires: Option<int>, maxUses: nat)

  /** A canonical request; it stands for its own hash. */
  datatype Request =
    | CreateRequest(body: Body)
    | SupersedeRequest(targets: seq<RecordId>, body: Body)
    | DeleteRequest(id: RecordId, writer: Writer)
    | ConsumeRequest(ids: seq<RecordId>)

  datatype Receipt = Receipt(mutation: MutationId, request: Request, revision: nat, id: RecordId, affected: seq<RecordId>)

  datatype Ledger = Ledger(revision: nat, records: map<RecordId, Record>, receipts: seq<Receipt>)

  datatype Code = Invalid | Conflict | NotFound | Corrupt

  datatype Reply = Accepted(revision: nat, id: RecordId, affected: seq<RecordId>, replayed: bool) | Rejected(code: Code)

  /** Identities of new records come from a digest of the operation and the mutation. */
  type Identities = (Op, MutationId) -> RecordId

  function OpOf(r: Request): Op
  {
    match r
    case CreateRequest(_) => Create
    case SupersedeRequest(_, _) => Supersede
    case DeleteRequest(_, _) => Delete
    case ConsumeRequest(_) => Consume
  }

  predicate Sorted(ids: seq<RecordId>) { forall i, j :: 0 <= i < j < |ids| ==> ids[i] < ids[j] }

  predicate BodyOk(b: Body) { b.content != "" && b.traits.writer != Engine && b.maxUses <= MAX_USES }

  /** What is checked of a request before the catalog is opened. */
  predicate RequestOk(r: Request)
  {
    match r
    case CreateRequest(body) => BodyOk(body)
    case SupersedeRequest(targets, body) => BodyOk(body) && 1 <= |targets| <= MAX_SUPERSEDES && Sorted(targets)
    case DeleteRequest(_, writer) => writer != Engine
    case ConsumeRequest(ids) => 1 <= |ids| <= MAX_SELECTED && Sorted(ids)
  }

  predicate RecordOk(r: Record)
  {
    && r.traits.writer != Engine && r.created <= r.updated && (r.state == Deleted <==> r.content == "")
    && |r.supersedes| <= MAX_SUPERSEDES && Sorted(r.supersedes) && r.id !in r.supersedes
    && r.maxUses <= MAX_USES && (r.maxUses > 0 ==> r.uses <= r.maxUses)
    && (r.expires.Some? ==> r.created < r.expires.value)
  }

  function Build(id: RecordId, supersedes: seq<RecordId>, b: Body, now: int): Record
  {
    Record(id, b.traits, b.content, now, now, supersedes, Active, 0, b.expires, b.maxUses)
  }

  // ----- what each operation does to the records -----

  datatype Change = Changed(records: map<RecordId, Record>, id: RecordId, affected: seq<RecordId>) | Refused(code: Code)

  /** The first target that is missing or not active. */
  function TargetFault(records: map<RecordId, Record>, targets: seq<RecordId>): Option<Code>
  {
    if targets == [] then None
    else if targets[0] !in records then Some(NotFound)
    else if records[targets[0]].state != Active then Some(Conflict)
    else TargetFault(records, targets[1..])
  }

  /** The first record that cannot be used now. */
  function UseFault(records: map<RecordId, Record>, ids: seq<RecordId>, now: int): Option<Code>
  {
    if ids == [] then None
    else if ids[0] !in records then Some(NotFound)
    else
      var r := records[ids[0]];
      if r.state != Active || (r.expires.Some? && r.expires.value <= now) || (r.maxUses > 0 && r.uses >= r.maxUses) then Some(Conflict)
      else UseFault(records, ids[1..], now)
  }

  function Retire(r: Record, now: int): Record { r.(state := Superseded, updated := now) }

  function Bury(r: Record, now: int): Record { r.(content := "", state := Deleted, updated := now) }

  function Use(r: Record, now: int): Record { r.(uses := r.uses + 1, updated := now) }

  function RetireAll(records: map<RecordId, Record>, targets: seq<RecordId>, now: int): map<RecordId, Record>
  {
    map id | id in records :: if id in targets then Retire(records[id], now) else records[id]
  }

  function UseAll(records: map<RecordId, Record>, ids: seq<RecordId>, now: int): map<RecordId, Record>
  {
    map id | id in records :: if id in ids then Use(records[id], now) else records[id]
  }

  function Apply(ids: Identities, records: map<RecordId, Record>, m: MutationId, r: Request, now: int): Change
  {
    match r
    case CreateRequest(body) =>
      var id := ids(Create, m);
      if |records| >= MAX_RECORDS || id in records then Refused(Conflict)
      else if !RecordOk(Build(id, [], body, now)) then Refused(Invalid)
      else Changed(records[id := Build(id, [], body, now)], id, [])
    case SupersedeRequest(targets, body) =>
      var id := ids(Supersede, m);
      if |records| >= MAX_RECORDS then Refused(Conflict)
      else if TargetFault(records, targets).Some? then Refused(TargetFault(records, targets).value)
      else if id in records then Refused(Conflict)
      else if !RecordOk(Build(id, targets, body, now)) then Refused(Invalid)
      else if exists t :: t in targets && t in records && !RecordOk(Retire(records[t], now)) then Refused(Invalid)
      else Changed(RetireAll(records, targets, now)[id := Build(id, targets, body, now)], id, targets)
    case DeleteRequest(id, _) =>
      if id !in records then Refused(NotFound)
      else if records[id].state == Deleted then Refused(Conflict)
      else if !RecordOk(Bury(records[id], now)) then Refused(Invalid)
      else Changed(records[id := Bury(records[id], now)], id, [id])
    case ConsumeRequest(used) =>
      if UseFault(records, used, now).Some? then Refused(UseFault(records, used, now).value)
      else if used == [] then Refused(Invalid)
      else Changed(UseAll(records, used, now), used[0], used[1..])
  }

  // ----- the catalog check -----

  predicate ReceiptOk(l: Ledger, i: nat)
    requires i < |l.receipts|
  {
    var r := l.receipts[i];
    && 0 < r.revision <= l.revision && (i > 0 ==> l.receipts[i - 1].revision < r.revision)
    && r.id in l.records && Sorted(r.affected) && (forall a :: a in r.affected ==> a in l.records)
    && match r.request {
         case CreateRequest(_) => r.affected == []
         case SupersedeRequest(_, _) => 1 <= |r.affected| <= MAX_SUPERSEDES && l.records[r.id].supersedes == r.affected
         case DeleteRequest(_, _) => r.affected == [r.id]
         case ConsumeRequest(_) => |r.affected| < MAX_SELECTED && (r.affected != [] ==> r.id < r.affected[0])
       }
  }

  ghost predicate RecordsOk(records: map<RecordId, Record>)
  {
    forall id :: id in records ==> records[id].id == id && RecordOk(records[id])
  }

  ghost predicate ReceiptsOk(l: Ledger)
  {
    && |l.receipts| <= MAX_RECEIPTS && (forall i :: 0 <= i < |l.receipts| ==> ReceiptOk(l, i))
    && (forall i, j :: 0 <= i < j < |l.receipts| ==> l.receipts[i].mutation != l.receipts[j].mutation)
    && (l.revision > 0 ==> l.receipts != [] && l.receipts[|l.receipts| - 1].revision == l.revision)
  }

  /** The whole-catalog check that is made after every change and on every read. */
  ghost predicate LedgerOk(l: Ledger)
  {
    && |l.records| <= MAX_RECORDS && RecordsOk(l.records) && ReceiptsOk(l)
    && (l.revision == 0 ==> l.records == map[] && l.receipts == [])
  }

  // ----- one mutation -----

  function FindReceipt(receipts: seq<Receipt>, m: MutationId): Option<Receipt>
  {
    if receipts == [] then None
    else if receipts[0].mutation == m then Some(receipts[0])
    else FindReceipt(receipts[1..], m)
  }

  function Window(receipts: seq<Receipt>): seq<Receipt>
  {
    if |receipts| > MAX_RECEIPTS then receipts[|receipts| - MAX_RECEIPTS..] else receipts
  }

  /** The ledger after a change, before it is checked. */
  function Proposed(l: Ledger, m: MutationId, r: Request, c: Change): Ledger
    requires c.Changed?
  {
    Ledger(l.revision + 1, c.records, Window(l.receipts + [Receipt(m, r, l.revision + 1, c.id, c.affected)]))
  }

  /** A mutation: replayed from its receipt, refused, or applied as one revision more. */
  ghost function Mutate(ids: Identities, l: Ledger, m: MutationId, r: Request, now: int): (Ledger, Reply)
  {
    if !RequestOk(r) then (l, Rejected(Invalid))
    else if FindReceipt(l.receipts, m).Some? then
      var receipt := FindReceipt(l.receipts, m).value;
      if receipt.request != r then (l, Rejected(Conflict)) else (l, Accepted(receipt.revision, receipt.id, receipt.affected, true))
    else
      var c := Apply(ids, l.records, m, r, now);
      if c.Refused? then (l, Rejected(c.code))
      else if !LedgerOk(Proposed(l, m, r, c)) then (l, Rejected(Corrupt))
      else (Proposed(l, m, r, c), Accepted(l.revision + 1, c.id, c.affected, false))
  }

  // ----- the check never surprises -----

  lemma {:induction false} NoTargetFault(records: map<RecordId, Record>, targets: seq<RecordId>)
    ensures TargetFault(records, targets).None? <==> forall t :: t in targets ==> t in records && records[t].state == Active
  {
    if targets != [] {
      assert targets == [targets[0]] + targets[1..];
      NoTargetFault(records, targets[1..]);
    }
  }

  predicate Usable(r: Record, now: int)
  {
    r.state == Active && (r.expires.Some? ==> now < r.expires.value) && (r.maxUses > 0 ==> r.uses < r.maxUses)
  }

  lemma {:induction false} NoUseFault(records: map<RecordId, Record>, ids: seq<RecordId>, now: int)
    ensures UseFault(records, ids, now).None? <==> forall id :: id in ids ==> id in records && Usable(records[id], now)
  {
    if ids != [] {
      assert ids == [ids[0]] + ids[1..];
      NoUseFault(records, ids[1..], now);
    }
  }

  lemma {:induction false} FindReceiptMeans(receipts: seq<Receipt>, m: MutationId)
    ensures FindReceipt(receipts, m).None? <==> forall i :: 0 <= i < |receipts| ==> receipts[i].mutation != m
    ensures FindReceipt(receipts, m).Some? ==> FindReceipt(receipts, m).value in receipts && FindReceipt(receipts, m).value.mutation == m
  {
    if receipts != [] {
      assert receipts == [receipts[0]] + receipts[1..];
      FindReceiptMeans(receipts[1..], m);
    }
  }
}
