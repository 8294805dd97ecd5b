/** The Context v2 contract: components, omissions, tier budgets, and the validator
    that every compiled envelope must pass. */
module ContextContract {
  import opened Utf8Tail

  const MAX_PAYLOAD_BYTES := 128 * 1024
  const MAX_COMPONENTS := 128
  const MAX_OMISSIONS := 256
  const MAX_CONTENT_BYTES := 64 * 1024
  const MAX_SELECTED_MEMORY := 32
  const ENVELOPE_VERSION := "fishyume.context/v2"
  const COMPILER_VERSION := "context-compiler/v2"

  /** Identities are strings in lexicographic order, modelled as integers in that
      order: the empty string is 0 and the positive ones match the contract pattern. */
  type Id = int

  predicate ValidId(id: Id) { id > 0 }

  datatype ErrorCode = InvalidComponent | RequiredMissing | BudgetUnsatisfiable | HashMismatch | VersionUnsupported

  datatype Check = Pass | Fail(code: ErrorCode)

  datatype Result<+T> = Ok(value: T) | Err(code: ErrorCode)

  datatype Tier = Required | Important | Optional | OtherTier

  datatype Sensitivity = Public | Project | Sensitive | OtherSensitivity

  datatype Kind = ExecutionContract | ProjectInstructions | WorkflowPolicy | NodeTask | UserAnswer
    | DependencyResult | SkillInstructions | Memory | OutputContract | OtherKind

  datatype Truncation = Untruncated | TailOnly | OtherTruncation

  datatype OmissionReason = BudgetExhausted | Superseded | Expired | Irrelevant | Unavailable
    | SensitivityPolicy | Duplicate | OtherReason

  /** A content hash, injective in the content. */
  datatype Digest = Digest(of: seq<Byte>)

  datatype SourceHash = SourceHash(value: int, wellFormed: bool)

  /** textSound stands for the checks on the source, version and reason strings. */
  datatype Provenance = Provenance(textSound: bool, sourceHash: SourceHash)

  datatype Component = Component(id: Id, kind: Kind, tier: Tier, sensitivity: Sensitivity,
    provenance: Provenance, content: seq<Byte>, contentHash: Digest,
    originalBytes: int, includedBytes: int, truncation: Truncation)

  datatype Omission = Omission(id: Id, kind: Kind, tier: Tier, reason: OmissionReason,
    sourceHash: SourceHash, originalBytes: int)

  datatype Budget = Budget(totalBytes: int, requiredBytes: int, importantBytes: int, optionalBytes: int)

  datatype Identity = Identity(runId: string, nodeId: string, attempt: int)

  datatype Envelope = Envelope(schemaVersion: string, compilerVersion: string, identity: Identity,
    budget: Budget, components: seq<Component>, omissions: seq<Omission>)

  function Rank(kind: Kind): int
  {
    match kind
    case ExecutionContract => 0
    case ProjectInstructions => 1
    case WorkflowPolicy => 2
    case NodeTask => 3
    case UserAnswer => 4
    case DependencyResult => 5
    case SkillInstructions => 6
    case Memory => 7
    case OutputContract => 8
    case OtherKind => -1
  }

  predicate TierAllowed(kind: Kind, tier: Tier)
  {
    match kind
    case ExecutionContract | ProjectInstructions | NodeTask | UserAnswer | OutputContract => tier == Required
    case WorkflowPolicy | DependencyResult | SkillInstructions => tier == Required || tier == Important
    case Memory => tier == Optional
    case OtherKind => false
  }

  /** The white space of the Unicode standard, as the validator trims it. */
  predicate UnicodeSpace(c: char)
  {
    c in {'\t', '\n', '\U{000B}', '\U{000C}', '\r', ' ', '\U{0085}', '\U{00A0}', '\U{1680}',
          '\U{2028}', '\U{2029}', '\U{202F}', '\U{205F}', '\U{3000}'}
    || '\U{2000}' <= c <= '\U{200A}'
  }

  predicate BlankUnicode(text: string) { forall c :: c in text ==> UnicodeSpace(c) }

  predicate IdentityComplete(identity: Identity)
  {
    !BlankUnicode(identity.runId) && !BlankUnicode(identity.nodeId) && identity.attempt >= 1
  }

  /** The tier budgets are bounded and add up to the total. */
  predicate BudgetSound(b: Budget)
  {
    && 1 <= b.totalBytes <= MAX_PAYLOAD_BYTES && b.requiredBytes >= 1
    && b.importantBytes >= 0 && b.optionalBytes >= 0
    && b.requiredBytes <= b.totalBytes && b.importantBytes <= b.totalBytes && b.optionalBytes <= b.totalBytes
    && b.requiredBytes <= b.totalBytes - b.importantBytes
    && b.requiredBytes + b.importantBytes <= b.totalBytes - b.optionalBytes
    && b.requiredBytes + b.importantBytes + b.optionalBytes == b.totalBytes
  }

  function CheckComponent(c: Component): Check
  {
    if !ValidId(c.id) || Rank(c.kind) < 0 || c.tier == OtherTier || c.sensitivity == OtherSensitivity then Fail(InvalidComponent)
    else if !TierAllowed(c.kind, c.tier) then Fail(InvalidComponent)
    else if !c.provenance.textSound || !c.provenance.sourceHash.wellFormed then Fail(InvalidComponent)
    else if !ValidUtf8(c.content) then Fail(InvalidComponent)
    else if |c.content| == 0 || |c.content| > MAX_CONTENT_BYTES || c.includedBytes != |c.content|
            || c.originalBytes < |c.content| then Fail(InvalidComponent)
    else if c.contentHash != Digest(c.content) then Fail(HashMismatch)
    else match c.truncation
      case Untruncated => if c.originalBytes != c.includedBytes then Fail(InvalidComponent) else Pass
      case TailOnly => if c.tier == Required || c.originalBytes <= c.includedBytes then Fail(InvalidComponent) else Pass
      case OtherTruncation => Fail(InvalidComponent)
  }

  function CheckOmission(o: Omission): Check
  {
    if !ValidId(o.id) || Rank(o.kind) < 0 || o.tier == OtherTier || !TierAllowed(o.kind, o.tier)
       || o.reason == OtherReason || !o.sourceHash.wellFormed || o.originalBytes < 0 then Fail(InvalidComponent)
    else if o.tier == Required then Fail(RequiredMissing)
    else Pass
  }

  /** Canonical component order: by kind rank, then by identity. */
  predicate Before(a: Component, b: Component)
  {
    if Rank(a.kind) != Rank(b.kind) then Rank(a.kind) < Rank(b.kind) else a.id < b.id
  }

  predicate OmissionBefore(a: Omission, b: Omission) { a.id < b.id }

  /** The bytes that the components of the given tiers include. */
  function Usage(cs: seq<Component>, tiers: set<Tier>): int
  {
    if cs == [] then 0 else (if cs[0].tier in tiers then cs[0].includedBytes else 0) + Usage(cs[1..], tiers)
  }

  const ALL_TIERS := {Required, Important, Optional, OtherTier}

  function MemoryCount(cs: seq<Component>): nat
  {
    if cs == [] then 0 else (if cs[0].kind == Memory then 1 else 0) + MemoryCount(cs[1..])
  }

  predicate HasKind(cs: seq<Component>, kind: Kind) { exists i :: 0 <= i < |cs| && cs[i].kind == kind }

  predicate HasContracts(cs: seq<Component>)
  {
    HasKind(cs, ExecutionContract) && HasKind(cs, NodeTask) && HasKind(cs, OutputContract)
  }

  predicate WithinBudget(cs: seq<Component>, b: Budget)
  {
    && Usage(cs, ALL_TIERS) <= b.totalBytes && Usage(cs, {Required}) <= b.requiredBytes
    && Usage(cs, {Important}) <= b.importantBytes && Usage(cs, {Optional}) <= b.optionalBytes
  }

  /** The first fault met by the component loop from the given seen set and position. */
  function ComponentFault(cs: seq<Component>, seen: set<Id>, lastRank: int, lastId: Id): Check
  {
    if cs == [] then Pass
    else
      var c := cs[0];
      if CheckComponent(c).Fail? then CheckComponent(c)
      else if c.id in seen then Fail(InvalidComponent)
      else if Rank(c.kind) < lastRank || (Rank(c.kind) == lastRank && c.id <= lastId) then Fail(InvalidComponent)
      else ComponentFault(cs[1..], seen + {c.id}, Rank(c.kind), c.id)
  }

  function OmissionFault(os: seq<Omission>, seen: set<Id>, lastId: Id): Check
  {
    if os == [] then Pass
    else
      var o := os[0];
      if CheckOmission(o).Fail? then CheckOmission(o)
      else if o.id in seen then Fail(InvalidComponent)
      else if o.id <= lastId then Fail(InvalidComponent)
      else OmissionFault(os[1..], seen + {o.id}, o.id)
  }

  function ComponentIds(cs: seq<Component>): (ids: set<Id>)
    ensures forall id :: id in ids <==> exists i :: 0 <= i < |cs| && cs[i].id == id
  {
    set i | 0 <= i < |cs| :: cs[i].id
  }

  /** What the validator answers. */
  function Validation(e: Envelope): Check
  {
    if e.schemaVersion != ENVELOPE_VERSION || e.compilerVersion != COMPILER_VERSION then Fail(VersionUnsupported)
    else if !IdentityComplete(e.identity) then Fail(InvalidComponent)
    else if !BudgetSound(e.budget) then Fail(BudgetUnsatisfiable)
    else if |e.components| == 0 || |e.components| > MAX_COMPONENTS then Fail(InvalidComponent)
    else if |e.omissions| > MAX_OMISSIONS then Fail(InvalidComponent)
    else if ComponentFault(e.components, {}, -1, 0).Fail? then ComponentFault(e.components, {}, -1, 0)
    else if !HasContracts(e.components) then Fail(RequiredMissing)
    else if MemoryCount(e.components) > MAX_SELECTED_MEMORY then Fail(BudgetUnsatisfiable)
    else if !WithinBudget(e.components, e.budget) then Fail(BudgetUnsatisfiable)
    else OmissionFault(e.omissions, ComponentIds(e.components), 0)
  }

  lemma {:induction false} UsageAppend(cs: seq<Component>, c: Component, tiers: set<Tier>)
    ensures Usage(cs + [c], tiers) == Usage(cs, tiers) + (if c.tier in tiers then c.includedBytes else 0)
    ensures MemoryCount(cs + [c]) == MemoryCount(cs) + (if c.kind == Memory then 1 else 0)
  {
    if cs == [] {
      assert cs + [c] == [c];
    } else {
      assert (cs + [c])[1..] == cs[1..] + [c];
      UsageAppend(cs[1..], c, tiers);
    }
  }

  /** The validator's single pass over the components. */
  method CheckComponents(cs: seq<Component>) returns (check: Check, kinds: set<Kind>, memoryCount: nat,
    total: int, required: int, important: int, optional: int)
    ensures check == ComponentFault(cs, {}, -1, 0)
    ensures check.Pass? ==> forall k :: k in kinds <==> HasKind(cs, k)
    ensures check.Pass? ==> memoryCount == MemoryCount(cs) && total == Usage(cs, ALL_TIERS)
    ensures check.Pass? ==> required == Usage(cs, {Required}) && important == Usage(cs, {Important}) && optional == Usage(cs, {Optional})
  {
    var seen: set<Id>, lastRank, lastId, i := {}, -1, 0, 0;
    kinds, memoryCount, total, required, important, optional := {}, 0, 0, 0, 0, 0;
    while i < |cs|
      invariant 0 <= i <= |cs|
      invariant ComponentFault(cs, {}, -1, 0) == ComponentFault(cs[i..], seen, lastRank, lastId)
      invariant kinds == set j | 0 <= j < i :: cs[j].kind
      invariant memoryCount == MemoryCount(cs[..i]) && total == Usage(cs[..i], ALL_TIERS)
      invariant required == Usage(cs[..i], {Required}) && important == Usage(cs[..i], {Important})
      invariant optional == Usage(cs[..i], {Optional})
    {
      var c := cs[i];
      assert cs[i..][0] == c && cs[i..][1..] == cs[i + 1..];
      check := CheckComponent(c);
      if check.Fail? { return; }
      if c.id in seen { check := Fail(InvalidComponent); return; }
      var rank := Rank(c.kind);
      if rank < lastRank || (rank == lastRank && c.id <= lastId) { check := Fail(InvalidComponent); return; }
      seen := seen + {c.id};
      lastRank, lastId := rank, c.id;
      kinds := kinds + {c.kind};
      assert cs[..i + 1] == cs[..i] + [c];
      UsageAppend(cs[..i], c, ALL_TIERS);
      UsageAppend(cs[..i], c, {Required});
      UsageAppend(cs[..i], c, {Important});
      UsageAppend(cs[..i], c, {Optional});
      total := total + c.includedBytes;
      match c.tier {
        case Required => required := required + c.includedBytes;
        case Important => important := important + c.includedBytes;
        case Optional => optional := optional + c.includedBytes;
        case OtherTier =>
      }
      if c.kind == Memory { memoryCount := memoryCount + 1; }
      i := i + 1;
    }
    assert cs[..i] == cs;
    check := Pass;
  }

  method CheckOmissions(os: seq<Omission>, included: set<Id>) returns (check: Check)
    ensures check == OmissionFault(os, included, 0)
  {
    var seen, lastId, i := included, 0, 0;
    while i < |os|
      invariant 0 <= i <= |os|
      invariant OmissionFault(os, included, 0) == OmissionFault(os[i..], seen, lastId)
    {
      var o := os[i];
      assert os[i..][0] == o && os[i..][1..] == os[i + 1..];
      check := CheckOmission(o);
      if check.Fail? { return; }
      if o.id in seen { return Fail(InvalidComponent); }
      if o.id <= lastId { return Fail(InvalidComponent); }
      seen, lastId, i := seen + {o.id}, o.id, i + 1;
    }
    return Pass;
  }

  method ValidateContextEnvelope(e: Envelope) returns (check: Check)
    ensures check == Validation(e)
  {
    if e.schemaVersion != ENVELOPE_VERSION || e.compilerVersion != COMPILER_VERSION { return Fail(VersionUnsupported); }
    if !IdentityComplete(e.identity) { return Fail(InvalidComponent); }
    if !BudgetSound(e.budget) { return Fail(BudgetUnsatisfiable); }
    if |e.components| == 0 || |e.components| > MAX_COMPONENTS { return Fail(InvalidComponent); }
    if |e.omissions| > MAX_OMISSIONS { return Fail(InvalidComponent); }
    var kinds, memoryCount, total, required, important, optional;
    check, kinds, memoryCount, total, required, important, optional := CheckComponents(e.components);
    if check.Fail? { return; }
    if ExecutionContract !in kinds || NodeTask !in kinds || OutputContract !in kinds { return Fail(RequiredMissing); }
    if memoryCount > MAX_SELECTED_MEMORY { return Fail(BudgetUnsatisfiable); }
    if total > e.budget.totalBytes || required > e.budget.requiredBytes
       || important > e.budget.importantBytes || optional > e.budget.optionalBytes { return Fail(BudgetUnsatisfiable); }
    check := CheckOmissions(e.omissions, ComponentIds(e.components));
  }

  // ----- what passing means, without the loop's bookkeeping -----

  ghost predicate CanonicalComponents(cs: seq<Component>)
  {
    && (forall i :: 0 <= i < |cs| ==> CheckComponent(cs[i]).Pass?)
    && (forall i, j :: 0 <= i < j < |cs| ==> Before(cs[i], cs[j]) && cs[i].id != cs[j].id)
  }

  ghost predicate CanonicalOmissions(os: seq<Omission>, included: set<Id>)
  {
    && (forall i :: 0 <= i < |os| ==> CheckOmission(os[i]).Pass? && os[i].id !in included)
    && (forall i, j :: 0 <= i < j < |os| ==> OmissionBefore(os[i], os[j]))
  }

  /** The component loop passes exactly the canonical sequences. */
  lemma {:induction false} ComponentLoopMeaning(cs: seq<Component>, seen: set<Id>, lastRank: int, lastId: Id)
    ensures ComponentFault(cs, seen, lastRank, lastId).Pass? <==>
              && CanonicalComponents(cs)
              && (forall i :: 0 <= i < |cs| ==> cs[i].id !in seen)
              && (cs != [] ==> lastRank < Rank(cs[0].kind) || (lastRank == Rank(cs[0].kind) && lastId < cs[0].id))
  {
    if cs != [] {
      var c, rest := cs[0], cs[1..];
      ComponentLoopMeaning(rest, seen + {c.id}, Rank(c.kind), c.id);
      assert forall i :: 0 <= i < |rest| ==> rest[i] == cs[i + 1];
      if ComponentFault(cs, seen, lastRank, lastId).Pass? {
        forall i, j | 0 <= i < j < |cs| ensures Before(cs[i], cs[j]) && cs[i].id != cs[j].id {
          assert cs[j] == rest[j - 1];
          if i == 0 {
            assert Before(c, rest[0]);
            if j > 1 { assert Before(rest[0], rest[j - 1]); }
          } else {
            assert cs[i] == rest[i - 1];
          }
        }
        forall i | 0 <= i < |cs| ensures CheckComponent(cs[i]).Pass? && cs[i].id !in seen {
          if i > 0 { assert cs[i] == rest[i - 1]; }
        }
      } else if CanonicalComponents(cs) && rest != [] {
        assert Before(cs[0], cs[1]);
      }
    }
  }

  lemma {:induction false} OmissionLoopMeaning(os: seq<Omission>, seen: set<Id>, lastId: Id)
    ensures OmissionFault(os, seen, lastId).Pass? <==>
              CanonicalOmissions(os, seen) && (os != [] ==> lastId < os[0].id)
  {
    if os != [] {
      var o, rest := os[0], os[1..];
      OmissionLoopMeaning(rest, seen + {o.id}, o.id);
      assert forall i :: 0 <= i < |rest| ==> rest[i] == os[i + 1];
      if OmissionFault(os, seen, lastId).Pass? {
        forall i, j | 0 <= i < j < |os| ensures os[i].id < os[j].id {
          assert os[j] == rest[j - 1];
          if i == 0 {
            if j > 1 { assert OmissionBefore(rest[0], rest[j - 1]); }
          } else {
            assert os[i] == rest[i - 1] && OmissionBefore(rest[i - 1], rest[j - 1]);
          }
        }
        forall i | 0 <= i < |os| ensures CheckOmission(os[i]).Pass? && os[i].id !in seen {
          if i > 0 { assert os[i] == rest[i - 1]; }
        }
      } else if CanonicalOmissions(os, seen) {
        forall i | 0 <= i < |rest| ensures rest[i].id !in seen + {o.id} {
          assert OmissionBefore(os[0], os[i + 1]);
        }
        forall i, j | 0 <= i < j < |rest| ensures OmissionBefore(rest[i], rest[j]) {
          assert OmissionBefore(os[i + 1], os[j + 1]);
        }
        if rest != [] { assert OmissionBefore(os[0], os[1]); }
      }
    }
  }

  /** An envelope passes exactly when it is canonical, complete and within budget. */
  lemma ValidationMeaning(e: Envelope)
    ensures Validation(e).Pass? <==>
              && e.schemaVersion == ENVELOPE_VERSION && e.compilerVersion == COMPILER_VERSION
              && IdentityComplete(e.identity) && BudgetSound(e.budget)
              && 0 < |e.components| <= MAX_COMPONENTS && |e.omissions| <= MAX_OMISSIONS
              && CanonicalComponents(e.components) && HasContracts(e.components)
              && MemoryCount(e.components) <= MAX_SELECTED_MEMORY && WithinBudget(e.components, e.budget)
              && CanonicalOmissions(e.omissions, ComponentIds(e.components))
  {
    ComponentLoopMeaning(e.components, {}, -1, 0);
    OmissionLoopMeaning(e.omissions, ComponentIds(e.components), 0);
    if CanonicalComponents(e.components) && e.components != [] {
      assert CheckComponent(e.components[0]).Pass?;
    }
    if CanonicalOmissions(e.omissions, ComponentIds(e.components)) && e.omissions != [] {
      assert CheckOmission(e.omissions[0]).Pass?;
    }
  }
}
