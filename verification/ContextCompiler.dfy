/** The Context compiler: checks resolved sources, fits them into the tier budgets,
    and returns an envelope in canonical order. */
module ContextCompiler {
  import opened Utf8Tail
  import opened ContextContract
  import Ordering
  import FairShare

  datatype Input = Input(identity: Identity, components: seq<Component>, omissions: seq<Omission>,
    execution: Component, output: Component, budget: Budget)

  datatype Allotted = Allotted(components: seq<Component>, omissions: seq<Omission>)

  // ----- checking the resolved sources -----

  /** The four white space characters that the compiler itself trims. */
  predicate BlankAscii(text: string) { forall c :: c in text ==> c in {' ', '\t', '\r', '\n'} }

  /** Complete sources: engine-owned kinds, cut components and repeated identities are
      refused. The result is the first fault, or the identities seen. */
  function SourceFault(cs: seq<Component>, seen: set<Id>): Check
  {
    if cs == [] then Pass
    else
      var c := cs[0];
      if c.kind == ExecutionContract || c.kind == OutputContract then Fail(InvalidComponent)
      else if CheckComponent(c).Fail? then CheckComponent(c)
      else if c.truncation != Untruncated || c.originalBytes != c.includedBytes then Fail(InvalidComponent)
      else if c.id in seen then Fail(InvalidComponent)
      else SourceFault(cs[1..], seen + {c.id})
  }

  function SourceOmissionFault(os: seq<Omission>, seen: set<Id>): Check
  {
    if os == [] then Pass
    else
      var o := os[0];
      if CheckOmission(o).Fail? then CheckOmission(o)
      else if o.id in seen then Fail(InvalidComponent)
      else SourceOmissionFault(os[1..], seen + {o.id})
  }

  function EngineContractFault(c: Component, kind: Kind): Check
  {
    if c.kind != kind || c.tier != Required then Fail(InvalidComponent)
    else if !ValidUtf8(c.content) then Fail(InvalidComponent)
    else CheckComponent(c)
  }

  function OmissionIds(os: seq<Omission>): (ids: set<Id>)
    ensures forall id :: id in ids <==> exists i :: 0 <= i < |os| && os[i].id == id
  {
    set i | 0 <= i < |os| :: os[i].id
  }

  /** Everything that is refused before any byte is allocated. */
  function InputFault(input: Input): Check
  {
    if !BudgetSound(input.budget) then Fail(BudgetUnsatisfiable)
    else if BlankAscii(input.identity.runId) || BlankAscii(input.identity.nodeId) || input.identity.attempt < 1 then Fail(InvalidComponent)
    else if |input.components| > MAX_COMPONENTS || |input.omissions| > MAX_OMISSIONS then Fail(InvalidComponent)
    else if SourceFault(input.components, {}).Fail? then SourceFault(input.components, {})
    else
      var ids := ComponentIds(input.components);
      if SourceOmissionFault(input.omissions, ids).Fail? then SourceOmissionFault(input.omissions, ids)
      else if EngineContractFault(input.execution, ExecutionContract).Fail? then EngineContractFault(input.execution, ExecutionContract)
      else if EngineContractFault(input.output, OutputContract).Fail? then EngineContractFault(input.output, OutputContract)
      else if input.execution.id in ids + OmissionIds(input.omissions) then Fail(InvalidComponent)
      else if input.output.id in ids + OmissionIds(input.omissions) || input.output.id == input.execution.id then Fail(InvalidComponent)
      else Pass
  }

  method CheckInput(input: Input) returns (check: Check)
    ensures check == InputFault(input)
  {
    if !BudgetSound(input.budget) { return Fail(BudgetUnsatisfiable); }
    if BlankAscii(input.identity.runId) || BlankAscii(input.identity.nodeId) || input.identity.attempt < 1 {
      return Fail(InvalidComponent);
    }
    if |input.components| > MAX_COMPONENTS || |input.omissions| > MAX_OMISSIONS { return Fail(InvalidComponent); }
    var cs, os := input.components, input.omissions;
    var seen: set<Id>, i := {}, 0;
    while i < |cs|
      invariant 0 <= i <= |cs|
      invariant seen == set j | 0 <= j < i :: cs[j].id
      invariant SourceFault(cs, {}) == SourceFault(cs[i..], seen)
    {
      var c := cs[i];
      assert cs[i..][0] == c && cs[i..][1..] == cs[i + 1..];
      if c.kind == ExecutionContract || c.kind == OutputContract { return Fail(InvalidComponent); }
      check := CheckComponent(c);
      if check.Fail? { return; }
      if c.truncation != Untruncated || c.originalBytes != c.includedBytes { return Fail(InvalidComponent); }
      if c.id in seen { return Fail(InvalidComponent); }
      seen, i := seen + {c.id}, i + 1;
    }
    assert seen == ComponentIds(cs);
    i := 0;
    while i < |os|
      invariant 0 <= i <= |os|
      invariant seen == ComponentIds(cs) + set j | 0 <= j < i :: os[j].id
      invariant SourceOmissionFault(os, ComponentIds(cs)) == SourceOmissionFault(os[i..], seen)
    {
      var o := os[i];
      assert os[i..][0] == o && os[i..][1..] == os[i + 1..];
      check := CheckOmission(o);
      if check.Fail? { return; }
      if o.id in seen { return Fail(InvalidComponent); }
      seen, i := seen + {o.id}, i + 1;
    }
    assert seen == ComponentIds(cs) + OmissionIds(os);
    check := EngineContractFault(input.execution, ExecutionContract);
    if check.Fail? { return; }
    check := EngineContractFault(input.output, OutputContract);
    if check.Fail? { return; }
    if input.execution.id in seen { return Fail(InvalidComponent); }
    if input.output.id in seen || input.output.id == input.execution.id { return Fail(InvalidComponent); }
    return Pass;
  }

  // ----- allocation -----

  function OfTier(cs: seq<Component>, tier: Tier): seq<Component>
  {
    if cs == [] then []
    else (if cs[0].tier == tier then [cs[0]] else []) + OfTier(cs[1..], tier)
  }

  function ContentSum(cs: seq<Component>): nat
  {
    if cs == [] then 0 else |cs[0].content| + ContentSum(cs[1..])
  }

  function Sizes(cs: seq<Component>): (r: seq<nat>)
    ensures |r| == |cs| && forall i :: 0 <= i < |cs| ==> r[i] == |cs[i].content|
  {
    seq(|cs|, i requires 0 <= i < |cs| => |cs[i].content|)
  }

  function OmissionFor(c: Component): Omission
  {
    Omission(c.id, c.kind, c.tier, BudgetExhausted, c.provenance.sourceHash, c.originalBytes)
  }

  /** What an important component becomes when n bytes of it fit: itself, its longest
      aligned tail, or nothing. */
  function Cut(c: Component, n: nat): seq<Component>
  {
    if n == 0 then []
    else if n >= |c.content| then [c]
    else
      var tail := Tail(c.content, n);
      if tail == [] then []
      else [c.(content := tail, includedBytes := |tail|, contentHash := Digest(tail), truncation := TailOnly)]
  }

  function Kept(cs: seq<Component>, alloc: seq<nat>): seq<Component>
    requires |cs| == |alloc|
  {
    if cs == [] then [] else Cut(cs[0], alloc[0]) + Kept(cs[1..], alloc[1..])
  }

  function Dropped(cs: seq<Component>, alloc: seq<nat>): seq<Omission>
    requires |cs| == |alloc|
  {
    if cs == [] then []
    else (if Cut(cs[0], alloc[0]) == [] then [OmissionFor(cs[0])] else []) + Dropped(cs[1..], alloc[1..])
  }

  /** Whole records, first come first served: a record that does not fit is passed over. */
  function Taken(cs: seq<Component>, remaining: int): seq<Component>
  {
    if cs == [] then []
    else if |cs[0].content| <= remaining then [cs[0]] + Taken(cs[1..], remaining - |cs[0].content|)
    else Taken(cs[1..], remaining)
  }

  function PassedOver(cs: seq<Component>, remaining: int): seq<Omission>
  {
    if cs == [] then []
    else if |cs[0].content| <= remaining then PassedOver(cs[1..], remaining - |cs[0].content|)
    else [OmissionFor(cs[0])] + PassedOver(cs[1..], remaining)
  }

  const BY_RANK: (Component, Component) -> bool := (a, b) => Before(a, b)
  const BY_ID: (Component, Component) -> bool := (a: Component, b: Component) => a.id < b.id
  const OMISSION_ORDER: (Omission, Omission) -> bool := (a, b) => OmissionBefore(a, b)

  function ByRank(cs: seq<Component>): (r: seq<Component>)
    ensures multiset(r) == multiset(cs) && |r| == |cs|
  {
    Ordering.Sort(BY_RANK, cs)
  }

  function ById(cs: seq<Component>): (r: seq<Component>)
    ensures multiset(r) == multiset(cs) && |r| == |cs|
  {
    Ordering.Sort(BY_ID, cs)
  }

  function SortOmissions(os: seq<Omission>): (r: seq<Omission>)
    ensures multiset(r) == multiset(os) && |r| == |os|
  {
    Ordering.Sort(OMISSION_ORDER, os)
  }

  /** The allocation, on sorted tiers; the important tier shares its budget max-min fairly. */
  ghost function Allocation(sources: seq<Component>, budget: Budget): Result<Allotted>
  {
    var required, important, optional := RequiredOf(sources), ImportantOf(sources), OptionalOf(sources);
    if ContentSum(required) > budget.requiredBytes then Err(BudgetUnsatisfiable)
    else
      var alloc := FairShare.Pour(Sizes(important), if budget.importantBytes > 0 then budget.importantBytes else 0);
      Ok(Allotted(
        ByRank(required + Kept(important, alloc) + Taken(optional, budget.optionalBytes)),
        SortOmissions(Dropped(important, alloc) + PassedOver(optional, budget.optionalBytes))))
  }

  /** No identity occurs twice. */
  ghost predicate Distinct(cs: seq<Component>)
  {
    forall i, j :: 0 <= i < j < |cs| ==> cs[i].id != cs[j].id
  }

  ghost predicate DistinctOmissions(os: seq<Omission>)
  {
    forall i, j :: 0 <= i < j < |os| ==> os[i].id != os[j].id
  }

  ghost function Finish(r: Result<Allotted>, input: Input): Result<Envelope>
  {
    match r
    case Err(code) => Err(code)
    case Ok(allotted) =>
      var omissions := SortOmissions(input.omissions + allotted.omissions);
      if |omissions| > MAX_OMISSIONS then Err(InvalidComponent)
      else
        var e := Envelope(ENVELOPE_VERSION, COMPILER_VERSION, input.identity, input.budget, allotted.components, omissions);
        if Validation(e).Fail? then Err(Validation(e).code) else Ok(e)
  }

  /** What compiling returns. */
  ghost function Compilation(input: Input): Result<Envelope>
  {
    if InputFault(input).Fail? then Err(InputFault(input).code)
    else Finish(Allocation(Sources(input), input.budget), input)
  }

  // ----- the allocation as the compiler runs it -----

  /** Important components that got bytes but no whole rune. */
  function Emptied(cs: seq<Component>, alloc: seq<nat>): seq<Omission>
    requires |cs| == |alloc|
  {
    if cs == [] then []
    else (if alloc[0] > 0 && Cut(cs[0], alloc[0]) == [] then [OmissionFor(cs[0])] else []) + Emptied(cs[1..], alloc[1..])
  }

  /** Important components that got no bytes at all. */
  function Unfunded(cs: seq<Component>, alloc: seq<nat>): seq<Omission>
    requires |cs| == |alloc|
  {
    if cs == [] then []
    else (if alloc[0] == 0 then [OmissionFor(cs[0])] else []) + Unfunded(cs[1..], alloc[1..])
  }

  lemma {:induction false} DroppedSplits(cs: seq<Component>, alloc: seq<nat>)
    requires |cs| == |alloc|
    ensures multiset(Dropped(cs, alloc)) == multiset(Emptied(cs, alloc)) + multiset(Unfunded(cs, alloc))
  {
    if cs != [] { DroppedSplits(cs[1..], alloc[1..]); }
  }

  method SplitTiers(sources: seq<Component>) returns (required: seq<Component>, important: seq<Component>, optional: seq<Component>)
    ensures required == OfTier(sources, Required)
    ensures important == OfTier(sources, Important)
    ensures optional == OfTier(sources, Optional)
  {
    required, important, optional := [], [], [];
    var i := 0;
    while i < |sources|
      invariant 0 <= i <= |sources|
      invariant OfTier(sources, Required) == required + OfTier(sources[i..], Required)
      invariant OfTier(sources, Important) == important + OfTier(sources[i..], Important)
      invariant OfTier(sources, Optional) == optional + OfTier(sources[i..], Optional)
    {
      var c := sources[i];
      assert sources[i..][0] == c && sources[i..][1..] == sources[i + 1..];
      match c.tier {
        case Required => required := required + [c];
        case Important => important := important + [c];
        case Optional => optional := optional + [c];
        case OtherTier =>
      }
      i := i + 1;
    }
  }

  method CutOne(c: Component, n: nat) returns (cut: seq<Component>)
    ensures cut == Cut(c, n)
  {
    if n == 0 { return []; }
    if n >= |c.content| { return [c]; }
    var tail := ValidTail(c.content, n);
    if tail == [] { return []; }
    return [c.(content := tail, includedBytes := |tail|, contentHash := Digest(tail), truncation := TailOnly)];
  }

  /** Cuts each important component to its share. */
  method CutImportant(important: seq<Component>, alloc: seq<nat>) returns (kept: seq<Component>, omitted: seq<Omission>)
    requires |important| == |alloc|
    ensures kept == Kept(important, alloc)
    ensures omitted == Emptied(important, alloc)
  {
    kept, omitted := [], [];
    var i := 0;
    assert important[0..] == important && alloc[0..] == alloc;
    ghost var all, none := Kept(important, alloc), Emptied(important, alloc);
    ghost var moreKept, moreOmitted := all, none;
    while i < |important|
      invariant 0 <= i <= |important|
      invariant moreKept == Kept(important[i..], alloc[i..]) && moreOmitted == Emptied(important[i..], alloc[i..])
      invariant all == kept + moreKept && none == omitted + moreOmitted
    {
      var cut := CutOne(important[i], alloc[i]);
      ShareStep(important, alloc, i);
      var omission := if alloc[i] > 0 && cut == [] then [OmissionFor(important[i])] else [];
      i := i + 1;
      moreKept, moreOmitted := Kept(important[i..], alloc[i..]), Emptied(important[i..], alloc[i..]);
      Regroup(kept, cut, moreKept);
      Regroup(omitted, omission, moreOmitted);
      kept, omitted := kept + cut, omitted + omission;
    }
  }

  lemma Regroup<T>(a: seq<T>, b: seq<T>, c: seq<T>)
    ensures a + (b + c) == (a + b) + c
  {
  }

  lemma ShareStep(cs: seq<Component>, alloc: seq<nat>, i: nat)
    requires |cs| == |alloc| && i < |cs|
    ensures Kept(cs[i..], alloc[i..]) == Cut(cs[i], alloc[i]) + Kept(cs[i + 1..], alloc[i + 1..])
    ensures Emptied(cs[i..], alloc[i..]) ==
              (if alloc[i] > 0 && Cut(cs[i], alloc[i]) == [] then [OmissionFor(cs[i])] else []) + Emptied(cs[i + 1..], alloc[i + 1..])
  {
    assert cs[i..][0] == cs[i] && cs[i..][1..] == cs[i + 1..];
    assert alloc[i..][0] == alloc[i] && alloc[i..][1..] == alloc[i + 1..];
  }

  method OmitUnfunded(important: seq<Component>, alloc: seq<nat>) returns (omitted: seq<Omission>)
    requires |important| == |alloc|
    ensures omitted == Unfunded(important, alloc)
  {
    omitted := [];
    var i := 0;
    while i < |important|
      invariant 0 <= i <= |important|
      invariant Unfunded(important, alloc) == omitted + Unfunded(important[i..], alloc[i..])
    {
      assert important[i..][0] == important[i] && important[i..][1..] == important[i + 1..];
      assert alloc[i..][0] == alloc[i] && alloc[i..][1..] == alloc[i + 1..];
      if alloc[i] == 0 { omitted := omitted + [OmissionFor(important[i])]; }
      i := i + 1;
    }
  }

  method TakeOptional(optional: seq<Component>, budget: int) returns (taken: seq<Component>, omitted: seq<Omission>)
    ensures taken == Taken(optional, budget)
    ensures omitted == PassedOver(optional, budget)
  {
    taken, omitted := [], [];
    var remaining, i := budget, 0;
    while i < |optional|
      invariant 0 <= i <= |optional|
      invariant Taken(optional, budget) == taken + Taken(optional[i..], remaining)
      invariant PassedOver(optional, budget) == omitted + PassedOver(optional[i..], remaining)
    {
      var c := optional[i];
      assert optional[i..][0] == c && optional[i..][1..] == optional[i + 1..];
      if |c.content| <= remaining {
        taken := taken + [c];
        remaining := remaining - |c.content|;
      } else {
        omitted := omitted + [OmissionFor(c)];
      }
      i := i + 1;
    }
  }

  method Allocate(sources: seq<Component>, budget: Budget) returns (r: Result<Allotted>)
    requires Distinct(sources)
    ensures r == Allocation(sources, budget)
  {
    var required, important, optional := SplitTiers(sources);
    required, important := ByRank(required), ByRank(important);
    if ContentSum(required) > budget.requiredBytes { return Err(BudgetUnsatisfiable); }
    var shares := FairShare.BalancedAlloc(Sizes(important), budget.importantBytes);
    var alloc := shares[..];
    ghost var poured: nat := if budget.importantBytes > 0 then budget.importantBytes else 0;
    FairShare.FastIsPour(alloc, Sizes(important), poured);
    var kept, emptied := CutImportant(important, alloc);
    var unfunded := OmitUnfunded(important, alloc);
    var omitted := emptied + unfunded;
    optional := ById(optional);
    var taken, passedOver := TakeOptional(optional, budget.optionalBytes);
    DroppedSplits(important, alloc);
    AllottedIds(sources, alloc, budget.optionalBytes);
    OmissionsComparable(Dropped(important, alloc) + passedOver);
    Ordering.SortCanonical(OMISSION_ORDER, Dropped(important, alloc) + passedOver, omitted + passedOver);
    return Ok(Allotted(ByRank(required + kept + taken), SortOmissions(omitted + passedOver)));
  }

  /** Compiles resolved sources and engine contracts into a validated envelope. */
  method CompileContext(input: Input) returns (r: Result<Envelope>)
    ensures r == Compilation(input)
  {
    var check := CheckInput(input);
    if check.Fail? { return Err(check.code); }
    InputMeaning(input);
    var allotted := Allocate(input.components + [input.execution, input.output], input.budget);
    if allotted.Err? { return Err(allotted.code); }
    var omissions := SortOmissions(input.omissions + allotted.value.omissions);
    if |omissions| > MAX_OMISSIONS { return Err(InvalidComponent); }
    var e := Envelope(ENVELOPE_VERSION, COMPILER_VERSION, input.identity, input.budget, allotted.value.components, omissions);
    check := ValidateContextEnvelope(e);
    if check.Fail? { return Err(check.code); }
    return Ok(e);
  }

  // ----- identities in an allocation -----

  lemma DistinctCounts(cs: seq<Component>)
    requires Distinct(cs)
    ensures forall c :: c in cs ==> multiset(cs)[c] == 1
    ensures forall c, d :: c in cs && d in cs && c.id == d.id ==> c == d
  {
    Ordering.CountsOnce(cs);
    forall c, d | c in cs && d in cs && c.id == d.id ensures c == d {
      var i :| 0 <= i < |cs| && cs[i] == c;
      var j :| 0 <= j < |cs| && cs[j] == d;
      assert !(i < j) && !(j < i);
    }
  }

  lemma ComponentsComparable(cs: seq<Component>)
    requires Distinct(cs)
    ensures Ordering.StrictPartial(BY_RANK) && Ordering.Comparable(BY_RANK, multiset(cs))
    ensures Ordering.StrictPartial(BY_ID) && Ordering.Comparable(BY_ID, multiset(cs))
  {
    DistinctCounts(cs);
  }

  lemma OmissionsComparable(os: seq<Omission>)
    requires DistinctOmissions(os)
    ensures Ordering.StrictPartial(OMISSION_ORDER) && Ordering.Comparable(OMISSION_ORDER, multiset(os))
  {
    Ordering.CountsOnce(os);
    forall x, y | x in multiset(os) && y in multiset(os) && x != y ensures x.id != y.id {
      var i :| 0 <= i < |os| && os[i] == x;
      var j :| 0 <= j < |os| && os[j] == y;
      assert i < j || j < i;
    }
  }

  lemma SingleIds(c: Component, o: Omission)
    ensures ComponentIds([c]) == {c.id} && OmissionIds([o]) == {o.id}
  {
    assert [c][0] == c && [o][0] == o;
  }

  lemma ComponentsConcat(a: seq<Component>, b: seq<Component>)
    ensures ComponentIds(a + b) == ComponentIds(a) + ComponentIds(b)
    ensures Distinct(a) && Distinct(b) && ComponentIds(a) !! ComponentIds(b) ==> Distinct(a + b)
  {
    var ids := ComponentIds(a) + ComponentIds(b);
    forall id ensures id in ComponentIds(a + b) <==> id in ids {
      if id in ComponentIds(a) {
        var i :| 0 <= i < |a| && a[i].id == id;
        assert (a + b)[i].id == id;
      }
      if id in ComponentIds(b) {
        var i :| 0 <= i < |b| && b[i].id == id;
        assert (a + b)[|a| + i].id == id;
      }
    }
    if Distinct(a) && Distinct(b) && ComponentIds(a) !! ComponentIds(b) {
      forall i, j | 0 <= i < j < |a + b| ensures (a + b)[i].id != (a + b)[j].id {
        if i < |a| <= j { assert a[i].id in ComponentIds(a) && b[j - |a|].id in ComponentIds(b); }
      }
    }
  }

  lemma OmissionsConcat(a: seq<Omission>, b: seq<Omission>)
    ensures OmissionIds(a + b) == OmissionIds(a) + OmissionIds(b)
    ensures DistinctOmissions(a) && DistinctOmissions(b) && OmissionIds(a) !! OmissionIds(b) ==> DistinctOmissions(a + b)
  {
    var ids := OmissionIds(a) + OmissionIds(b);
    forall id ensures id in OmissionIds(a + b) <==> id in ids {
      if id in OmissionIds(a) {
        var i :| 0 <= i < |a| && a[i].id == id;
        assert (a + b)[i].id == id;
      }
      if id in OmissionIds(b) {
        var i :| 0 <= i < |b| && b[i].id == id;
        assert (a + b)[|a| + i].id == id;
      }
    }
    if DistinctOmissions(a) && DistinctOmissions(b) && OmissionIds(a) !! OmissionIds(b) {
      forall i, j | 0 <= i < j < |a + b| ensures (a + b)[i].id != (a + b)[j].id {
        if i < |a| <= j { assert a[i].id in OmissionIds(a) && b[j - |a|].id in OmissionIds(b); }
      }
    }
  }

  lemma ComponentsPermuted(cs: seq<Component>, ds: seq<Component>)
    requires multiset(cs) == multiset(ds)
    ensures ComponentIds(cs) == ComponentIds(ds)
    ensures Distinct(cs) ==> Distinct(ds)
    ensures forall c :: c in cs <==> c in ds
  {
    forall c ensures c in cs <==> c in ds { assert c in multiset(cs) <==> c in multiset(ds); }
    forall id ensures id in ComponentIds(cs) <==> id in ComponentIds(ds) {
      if id in ComponentIds(cs) { var i :| 0 <= i < |cs| && cs[i].id == id; assert cs[i] in ds; }
      if id in ComponentIds(ds) { var i :| 0 <= i < |ds| && ds[i].id == id; assert ds[i] in cs; }
    }
    if Distinct(cs) {
      DistinctCounts(cs);
      forall i, j | 0 <= i < j < |ds| ensures ds[i].id != ds[j].id {
        assert ds[i] in ds && ds[j] in ds;
        assert multiset(cs)[ds[i]] == 1;
        if ds[i] == ds[j] { Ordering.SamePlaces(ds, i, j); }
      }
    }
  }

  lemma {:induction false} CutId(c: Component, n: nat)
    ensures |Cut(c, n)| <= 1
    ensures Cut(c, n) != [] ==> Cut(c, n)[0].id == c.id && Cut(c, n)[0].kind == c.kind && Cut(c, n)[0].tier == c.tier
  {
  }

  lemma {:induction false} KeptIds(cs: seq<Component>, alloc: seq<nat>)
    requires |cs| == |alloc| && Distinct(cs)
    ensures Distinct(Kept(cs, alloc)) && DistinctOmissions(Dropped(cs, alloc))
    ensures ComponentIds(Kept(cs, alloc)) !! OmissionIds(Dropped(cs, alloc))
    ensures ComponentIds(Kept(cs, alloc)) + OmissionIds(Dropped(cs, alloc)) == ComponentIds(cs)
  {
    if cs != [] {
      assert cs == [cs[0]] + cs[1..];
      ComponentsConcat([cs[0]], cs[1..]);
      assert forall i :: 0 <= i < |cs| - 1 ==> cs[1..][i] == cs[i + 1];
      KeptIds(cs[1..], alloc[1..]);
      CutId(cs[0], alloc[0]);
      ComponentsConcat(Cut(cs[0], alloc[0]), Kept(cs[1..], alloc[1..]));
      var o := if Cut(cs[0], alloc[0]) == [] then [OmissionFor(cs[0])] else [];
      OmissionsConcat(o, Dropped(cs[1..], alloc[1..]));
      assert cs[0].id !in ComponentIds(cs[1..]);
      SingleIds(cs[0], OmissionFor(cs[0]));
      if Cut(cs[0], alloc[0]) != [] { SingleIds(Cut(cs[0], alloc[0])[0], OmissionFor(cs[0])); }
      assert ComponentIds(Cut(cs[0], alloc[0])) + OmissionIds(o) == {cs[0].id};
    }
  }

  lemma {:induction false} TakenIds(cs: seq<Component>, remaining: int)
    requires Distinct(cs)
    ensures Distinct(Taken(cs, remaining)) && DistinctOmissions(PassedOver(cs, remaining))
    ensures ComponentIds(Taken(cs, remaining)) !! OmissionIds(PassedOver(cs, remaining))
    ensures ComponentIds(Taken(cs, remaining)) + OmissionIds(PassedOver(cs, remaining)) == ComponentIds(cs)
  {
    if cs != [] {
      assert cs == [cs[0]] + cs[1..];
      ComponentsConcat([cs[0]], cs[1..]);
      assert forall i :: 0 <= i < |cs| - 1 ==> cs[1..][i] == cs[i + 1];
      SingleIds(cs[0], OmissionFor(cs[0]));
      assert cs[0].id !in ComponentIds(cs[1..]);
      if |cs[0].content| <= remaining {
        var left := remaining - |cs[0].content|;
        TakenIds(cs[1..], left);
        ComponentsConcat([cs[0]], Taken(cs[1..], left));
      } else {
        TakenIds(cs[1..], remaining);
        OmissionsConcat([OmissionFor(cs[0])], PassedOver(cs[1..], remaining));
      }
    }
  }

  lemma {:induction false} TierMember(cs: seq<Component>, tier: Tier, c: Component)
    ensures c in OfTier(cs, tier) <==> c in cs && c.tier == tier
  {
    if cs != [] {
      assert cs == [cs[0]] + cs[1..];
      TierMember(cs[1..], tier, c);
    }
  }

  lemma {:induction false} TierDistinct(cs: seq<Component>, tier: Tier)
    requires Distinct(cs)
    ensures Distinct(OfTier(cs, tier))
  {
    if cs != [] {
      var rest, ds := cs[1..], OfTier(cs[1..], tier);
      assert forall i :: 0 <= i < |rest| ==> rest[i] == cs[i + 1];
      TierDistinct(rest, tier);
      forall i | 0 <= i < |ds| ensures ds[i].id != cs[0].id {
        TierMember(rest, tier, ds[i]);
        hide OfTier;
        var j :| 0 <= j < |rest| && rest[j] == ds[i];
        assert cs[j + 1] == ds[i];
      }
    }
  }

  lemma TierMembers(cs: seq<Component>, tier: Tier)
    ensures forall c :: c in OfTier(cs, tier) <==> c in cs && c.tier == tier
    ensures Distinct(cs) ==> Distinct(OfTier(cs, tier))
  {
    hide OfTier, Distinct;
    forall c: Component ensures c in OfTier(cs, tier) <==> c in cs && c.tier == tier { TierMember(cs, tier, c); }
    if Distinct(cs) { TierDistinct(cs, tier); }
  }

  /** The multiset of a tier depends only on the multiset of the sources. */
  lemma {:induction false} TierCounts(cs: seq<Component>, tier: Tier, c: Component)
    ensures multiset(OfTier(cs, tier))[c] == if c.tier == tier then multiset(cs)[c] else 0
  {
    if cs != [] {
      assert cs == [cs[0]] + cs[1..];
      TierCounts(cs[1..], tier, c);
    }
  }

  /** Sources of one tier, in the order the tier is served. */
  function RequiredOf(sources: seq<Component>): seq<Component> { ByRank(OfTier(sources, Required)) }
  function ImportantOf(sources: seq<Component>): seq<Component> { ByRank(OfTier(sources, Important)) }
  function OptionalOf(sources: seq<Component>): seq<Component> { ById(OfTier(sources, Optional)) }

  lemma TierFacts(sources: seq<Component>)
    requires Distinct(sources)
    ensures Distinct(RequiredOf(sources)) && Distinct(ImportantOf(sources)) && Distinct(OptionalOf(sources))
    ensures forall c :: c in RequiredOf(sources) <==> c in sources && c.tier == Required
    ensures forall c :: c in ImportantOf(sources) <==> c in sources && c.tier == Important
    ensures forall c :: c in OptionalOf(sources) <==> c in sources && c.tier == Optional
  {
    TierMembers(sources, Required);
    TierMembers(sources, Important);
    TierMembers(sources, Optional);
    ComponentsPermuted(OfTier(sources, Required), RequiredOf(sources));
    ComponentsPermuted(OfTier(sources, Important), ImportantOf(sources));
    ComponentsPermuted(OfTier(sources, Optional), OptionalOf(sources));
  }

  lemma TiersDisjoint(sources: seq<Component>, a: seq<Component>, b: seq<Component>, s: Tier, t: Tier)
    requires Distinct(sources) && s != t
    requires forall c :: c in a ==> c in sources && c.tier == s
    requires forall c :: c in b ==> c in sources && c.tier == t
    ensures ComponentIds(a) !! ComponentIds(b)
  {
    DistinctCounts(sources);
    forall i, j | 0 <= i < |a| && 0 <= j < |b| ensures a[i].id != b[j].id {
      assert a[i] in a && b[j] in b;
    }
  }

  lemma TiersCover(sources: seq<Component>)
    requires Distinct(sources) && forall c :: c in sources ==> c.tier != OtherTier
    ensures ComponentIds(sources) == ComponentIds(RequiredOf(sources)) + ComponentIds(ImportantOf(sources)) + ComponentIds(OptionalOf(sources))
  {
    TierFacts(sources);
    var r, m, o := RequiredOf(sources), ImportantOf(sources), OptionalOf(sources);
    SubIds(r, sources);
    SubIds(m, sources);
    SubIds(o, sources);
    forall id | id in ComponentIds(sources) ensures id in ComponentIds(r) + ComponentIds(m) + ComponentIds(o) {
      var i :| 0 <= i < |sources| && sources[i].id == id;
      assert sources[i] in r || sources[i] in m || sources[i] in o;
    }
  }

  lemma SubIds(a: seq<Component>, b: seq<Component>)
    requires forall c :: c in a ==> c in b
    ensures ComponentIds(a) <= ComponentIds(b)
  {
    forall id | id in ComponentIds(a) ensures id in ComponentIds(b) {
      var i :| 0 <= i < |a| && a[i].id == id;
      assert a[i] in b;
    }
  }

  /** Every source is spent exactly once: its identity ends among the components or
      among the omissions, never in both and never twice. */
  lemma AllottedIds(sources: seq<Component>, alloc: seq<nat>, remaining: int)
    requires Distinct(sources) && |alloc| == |ImportantOf(sources)|
    ensures
      var components := RequiredOf(sources) + Kept(ImportantOf(sources), alloc) + Taken(OptionalOf(sources), remaining);
      var omissions := Dropped(ImportantOf(sources), alloc) + PassedOver(OptionalOf(sources), remaining);
      && Distinct(components) && DistinctOmissions(omissions)
      && ComponentIds(components) !! OmissionIds(omissions)
      && ((forall c :: c in sources ==> c.tier != OtherTier) ==>
            ComponentIds(components) + OmissionIds(omissions) == ComponentIds(sources))
  {
    TierFacts(sources);
    var r, m, o := RequiredOf(sources), ImportantOf(sources), OptionalOf(sources);
    TiersDisjoint(sources, r, m, Required, Important);
    TiersDisjoint(sources, r, o, Required, Optional);
    TiersDisjoint(sources, m, o, Important, Optional);
    if forall c :: c in sources ==> c.tier != OtherTier { TiersCover(sources); }
    KeptIds(m, alloc);
    TakenIds(o, remaining);
    ComponentsConcat(r, Kept(m, alloc));
    ComponentsConcat(r + Kept(m, alloc), Taken(o, remaining));
    OmissionsConcat(Dropped(m, alloc), PassedOver(o, remaining));
  }

  // ----- what a sound input is -----

  ghost predicate SoundSource(c: Component)
  {
    && c.kind != ExecutionContract && c.kind != OutputContract
    && CheckComponent(c).Pass? && c.truncation == Untruncated
  }

  ghost predicate SoundContract(c: Component, kind: Kind)
  {
    c.kind == kind && c.tier == Required && CheckComponent(c).Pass?
  }

  lemma {:induction false} SourceLoopMeaning(cs: seq<Component>, seen: set<Id>)
    ensures SourceFault(cs, seen).Pass? <==>
              (forall c :: c in cs ==> SoundSource(c)) && Distinct(cs) && ComponentIds(cs) !! seen
  {
    if cs != [] {
      var c, rest := cs[0], cs[1..];
      assert cs == [c] + rest;
      SourceLoopMeaning(rest, seen + {c.id});
      ComponentsConcat([c], rest);
      SingleIds(c, OmissionFor(c));
      assert c in cs && forall x :: x in cs <==> x == c || x in rest;
      assert c.id in seen ==> ComponentIds(cs) * seen != {} by {
        if c.id in seen { assert c.id in ComponentIds(cs) * seen; }
      }
      assert forall i :: 0 <= i < |rest| ==> rest[i] == cs[i + 1];
      if Distinct(cs) {
        forall i | 0 <= i < |rest| ensures rest[i].id != c.id { assert cs[i + 1].id != cs[0].id; }
        assert Distinct(rest) && ComponentIds(rest) !! {c.id};
      }
    }
  }

  lemma {:induction false} SourceOmissionLoopMeaning(os: seq<Omission>, seen: set<Id>)
    ensures SourceOmissionFault(os, seen).Pass? <==>
              (forall o :: o in os ==> CheckOmission(o).Pass?) && DistinctOmissions(os) && OmissionIds(os) !! seen
  {
    if os != [] {
      var o, rest := os[0], os[1..];
      assert os == [o] + rest;
      SourceOmissionLoopMeaning(rest, seen + {o.id});
      OmissionsConcat([o], rest);
      assert [o][0] == o && OmissionIds([o]) == {o.id};
      assert o in os && forall x :: x in os <==> x == o || x in rest;
      assert forall i :: 0 <= i < |rest| ==> rest[i] == os[i + 1];
      if DistinctOmissions(os) {
        forall i | 0 <= i < |rest| ensures rest[i].id != o.id { assert os[i + 1].id != os[0].id; }
        assert DistinctOmissions(rest) && OmissionIds(rest) !! {o.id};
      }
    }
  }

  ghost predicate SoundInput(input: Input)
  {
    && BudgetSound(input.budget)
    && !BlankAscii(input.identity.runId) && !BlankAscii(input.identity.nodeId) && input.identity.attempt >= 1
    && |input.components| <= MAX_COMPONENTS && |input.omissions| <= MAX_OMISSIONS
    && (forall c :: c in input.components ==> SoundSource(c))
    && (forall o :: o in input.omissions ==> CheckOmission(o).Pass?)
    && SoundContract(input.execution, ExecutionContract) && SoundContract(input.output, OutputContract)
    && Distinct(Sources(input)) && DistinctOmissions(input.omissions)
    && ComponentIds(Sources(input)) !! OmissionIds(input.omissions)
  }

  function Sources(input: Input): seq<Component> { input.components + [input.execution, input.output] }

  lemma SourcesDistinct(cs: seq<Component>, a: Component, b: Component)
    ensures ComponentIds(cs + [a, b]) == ComponentIds(cs) + {a.id, b.id}
    ensures Distinct(cs + [a, b]) <==>
              Distinct(cs) && a.id !in ComponentIds(cs) && b.id !in ComponentIds(cs) && a.id != b.id
  {
    var all := cs + [a, b];
    SingleIds(a, OmissionFor(a));
    SingleIds(b, OmissionFor(b));
    assert all == cs + [a] + [b];
    ComponentsConcat(cs, [a]);
    ComponentsConcat(cs + [a], [b]);
    var n := |cs|;
    assert all[n] == a && all[n + 1] == b;
    if Distinct(all) {
      forall i, j | 0 <= i < j < n ensures cs[i].id != cs[j].id { assert all[i].id != all[j].id; }
      forall i | 0 <= i < n ensures cs[i].id != a.id && cs[i].id != b.id {
        assert all[i].id != all[n].id && all[i].id != all[n + 1].id;
      }
    }
  }

  /** The input passes its checks exactly when every part is sound and no identity repeats. */
  lemma InputMeaning(input: Input)
    ensures InputFault(input).Pass? <==> SoundInput(input)
  {
    SourceLoopMeaning(input.components, {});
    SourceOmissionLoopMeaning(input.omissions, ComponentIds(input.components));
    SourcesDistinct(input.components, input.execution, input.output);
    assert EngineContractFault(input.execution, ExecutionContract).Pass? <==> SoundContract(input.execution, ExecutionContract);
    assert EngineContractFault(input.output, OutputContract).Pass? <==> SoundContract(input.output, OutputContract);
  }
}
