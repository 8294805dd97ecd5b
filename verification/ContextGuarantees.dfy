/** What compiling guarantees: when the final validation can fail, what happens to each
    source, and that the order of the sources does not matter. */
module ContextGuarantees {
  import opened Utf8Tail
  import opened ContextContract
  import opened ContextCompiler
  import Ordering
  import FairShare

  // ----- byte usage -----

  lemma {:induction false} UsageConcat(a: seq<Component>, b: seq<Component>, tiers: set<Tier>)
    ensures Usage(a + b, tiers) == Usage(a, tiers) + Usage(b, tiers)
  {
    if a == [] {
      assert a + b == b;
    } else {
      assert (a + b)[1..] == a[1..] + b;
      UsageConcat(a[1..], b, tiers);
    }
  }

  lemma {:induction false} UsageInsert(c: Component, cs: seq<Component>, tiers: set<Tier>)
    ensures Usage(Ordering.Insert(BY_RANK, c, cs), tiers) == Usage([c], tiers) + Usage(cs, tiers)
  {
    if cs == [] {
    } else if BY_RANK(c, cs[0]) {
      UsageConcat([c], cs, tiers);
    } else {
      UsageInsert(c, cs[1..], tiers);
      UsageConcat([cs[0]], Ordering.Insert(BY_RANK, c, cs[1..]), tiers);
    }
  }

  lemma {:induction false} UsageSorted(cs: seq<Component>, tiers: set<Tier>)
    ensures Usage(ByRank(cs), tiers) == Usage(cs, tiers)
  {
    if cs != [] {
      UsageSorted(cs[1..], tiers);
      UsageInsert(cs[0], Ordering.Sort(BY_RANK, cs[1..]), tiers);
    }
  }

  /** Components of one tier count for that tier only. */
  lemma {:induction false} TierUsage(cs: seq<Component>, tier: Tier, tiers: set<Tier>)
    requires forall c :: c in cs ==> c.tier == tier && c.includedBytes == |c.content|
    ensures Usage(cs, tiers) == if tier in tiers then ContentSum(cs) else 0
  {
    if cs != [] {
      assert cs[0] in cs;
      TierUsage(cs[1..], tier, tiers);
    }
  }

  lemma {:induction false} KeptSum(cs: seq<Component>, alloc: seq<nat>)
    requires |cs| == |alloc| && forall i :: 0 <= i < |cs| ==> alloc[i] <= |cs[i].content|
    ensures ContentSum(Kept(cs, alloc)) <= FairShare.Sum(alloc)
  {
    if cs != [] {
      assert forall i :: 0 <= i < |cs| - 1 ==> cs[1..][i] == cs[i + 1] && alloc[1..][i] == alloc[i + 1];
      KeptSum(cs[1..], alloc[1..]);
      assert ContentSum(Cut(cs[0], alloc[0])) <= alloc[0];
      ContentConcat(Cut(cs[0], alloc[0]), Kept(cs[1..], alloc[1..]));
    }
  }

  lemma {:induction false} ContentConcat(a: seq<Component>, b: seq<Component>)
    ensures ContentSum(a + b) == ContentSum(a) + ContentSum(b)
  {
    if a == [] {
      assert a + b == b;
    } else {
      assert (a + b)[1..] == a[1..] + b;
      ContentConcat(a[1..], b);
    }
  }

  lemma {:induction false} TakenSum(cs: seq<Component>, remaining: nat)
    ensures ContentSum(Taken(cs, remaining)) <= remaining
    ensures forall c :: c in Taken(cs, remaining) ==> c in cs
    ensures forall o :: o in PassedOver(cs, remaining) ==> exists c :: c in cs && o == OmissionFor(c)
  {
    if cs != [] {
      assert cs[0] in cs && forall c :: c in cs[1..] ==> c in cs;
      if |cs[0].content| <= remaining {
        TakenSum(cs[1..], remaining - |cs[0].content|);
      } else {
        TakenSum(cs[1..], remaining);
      }
    }
  }

  // ----- what becomes of one component -----

  /** x is source c as it may be included: whole, or cut to the longest valid tail. */
  ghost predicate IncludedAs(c: Component, x: Component)
  {
    || x == c
    || (&& c.tier == Important && x.content != [] && |x.content| < |c.content|
        && x == c.(content := x.content, includedBytes := |x.content|, contentHash := Digest(x.content), truncation := TailOnly)
        && x.content == c.content[|c.content| - |x.content|..] && ValidUtf8(x.content))
  }

  /** A sound source included either way passes the validator's component check. */
  lemma IncludedIsSound(c: Component, x: Component)
    requires CheckComponent(c).Pass? && c.truncation == Untruncated && IncludedAs(c, x)
    ensures CheckComponent(x).Pass?
  {
  }

  lemma CutIsIncluded(c: Component, n: nat)
    requires ValidUtf8(c.content) && c.tier == Important
    ensures Cut(c, n) != [] ==> IncludedAs(c, Cut(c, n)[0])
  {
    TailIsLongestValid(c.content, n);
  }

  lemma {:induction false} KeptMembers(cs: seq<Component>, alloc: seq<nat>)
    requires |cs| == |alloc|
    requires forall c :: c in cs ==> CheckComponent(c).Pass? && c.tier == Important
    ensures forall x :: x in Kept(cs, alloc) ==> exists c :: c in cs && IncludedAs(c, x)
    ensures forall o :: o in Dropped(cs, alloc) ==> exists c :: c in cs && o == OmissionFor(c)
  {
    if cs != [] {
      assert cs[0] in cs && forall c :: c in cs[1..] ==> c in cs;
      KeptMembers(cs[1..], alloc[1..]);
      CutIsIncluded(cs[0], alloc[0]);
    }
  }

  // ----- the allocation of a sound input -----

  ghost predicate SoundSources(sources: seq<Component>)
  {
    Distinct(sources) && forall c :: c in sources ==> CheckComponent(c).Pass? && c.truncation == Untruncated
  }

  /** The important shares of an allocation. */
  ghost function Shares(sources: seq<Component>, budget: Budget): (alloc: seq<nat>)
    ensures |alloc| == |ImportantOf(sources)|
  {
    FairShare.Pour(Sizes(ImportantOf(sources)), if budget.importantBytes > 0 then budget.importantBytes else 0)
  }

  lemma SharesFair(sources: seq<Component>, budget: Budget)
    requires budget.importantBytes >= 0
    ensures FairShare.MaxMinFair(Shares(sources, budget), Sizes(ImportantOf(sources)), budget.importantBytes)
    ensures forall i :: 0 <= i < |Shares(sources, budget)| ==> Shares(sources, budget)[i] <= |ImportantOf(sources)[i].content|
    ensures FairShare.Sum(Shares(sources, budget)) <= budget.importantBytes
  {
    FairShare.PourIsFair(Sizes(ImportantOf(sources)), budget.importantBytes);
  }

  ghost function Included(sources: seq<Component>, budget: Budget): seq<Component>
  {
    RequiredOf(sources) + Kept(ImportantOf(sources), Shares(sources, budget)) + Taken(OptionalOf(sources), budget.optionalBytes)
  }

  ghost function Omitted(sources: seq<Component>, budget: Budget): seq<Omission>
  {
    Dropped(ImportantOf(sources), Shares(sources, budget)) + PassedOver(OptionalOf(sources), budget.optionalBytes)
  }

  /** Nothing is invented: components and omissions come from sources; a required
      component is included exactly as it came, and none is ever omitted. */
  lemma AllocationMembers(sources: seq<Component>, budget: Budget)
    requires SoundSources(sources) && BudgetSound(budget)
    ensures forall x :: x in Included(sources, budget) ==> exists c :: c in sources && IncludedAs(c, x)
    ensures forall c :: c in sources && c.tier == Required ==> c in Included(sources, budget)
    ensures forall o :: o in Omitted(sources, budget) ==> exists c :: c in sources && c.tier != Required && o == OmissionFor(c)
  {
    TierFacts(sources);
    KeptMembers(ImportantOf(sources), Shares(sources, budget));
    TakenSum(OptionalOf(sources), budget.optionalBytes);
    forall x | x in Included(sources, budget) ensures exists c :: c in sources && IncludedAs(c, x) {
      if x in RequiredOf(sources) {
        assert x in sources && IncludedAs(x, x);
      } else if x in Kept(ImportantOf(sources), Shares(sources, budget)) {
        var c :| c in ImportantOf(sources) && IncludedAs(c, x);
        assert c in sources;
      } else {
        assert x in OptionalOf(sources);
        assert x in sources && IncludedAs(x, x);
      }
    }
    forall o | o in Omitted(sources, budget) ensures exists c :: c in sources && c.tier != Required && o == OmissionFor(c) {
      if o in Dropped(ImportantOf(sources), Shares(sources, budget)) {
        var c :| c in ImportantOf(sources) && o == OmissionFor(c);
        assert c in sources && c.tier == Important;
      } else {
        var c :| c in OptionalOf(sources) && o == OmissionFor(c);
        assert c in sources && c.tier == Optional;
      }
    }
  }

  lemma TierBytes(cs: seq<Component>, tier: Tier)
    requires forall c :: c in cs ==> c.tier == tier && c.includedBytes == |c.content|
    ensures Usage(cs, ALL_TIERS) == ContentSum(cs)
    ensures Usage(cs, {Required}) == if tier == Required then ContentSum(cs) else 0
    ensures Usage(cs, {Important}) == if tier == Important then ContentSum(cs) else 0
    ensures Usage(cs, {Optional}) == if tier == Optional then ContentSum(cs) else 0
  {
    TierUsage(cs, tier, ALL_TIERS);
    TierUsage(cs, tier, {Required});
    TierUsage(cs, tier, {Important});
    TierUsage(cs, tier, {Optional});
  }

  lemma ThreeUsage(r: seq<Component>, k: seq<Component>, t: seq<Component>, tiers: set<Tier>)
    ensures Usage(r + k + t, tiers) == Usage(r, tiers) + Usage(k, tiers) + Usage(t, tiers)
  {
    UsageConcat(r, k, tiers);
    UsageConcat(r + k, t, tiers);
  }

  /** Every tier, and the total, stays within its budget. */
  lemma AllocationWithinBudget(sources: seq<Component>, budget: Budget)
    requires SoundSources(sources) && BudgetSound(budget)
    requires ContentSum(RequiredOf(sources)) <= budget.requiredBytes
    ensures WithinBudget(Included(sources, budget), budget)
  {
    TierFacts(sources);
    SharesFair(sources, budget);
    var r, m, o := RequiredOf(sources), ImportantOf(sources), OptionalOf(sources);
    var k, t := Kept(m, Shares(sources, budget)), Taken(o, budget.optionalBytes);
    KeptMembers(m, Shares(sources, budget));
    KeptSum(m, Shares(sources, budget));
    TakenSum(o, budget.optionalBytes);
    TierBytes(r, Required);
    forall x | x in k ensures x.tier == Important && x.includedBytes == |x.content| {
      var c :| c in m && IncludedAs(c, x);
      assert c in sources;
    }
    TierBytes(k, Important);
    forall x | x in t ensures x.tier == Optional && x.includedBytes == |x.content| { assert x in o; }
    TierBytes(t, Optional);
    ThreeUsage(r, k, t, ALL_TIERS);
    ThreeUsage(r, k, t, {Required});
    ThreeUsage(r, k, t, {Important});
    ThreeUsage(r, k, t, {Optional});
  }

  lemma MembersSound(sources: seq<Component>, budget: Budget)
    requires SoundSources(sources) && BudgetSound(budget)
    ensures forall x :: x in Included(sources, budget) ==> CheckComponent(x).Pass?
    ensures forall o :: o in Omitted(sources, budget) ==> CheckOmission(o).Pass?
  {
    AllocationMembers(sources, budget);
    forall x | x in Included(sources, budget) ensures CheckComponent(x).Pass? {
      var c :| c in sources && IncludedAs(c, x);
      IncludedIsSound(c, x);
    }
    forall o | o in Omitted(sources, budget) ensures CheckOmission(o).Pass? {
      var c :| c in sources && c.tier != Required && o == OmissionFor(c);
    }
  }

  lemma RankedCanonical(xs: seq<Component>)
    requires Distinct(xs) && forall x :: x in xs ==> CheckComponent(x).Pass?
    ensures CanonicalComponents(ByRank(xs))
  {
    ComponentsComparable(xs);
    Ordering.SortSorted(BY_RANK, xs);
    ComponentsPermuted(xs, ByRank(xs));
    var r := ByRank(xs);
    forall i | 0 <= i < |r| ensures CheckComponent(r[i]).Pass? { assert r[i] in r; }
    forall i, j | 0 <= i < j < |r| ensures Before(r[i], r[j]) && r[i].id != r[j].id {
      assert BY_RANK(r[i], r[j]);
    }
  }

  /** The allocation's components are canonical and its omissions are valid. */
  lemma AllocationCanonical(sources: seq<Component>, budget: Budget)
    requires SoundSources(sources) && BudgetSound(budget)
    ensures CanonicalComponents(ByRank(Included(sources, budget)))
    ensures ComponentIds(ByRank(Included(sources, budget))) == ComponentIds(Included(sources, budget))
    ensures forall x :: x in ByRank(Included(sources, budget)) <==> x in Included(sources, budget)
  {
    AllottedIds(sources, Shares(sources, budget), budget.optionalBytes);
    MembersSound(sources, budget);
    RankedCanonical(Included(sources, budget));
    ComponentsPermuted(Included(sources, budget), ByRank(Included(sources, budget)));
  }

  // ----- the compiled envelope -----

  ghost function Compiled(input: Input): Envelope
  {
    Envelope(ENVELOPE_VERSION, COMPILER_VERSION, input.identity, input.budget,
      ByRank(Included(Sources(input), input.budget)),
      SortOmissions(input.omissions + Omitted(Sources(input), input.budget)))
  }

  lemma SortedOmissionsCanonical(os: seq<Omission>, included: set<Id>)
    requires DistinctOmissions(os) && OmissionIds(os) !! included
    requires forall o :: o in os ==> CheckOmission(o).Pass?
    ensures CanonicalOmissions(SortOmissions(os), included)
  {
    var r := SortOmissions(os);
    OmissionsComparable(os);
    Ordering.SortSorted(OMISSION_ORDER, os);
    forall i | 0 <= i < |r| ensures CheckOmission(r[i]).Pass? && r[i].id !in included {
      assert r[i] in multiset(r) && r[i] in os;
      var k :| 0 <= k < |os| && os[k] == r[i];
      assert os[k].id in OmissionIds(os);
    }
    forall i, j | 0 <= i < j < |r| ensures OmissionBefore(r[i], r[j]) { assert OMISSION_ORDER(r[i], r[j]); }
  }

  lemma OmissionsSound(input: Input)
    requires SoundInput(input)
    ensures SoundSources(Sources(input))
    ensures CanonicalOmissions(Compiled(input).omissions, ComponentIds(Compiled(input).components))
  {
    var sources, budget := Sources(input), input.budget;
    forall c | c in sources ensures CheckComponent(c).Pass? && c.truncation == Untruncated {
      if c in input.components { assert SoundSource(c); }
    }
    AllocationCanonical(sources, budget);
    MembersSound(sources, budget);
    AllottedIds(sources, Shares(sources, budget), budget.optionalBytes);
    forall c | c in sources ensures c.tier != OtherTier { assert CheckComponent(c).Pass?; }
    assert OmissionIds(Omitted(sources, budget)) <= ComponentIds(sources);
    OmissionsConcat(input.omissions, Omitted(sources, budget));
    SortedOmissionsCanonical(input.omissions + Omitted(sources, budget), ComponentIds(Included(sources, budget)));
  }

  lemma RequiredSurvives(input: Input, c: Component)
    requires SoundInput(input) && c in Sources(input) && c.tier == Required
    ensures c in Compiled(input).components && HasKind(Compiled(input).components, c.kind)
  {
    OmissionsSound(input);
    AllocationMembers(Sources(input), input.budget);
    AllocationCanonical(Sources(input), input.budget);
    var cs := Compiled(input).components;
    assert c in cs;
    var i :| 0 <= i < |cs| && cs[i] == c;
  }

  lemma ComesFromSource(input: Input, x: Component) returns (c: Component)
    requires SoundInput(input) && x in Compiled(input).components
    ensures c in Sources(input) && IncludedAs(c, x)
  {
    OmissionsSound(input);
    hide Included, SoundSources, CanonicalOmissions, CanonicalComponents, Omitted, ByRank, SortOmissions, IncludedAs, Sources;
    AllocationMembers(Sources(input), input.budget);
    AllocationCanonical(Sources(input), input.budget);
    assert x in Included(Sources(input), input.budget);
    c :| c in Sources(input) && IncludedAs(c, x);
  }

  lemma TaskComesFromSources(input: Input)
    requires SoundInput(input) && HasKind(Compiled(input).components, NodeTask)
    ensures HasKind(input.components, NodeTask)
  {
    assert input.execution.kind != NodeTask && input.output.kind != NodeTask;
    hide SoundInput, Compiled;
    var cs := Compiled(input).components;
    var i :| 0 <= i < |cs| && cs[i].kind == NodeTask;
    var c := ComesFromSource(input, cs[i]);
    assert c.kind == NodeTask && c in input.components;
    var j :| 0 <= j < |input.components| && input.components[j] == c;
  }

  lemma ContractsIncluded(input: Input)
    requires SoundInput(input)
    ensures HasContracts(Compiled(input).components) <==> HasKind(input.components, NodeTask)
  {
    var n := |input.components|;
    assert Sources(input)[n] == input.execution && Sources(input)[n + 1] == input.output;
    RequiredSurvives(input, input.execution);
    RequiredSurvives(input, input.output);
    if HasKind(input.components, NodeTask) {
      var i :| 0 <= i < n && input.components[i].kind == NodeTask;
      assert SoundSource(input.components[i]) && input.components[i] in Sources(input);
      RequiredSurvives(input, input.components[i]);
    } else if HasKind(Compiled(input).components, NodeTask) {
      TaskComesFromSources(input);
    }
  }

  lemma BudgetKept(input: Input)
    requires SoundInput(input)
    requires ContentSum(RequiredOf(Sources(input))) <= input.budget.requiredBytes
    ensures WithinBudget(Compiled(input).components, input.budget)
  {
    OmissionsSound(input);
    AllocationWithinBudget(Sources(input), input.budget);
    UsageSorted(Included(Sources(input), input.budget), ALL_TIERS);
    UsageSorted(Included(Sources(input), input.budget), {Required});
    UsageSorted(Included(Sources(input), input.budget), {Important});
    UsageSorted(Included(Sources(input), input.budget), {Optional});
  }

  /** Sorting the budget omissions first and all omissions again changes nothing. */
  lemma OmissionsSortedOnce(input: Input)
    requires SoundInput(input)
    ensures SortOmissions(input.omissions + SortOmissions(Omitted(Sources(input), input.budget))) == Compiled(input).omissions
  {
    OmissionsSound(input);
    var sources, budget := Sources(input), input.budget;
    AllottedIds(sources, Shares(sources, budget), budget.optionalBytes);
    forall c | c in sources ensures c.tier != OtherTier { assert CheckComponent(c).Pass?; }
    assert OmissionIds(Omitted(sources, budget)) <= ComponentIds(sources);
    OmissionsConcat(input.omissions, Omitted(sources, budget));
    OmissionsComparable(input.omissions + Omitted(sources, budget));
    Ordering.SortCanonical(OMISSION_ORDER, input.omissions + Omitted(sources, budget), input.omissions + SortOmissions(Omitted(sources, budget)));
  }

  /** What compiling returns once the input is sound and the required tier fits. */
  lemma CompilesTo(input: Input)
    requires InputFault(input).Pass?
    requires ContentSum(RequiredOf(Sources(input))) <= input.budget.requiredBytes
    requires |input.omissions| + |Omitted(Sources(input), input.budget)| <= MAX_OMISSIONS
    ensures Compilation(input) == if Validation(Compiled(input)).Pass? then Ok(Compiled(input)) else Err(Validation(Compiled(input)).code)
  {
    InputMeaning(input);
    OmissionsSortedOnce(input);
    var r := Allocation(Sources(input), input.budget);
    assert r == Ok(Allotted(Compiled(input).components, SortOmissions(Omitted(Sources(input), input.budget))));
    assert Compilation(input) == Finish(r, input);
  }

  /** The compiler refines the validator. For an input that passes the compiler's own
      checks and whose required tier fits, the final validation fails exactly for an
      identity made only of white space the compiler does not trim, for more than 128
      components, for more than 32 memory records, or for a missing node task. */
  lemma FinalValidationFails(input: Input)
    requires InputFault(input).Pass?
    requires ContentSum(RequiredOf(Sources(input))) <= input.budget.requiredBytes
    requires |input.omissions| + |Omitted(Sources(input), input.budget)| <= MAX_OMISSIONS
    ensures Compilation(input).Ok? ==> Compilation(input).value == Compiled(input)
    ensures Compilation(input).Err? <==>
              || BlankUnicode(input.identity.runId) || BlankUnicode(input.identity.nodeId)
              || |Compiled(input).components| > MAX_COMPONENTS
              || MemoryCount(Compiled(input).components) > MAX_SELECTED_MEMORY
              || !HasKind(input.components, NodeTask)
  {
    InputMeaning(input);
    CompilesTo(input);
    OmissionsSound(input);
    AllocationCanonical(Sources(input), input.budget);
    BudgetKept(input);
    ContractsIncluded(input);
    ValidationMeaning(Compiled(input));
    RequiredSurvives(input, Sources(input)[|input.components|]);
  }

  /** Exactly when compiling a checked input fails: the required tier is too large, the
      omissions are too many, or the final validation fails for one of its reasons. */
  lemma CompilationFails(input: Input)
    requires InputFault(input).Pass?
    ensures Compilation(input).Err? <==>
              || ContentSum(RequiredOf(Sources(input))) > input.budget.requiredBytes
              || |input.omissions| + |Omitted(Sources(input), input.budget)| > MAX_OMISSIONS
              || BlankUnicode(input.identity.runId) || BlankUnicode(input.identity.nodeId)
              || |Compiled(input).components| > MAX_COMPONENTS
              || MemoryCount(Compiled(input).components) > MAX_SELECTED_MEMORY
              || !HasKind(input.components, NodeTask)
    ensures Compilation(input).Ok? ==> Compilation(input).value == Compiled(input)
  {
    if ContentSum(RequiredOf(Sources(input))) <= input.budget.requiredBytes {
      if |input.omissions| + |Omitted(Sources(input), input.budget)| <= MAX_OMISSIONS {
        FinalValidationFails(input);
      } else {
        AllocationOmits(Sources(input), input.budget);
      }
    }
  }

  lemma IncompleteIdentityFails(r: Result<Allotted>, input: Input)
    requires !IdentityComplete(input.identity)
    ensures Finish(r, input).Err?
  {
    if r.Ok? {
      var omissions := SortOmissions(input.omissions + r.value.omissions);
      var e := Envelope(ENVELOPE_VERSION, COMPILER_VERSION, input.identity, input.budget, r.value.components, omissions);
      ValidationMeaning(e);
    }
  }

  /** An identity of vertical tabs passes the compiler's own check and then makes the
      final validation fail, so the compiler's check alone does not guarantee success. */
  lemma BlankIdentitySlipsThrough(input: Input)
    requires InputFault(input).Pass?
    ensures
      var renamed := input.(identity := input.identity.(runId := "\U{000B}"));
      InputFault(renamed).Pass? && Compilation(renamed).Err?
  {
    var renamed := input.(identity := input.identity.(runId := "\U{000B}"));
    assert '\U{000B}' in renamed.identity.runId;
    InputMeaning(input);
    assert Sources(renamed) == Sources(input);
    assert SoundInput(renamed);
    InputMeaning(renamed);
    IncompleteIdentityFails(Allocation(Sources(renamed), renamed.budget), renamed);
  }

  // ----- what each source gets -----

  lemma {:induction false} KeptAt(cs: seq<Component>, alloc: seq<nat>, i: nat)
    requires |cs| == |alloc| && i < |cs|
    ensures if Cut(cs[i], alloc[i]) == [] then OmissionFor(cs[i]) in Dropped(cs, alloc)
            else Cut(cs[i], alloc[i])[0] in Kept(cs, alloc)
  {
    if i > 0 { KeptAt(cs[1..], alloc[1..], i - 1); }
  }

  /** What may become of one important source: with a covering share it is kept whole;
      otherwise it is cut to its longest valid tail, at most three bytes short of the
      share, and omitted only for a share below four bytes. */
  ghost predicate FairlyCut(c: Component, share: nat, cut: seq<Component>)
  {
    if share >= |c.content| then cut == [c]
    else if cut == [] then share <= 3
    else
      && |cut| == 1 && cut[0].id == c.id && IncludedAs(c, cut[0]) && share - 3 <= |cut[0].content| <= share
      && forall k :: 0 <= k <= |c.content| && |c.content| - k <= share && ValidUtf8(c.content[k..]) ==>
           |c.content[k..]| <= |cut[0].content|
  }

  lemma CutIsFair(c: Component, share: nat)
    requires CheckComponent(c).Pass? && c.tier == Important
    ensures FairlyCut(c, share, Cut(c, share))
  {
    CutIsIncluded(c, share);
    TailIsLongestValid(c.content, share);
  }

  /** Every important source is cut fairly to its share of a max-min fair allocation, and
      what is left of it is included, or its omission is recorded. */
  lemma ImportantOutcome(input: Input, i: nat)
    requires SoundInput(input) && i < |ImportantOf(Sources(input))|
    ensures
      var c, share := ImportantOf(Sources(input))[i], Shares(Sources(input), input.budget)[i];
      exists cut :: FairlyCut(c, share, cut)
        && if cut == [] then OmissionFor(c) in Compiled(input).omissions else cut[0] in Compiled(input).components
    ensures FairShare.MaxMinFair(Shares(Sources(input), input.budget), Sizes(ImportantOf(Sources(input))), input.budget.importantBytes)
  {
    var sources, budget := Sources(input), input.budget;
    var m, alloc := ImportantOf(sources), Shares(sources, budget);
    OmissionsSound(input);
    SharesFair(sources, budget);
    TierFacts(sources);
    assert m[i] in m && m[i] in sources;
    CutIsFair(m[i], alloc[i]);
    KeptAt(m, alloc, i);
    if Cut(m[i], alloc[i]) == [] {
      assert OmissionFor(m[i]) in Omitted(sources, budget);
      assert OmissionFor(m[i]) in multiset(Compiled(input).omissions);
    } else {
      assert Cut(m[i], alloc[i])[0] in Included(sources, budget);
      assert Cut(m[i], alloc[i])[0] in multiset(Compiled(input).components);
    }
  }

  /** An optional record is taken exactly when it fits after the records taken before it. */
  lemma {:induction false} OptionalOutcome(cs: seq<Component>, remaining: int, i: nat)
    requires Distinct(cs) && i < |cs|
    ensures cs[i] in Taken(cs, remaining) <==> ContentSum(Taken(cs[..i], remaining)) + |cs[i].content| <= remaining
  {
    TakenMembers(cs[1..], remaining - |cs[0].content|);
    TakenMembers(cs[1..], remaining);
    assert forall j :: 0 <= j < |cs| - 1 ==> cs[1..][j] == cs[j + 1] && cs[j + 1].id != cs[0].id;
    if i == 0 {
      assert cs[..0] == [];
    } else {
      assert cs[..i][0] == cs[0] && cs[..i][1..] == cs[1..][..i - 1];
      assert cs[1..][i - 1] == cs[i] && cs[i] != cs[0];
      if |cs[0].content| <= remaining {
        OptionalOutcome(cs[1..], remaining - |cs[0].content|, i - 1);
      } else {
        OptionalOutcome(cs[1..], remaining, i - 1);
      }
    }
  }

  lemma {:induction false} TakenMembers(cs: seq<Component>, remaining: int)
    ensures forall c :: c in Taken(cs, remaining) ==> c in cs
  {
    if cs != [] {
      TakenMembers(cs[1..], remaining - |cs[0].content|);
      TakenMembers(cs[1..], remaining);
    }
  }

  // ----- the order of the sources does not matter -----

  ghost predicate SameUpToOrder(a: Input, b: Input)
  {
    && a.identity == b.identity && a.execution == b.execution && a.output == b.output && a.budget == b.budget
    && multiset(a.components) == multiset(b.components) && multiset(a.omissions) == multiset(b.omissions)
  }

  lemma OmissionsPermuted(os: seq<Omission>, ps: seq<Omission>)
    requires multiset(os) == multiset(ps)
    ensures forall o :: o in os <==> o in ps
    ensures OmissionIds(os) == OmissionIds(ps)
    ensures DistinctOmissions(os) ==> DistinctOmissions(ps)
  {
    forall o ensures o in os <==> o in ps { assert o in multiset(os) <==> o in multiset(ps); }
    forall id ensures id in OmissionIds(os) <==> id in OmissionIds(ps) {
      if id in OmissionIds(os) { var i :| 0 <= i < |os| && os[i].id == id; assert os[i] in ps; }
      if id in OmissionIds(ps) { var i :| 0 <= i < |ps| && ps[i].id == id; assert ps[i] in os; }
    }
    if DistinctOmissions(os) {
      OmissionsComparable(os);
      forall i, j | 0 <= i < j < |ps| ensures ps[i].id != ps[j].id {
        assert ps[i] in multiset(os) && ps[j] in multiset(os);
        if ps[i] == ps[j] { Ordering.SamePlaces(ps, i, j); }
      }
    }
  }

  lemma SourcesPermuted(a: Input, b: Input)
    requires SameUpToOrder(a, b)
    ensures multiset(Sources(a)) == multiset(Sources(b))
    ensures |a.components| == |b.components| && |a.omissions| == |b.omissions|
  {
    assert |a.components| == |multiset(a.components)| && |b.components| == |multiset(b.components)|;
    assert |a.omissions| == |multiset(a.omissions)| && |b.omissions| == |multiset(b.omissions)|;
  }

  lemma SoundnessPermuted(a: Input, b: Input)
    requires SameUpToOrder(a, b) && SoundInput(a)
    ensures SoundInput(b)
  {
    SourcesPermuted(a, b);
    ComponentsPermuted(Sources(a), Sources(b));
    ComponentsPermuted(a.components, b.components);
    OmissionsPermuted(a.omissions, b.omissions);
  }

  lemma TierCanonical(xs: seq<Component>, ys: seq<Component>, tier: Tier)
    requires multiset(xs) == multiset(ys) && Distinct(xs)
    ensures ByRank(OfTier(xs, tier)) == ByRank(OfTier(ys, tier)) && ById(OfTier(xs, tier)) == ById(OfTier(ys, tier))
  {
    forall c ensures multiset(OfTier(xs, tier))[c] == multiset(OfTier(ys, tier))[c] {
      TierCounts(xs, tier, c);
      TierCounts(ys, tier, c);
    }
    assert multiset(OfTier(xs, tier)) == multiset(OfTier(ys, tier));
    TierMembers(xs, tier);
    ComponentsComparable(OfTier(xs, tier));
    Ordering.SortCanonical(BY_RANK, OfTier(xs, tier), OfTier(ys, tier));
    Ordering.SortCanonical(BY_ID, OfTier(xs, tier), OfTier(ys, tier));
  }

  lemma AllocationPermuted(xs: seq<Component>, ys: seq<Component>, budget: Budget)
    requires multiset(xs) == multiset(ys) && Distinct(xs)
    ensures Allocation(xs, budget) == Allocation(ys, budget)
  {
    TierCanonical(xs, ys, Required);
    TierCanonical(xs, ys, Important);
    TierCanonical(xs, ys, Optional);
  }

  /** All omissions of a compilation, given and new, have distinct identities. */
  lemma AllOmissionsDistinct(input: Input)
    requires SoundInput(input)
    ensures DistinctOmissions(input.omissions + SortOmissions(Omitted(Sources(input), input.budget)))
  {
    var sources, budget := Sources(input), input.budget;
    var extra := Omitted(sources, budget);
    OmissionsSound(input);
    AllottedIds(sources, Shares(sources, budget), budget.optionalBytes);
    forall c | c in sources ensures c.tier != OtherTier { assert CheckComponent(c).Pass?; }
    assert OmissionIds(extra) <= ComponentIds(sources);
    OmissionsConcat(input.omissions, extra);
    OmissionsPermuted(input.omissions + extra, input.omissions + SortOmissions(extra));
  }

  lemma FinalOmissionsPermuted(a: Input, b: Input, extra: seq<Omission>)
    requires SameUpToOrder(a, b) && DistinctOmissions(a.omissions + extra)
    ensures SortOmissions(a.omissions + extra) == SortOmissions(b.omissions + extra)
  {
    OmissionsComparable(a.omissions + extra);
    Ordering.SortCanonical(OMISSION_ORDER, a.omissions + extra, b.omissions + extra);
  }

  lemma AllocationOmits(sources: seq<Component>, budget: Budget)
    ensures Allocation(sources, budget).Ok? ==>
              Allocation(sources, budget).value.omissions == SortOmissions(Omitted(sources, budget))
  {
  }

  lemma FinishSame(r: Result<Allotted>, a: Input, b: Input)
    requires SameUpToOrder(a, b)
    requires r.Ok? ==> SortOmissions(a.omissions + r.value.omissions) == SortOmissions(b.omissions + r.value.omissions)
    ensures Finish(r, a) == Finish(r, b)
  {
  }

  lemma FinishPermuted(a: Input, b: Input)
    requires SameUpToOrder(a, b) && SoundInput(a)
    ensures Finish(Allocation(Sources(a), a.budget), a) == Finish(Allocation(Sources(a), a.budget), b)
  {
    var r := Allocation(Sources(a), a.budget);
    AllocationOmits(Sources(a), a.budget);
    AllOmissionsDistinct(a);
    FinalOmissionsPermuted(a, b, SortOmissions(Omitted(Sources(a), a.budget)));
    FinishSame(r, a, b);
  }

  /** Permuting the resolved components and omissions gives the identical result. */
  lemma OrderIndependent(a: Input, b: Input)
    requires SameUpToOrder(a, b)
    ensures InputFault(a).Pass? <==> InputFault(b).Pass?
    ensures InputFault(a).Pass? ==> Compilation(a) == Compilation(b)
    ensures Compilation(a).Ok? <==> Compilation(b).Ok?
  {
    InputMeaning(a);
    InputMeaning(b);
    if SoundInput(a) { SoundnessPermuted(a, b); }
    if SoundInput(b) { SoundnessPermuted(b, a); }
    if SoundInput(a) {
      SourcesPermuted(a, b);
      AllocationPermuted(Sources(a), Sources(b), a.budget);
      FinishPermuted(a, b);
    }
  }
}
