/** Routing: a requirement is matched against a trusted catalog, the eligible models are put
    in score order, and the best of them become the selected route and its fallbacks. */
module Routing {
  import opened Workflow
  import opened Ordering

  const MAX_MODELS := 256
  const MAX_CANDIDATES := 32
  const MAX_FALLBACKS := 8
  const MAX_REASONS := 32
  const MAX_BUDGET_BYTES := 16 * 1024 * 1024
  const MAX_COST_UNITS := 1000000
  const CATALOG_VERSION := "fishyume.capability-catalog/v1"
  const POLICY_VERSION := "fishyume.routing-policy/v1"
  const REQUIREMENT_VERSION := "fishyume.routing-requirement/v1"
  const DECISION_VERSION := "fishyume.routing-decision/v1"

  datatype ErrorCode = InvalidContract | UnsupportedVersion | DuplicateIdentity | InvalidTarget | InvalidCapability
    | InvalidBudget | InvalidFallback | InvalidPromptProfile | CatalogHashMismatch | Uncoded

  datatype Result<+T> = Ok(value: T) | Err(code: ErrorCode)

  /** Identities are strings in lexicographic order, modelled as integers in that order:
      the empty string is 0 and the positive ones match the identity pattern. */
  type Name = int

  predicate ValidName(n: Name) { n > 0 }

  /** The capabilities in the order of their names. */
  datatype Capability = NeedsInput | RepoEdit | RepoRead | Streaming | StructuredOutput | ToolUse | OtherCapability

  datatype Complexity = Simple | Standard | Complex | OtherComplexity

  datatype Quality = Economy | BalancedQuality | Premium | OtherQuality

  datatype Cost = Low | Medium | High | OtherCost

  datatype Latency = Fast | BalancedLatency | Slow | OtherLatency

  datatype Target = Target(driver: Name, provider: Name, model: Name)

  datatype Model = Model(id: Name, target: Target, capabilities: seq<Capability>, contextLimit: int, maxOutput: int,
    quality: Quality, cost: Cost, latency: Latency)

  datatype Catalog = Catalog(version: string, policy: string, models: seq<Model>)

  /** A catalog's hash, injective in the catalog, or text that is no hash. */
  datatype Hash = HashOf(catalog: Catalog) | Malformed

  datatype Requirement = Requirement(version: string, capabilities: seq<Capability>, complexity: Complexity, quality: Quality,
    latency: Latency, maxCost: int, maxContext: int, maxOutput: int, candidates: seq<Name>, profile: Name, allowFallback: bool)

  datatype Budget = Budget(maxCost: int, context: int, output: int)

  datatype Mode = NoFallback | Eligible | OtherMode

  datatype Policy = Policy(mode: Mode, maxAttempts: int, requireNoSideEffect: bool, requireApproval: bool)

  datatype Reason = CapabilityMatch | ComplexityIs(Complexity) | QualityIs(Quality) | LatencyIs(Latency) | CostIs(Cost)
    | BudgetContext | BudgetOutput | CandidatePreference | FallbackDeclared | FallbackDisabled | FallbackSelected

  datatype Decision = Decision(version: string, hash: Hash, requirement: Requirement, selected: Target, reasons: seq<Reason>,
    budget: Budget, fallback: seq<Target>, policy: Policy, profile: Name)

  datatype Request = Request(catalog: Catalog, hash: Option<Hash>, requirement: Requirement, budget: Budget)

  // ----- the contracts -----

  predicate ValidTarget(t: Target) { ValidName(t.driver) && ValidName(t.provider) && ValidName(t.model) }

  function CapabilityRank(c: Capability): nat
  {
    match c
    case NeedsInput => 1
    case RepoEdit => 2
    case RepoRead => 3
    case Streaming => 4
    case StructuredOutput => 5
    case ToolUse => 6
    case OtherCapability => 0
  }

  predicate ValidCapabilities(cs: seq<Capability>)
  {
    && (forall i :: 0 <= i < |cs| ==> cs[i] != OtherCapability)
    && forall i, j :: 0 <= i < j < |cs| ==> CapabilityRank(cs[i]) < CapabilityRank(cs[j])
  }

  predicate ValidModel(m: Model)
  {
    && ValidName(m.id) && ValidTarget(m.target) && 1 <= m.contextLimit <= MAX_BUDGET_BYTES && 1 <= m.maxOutput <= m.contextLimit
    && m.quality != OtherQuality && m.cost != OtherCost && m.latency != OtherLatency
    && m.capabilities != [] && ValidCapabilities(m.capabilities)
  }

  /** A catalog lists its models in identity order. */
  predicate ValidCatalog(c: Catalog)
  {
    && c.version == CATALOG_VERSION && c.policy == POLICY_VERSION && 1 <= |c.models| <= MAX_MODELS
    && (forall i :: 0 <= i < |c.models| ==> ValidModel(c.models[i]))
    && forall i, j :: 0 <= i < j < |c.models| ==> c.models[i].id < c.models[j].id
  }

  predicate Distinct<T(==)>(xs: seq<T>) { forall i, j :: 0 <= i < j < |xs| ==> xs[i] != xs[j] }

  predicate ValidRequirement(r: Requirement)
  {
    && r.version == REQUIREMENT_VERSION && r.capabilities != [] && ValidCapabilities(r.capabilities)
    && r.complexity != OtherComplexity && r.quality != OtherQuality && r.latency != OtherLatency
    && 1 <= r.maxCost <= MAX_COST_UNITS && 1 <= r.maxContext <= MAX_BUDGET_BYTES && 1 <= r.maxOutput <= r.maxContext
    && |r.candidates| <= MAX_CANDIDATES && (forall i :: 0 <= i < |r.candidates| ==> ValidName(r.candidates[i])) && Distinct(r.candidates)
    && (r.profile != 0 ==> ValidName(r.profile))
  }

  predicate ValidBudget(b: Budget)
  {
    1 <= b.maxCost <= MAX_COST_UNITS && 1 <= b.context <= MAX_BUDGET_BYTES && 1 <= b.output <= b.context
  }

  predicate ValidPolicy(p: Policy)
  {
    && p.mode != OtherMode && 1 <= p.maxAttempts <= MAX_FALLBACKS + 1
    && (p.mode == NoFallback ==> p.maxAttempts == 1) && (p.mode == Eligible ==> p.requireNoSideEffect)
  }

  /** The check that every decision must pass, whoever made it. */
  predicate ValidDecision(d: Decision)
  {
    && d.version == DECISION_VERSION && d.hash.HashOf? && ValidTarget(d.selected)
    && ValidRequirement(d.requirement) && ValidBudget(d.budget) && ValidPolicy(d.policy)
    && 1 <= |d.reasons| <= MAX_REASONS && Distinct(d.reasons)
    && |d.fallback| <= MAX_FALLBACKS && (d.policy.mode == NoFallback ==> d.fallback == [])
    && (forall i :: 0 <= i < |d.fallback| ==> ValidTarget(d.fallback[i]) && d.fallback[i] != d.selected)
    && (d.profile != 0 ==> ValidName(d.profile))
  }

  // ----- what each check reports first -----

  function ModelFault(m: Model): Option<ErrorCode>
  {
    if !ValidName(m.id) || !ValidTarget(m.target) then Some(InvalidTarget)
    else if !(1 <= m.contextLimit <= MAX_BUDGET_BYTES && 1 <= m.maxOutput <= m.contextLimit) then Some(InvalidBudget)
    else if m.quality == OtherQuality || m.cost == OtherCost || m.latency == OtherLatency then Some(InvalidCapability)
    else if m.capabilities == [] || !ValidCapabilities(m.capabilities) then Some(InvalidCapability)
    else None
  }

  function ModelsFault(models: seq<Model>): Option<ErrorCode>
  {
    if models == [] then None
    else
      var n := |models| - 1;
      if ModelsFault(models[..n]).Some? then ModelsFault(models[..n])
      else if ModelFault(models[n]).Some? then ModelFault(models[n])
      else if exists i :: 0 <= i < n && models[i].id == models[n].id then Some(DuplicateIdentity)
      else if n > 0 && models[n].id <= models[n - 1].id then Some(InvalidContract)
      else None
  }

  function CatalogFault(c: Catalog): Option<ErrorCode>
  {
    if c.version != CATALOG_VERSION || c.policy != POLICY_VERSION then Some(UnsupportedVersion)
    else if !(1 <= |c.models| <= MAX_MODELS) then Some(InvalidContract)
    else ModelsFault(c.models)
  }

  function CandidatesFault(candidates: seq<Name>): Option<ErrorCode>
  {
    if candidates == [] then None
    else
      var n := |candidates| - 1;
      if CandidatesFault(candidates[..n]).Some? then CandidatesFault(candidates[..n])
      else if !ValidName(candidates[n]) then Some(InvalidTarget)
      else if candidates[n] in candidates[..n] then Some(DuplicateIdentity)
      else None
  }

  function RequirementFault(r: Requirement): Option<ErrorCode>
  {
    if r.version != REQUIREMENT_VERSION then Some(UnsupportedVersion)
    else if r.capabilities == [] || !ValidCapabilities(r.capabilities) then Some(InvalidCapability)
    else if r.complexity == OtherComplexity || r.quality == OtherQuality || r.latency == OtherLatency then Some(InvalidContract)
    else if !(1 <= r.maxCost <= MAX_COST_UNITS && 1 <= r.maxContext <= MAX_BUDGET_BYTES && 1 <= r.maxOutput <= r.maxContext) then Some(InvalidBudget)
    else if |r.candidates| > MAX_CANDIDATES then Some(InvalidTarget)
    else if CandidatesFault(r.candidates).Some? then CandidatesFault(r.candidates)
    else if r.profile != 0 && !ValidName(r.profile) then Some(InvalidPromptProfile)
    else None
  }

  function DecisionFault(d: Decision): Option<ErrorCode>
  {
    if d.version != DECISION_VERSION || d.hash.Malformed? || !ValidTarget(d.selected) then Some(InvalidContract)
    else if RequirementFault(d.requirement).Some? then RequirementFault(d.requirement)
    else if !ValidBudget(d.budget) then Some(InvalidBudget)
    else if !ValidPolicy(d.policy) then Some(InvalidFallback)
    else if !(1 <= |d.reasons| <= MAX_REASONS) || !Distinct(d.reasons) then Some(InvalidContract)
    else if |d.fallback| > MAX_FALLBACKS || (d.policy.mode == NoFallback && d.fallback != []) then Some(InvalidFallback)
    else if exists t :: t in d.fallback && (!ValidTarget(t) || t == d.selected) then Some(InvalidFallback)
    else if d.profile != 0 && !ValidName(d.profile) then Some(InvalidPromptProfile)
    else None
  }

  lemma {:induction false} ModelsChecked(models: seq<Model>)
    ensures ModelsFault(models).None? <==>
      (forall i :: 0 <= i < |models| ==> ValidModel(models[i])) && forall i, j :: 0 <= i < j < |models| ==> models[i].id < models[j].id
  {
    if models != [] {
      var n := |models| - 1;
      assert forall i :: 0 <= i < n ==> models[..n][i] == models[i];
      ModelsChecked(models[..n]);
      hide ValidCapabilities, ValidTarget;
    }
  }

  lemma {:induction false} CandidatesChecked(candidates: seq<Name>)
    ensures CandidatesFault(candidates).None? <==>
      (forall i :: 0 <= i < |candidates| ==> ValidName(candidates[i])) && Distinct(candidates)
  {
    if candidates != [] {
      var n := |candidates| - 1;
      assert forall i :: 0 <= i < n ==> candidates[..n][i] == candidates[i];
      CandidatesChecked(candidates[..n]);
    }
  }

  /** The checks find no fault exactly when the contracts hold. */
  lemma ChecksMeanContracts(c: Catalog, d: Decision)
    ensures CatalogFault(c).None? <==> ValidCatalog(c)
    ensures RequirementFault(d.requirement).None? <==> ValidRequirement(d.requirement)
    ensures DecisionFault(d).None? <==> ValidDecision(d)
  {
    hide ValidCapabilities, ValidTarget, Distinct;
    ModelsChecked(c.models);
    CandidatesChecked(d.requirement.candidates);
    forall i | 0 <= i < |d.fallback| ensures d.fallback[i] in d.fallback {}
  }

  // ----- scores -----

  function QualityRank(q: Quality): nat
  {
    match q
    case Premium => 2
    case BalancedQuality => 1
    case _ => 0
  }

  function LatencyRank(l: Latency): nat
  {
    match l
    case Slow => 2
    case BalancedLatency => 1
    case _ => 0
  }

  function CostUnits(c: Cost): nat
  {
    match c
    case High => 100
    case Medium => 10
    case _ => 1
  }

  function LeastQuality(c: Complexity): Quality
  {
    match c
    case Complex => Premium
    case Standard => BalancedQuality
    case _ => Economy
  }

  function Abs(x: int): nat { if x < 0 then -x else x }

  datatype Score = Score(candidate: int, quality: int, latency: int, cost: int, id: Name)

  datatype Scored = Scored(model: Model, score: Score)

  predicate Less(a: Score, b: Score)
  {
    if a.candidate != b.candidate then a.candidate < b.candidate
    else if a.quality != b.quality then a.quality < b.quality
    else if a.latency != b.latency then a.latency < b.latency
    else if a.cost != b.cost then a.cost < b.cost
    else a.id < b.id
  }

  predicate Better(a: Scored, b: Scored) { Less(a.score, b.score) }

  /** Where each candidate stands. */
  function Places(candidates: seq<Name>): map<Name, int>
  {
    if candidates == [] then map[]
    else
      var n := |candidates| - 1;
      Places(candidates[..n])[candidates[n] := n]
  }

  function CandidateRank(candidates: seq<Name>, id: Name): int
    requires candidates == [] || id in Places(candidates)
  {
    if candidates == [] then 1 else Places(candidates)[id]
  }

  /** A model can serve a requirement within a budget. */
  predicate Serves(m: Model, r: Requirement, b: Budget)
  {
    && (r.candidates == [] || m.id in Places(r.candidates))
    && (forall c :: c in r.capabilities ==> c in m.capabilities)
    && QualityRank(m.quality) >= QualityRank(LeastQuality(r.complexity))
    && CostUnits(m.cost) <= b.maxCost && m.contextLimit >= b.context && m.maxOutput >= b.output
  }

  function ScoredAs(m: Model, r: Requirement): Scored
    requires r.candidates == [] || m.id in Places(r.candidates)
  {
    Scored(m, Score(CandidateRank(r.candidates, m.id), Abs(QualityRank(m.quality) - QualityRank(r.quality)),
      Abs(LatencyRank(m.latency) - LatencyRank(r.latency)), CostUnits(m.cost), m.id))
  }

  function EligibleModels(models: seq<Model>, r: Requirement, b: Budget): seq<Scored>
  {
    if models == [] then []
    else
      var n := |models| - 1;
      EligibleModels(models[..n], r, b) + if Serves(models[n], r, b) then [ScoredAs(models[n], r)] else []
  }

  /** The stricter of what the requirement asks and what is granted. */
  function Restricted(r: Requirement, grant: Budget): (b: Budget)
    ensures ValidRequirement(r) && ValidBudget(grant) ==> ValidBudget(b)
    ensures b.maxCost <= grant.maxCost && b.context <= grant.context && b.output <= grant.output
    ensures b.maxCost <= r.maxCost && b.context <= r.maxContext && b.output <= r.maxOutput
  {
    Budget(if grant.maxCost < r.maxCost then grant.maxCost else r.maxCost,
      if grant.context < r.maxContext then grant.context else r.maxContext,
      if grant.output < r.maxOutput then grant.output else r.maxOutput)
  }

  /** The eligible models, best first. */
  function Ranked(q: Request): seq<Scored>
  {
    Sort(Better, EligibleModels(q.catalog.models, q.requirement, Restricted(q.requirement, q.budget)))
  }

  function Reasons(r: Requirement, m: Model, s: Score): seq<Reason>
  {
    [CapabilityMatch, ComplexityIs(r.complexity), QualityIs(m.quality), LatencyIs(m.latency), CostIs(m.cost), BudgetContext, BudgetOutput]
    + if r.candidates != [] && s.candidate <= |r.candidates| then [CandidatePreference] else []
  }

  function TargetsOf(xs: seq<Scored>): (ts: seq<Target>)
    ensures |ts| == |xs| && forall i :: 0 <= i < |xs| ==> ts[i] == xs[i].model.target
  {
    seq(|xs|, i requires 0 <= i < |xs| => xs[i].model.target)
  }

  /** How many of the ranked models a decision keeps. */
  function Kept(q: Request): nat
  {
    if !q.requirement.allowFallback then 1
    else if |Ranked(q)| > MAX_FALLBACKS + 1 then MAX_FALLBACKS + 1
    else |Ranked(q)|
  }

  function Proposal(q: Request): Decision
    requires Ranked(q) != []
  {
    var ranked, r := Ranked(q), q.requirement;
    var fallback := TargetsOf(ranked[1..Kept(q)]);
    Decision(DECISION_VERSION, HashOf(q.catalog), r, ranked[0].model.target,
      Reasons(r, ranked[0].model, ranked[0].score) + [if r.allowFallback then FallbackDeclared else FallbackDisabled],
      Restricted(r, q.budget), fallback,
      if r.allowFallback then Policy(Eligible, 1 + |fallback|, true, true) else Policy(NoFallback, 1, false, false), r.profile)
  }

  predicate Accepts(q: Request)
  {
    ValidRequirement(q.requirement) && ValidBudget(q.budget) && ValidCatalog(q.catalog) && (q.hash.Some? ==> q.hash.value == HashOf(q.catalog))
  }

  // ----- the order of the ranked models -----

  lemma BetterIsStrict()
    ensures StrictPartial(Better)
  {
  }

  lemma {:induction false} PlacesMean(candidates: seq<Name>, id: Name)
    ensures id in Places(candidates) <==> id in candidates
    ensures id in Places(candidates) ==> 0 <= Places(candidates)[id] < |candidates| && candidates[Places(candidates)[id]] == id
  {
    if candidates != [] {
      var n := |candidates| - 1;
      assert candidates == candidates[..n] + [candidates[n]];
      PlacesMean(candidates[..n], id);
    }
  }

  /** Exactly the models that can serve are eligible, each with its own score. */
  lemma {:induction false} EligibleMeans(models: seq<Model>, r: Requirement, b: Budget, e: Scored)
    ensures e in EligibleModels(models, r, b) <==> e.model in models && Serves(e.model, r, b) && e == ScoredAs(e.model, r)
  {
    if models != [] {
      var n := |models| - 1;
      assert models == models[..n] + [models[n]];
      EligibleMeans(models[..n], r, b, e);
      hide Serves;
    }
  }

  ghost predicate InIdOrder(es: seq<Scored>) { forall i, j :: 0 <= i < j < |es| ==> es[i].score.id < es[j].score.id }

  lemma {:induction false} EligibleInOrder(models: seq<Model>, r: Requirement, b: Budget)
    requires forall i, j :: 0 <= i < j < |models| ==> models[i].id < models[j].id
    ensures InIdOrder(EligibleModels(models, r, b))
    ensures models != [] ==> forall i :: 0 <= i < |EligibleModels(models, r, b)| ==> EligibleModels(models, r, b)[i].score.id <= models[|models| - 1].id
  {
    if models != [] {
      var n := |models| - 1;
      assert forall i :: 0 <= i < n ==> models[..n][i] == models[i];
      EligibleInOrder(models[..n], r, b);
      var before, es := EligibleModels(models[..n], r, b), EligibleModels(models, r, b);
      assert es == before || (|es| == |before| + 1 && es[|before|].score.id == models[n].id && forall i :: 0 <= i < |before| ==> es[i] == before[i]);
      hide EligibleModels;
      if n > 0 { assert models[n - 1].id < models[n].id; }
    }
  }

  /** The ranking is the one strict order of exactly the models that can serve: a sequence
      with those elements in strict score order is the ranking. */
  lemma RankingIsTheOrder(q: Request)
    requires ValidCatalog(q.catalog)
    ensures StrictlySorted(Better, Ranked(q))
    ensures forall e :: e in Ranked(q) <==>
      e.model in q.catalog.models && Serves(e.model, q.requirement, Restricted(q.requirement, q.budget)) && e == ScoredAs(e.model, q.requirement)
    ensures forall es :: StrictlySorted(Better, es) && (forall e :: e in es <==> e in Ranked(q)) ==> es == Ranked(q)
  {
    var b := Restricted(q.requirement, q.budget);
    var es := EligibleModels(q.catalog.models, q.requirement, b);
    EligibleInOrder(q.catalog.models, q.requirement, b);
    BetterIsStrict();
    ComparableById(es);
    SortSorted(Better, es);
    hide EligibleModels, Serves, Better;
    forall e: Scored ensures e in Ranked(q) <==> e.model in q.catalog.models && Serves(e.model, q.requirement, b) && e == ScoredAs(e.model, q.requirement) {
      EligibleMeans(q.catalog.models, q.requirement, b, e);
      assert e in Ranked(q) <==> e in multiset(Ranked(q));
    }
    forall ys | StrictlySorted(Better, ys) && (forall e :: e in ys <==> e in Ranked(q)) ensures ys == Ranked(q) {
      SortedUnique(Better, ys, Ranked(q));
    }
  }

  lemma ComparableById(es: seq<Scored>)
    requires InIdOrder(es)
    ensures Comparable(Better, multiset(es))
  {
    CountsOnce(es);
    forall x, y | x in multiset(es) && y in multiset(es) && x != y ensures Better(x, y) || Better(y, x) {
      var i :| 0 <= i < |es| && es[i] == x;
      var j :| 0 <= j < |es| && es[j] == y;
      assert i < j || j < i;
    }
  }

  // ----- resolving -----

  /** The answer to a request: the first fault found, or the proposed decision. */
  function Resolve(q: Request): Result<Decision>
  {
    if RequirementFault(q.requirement).Some? then Err(RequirementFault(q.requirement).value)
    else if !ValidBudget(q.budget) then Err(InvalidBudget)
    else if CatalogFault(q.catalog).Some? then Err(CatalogFault(q.catalog).value)
    else if q.hash.Some? && q.hash.value != HashOf(q.catalog) then Err(CatalogHashMismatch)
    else if Ranked(q) == [] then Err(InvalidTarget)
    else if DecisionFault(Proposal(q)).Some? then Err(DecisionFault(Proposal(q)).value)
    else Ok(Proposal(q))
  }

  method FindEligible(models: seq<Model>, r: Requirement, b: Budget) returns (es: seq<Scored>)
    ensures es == EligibleModels(models, r, b)
  {
    var allowed: map<Name, int>, index := map[], 0;
    while index < |r.candidates|
      invariant 0 <= index <= |r.candidates| && allowed == Places(r.candidates[..index])
    {
      assert r.candidates[..index + 1][..index] == r.candidates[..index];
      allowed := allowed[r.candidates[index] := index];
      index := index + 1;
    }
    assert r.candidates[..index] == r.candidates;
    var floor, i := QualityRank(LeastQuality(r.complexity)), 0;
    es := [];
    while i < |models|
      invariant 0 <= i <= |models| && es == EligibleModels(models[..i], r, b)
    {
      assert models[..i + 1][..i] == models[..i];
      var m, rank := models[i], |r.candidates| + 1;
      var listed := r.candidates == [] || m.id in allowed;
      if listed {
        if r.candidates != [] { rank := allowed[m.id]; }
        if !((exists c :: c in r.capabilities && c !in m.capabilities) || QualityRank(m.quality) < floor || CostUnits(m.cost) > b.maxCost
             || m.contextLimit < b.context || m.maxOutput < b.output)
        {
          es := es + [Scored(m, Score(rank, Abs(QualityRank(m.quality) - QualityRank(r.quality)),
            Abs(LatencyRank(m.latency) - LatencyRank(r.latency)), CostUnits(m.cost), m.id))];
        }
      }
      i := i + 1;
    }
    assert models[..i] == models;
  }

  method ResolveV1(q: Request) returns (result: Result<Decision>)
    ensures result == Resolve(q)
  {
    hide ValidDecision, ValidCatalog, ValidRequirement, ValidBudget, Restricted, Reasons, Sort, Better, EligibleModels, RequirementFault, CatalogFault, DecisionFault;
    if RequirementFault(q.requirement).Some? { return Err(RequirementFault(q.requirement).value); }
    if !ValidBudget(q.budget) { return Err(InvalidBudget); }
    if CatalogFault(q.catalog).Some? { return Err(CatalogFault(q.catalog).value); }
    if q.hash.Some? && q.hash.value != HashOf(q.catalog) { return Err(CatalogHashMismatch); }
    var r := q.requirement;
    var budget := Restricted(r, q.budget);
    var candidates := FindEligible(q.catalog.models, r, budget);
    if candidates == [] { return Err(InvalidTarget); }
    candidates := Sort(Better, candidates);
    assert candidates == Ranked(q);
    var best := candidates[0].model;
    var reasons := Reasons(r, best, candidates[0].score);
    var fallback: seq<Target>, policy := [], Policy(NoFallback, 1, false, false);
    if r.allowFallback {
      var count := |candidates| - 1;
      if count > MAX_FALLBACKS { count := MAX_FALLBACKS; }
      var i := 1;
      while i < count + 1
        invariant 1 <= i <= count + 1 && fallback == TargetsOf(candidates[1..i])
      {
        assert candidates[1..i + 1] == candidates[1..i] + [candidates[i]];
        fallback := fallback + [candidates[i].model.target];
        i := i + 1;
      }
      policy := Policy(Eligible, 1 + |fallback|, true, true);
      reasons := reasons + [FallbackDeclared];
    } else {
      reasons := reasons + [FallbackDisabled];
    }
    var decision := Decision(DECISION_VERSION, HashOf(q.catalog), r, best.target, reasons, budget, fallback, policy, r.profile);
    assert decision == Proposal(q);
    if DecisionFault(decision).Some? { return Err(DecisionFault(decision).value); }
    return Ok(decision);
  }

  // ----- what a decision means -----

  /** The selected target followed by its fallbacks. */
  function Route(d: Decision): seq<Target> { [d.selected] + d.fallback }

  predicate DistinctTargets(c: Catalog)
  {
    forall i, j :: 0 <= i < j < |c.models| ==> c.models[i].target != c.models[j].target
  }

  /** A kept fallback goes to the selected model's own target. */
  predicate Clash(q: Request)
  {
    exists i :: 1 <= i < Kept(q) && i < |Ranked(q)| && Ranked(q)[i].model.target == Ranked(q)[0].model.target
  }

  lemma RankedIsSound(q: Request, i: nat)
    requires ValidCatalog(q.catalog) && i < |Ranked(q)|
    ensures Ranked(q)[i].model in q.catalog.models && ValidModel(Ranked(q)[i].model)
    ensures Serves(Ranked(q)[i].model, q.requirement, Restricted(q.requirement, q.budget))
  {
    hide ValidModel, Serves, Ranked, Better, StrictlySorted;
    RankingIsTheOrder(q);
    assert Ranked(q)[i] in Ranked(q);
    var j :| 0 <= j < |q.catalog.models| && q.catalog.models[j] == Ranked(q)[i].model;
  }

  lemma ReasonsAreDistinct(q: Request)
    requires Ranked(q) != []
    ensures Distinct(Proposal(q).reasons) && 1 <= |Proposal(q).reasons| <= 9
  {
  }

  /** The final check finds fault with a proposal exactly when a kept fallback repeats the
      selected target. */
  lemma ProposalFails(q: Request)
    requires Accepts(q) && Ranked(q) != []
    ensures ValidDecision(Proposal(q)) <==> !Clash(q)
  {
    var d := Proposal(q);
    RankedIsSound(q, 0);
    ReasonsAreDistinct(q);
    assert ValidBudget(d.budget) && ValidRequirement(d.requirement);
    hide Ranked, Distinct, ValidRequirement, Reasons, Serves, ValidCatalog, ValidBudget, ValidTarget;
    forall i | 0 <= i < |d.fallback| ensures ValidTarget(d.fallback[i]) && d.fallback[i] == Ranked(q)[i + 1].model.target {
      RankedIsSound(q, i + 1);
    }
    if Clash(q) {
      var i :| 1 <= i < Kept(q) && i < |Ranked(q)| && Ranked(q)[i].model.target == Ranked(q)[0].model.target;
      assert d.fallback[i - 1] == d.selected;
    }
  }

  /** With one model to a target nothing can clash. */
  lemma DistinctTargetsNeverClash(q: Request)
    requires ValidCatalog(q.catalog) && DistinctTargets(q.catalog)
    ensures !Clash(q)
    ensures forall i, j :: 0 <= i < j < |Ranked(q)| ==> Ranked(q)[i].model.target != Ranked(q)[j].model.target
  {
    forall i, j | 0 <= i < j < |Ranked(q)| ensures Ranked(q)[i].model.target != Ranked(q)[j].model.target {
      hide Ranked, Serves, ValidModel;
      RankingIsTheOrder(q);
      RankedIsSound(q, i);
      RankedIsSound(q, j);
      var a :| 0 <= a < |q.catalog.models| && q.catalog.models[a] == Ranked(q)[i].model;
      var b :| 0 <= b < |q.catalog.models| && q.catalog.models[b] == Ranked(q)[j].model;
      assert Better(Ranked(q)[i], Ranked(q)[j]);
      assert a != b by {
        assert Ranked(q)[i] in Ranked(q) && Ranked(q)[j] in Ranked(q);
      }
    }
  }

  /** Resolving fails for a sound request exactly when no model can serve it or a kept
      fallback clashes; otherwise the route is the best models' targets, in score order:
      at most nine of them, and only the best when fallback is disabled. */
  lemma ResolveIsBestFirst(q: Request)
    ensures Resolve(q).Ok? <==> Accepts(q) && Ranked(q) != [] && !Clash(q)
    ensures Resolve(q).Ok? ==>
      && ValidDecision(Resolve(q).value) && Route(Resolve(q).value) == TargetsOf(Ranked(q)[..Kept(q)])
      && Resolve(q).value.hash == HashOf(q.catalog) && Resolve(q).value.budget == Restricted(q.requirement, q.budget)
    ensures Accepts(q) && DistinctTargets(q.catalog) ==>
      (Resolve(q).Ok? <==> Ranked(q) != []) && (Resolve(q).Ok? ==> Distinct(Route(Resolve(q).value)))
  {
    hide ValidRequirement, ValidCatalog, ValidDecision, Ranked, DistinctTargets, Clash, RequirementFault, CatalogFault, DecisionFault, Reasons;
    if Ranked(q) != [] {
      var d := Proposal(q);
      ChecksMeanContracts(q.catalog, d);
      if Accepts(q) { ProposalFails(q); }
      assert Route(d) == TargetsOf(Ranked(q)[..Kept(q)]);
    } else {
      ChecksMeanContracts(q.catalog, Decision(DECISION_VERSION, Malformed, q.requirement, Target(0, 0, 0), [], q.budget, [], Policy(NoFallback, 1, false, false), 0));
    }
    if Accepts(q) && DistinctTargets(q.catalog) { DistinctTargetsNeverClash(q); }
  }

  // ----- advancing to a fallback -----

  /** The next decision when a route is given up; None when there is no fallback left. */
  function Advance(d: Decision): Result<Option<Decision>>
  {
    if DecisionFault(d).Some? then Err(DecisionFault(d).value)
    else if d.policy.mode != Eligible || d.fallback == [] then Ok(None)
    else
      var next := d.(selected := d.fallback[0], fallback := d.fallback[1..],
                     reasons := d.reasons + if FallbackSelected in d.reasons then [] else [FallbackSelected]);
      if DecisionFault(next).Some? then Err(DecisionFault(next).value) else Ok(Some(next))
  }

  /** A sound decision with a fallback advances exactly when that fallback is not named
      again and its reason still fits. */
  lemma AdvanceFails(d: Decision)
    requires ValidDecision(d) && d.policy.mode == Eligible && d.fallback != []
    ensures Advance(d).Err? <==> d.fallback[0] in d.fallback[1..] || (FallbackSelected !in d.reasons && |d.reasons| == MAX_REASONS)
    ensures Advance(d).Ok? ==>
      && Advance(d).value.Some? && ValidDecision(Advance(d).value.value) && Route(Advance(d).value.value) == Route(d)[1..]
      && Advance(d).value.value.policy == d.policy && Advance(d).value.value.hash == d.hash && Advance(d).value.value.budget == d.budget
      && |Advance(d).value.value.reasons| <= |d.reasons| + (if FallbackSelected in d.reasons then 0 else 1)
      && FallbackSelected in Advance(d).value.value.reasons
  {
    var next := d.(selected := d.fallback[0], fallback := d.fallback[1..],
                   reasons := d.reasons + if FallbackSelected in d.reasons then [] else [FallbackSelected]);
    var c := Catalog("", "", []);
    ChecksMeanContracts(c, d);
    ChecksMeanContracts(c, next);
    hide ValidRequirement, ValidBudget, ValidTarget, DecisionFault, ValidPolicy;
    assert Distinct(next.reasons);
    if d.fallback[0] in d.fallback[1..] {
      var i :| 0 <= i < |d.fallback[1..]| && d.fallback[1..][i] == d.fallback[0];
      assert next.fallback[i] == next.selected;
    }
    assert Route(next) == Route(d)[1..];
  }

  /** Gives up one route after another. */
  function Advanced(d: Decision, times: nat): Result<Option<Decision>>
  {
    if times == 0 then Ok(Some(d))
    else
      var before := Advanced(d, times - 1);
      if before.Ok? && before.value.Some? then Advance(before.value.value) else before
  }

  /** From a resolved decision with distinct targets, every fallback is visited once, in
      order, and then there is none left. */
  lemma {:induction false} FallbacksAreVisitedOnce(d: Decision, times: nat)
    requires ValidDecision(d) && Distinct(Route(d)) && (FallbackSelected in d.reasons || |d.reasons| < MAX_REASONS)
    requires d.policy.mode == NoFallback || d.policy.mode == Eligible
    ensures Advanced(d, times).Ok?
    ensures Advanced(d, times).value.Some? <==> times <= |d.fallback|
    ensures times <= |d.fallback| ==>
      && Route(Advanced(d, times).value.value) == Route(d)[times..] && Advanced(d, times).value.value.selected == Route(d)[times]
      && ValidDecision(Advanced(d, times).value.value) && Advanced(d, times).value.value.policy == d.policy
      && (FallbackSelected in Advanced(d, times).value.value.reasons || |Advanced(d, times).value.value.reasons| < MAX_REASONS)
  {
    hide ValidDecision, Advance;
    if times > 0 {
      FallbacksAreVisitedOnce(d, times - 1);
      var before := Advanced(d, times - 1);
      if before.value.Some? {
        var e := before.value.value;
        if e.fallback == [] { NoneLeft(e); }
        assert |Route(e)| == |Route(d)| - (times - 1);
        if e.fallback != [] {
          assert Route(d)[times - 1..][1..] == Route(d)[times..];
          assert forall i :: 0 <= i < |e.fallback| ==> e.fallback[i] == Route(e)[i + 1] == Route(d)[times + i];
          FallbackMeansEligible(e);
          AdvanceFails(e);
        }
      }
    }
  }

  lemma FallbackMeansEligible(d: Decision)
    requires ValidDecision(d) && d.fallback != []
    ensures d.policy.mode == Eligible
  {
  }

  lemma NoneLeft(d: Decision)
    requires ValidDecision(d) && d.fallback == []
    ensures Advance(d) == Ok(None)
  {
    ChecksMeanContracts(Catalog("", "", []), d);
    hide DecisionFault, ValidDecision;
  }
}
