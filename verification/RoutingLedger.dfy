/** What a node's Attempts cost: every Attempt reserves its route's catalog cost before it is
    launched, and carries the sum of all reservations so far. */
module RoutingLedger {
  import opened Workflow
  import Ordering
  import opened Routing

  const USAGE_VERSION := "fishyume.routing-usage/v1"

  datatype Usage = Usage(version: string, target: Target, routeIndex: int, cost: int, cumulative: int)

  datatype Attempt = Attempt(number: nat, decision: Option<Decision>, usage: Option<Usage>)

  // ----- costs of targets -----

  /** The first model of a catalog with a target. */
  function FirstWith(models: seq<Model>, t: Target): Option<Model>
  {
    if models == [] then None
    else if models[0].target == t then Some(models[0])
    else FirstWith(models[1..], t)
  }

  function CostFor(c: Catalog, t: Target): Result<int>
  {
    if CatalogFault(c).Some? then Err(CatalogFault(c).value)
    else if FirstWith(c.models, t).None? then Err(InvalidTarget)
    else Ok(CostUnits(FirstWith(c.models, t).value.cost))
  }

  function UsageFault(u: Usage): Option<ErrorCode>
  {
    if u.version != USAGE_VERSION || !ValidTarget(u.target) then Some(InvalidContract)
    else if u.routeIndex < 0 || u.routeIndex > MAX_FALLBACKS then Some(InvalidFallback)
    else if u.cost < 1 || u.cost > MAX_COST_UNITS || u.cumulative < u.cost || u.cumulative > MAX_COST_UNITS then Some(InvalidBudget)
    else None
  }

  function UsageFaultFor(c: Catalog, d: Decision, u: Usage): Option<ErrorCode>
  {
    if CatalogFault(c).Some? then CatalogFault(c)
    else if DecisionFault(d).Some? then DecisionFault(d)
    else if UsageFault(u).Some? then UsageFault(u)
    else if d.hash != HashOf(c) then Some(CatalogHashMismatch)
    else if u.target != d.selected then Some(InvalidTarget)
    else if CostFor(c, u.target).Err? then Some(CostFor(c, u.target).code)
    else if u.cost != CostFor(c, u.target).value || u.cumulative > d.budget.maxCost then Some(InvalidBudget)
    else None
  }

  function Reserve(c: Catalog, d: Decision, prior: int, routeIndex: int): Result<Usage>
  {
    if CatalogFault(c).Some? then Err(CatalogFault(c).value)
    else if DecisionFault(d).Some? then Err(DecisionFault(d).value)
    else if d.hash != HashOf(c) then Err(CatalogHashMismatch)
    else if prior < 0 || prior > MAX_COST_UNITS then Err(InvalidBudget)
    else if CostFor(c, d.selected).Err? then Err(CostFor(c, d.selected).code)
    else
      var cost := CostFor(c, d.selected).value;
      if prior + cost > MAX_COST_UNITS || prior + cost > d.budget.maxCost then Err(InvalidBudget)
      else
        var usage := Usage(USAGE_VERSION, d.selected, routeIndex, cost, prior + cost);
        if UsageFaultFor(c, d, usage).Some? then Err(UsageFaultFor(c, d, usage).value) else Ok(usage)
  }

  // ----- the cost of the Attempts before one -----

  function AddCost(known: set<Catalog>, total: int, a: Attempt): Result<int>
  {
    var sum :=
      if a.usage.Some? then
        if a.decision.None? then Err(Uncoded)
        else
          var d, u := a.decision.value, a.usage.value;
          if d.hash.Malformed? || d.hash.catalog !in known then Err(Uncoded)
          else if UsageFaultFor(d.hash.catalog, d, u).Some? then Err(UsageFaultFor(d.hash.catalog, d, u).value)
          else if u.cumulative != total + u.cost then Err(Uncoded)
          else Ok(total + u.cost)
      else if a.decision.Some? then
        var d := a.decision.value;
        if DecisionFault(d).Some? then Err(DecisionFault(d).value)
        else if d.hash.catalog !in known then Err(Uncoded)
        else if CostFor(d.hash.catalog, d.selected).Err? then CostFor(d.hash.catalog, d.selected)
        else Ok(total + CostFor(d.hash.catalog, d.selected).value)
      else Ok(total);
    if sum.Ok? && sum.value > MAX_COST_UNITS then Err(Uncoded) else sum
  }

  function CostBefore(known: set<Catalog>, attempts: seq<Attempt>, next: int): Result<int>
  {
    if attempts == [] then Ok(0)
    else
      var n := |attempts| - 1;
      var total := CostBefore(known, attempts[..n], next);
      if total.Err? || attempts[n].number >= next then total else AddCost(known, total.value, attempts[n])
  }

  method RoutingCostBeforeAttempt(known: set<Catalog>, attempts: seq<Attempt>, next: int) returns (r: Result<int>)
    ensures r == CostBefore(known, attempts, next)
  {
    hide UsageFaultFor, DecisionFault, CostFor;
    var total, i := 0, 0;
    while i < |attempts|
      invariant 0 <= i <= |attempts| && CostBefore(known, attempts[..i], next) == Ok(total)
    {
      assert attempts[..i + 1][..i] == attempts[..i];
      var a := attempts[i];
      if a.number < next {
        if a.usage.Some? {
          if a.decision.None? { StopsAt(known, attempts, next, i); return Err(Uncoded); }
          var d, u := a.decision.value, a.usage.value;
          if d.hash.Malformed? || d.hash.catalog !in known { StopsAt(known, attempts, next, i); return Err(Uncoded); }
          var fault := UsageFaultFor(d.hash.catalog, d, u);
          if fault.Some? { StopsAt(known, attempts, next, i); return Err(fault.value); }
          var expected := total + u.cost;
          if u.cumulative != expected { StopsAt(known, attempts, next, i); return Err(Uncoded); }
          total := expected;
        } else if a.decision.Some? {
          var d := a.decision.value;
          if DecisionFault(d).Some? { StopsAt(known, attempts, next, i); return Err(DecisionFault(d).value); }
          HashIsKnown(d);
          if d.hash.catalog !in known { StopsAt(known, attempts, next, i); return Err(Uncoded); }
          var cost := CostFor(d.hash.catalog, d.selected);
          if cost.Err? { StopsAt(known, attempts, next, i); return Err(cost.code); }
          total := total + cost.value;
        }
        if total > MAX_COST_UNITS { StopsAt(known, attempts, next, i); return Err(Uncoded); }
      }
      i := i + 1;
    }
    assert attempts[..i] == attempts;
    return Ok(total);
  }

  lemma HashIsKnown(d: Decision)
    requires DecisionFault(d).None?
    ensures d.hash.HashOf?
  {
  }

  /** The first error is the answer. */
  lemma {:induction false} StopsAt(known: set<Catalog>, attempts: seq<Attempt>, next: int, i: nat)
    requires i < |attempts|
    ensures CostBefore(known, attempts[..i + 1], next).Err? ==> CostBefore(known, attempts, next) == CostBefore(known, attempts[..i + 1], next)
  {
    hide AddCost;
    var n := |attempts| - 1;
    if i == n {
      assert attempts[..i + 1] == attempts;
    } else {
      assert attempts[..n][..i + 1] == attempts[..i + 1];
      StopsAt(known, attempts[..n], next, i);
    }
  }

  // ----- preparing the next Attempt -----

  /** What one probe finds: the active catalog, and whether the target it selects is available. */
  datatype View = View(active: Option<Catalog>, available: bool)

  /** The world while an Attempt is prepared: the catalogs known by hash, whether targets are
      gated by availability, three probes, and a last look at the chosen target. */
  datatype Situation = Situation(known: set<Catalog>, gated: bool, probes: (View, View, View), stillAvailable: bool)

  datatype Launch = Launch(situation: Situation, pending: Option<Target>, driver: Name, requirement: Requirement)

  function ViewAt(s: Situation, i: nat): View
  {
    if i == 0 then s.probes.0 else if i == 1 then s.probes.1 else s.probes.2
  }

  /** Routing by the active catalog; None when it does not know the driver. */
  function ResolveFor(active: Option<Catalog>, driver: Name, r: Requirement): Result<Option<Decision>>
  {
    if active.None? then Err(Uncoded)
    else if forall m :: m in active.value.models ==> m.target.driver != driver then Ok(None)
    else
      var d := Resolve(Request(active.value, Some(HashOf(active.value)), r, Budget(r.maxCost, r.maxContext, r.maxOutput)));
      if d.Err? then Err(d.code)
      else if d.value.selected.driver != driver then Err(Uncoded)
      else Ok(Some(d.value))
  }

  function Probe(l: Launch, i: nat): Result<Option<Decision>>
    requires i < 3
    decreases 3 - i
  {
    var found := ResolveFor(ViewAt(l.situation, i).active, l.driver, l.requirement);
    if found.Err? || found.value.None? || !l.situation.gated || ViewAt(l.situation, i).available then found
    else if i == 2 then Err(Uncoded)
    else Probe(l, i + 1)
  }

  function FindAttempt(attempts: seq<Attempt>, number: nat): Option<Attempt>
  {
    if attempts == [] then None
    else if attempts[|attempts| - 1].number == number then Some(attempts[|attempts| - 1])
    else FindAttempt(attempts[..|attempts| - 1], number)
  }

  /** The route an Attempt takes: a fresh one, or the pending target of the Attempt before. */
  function Choose(l: Launch, resolved: Decision, attempts: seq<Attempt>, current: nat): Result<(Decision, int)>
  {
    if l.pending.None? then Ok((resolved, 0))
    else if current < 1 || FindAttempt(attempts, current).None? then Err(Uncoded)
    else
      var previous := FindAttempt(attempts, current).value;
      if previous.decision.None? then Err(Uncoded)
      else if previous.decision.value.selected == l.pending.value then
        Ok((previous.decision.value, if previous.usage.Some? then previous.usage.value.routeIndex else 0))
      else
        var next := Advance(previous.decision.value);
        if next.Err? then Err(next.code)
        else if next.value.None? || next.value.value.selected != l.pending.value then Err(Uncoded)
        else Ok((next.value.value, if previous.usage.Some? then previous.usage.value.routeIndex + 1 else 1))
  }

  /** The route and reservation of the next Attempt; nothing for a driver without a catalog. */
  function Prepare(l: Launch, attempts: seq<Attempt>, current: nat): Result<Option<(Decision, Usage)>>
  {
    var resolved := Probe(l, 0);
    if resolved.Err? then Err(resolved.code)
    else if resolved.value.None? then Ok(None)
    else
      var chosen := Choose(l, resolved.value.value, attempts, current);
      if chosen.Err? then Err(chosen.code)
      else
        var (d, routeIndex) := chosen.value;
        if l.situation.gated && !l.situation.stillAvailable then Err(Uncoded)
        else if d.selected.driver != l.driver then Err(Uncoded)
        else
          var prior := CostBefore(l.situation.known, attempts, current + 1);
          if prior.Err? then Err(prior.code)
          else if d.hash.Malformed? || d.hash.catalog !in l.situation.known then Err(Uncoded)
          else
            var usage := Reserve(d.hash.catalog, d, prior.value, routeIndex);
            if usage.Err? then Err(usage.code) else Ok(Some((d, usage.value)))
  }

  method PrepareAttemptRouting(l: Launch, attempts: seq<Attempt>, current: nat) returns (r: Result<Option<(Decision, Usage)>>)
    ensures r == Prepare(l, attempts, current)
  {
    hide ResolveFor, CostBefore, Reserve, FindAttempt, Advance;
    var decision: Option<Decision>, i := None, 0;
    while i < 3
      invariant 0 <= i < 3 && Probe(l, 0) == Probe(l, i)
    {
      var view := ViewAt(l.situation, i);
      var found := ResolveFor(view.active, l.driver, l.requirement);
      if found.Err? { return Err(found.code); }
      if found.value.None? { return Ok(None); }
      decision := found.value;
      if !l.situation.gated || view.available { break; }
      if i == 2 { return Err(Uncoded); }
      i := i + 1;
    }
    var d, routeIndex := decision.value, 0;
    if l.pending.Some? {
      if current < 1 { return Err(Uncoded); }
      var stored := FindAttempt(attempts, current);
      if stored.None? || stored.value.decision.None? { return Err(Uncoded); }
      var previous := stored.value;
      if previous.decision.value.selected == l.pending.value {
        d := previous.decision.value;
        if previous.usage.Some? { routeIndex := previous.usage.value.routeIndex; }
      } else {
        var next := Advance(previous.decision.value);
        if next.Err? { return Err(next.code); }
        if next.value.None? || next.value.value.selected != l.pending.value { return Err(Uncoded); }
        d, routeIndex := next.value.value, 1;
        if previous.usage.Some? { routeIndex := previous.usage.value.routeIndex + 1; }
      }
    }
    if l.situation.gated && !l.situation.stillAvailable { return Err(Uncoded); }
    if d.selected.driver != l.driver { return Err(Uncoded); }
    var prior := RoutingCostBeforeAttempt(l.situation.known, attempts, current + 1);
    if prior.Err? { return Err(prior.code); }
    if d.hash.Malformed? || d.hash.catalog !in l.situation.known { return Err(Uncoded); }
    var usage := Reserve(d.hash.catalog, d, prior.value, routeIndex);
    if usage.Err? { return Err(usage.code); }
    return Ok(Some((d, usage.value)));
  }

  // ----- the history of a node -----

  /** The Attempts that a sequence of launches leaves; a refused launch leaves none. */
  ghost function History(launches: seq<Launch>): seq<Attempt>
  {
    if launches == [] then []
    else
      var n := |launches| - 1;
      var before := History(launches[..n]);
      var r := Prepare(launches[n], before, |before|);
      if r.Err? then before
      else if r.value.None? then before + [Attempt(|before| + 1, None, None)]
      else before + [Attempt(|before| + 1, Some(r.value.value.0), Some(r.value.value.1))]
  }

  function Spent(attempts: seq<Attempt>): int
  {
    if attempts == [] then 0
    else
      var last := attempts[|attempts| - 1];
      Spent(attempts[..|attempts| - 1]) + if last.usage.Some? then last.usage.value.cost else 0
  }

  /** A reservation fits its decision, and carries what was spent up to it. */
  ghost predicate Exact(attempts: seq<Attempt>, i: nat)
    requires i < |attempts|
  {
    var a := attempts[i];
    && a.number == i + 1 && (a.decision.Some? <==> a.usage.Some?)
    && (a.usage.Some? ==>
          && a.decision.value.hash.HashOf?
          && UsageFaultFor(a.decision.value.hash.catalog, a.decision.value, a.usage.value).None?
          && Affords(a.decision.value) && a.usage.value.cumulative == Spent(attempts[..i + 1])
          && Traced(attempts, i))
  }

  /** Every target of a route is in the catalog it came from. */
  ghost predicate Affords(d: Decision)
  {
    d.hash.HashOf? && forall t :: t in Route(d) ==> CostFor(d.hash.catalog, t).Ok?
  }

  /** Where an Attempt's route comes from: a fresh route at or before it, of which as many
      targets have been given up as its route index says. */
  ghost predicate Traced(attempts: seq<Attempt>, i: nat)
    requires i < |attempts|
  {
    exists j :: 0 <= j <= i && TracedTo(attempts[i], attempts[j])
  }

  ghost predicate TracedTo(a: Attempt, b: Attempt)
  {
    && a.decision.Some? && a.usage.Some? && b.decision.Some? && b.usage.Some? && b.usage.value.routeIndex == 0
    && a.decision.value.hash == b.decision.value.hash && a.decision.value.budget == b.decision.value.budget
    && 0 <= a.usage.value.routeIndex < |Route(b.decision.value)|
    && Route(a.decision.value) == Route(b.decision.value)[a.usage.value.routeIndex..]
  }

  ghost predicate LedgerExact(attempts: seq<Attempt>) { forall i :: 0 <= i < |attempts| ==> Exact(attempts, i) }

  // ----- costs -----

  lemma {:induction false} FirstWithFinds(models: seq<Model>, t: Target)
    ensures FirstWith(models, t).Some? <==> exists i :: 0 <= i < |models| && models[i].target == t
    ensures FirstWith(models, t).Some? ==> FirstWith(models, t).value in models && FirstWith(models, t).value.target == t
  {
    if models != [] {
      FirstWithFinds(models[1..], t);
      if i :| 0 <= i < |models| && models[i].target == t && i > 0 { assert models[1..][i - 1].target == t; }
    }
  }

  /** The first model with a target decides what the target costs. */
  lemma FirstDecides(c: Catalog, m: Model)
    requires ValidCatalog(c) && m in c.models
    ensures exists first :: first in c.models && first.target == m.target && CostFor(c, m.target) == Ok(CostUnits(first.cost))
  {
    ChecksMeanContracts(c, Decision("", Malformed, Requirement("", [], OtherComplexity, OtherQuality, OtherLatency, 0, 0, 0, [], 0, false),
      m.target, [], Budget(0, 0, 0), [], Policy(OtherMode, 0, false, false), 0));
    FirstWithFinds(c.models, m.target);
    var first := FirstWith(c.models, m.target).value;
    assert first in c.models && first.target == m.target;
  }

  /** Models with one target cost the same. */
  ghost predicate OneCostToATarget(c: Catalog)
  {
    forall a, b :: a in c.models && b in c.models && a.target == b.target ==> CostUnits(a.cost) == CostUnits(b.cost)
  }

  /** Every model is charged at its own cost if and only if models with one target cost
      the same. */
  lemma CostIsTheModels(c: Catalog)
    requires ValidCatalog(c)
    ensures (forall m :: m in c.models ==> CostFor(c, m.target) == Ok(CostUnits(m.cost))) <==> OneCostToATarget(c)
  {
    hide ValidCatalog, CostFor;
    forall m | m in c.models && OneCostToATarget(c) ensures CostFor(c, m.target) == Ok(CostUnits(m.cost)) { FirstDecides(c, m); }
  }

  /** Reserving for a sound decision fails only when the budget cannot cover it. */
  lemma ReserveFails(c: Catalog, d: Decision, prior: int, routeIndex: int)
    requires ValidCatalog(c) && ValidDecision(d) && d.hash == HashOf(c) && CostFor(c, d.selected).Ok?
    requires 0 <= prior <= MAX_COST_UNITS && 0 <= routeIndex <= MAX_FALLBACKS
    ensures Reserve(c, d, prior, routeIndex).Err? <==> prior + CostFor(c, d.selected).value > d.budget.maxCost
    ensures Reserve(c, d, prior, routeIndex).Ok? ==>
      var u := Reserve(c, d, prior, routeIndex).value;
      && u == Usage(USAGE_VERSION, d.selected, routeIndex, CostFor(c, d.selected).value, prior + CostFor(c, d.selected).value)
      && UsageFaultFor(c, d, u).None?
  {
    ChecksMeanContracts(c, d);
    hide ValidCatalog, ValidRequirement, CatalogFault, DecisionFault, ValidCapabilities, Distinct;
    assert d.budget.maxCost <= MAX_COST_UNITS && ValidTarget(d.selected);
  }

  lemma ReserveMeans(c: Catalog, d: Decision, prior: int, routeIndex: int)
    requires Reserve(c, d, prior, routeIndex).Ok?
    ensures
      var u := Reserve(c, d, prior, routeIndex).value;
      d.hash == HashOf(c) && UsageFaultFor(c, d, u).None? && u.routeIndex == routeIndex && u.cumulative == prior + u.cost
  {
    hide UsageFaultFor, DecisionFault, CatalogFault, CostFor;
  }

  lemma AdvanceMeans(d: Decision)
    requires Advance(d).Ok? && Advance(d).value.Some?
    ensures
      var e := Advance(d).value.value;
      d.fallback != [] && Route(e) == Route(d)[1..] && e.hash == d.hash && e.budget == d.budget
  {
    hide DecisionFault;
  }

  // ----- the ledger is exact -----

  lemma PrefixExact(attempts: seq<Attempt>, n: nat)
    requires LedgerExact(attempts) && n <= |attempts|
    ensures LedgerExact(attempts[..n])
  {
    forall i | 0 <= i < n ensures Exact(attempts[..n], i) {
      assert Exact(attempts, i);
      assert attempts[..n][..i + 1] == attempts[..i + 1];
      TracedAgain(attempts, attempts[..n], i);
    }
  }

  lemma TracedAgain(attempts: seq<Attempt>, others: seq<Attempt>, i: nat)
    requires i < |attempts| && i < |others| && attempts[..i + 1] == others[..i + 1]
    ensures Traced(attempts, i) ==> Traced(others, i)
  {
    hide TracedTo;
    assert forall j :: 0 <= j <= i ==> attempts[j] == attempts[..i + 1][j] && others[j] == others[..i + 1][j];
    if Traced(attempts, i) {
      var j :| 0 <= j <= i && TracedTo(attempts[i], attempts[j]);
      assert TracedTo(others[i], others[j]);
    }
  }

  lemma {:induction false} SpentIsBounded(attempts: seq<Attempt>)
    requires LedgerExact(attempts)
    ensures 0 <= Spent(attempts) <= MAX_COST_UNITS
  {
    if attempts != [] {
      var n := |attempts| - 1;
      PrefixExact(attempts, n);
      SpentIsBounded(attempts[..n]);
      assert Exact(attempts, n) && attempts[..n + 1] == attempts;
      hide Spent, LedgerExact, Traced;
      if attempts[n].usage.Some? {
        var d := attempts[n].decision.value;
        UsageIsBounded(d.hash.catalog, d, attempts[n].usage.value);
      } else {
        SpentStep(attempts);
      }
    }
  }

  lemma SpentStep(attempts: seq<Attempt>)
    requires attempts != []
    ensures var last := attempts[|attempts| - 1];
            Spent(attempts) == Spent(attempts[..|attempts| - 1]) + if last.usage.Some? then last.usage.value.cost else 0
  {
  }

  lemma UsageIsBounded(c: Catalog, d: Decision, u: Usage)
    requires UsageFaultFor(c, d, u).None?
    ensures 1 <= u.cost <= u.cumulative <= MAX_COST_UNITS && u.cumulative <= d.budget.maxCost && 0 <= u.routeIndex <= MAX_FALLBACKS
    ensures u.target == d.selected && ValidDecision(d) && ValidCatalog(c) && CostFor(c, d.selected) == Ok(u.cost) && d.hash == HashOf(c)
  {
    ChecksMeanContracts(c, d);
    hide CatalogFault, DecisionFault, CostFor, ValidCatalog, ValidDecision;
  }

  ghost predicate CatalogsKnown(known: set<Catalog>, attempts: seq<Attempt>, next: int)
  {
    forall i :: 0 <= i < |attempts| && i + 1 < next && attempts[i].decision.Some? && attempts[i].decision.value.hash.HashOf?
      ==> attempts[i].decision.value.hash.catalog in known
  }

  function UpTo(attempts: seq<Attempt>, next: int): seq<Attempt>
  {
    if next <= 1 then [] else if next > |attempts| then attempts else attempts[..next - 1]
  }

  /** Adding an exact Attempt's cost never fails, if its catalog is known. */
  lemma AddExact(known: set<Catalog>, attempts: seq<Attempt>, n: nat)
    requires LedgerExact(attempts) && n == |attempts| - 1
    ensures
      var r := AddCost(known, Spent(attempts[..n]), attempts[n]);
      (r.Ok? <==> (attempts[n].decision.Some? ==> attempts[n].decision.value.hash.HashOf? && attempts[n].decision.value.hash.catalog in known))
      && (r.Ok? ==> r.value == Spent(attempts))
  {
    hide Spent, LedgerExact, Traced, UsageFaultFor, DecisionFault, CostFor, Affords;
    ExactAt(attempts, n);
    assert attempts[..n + 1] == attempts;
    SpentIsBounded(attempts);
    SpentStep(attempts);
  }

  /** The ledger accepts an exact history, as long as its catalogs are known, and answers
      the sum of the reservations before the Attempt that is asked about. */
  lemma {:induction false} HistoryIsAccepted(known: set<Catalog>, attempts: seq<Attempt>, next: int)
    requires LedgerExact(attempts)
    ensures CostBefore(known, attempts, next).Ok? <==> CatalogsKnown(known, attempts, next)
    ensures CostBefore(known, attempts, next).Ok? ==> CostBefore(known, attempts, next).value == Spent(UpTo(attempts, next))
  {
    if attempts != [] {
      var n := |attempts| - 1;
      var rest := attempts[..n];
      PrefixExact(attempts, n);
      HistoryIsAccepted(known, rest, next);
      AddExact(known, attempts, n);
      assert Exact(attempts, n);
      hide LedgerExact, Spent, AddCost, UsageFaultFor, Traced;
      assert attempts[n].number == n + 1;
      assert forall i :: 0 <= i < n ==> rest[i] == attempts[i];
      assert UpTo(rest, next) == if n + 1 >= next then UpTo(attempts, next) else rest;
      assert n + 1 < next ==> UpTo(attempts, next) == attempts;
    }
  }

  /** A route that could be chosen, for a driver with a catalog. */
  predicate Chosen(l: Launch, attempts: seq<Attempt>)
  {
    Probe(l, 0).Ok? && Probe(l, 0).value.Some? && Choose(l, Probe(l, 0).value.value, attempts, |attempts|).Ok?
  }

  lemma ProbeIsSound(l: Launch, i: nat)
    requires i < 3 && Probe(l, i).Ok? && Probe(l, i).value.Some?
    ensures var d := Probe(l, i).value.value;
            ValidDecision(d) && d.hash.HashOf? && ValidCatalog(d.hash.catalog) && Affords(d)
    decreases 3 - i
  {
    hide ResolveFor, ValidDecision, ValidCatalog, Affords;
    var found := ResolveFor(ViewAt(l.situation, i).active, l.driver, l.requirement);
    if found.Ok? && found.value.Some? { ResolvedIsSound(ViewAt(l.situation, i).active, l.driver, l.requirement); }
    if Probe(l, i) != found { ProbeIsSound(l, i + 1); }
  }

  lemma ResolvedIsSound(active: Option<Catalog>, driver: Name, r: Requirement)
    requires ResolveFor(active, driver, r).Ok? && ResolveFor(active, driver, r).value.Some?
    ensures var d := ResolveFor(active, driver, r).value.value;
            ValidDecision(d) && d.hash.HashOf? && ValidCatalog(d.hash.catalog) && Affords(d)
  {
    hide ValidDecision, ValidCatalog, Ranked, Clash, Serves, ValidModel, Resolve;
    var c := active.value;
    var q := Request(c, Some(HashOf(c)), r, Budget(r.maxCost, r.maxContext, r.maxOutput));
    ResolveIsBestFirst(q);
    var d := Resolve(q).value;
    forall t | t in Route(d) ensures CostFor(c, t).Ok? {
      var i :| 0 <= i < |Route(d)| && Route(d)[i] == t;
      RankedIsSound(q, i);
      FirstWithFinds(c.models, t);
      var m :| 0 <= m < |c.models| && c.models[m] == Ranked(q)[i].model;
      assert c.models[m].target == t;
      ChecksMeanContracts(c, d);
    }
  }

  /** Whatever the route, its decision is sound and its targets priced. */
  lemma ChosenIsSound(l: Launch, attempts: seq<Attempt>)
    requires LedgerExact(attempts) && Chosen(l, attempts)
    ensures
      var (d, routeIndex) := Choose(l, Probe(l, 0).value.value, attempts, |attempts|).value;
      && ValidDecision(d) && d.hash.HashOf? && ValidCatalog(d.hash.catalog) && Affords(d) && 0 <= routeIndex <= MAX_FALLBACKS
  {
    hide Probe, ValidDecision, ValidCatalog, Affords, Advance, LedgerExact, UsageFaultFor, Spent, TracedTo;
    ProbeIsSound(l, 0);
    if l.pending.Some? {
      var n := |attempts|;
      var previous := attempts[n - 1];
      ExactAt(attempts, n - 1);
      assert previous.number == n && FindAttempt(attempts, n) == Some(previous);
      var p, u := previous.decision.value, previous.usage.value;
      UsageIsBounded(p.hash.catalog, p, u);
      if p.selected != l.pending.value {
        AdvanceIsSound(p);
        IndexIsBounded(attempts, n - 1);
      }
    }
  }

  lemma ExactAt(attempts: seq<Attempt>, i: nat)
    requires LedgerExact(attempts) && i < |attempts|
    ensures Exact(attempts, i)
  {
  }

  lemma AdvanceIsSound(d: Decision)
    requires Advance(d).Ok? && Advance(d).value.Some? && Affords(d)
    ensures var e := Advance(d).value.value; ValidDecision(e) && Affords(e) && e.hash == d.hash && d.fallback != []
  {
    AdvanceMeans(d);
    var e := Advance(d).value.value;
    ChecksMeanContracts(Catalog("", "", []), e);
    hide DecisionFault, ValidDecision, CostFor, Route;
    forall t | t in Route(e) ensures CostFor(e.hash.catalog, t).Ok? { assert t in Route(d); }
  }

  /** An index and the fallbacks that are left never pass the bound. */
  lemma IndexIsBounded(attempts: seq<Attempt>, i: nat)
    requires LedgerExact(attempts) && i < |attempts| && attempts[i].usage.Some?
    ensures attempts[i].decision.Some? && attempts[i].usage.value.routeIndex + |attempts[i].decision.value.fallback| <= MAX_FALLBACKS
  {
    hide UsageFaultFor, Affords, Spent;
    assert Exact(attempts, i);
    var j :| 0 <= j <= i && TracedTo(attempts[i], attempts[j]);
    assert Exact(attempts, j);
    var b := attempts[j];
    UsageIsBounded(b.decision.value.hash.catalog, b.decision.value, b.usage.value);
  }

  /** A chosen route is traced: fresh, or that of the Attempt before, or its next fallback. */
  lemma ChosenIsTraced(l: Launch, resolved: Decision, attempts: seq<Attempt>, a: Attempt)
    requires LedgerExact(attempts) && Choose(l, resolved, attempts, |attempts|).Ok?
    requires a.decision == Some(Choose(l, resolved, attempts, |attempts|).value.0) && a.usage.Some?
    requires a.usage.value.routeIndex == Choose(l, resolved, attempts, |attempts|).value.1
    ensures Traced(attempts + [a], |attempts|)
  {
    var n, more := |attempts|, attempts + [a];
    if l.pending.None? {
      assert Route(resolved)[0..] == Route(resolved);
      assert TracedTo(more[n], more[n]);
    } else {
      var previous := attempts[n - 1];
      assert Exact(attempts, n - 1);
      assert previous.number == n && FindAttempt(attempts, n) == Some(previous);
      var j :| 0 <= j <= n - 1 && TracedTo(previous, attempts[j]);
      hide UsageFaultFor, LedgerExact, Traced, FindAttempt;
      assert more[j] == attempts[j];
      var p := previous.decision.value;
      if p.selected != l.pending.value {
        AdvanceMeans(p);
        hide Advance;
        var k, whole := previous.usage.value.routeIndex, Route(attempts[j].decision.value);
        assert Route(p) == whole[k..] && |Route(p)| > 1;
        assert whole[k..][1..] == whole[k + 1..];
      }
      assert TracedTo(a, attempts[j]);
      assert Traced(more, n) by { assert TracedTo(more[n], more[j]); TracedBy(more, n, j); }
    }
  }

  lemma TracedBy(attempts: seq<Attempt>, i: nat, j: nat)
    requires j <= i < |attempts| && TracedTo(attempts[i], attempts[j])
    ensures Traced(attempts, i)
  {
  }

  /** Every launch keeps the ledger exact. */
  lemma LaunchKeeps(l: Launch, attempts: seq<Attempt>)
    requires LedgerExact(attempts)
    ensures
      var n, r := |attempts|, Prepare(l, attempts, |attempts|);
      && (r.Ok? && r.value.None? ==> LedgerExact(attempts + [Attempt(n + 1, None, None)]))
      && (r.Ok? && r.value.Some? ==> LedgerExact(attempts + [Attempt(n + 1, Some(r.value.value.0), Some(r.value.value.1))]))
  {
    var n, r := |attempts|, Prepare(l, attempts, |attempts|);
    if r.Ok? {
      var a := if r.value.None? then Attempt(n + 1, None, None) else Attempt(n + 1, Some(r.value.value.0), Some(r.value.value.1));
      var more := attempts + [a];
      forall i | 0 <= i < |more| ensures Exact(more, i) {
        if i < n {
          assert Exact(attempts, i) && more[..i + 1] == attempts[..i + 1];
          hide Prepare, LedgerExact, UsageFaultFor;
          TracedAgain(attempts, more, i);
        } else if r.value.Some? {
          NewIsExact(l, attempts, a);
        }
      }
    }
  }

  lemma NewIsExact(l: Launch, attempts: seq<Attempt>, a: Attempt)
    requires LedgerExact(attempts) && Prepare(l, attempts, |attempts|).Ok? && Prepare(l, attempts, |attempts|).value.Some?
    requires var r := Prepare(l, attempts, |attempts|).value.value; a == Attempt(|attempts| + 1, Some(r.0), Some(r.1))
    ensures Exact(attempts + [a], |attempts|)
  {
    hide Probe, Choose, CostBefore, Reserve, LedgerExact, UsageFaultFor, Traced, Spent, Affords, ValidDecision, ValidCatalog;
    var n, more := |attempts|, attempts + [a];
    var resolved := Probe(l, 0).value.value;
    var (d, routeIndex) := Choose(l, resolved, attempts, n).value;
    var prior := CostBefore(l.situation.known, attempts, n + 1).value;
    ReserveMeans(d.hash.catalog, d, prior, routeIndex);
    HistoryIsAccepted(l.situation.known, attempts, n + 1);
    assert UpTo(attempts, n + 1) == attempts;
    ChosenIsTraced(l, resolved, attempts, a);
    ChosenIsSound(l, attempts);
    assert more[..n] == attempts && more[..n + 1] == more;
    SpentStep(more);
  }

  lemma {:induction false} HistoryIsExact(launches: seq<Launch>)
    ensures LedgerExact(History(launches))
  {
    if launches != [] {
      var n := |launches| - 1;
      HistoryIsExact(launches[..n]);
      LaunchKeeps(launches[n], History(launches[..n]));
      hide LedgerExact, Prepare;
    }
  }

  // ----- guarantees -----

  /** In every history, each reservation is its target's catalog cost, what it carries is
      the sum of all reservations up to it and within its decision's budget, and its route
      is a fresh one with as many targets given up as its index says. */
  lemma LedgerIsExact(launches: seq<Launch>, i: nat)
    requires i < |History(launches)| && History(launches)[i].usage.Some?
    ensures
      var attempts := History(launches);
      var a := attempts[i];
      && a.number == i + 1 && a.decision.Some? && ValidDecision(a.decision.value) && a.decision.value.hash.HashOf?
      && a.usage.value.target == a.decision.value.selected
      && CostFor(a.decision.value.hash.catalog, a.usage.value.target) == Ok(a.usage.value.cost)
      && a.usage.value.cumulative == Spent(attempts[..i + 1]) <= a.decision.value.budget.maxCost
      && Traced(attempts, i) && a.usage.value.routeIndex + |a.decision.value.fallback| <= MAX_FALLBACKS
  {
    hide Prepare, CostFor, Spent, ValidDecision;
    HistoryIsExact(launches);
    var attempts := History(launches);
    hide History;
    assert Exact(attempts, i);
    var a := attempts[i];
    UsageIsBounded(a.decision.value.hash.catalog, a.decision.value, a.usage.value);
    IndexIsBounded(attempts, i);
  }

  /** Once a route is chosen, available and of the right driver, and all catalogs are known,
      the next Attempt is refused exactly when the budget cannot cover what was spent and
      what the route costs. */
  lemma PrepareFailsOverBudget(launches: seq<Launch>, l: Launch)
    requires Chosen(l, History(launches)) && CatalogsKnown(l.situation.known, History(launches), |History(launches)| + 1)
    requires !l.situation.gated || l.situation.stillAvailable
    requires var d := Choose(l, Probe(l, 0).value.value, History(launches), |History(launches)|).value.0;
             d.selected.driver == l.driver && (d.hash.HashOf? ==> d.hash.catalog in l.situation.known)
    ensures
      var attempts := History(launches);
      var d := Choose(l, Probe(l, 0).value.value, attempts, |attempts|).value.0;
      && d.hash.HashOf? && CostFor(d.hash.catalog, d.selected).Ok?
      && (Prepare(l, attempts, |attempts|).Err? <==> Spent(attempts) + CostFor(d.hash.catalog, d.selected).value > d.budget.maxCost)
  {
    hide History, Probe, Choose, CostFor, Reserve, ValidDecision, ValidCatalog, CatalogsKnown, LedgerExact;
    var attempts := History(launches);
    var (d, routeIndex) := Choose(l, Probe(l, 0).value.value, attempts, |attempts|).value;
    HistoryIsExact(launches);
    HistoryIsAccepted(l.situation.known, attempts, |attempts| + 1);
    hide CostBefore, Spent;
    assert UpTo(attempts, |attempts| + 1) == attempts;
    SpentIsBounded(attempts);
    ChosenIsSound(l, attempts);
    ReserveFails(d.hash.catalog, d, Spent(attempts), routeIndex);
  }

  // ----- models that share a target -----

  const SHARED := Target(1, 1, 1)

  const DEAR := Model(1, SHARED, [RepoRead], 1000, 1000, Premium, High, Fast)

  const CHEAP := Model(2, SHARED, [RepoRead], 1000, 1000, Premium, Low, Fast)

  const SHARING := Catalog(CATALOG_VERSION, POLICY_VERSION, [DEAR, CHEAP])

  function Asking(maxCost: int, allowFallback: bool): Request
  {
    Request(SHARING, None, Requirement(REQUIREMENT_VERSION, [RepoRead], Simple, Premium, Fast, maxCost, 100, 100, [], 0, allowFallback),
      Budget(maxCost, 100, 100))
  }

  lemma SharingIsSound(maxCost: int, allowFallback: bool)
    requires 1 <= maxCost <= MAX_COST_UNITS
    ensures ValidCatalog(SHARING) && Accepts(Asking(maxCost, allowFallback))
  {
    assert ValidModel(DEAR) && ValidModel(CHEAP);
    assert forall i :: 0 <= i < |SHARING.models| ==> SHARING.models[i] == DEAR || SHARING.models[i] == CHEAP;
    hide ValidModel;
  }

  lemma SharedServing(maxCost: int, allowFallback: bool)
    requires 1 <= maxCost <= MAX_COST_UNITS
    ensures
      var q := Asking(maxCost, allowFallback);
      var b := Restricted(q.requirement, q.budget);
      (Serves(DEAR, q.requirement, b) <==> maxCost >= 100) && Serves(CHEAP, q.requirement, b)
    ensures Better(ScoredAs(CHEAP, Asking(maxCost, allowFallback).requirement), ScoredAs(DEAR, Asking(maxCost, allowFallback).requirement))
  {
  }

  /** The two models, the cheap one first; only the cheap one if the dear one costs too much. */
  lemma SharedRanking(maxCost: int, allowFallback: bool)
    requires 1 <= maxCost <= MAX_COST_UNITS
    ensures ValidCatalog(SHARING) && Accepts(Asking(maxCost, allowFallback))
    ensures
      var q := Asking(maxCost, allowFallback);
      var dear, cheap := ScoredAs(DEAR, q.requirement), ScoredAs(CHEAP, q.requirement);
      Ranked(q) == if maxCost < 100 then [cheap] else [cheap, dear]
  {
    var q := Asking(maxCost, allowFallback);
    var dear, cheap := ScoredAs(DEAR, q.requirement), ScoredAs(CHEAP, q.requirement);
    var es := if maxCost < 100 then [cheap] else [cheap, dear];
    SharingIsSound(maxCost, allowFallback);
    hide Ranked, ValidCatalog, Accepts, Better, Serves, Restricted;
    RankingIsTheOrder(q);
    SharedServing(maxCost, allowFallback);
    assert dear.model == DEAR && cheap.model == CHEAP && q.catalog.models == [DEAR, CHEAP];
    hide ScoredAs;
    forall e: Scored ensures e in es <==> e in Ranked(q) {
      assert e.model in q.catalog.models <==> e.model == DEAR || e.model == CHEAP;
    }
    assert Ordering.StrictlySorted(Better, es);
  }

  /** With fallback, two models with one target leave a request without an answer: the
      second best would be a fallback to the selected target itself. */
  lemma SharedTargetClashes()
    ensures
      var q := Asking(100, true);
      Accepts(q) && |Ranked(q)| == 2 && Clash(q) && Resolve(q).Err?
  {
    var q := Asking(100, true);
    SharedRanking(100, true);
    assert q.requirement.allowFallback;
    hide Ranked, Accepts, ValidCatalog, Resolve;
    assert Kept(q) == 2;
    assert Ranked(q)[1].model.target == Ranked(q)[0].model.target;
    ResolveIsBestFirst(q);
  }

  lemma SharedCost()
    requires ValidCatalog(SHARING)
    ensures CostFor(SHARING, SHARED) == Ok(100)
  {
    hide ValidCatalog, CatalogFault;
    FirstDecides(SHARING, DEAR);
    assert FirstWith(SHARING.models, SHARED) == Some(DEAR);
  }

  lemma SharedSelected()
    ensures
      var q := Asking(50, false);
      && Ranked(q) != [] && Ranked(q)[0].model == CHEAP && Resolve(q).Ok? && Resolve(q).value.selected == SHARED
      && ValidDecision(Resolve(q).value) && Resolve(q).value.hash == HashOf(SHARING) && Resolve(q).value.budget.maxCost == 50
  {
    var q := Asking(50, false);
    SharedRanking(50, false);
    assert !q.requirement.allowFallback && q.requirement.maxCost == q.budget.maxCost == 50;
    hide Ranked, Accepts, ValidCatalog, Resolve, ValidDecision;
    assert Kept(q) == 1;
    ResolveIsBestFirst(q);
    assert Route(Resolve(q).value)[0] == TargetsOf(Ranked(q)[..1])[0];
  }

  /** Without it the cheap model is selected, but its target is charged at the dear one's
      cost: more than the whole budget that the cheap model fits. */
  lemma SharedTargetIsOvercharged()
    ensures !OneCostToATarget(SHARING)
    ensures
      var q := Asking(50, false);
      && Ranked(q) != [] && Ranked(q)[0].model == CHEAP && CostUnits(CHEAP.cost) == 1
      && Resolve(q).Ok? && Resolve(q).value.selected == SHARED && CostFor(SHARING, SHARED) == Ok(100)
      && Reserve(SHARING, Resolve(q).value, 0, 0).Err?
  {
    assert DEAR in SHARING.models && CHEAP in SHARING.models;
    hide Ranked, ValidCatalog, Resolve, CostFor, Reserve, ValidDecision, Accepts;
    SharingIsSound(50, false);
    SharedSelected();
    SharedCost();
    ReserveFails(SHARING, Resolve(Asking(50, false)).value, 0, 0);
  }
}
