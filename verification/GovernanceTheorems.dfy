/** The pipeline collapses to a short closed form, in which escalation and complexity play no part. */
module GovernanceTheorems {
  import opened JsonValues
  import opened Sequences
  import opened Governance

  // ---------------------------------------------------------------- the closed form

  /** A policy p, evaluated for the model it selects, stops the request. */
  predicate Stops(p: Policy, role: string, d: Demand) {
    var model := Select(p, role);
    || (model.Some? && model.value != "" && model.value in p.forbidden)
    || Level(d.risk) > Level(p.maxRisk)
    || (d.cost.Some? && p.maxCost.Some? && d.cost.value > p.maxCost.value)
    || (d.latency.Some? && p.maxLatency.Some? && d.latency.value > p.maxLatency.value)
  }

  predicate GateMissing(p: Policy, d: Demand) {
    || (p.needsApproval && !d.approved)
    || (p.needsSupervisor && !d.supervisor)
    || (p.needsDoctor && !d.doctor)
  }

  predicate HumanNeeded(e: EscalationPolicy, d: Demand, confidence: real) {
    (Level(d.risk) >= Level(High) && e.humanForHighRisk) || confidence < e.humanConfidence
  }

  /** The verdict, in one line per outcome. */
  function ClosedForm(policies: seq<Policy>, escalations: seq<EscalationPolicy>, role: string, capability: Capability,
                      d: Demand, confidence: real): Verdict
  {
    var found := Lookup(policies, capability, d.scope);
    var e := EscalationFor(escalations, d.scope, capability);
    if found.None? || Stops(found.value, role, d) || !RoleCanUse(role, capability) || Level(d.risk) > Level(e.maxRisk)
    then Blocked
    else if GateMissing(found.value, d) || HumanNeeded(e, d, confidence) then RequiresApproval
    else Allowed
  }

  lemma BlockingReasonsMean(p: Policy, model: Option<string>, d: Demand)
    requires model.Some? ==> model.value in p.allowed
    ensures BlockingReasons(p, model, d) == [] <==>
      !((Named(model) && model.value in p.forbidden) || Level(d.risk) > Level(p.maxRisk) || OverCost(d, p) || OverLatency(d, p))
    ensures RouteSufficient !in BlockingReasons(p, model, d)
  {
    hide OverCost, OverLatency;
  }

  lemma GateReasonsMean(p: Policy, d: Demand)
    ensures GateReasons(p, d) == [] <==> !GateMissing(p, d)
    ensures RouteSufficient !in GateReasons(p, d)
  {
  }

  lemma AssessStatus(p: Policy, model: Option<string>, d: Demand)
    requires model.Some? ==> model.value in p.allowed
    ensures Assess(p, model, d).status ==
      (if (Named(model) && model.value in p.forbidden) || Level(d.risk) > Level(p.maxRisk) || OverCost(d, p) || OverLatency(d, p)
       then Blocked else if GateMissing(p, d) then RequiresApproval else Allowed)
    ensures var a := Assess(p, model, d); GateMissing(p, d) <==> a.needsApproval || a.needsSupervisor || a.needsDoctor
    ensures Assess(p, model, d).reasons == [] <==> Assess(p, model, d).status == Allowed
    ensures RouteSufficient !in Assess(p, model, d).reasons
  {
    hide BlockingReasons, GateReasons, OverCost, OverLatency;
    BlockingReasonsMean(p, model, d);
    GateReasonsMean(p, d);
  }

  /** Escalation models exist only behind a pending gate, and moving to one leaves the policy
      decision as it was, up to the model's name. */
  lemma EscalatedModelAssessed(p: Policy, model: Option<string>, d: Demand, target: string)
    requires model.Some? ==> model.value in p.allowed
    requires Assess(p, model, d).status != Blocked
    requires target in EscalationModels(p, Assess(p, model, d))
    ensures Assess(p, Some(target), d) == Assess(p, model, d).(model := Some(target))
    ensures GateMissing(p, d)
  {
    FilterMembers(p.allowed[1..], (m: string) => m !in p.forbidden);
    AssessStatus(p, model, d);
    AssessStatus(p, Some(target), d);
  }

  /** What the pipeline computes after the lookup found a policy. */
  lemma GovernFound(policies: seq<Policy>, escalations: seq<EscalationPolicy>, role: string, capability: Capability,
                    d: Demand, confidence: real, complexity: real, p: Policy)
    requires Lookup(policies, capability, d.scope) == Some(p)
    ensures var model := Select(p, role);
      var decision := Govern(policies, escalations, role, capability, d, confidence, complexity);
      && decision.status == ClosedForm(policies, escalations, role, capability, d, confidence)
      && decision.policy.status == Assess(p, model, d).status
      && decision.route.model == model
      && (decision.escalation.action == Escalate ==> decision.status == RequiresApproval)
      && (decision.escalation.action != Escalate ==> decision.model == model)
  {
    hide Lookup, EscalationFor, RoleCanUse, Select, Dedup, Assess, EscalationModels;
    var model := Select(p, role);
    var first := Assess(p, model, d);
    SelectAllowed(p, role);
    AssessStatus(p, model, d);
    var route := RouteFor(policies, role, capability, d);
    var e := EscalateFor(route, EscalationFor(escalations, d.scope, capability), confidence, complexity, d.risk);
    if e.action == Escalate {
      assert route.escalationModels[0] in EscalationModels(p, first);
      EscalatedModelAssessed(p, model, d, route.escalationModels[0]);
    } else {
      AllowedHasNoEscalation(p, first);
    }
  }

  lemma SelectAllowed(p: Policy, role: string)
    ensures Select(p, role).Some? ==> Select(p, role).value in p.allowed
  {
  }

  lemma AllowedHasNoEscalation(p: Policy, first: PolicyDecision)
    ensures first.status == Allowed ==> EscalationModels(p, first) == []
  {
  }

  /** Refinement: for every policy set and request, the seven stages compute the closed form. */
  lemma PipelineIsClosedForm(policies: seq<Policy>, escalations: seq<EscalationPolicy>, role: string, capability: Capability,
                             d: Demand, confidence: real, complexity: real)
    ensures Govern(policies, escalations, role, capability, d, confidence, complexity).status
         == ClosedForm(policies, escalations, role, capability, d, confidence)
  {
    hide EscalationFor, RoleCanUse, Dedup;
    var found := Lookup(policies, capability, d.scope);
    if found.Some? {
      hide Lookup, Govern, ClosedForm;
      GovernFound(policies, escalations, role, capability, d, confidence, complexity, found.value);
    }
  }

  // ---------------------------------------------------------------- escalation changes nothing

  /** The escalated model meets the same policy status as the routed one; an allowed decision was
      never escalated, and an escalated one always waits for a gate. */
  lemma EscalationNeverChangesVerdict(policies: seq<Policy>, escalations: seq<EscalationPolicy>, role: string,
                                      capability: Capability, d: Demand, confidence: real, complexity: real)
    ensures var decision := Govern(policies, escalations, role, capability, d, confidence, complexity);
      && decision.policy.status == Evaluate(policies, capability, decision.route.model, d).status
      && (decision.status == Allowed ==> decision.escalation.action == Remain && decision.model == decision.route.model)
      && (decision.escalation.action == Escalate ==> decision.status == RequiresApproval)
  {
    hide EscalationFor, RoleCanUse, Dedup;
    var found := Lookup(policies, capability, d.scope);
    if found.Some? {
      hide Lookup, Select, Assess, EscalationModels;
      GovernFound(policies, escalations, role, capability, d, confidence, complexity, found.value);
    }
  }

  /** Non-interference: requests that agree on the resolved capability, the measured confidence and
      the demand get the same verdict, however complex their contracts are. */
  lemma ComplexityIrrelevant(policies: seq<Policy>, escalations: seq<EscalationPolicy>, q: Request, r: Request,
                             lowerText: Value -> string)
    requires q.role == r.role && q.demand == r.demand
    requires Resolve(q, lowerText) == Resolve(r, lowerText) && Confidence(q) == Confidence(r)
    ensures GovernRequest(policies, escalations, q, lowerText).status == GovernRequest(policies, escalations, r, lowerText).status
  {
    hide Govern, ClosedForm, ComplexityOf, Resolve, Confidence;
    var c := Resolve(q, lowerText);
    PipelineIsClosedForm(policies, escalations, q.role, c, q.demand, Confidence(q), ComplexityOf(q));
    PipelineIsClosedForm(policies, escalations, q.role, c, q.demand, Confidence(q), ComplexityOf(r));
  }

  // ---------------------------------------------------------------- monotonicity

  function Severity(v: Verdict): nat {
    match v
    case Allowed => 0
    case RequiresApproval => 1
    case Blocked => 2
  }

  /** b asks for no more than a and has passed at least the same gates. */
  ghost predicate Easier(a: Demand, b: Demand) {
    && b.scope == a.scope && Level(b.risk) <= Level(a.risk)
    && (b.cost.Some? ==> a.cost.Some? && b.cost.value <= a.cost.value)
    && (b.latency.Some? ==> a.latency.Some? && b.latency.value <= a.latency.value)
    && (a.approved ==> b.approved) && (a.supervisor ==> b.supervisor) && (a.doctor ==> b.doctor)
  }

  /** Granting a gate, lowering risk, cost or latency, or raising confidence never makes the verdict
      more restrictive. */
  lemma VerdictMonotone(policies: seq<Policy>, escalations: seq<EscalationPolicy>, role: string, capability: Capability,
                        a: Demand, b: Demand, confidence: real, higher: real, complexity: real, other: real)
    requires Easier(a, b) && confidence <= higher
    ensures Severity(Govern(policies, escalations, role, capability, b, higher, other).status)
         <= Severity(Govern(policies, escalations, role, capability, a, confidence, complexity).status)
  {
    hide Govern, Lookup, EscalationFor, RoleCanUse, Select;
    PipelineIsClosedForm(policies, escalations, role, capability, a, confidence, complexity);
    PipelineIsClosedForm(policies, escalations, role, capability, b, higher, other);
  }

  // ---------------------------------------------------------------- reasons

  lemma DedupOne(s: seq<ReasonCode>, c: ReasonCode)
    ensures Dedup(s) == [c] <==> s != [] && forall i :: 0 <= i < |s| ==> s[i] == c
  {
    hide Dedup;
    var r := Dedup(s);
    assert forall i :: 0 <= i < |s| ==> s[i] in s && s[i] in r;
    assert forall i :: 0 <= i < |r| ==> r[i] in r && r[i] in s;
    assert |r| > 1 ==> r[0] != r[1];
    if s != [] && forall i :: 0 <= i < |s| ==> s[i] == c {
      assert s[0] in r;
      assert forall i :: 0 <= i < |r| ==> r[i] == c;
    }
  }

  lemma FinalReasonsExplained(route: Route, first: PolicyDecision, target: PolicyDecision, e: Escalation)
    requires RouteSufficient !in route.reasons && RouteSufficient !in first.reasons && RouteSufficient !in target.reasons
    requires e.reasons != [] && e.reasons[0] != GovernanceAllowed
    ensures var reasons := FinalReasons(route, first, target, e);
      && Distinct(reasons) && reasons != [GovernanceAllowed]
      && (reasons == [RouteSufficient] <==>
           route.reasons == [] && first.reasons == [] && target.reasons == [] && forall i :: 0 <= i < |e.reasons| ==> e.reasons[i] == RouteSufficient)
  {
    hide Dedup;
    var body := route.reasons + first.reasons + target.reasons;
    var all := body + e.reasons;
    assert body != [] ==> all[0] == body[0] && body[0] != RouteSufficient by {
      assert body != [] ==> body[0] in route.reasons || body[0] in first.reasons || body[0] in target.reasons;
    }
    assert all[|body|] == e.reasons[0];
    assert forall i :: 0 <= i < |e.reasons| ==> all[|body| + i] == e.reasons[i];
    assert forall i :: 0 <= i < |body| ==> all[i] == body[i];
    DedupOne(all, RouteSufficient);
    DedupOne(all, GovernanceAllowed);
    assert Dedup(all) != [] by {
      assert all[|body|] in all;
    }
  }

  lemma EscalationReasons(route: Route, p: EscalationPolicy, confidence: real, complexity: real, risk: Risk)
    ensures var e := EscalateFor(route, p, confidence, complexity, risk);
      && e.reasons != [] && e.reasons[0] != GovernanceAllowed
      && ((forall i :: 0 <= i < |e.reasons| ==> e.reasons[i] == RouteSufficient) <==> e.action == Remain)
      && (e.action == Remain ==> !e.human && !e.blocked)
  {
  }

  /** The reasons of a decision never repeat and are never the fallback code; a request is allowed
      exactly when the only reason given is that the route is sufficient. */
  lemma ReasonsExplainVerdict(policies: seq<Policy>, escalations: seq<EscalationPolicy>, role: string,
                              capability: Capability, d: Demand, confidence: real, complexity: real)
    ensures var decision := Govern(policies, escalations, role, capability, d, confidence, complexity);
      && Distinct(decision.reasons)
      && decision.reasons != [GovernanceAllowed]
      && (decision.status == Allowed <==> decision.reasons == [RouteSufficient])
  {
    hide EscalationFor, RoleCanUse, Select, Lookup, Assess, EscalateFor, FinalReasons, EscalationModels, GateMissing;
    var e := EscalationFor(escalations, d.scope, capability);
    var route := RouteFor(policies, role, capability, d);
    EscalationReasons(route, e, confidence, complexity, d.risk);
    EscalationNeverChangesVerdict(policies, escalations, role, capability, d, confidence, complexity);
    var decision := Govern(policies, escalations, role, capability, d, confidence, complexity);
    var first := Evaluate(policies, capability, route.model, d);
    var found := Lookup(policies, capability, d.scope);
    if found.Some? {
      var p := found.value;
      SelectAllowed(p, role);
      AssessStatus(p, route.model, d);
      if decision.escalation.action == Escalate {
        hide Finalize;
        EscalatedTarget(p, route, e, confidence, complexity, d);
      }
    }
    FinalReasonsExplained(route, first, decision.policy, decision.escalation);
  }

  lemma EscalatedTarget(p: Policy, route: Route, e: EscalationPolicy, confidence: real, complexity: real, d: Demand)
    requires route.model.Some? ==> route.model.value in p.allowed
    requires route.escalationModels == EscalationModels(p, Assess(p, route.model, d))
    requires route.status != Blocked ==> Assess(p, route.model, d).status != Blocked
    requires EscalateFor(route, e, confidence, complexity, d.risk).action == Escalate
    ensures var target := EscalateFor(route, e, confidence, complexity, d.risk).target;
      && Assess(p, target, d) == Assess(p, route.model, d).(model := target)
      && target.Some? && target.value in p.allowed
  {
    hide Assess, EscalationModels;
    assert route.escalationModels[0] in route.escalationModels;
    EscalatedModelAssessed(p, route.model, d, route.escalationModels[0]);
    EscalationModelsAllowed(p, Assess(p, route.model, d));
  }

  lemma EscalationModelsAllowed(p: Policy, first: PolicyDecision)
    ensures forall m :: m in EscalationModels(p, first) ==> m in p.allowed
  {
    if p.allowed != [] {
      FilterMembers(p.allowed[1..], (m: string) => m !in p.forbidden);
    }
  }

  // ---------------------------------------------------------------- lookup

  lemma ByIdPreorder()
    ensures TotalPreorder(ById())
  {
    forall a: Policy, b: Policy ensures ById()(a, b) || ById()(b, a) {
      StringLeTotal(a.id, b.id);
    }
    forall a: Policy, b: Policy, c: Policy | ById()(a, b) && ById()(b, c) ensures ById()(a, c) {
      StringLeTransitive(a.id, b.id, c.id);
    }
  }

  lemma SmallestIsFirst(policies: seq<Policy>, p: Policy -> bool)
    ensures var kept := StableSort(Filter(policies, p), ById());
      && (kept == [] <==> forall q :: q in policies ==> !p(q))
      && (kept != [] ==> kept[0] in policies && p(kept[0]))
      && (kept != [] ==> forall q :: q in policies && p(q) ==> StringLe(kept[0].id, q.id))
  {
    hide Filter, StableSort;
    var kept := StableSort(Filter(policies, p), ById());
    ByIdPreorder();
    FilterMembers(policies, p);
    SortPermutes(Filter(policies, p), ById());
    SortOrdered(Filter(policies, p), ById());
    if kept != [] {
      assert kept[0] in kept;
      forall q | q in policies && p(q) ensures StringLe(kept[0].id, q.id) {
        assert q in kept;
        var i :| 0 <= i < |kept| && kept[i] == q;
        assert ById()(kept[0], kept[0]);
        assert i > 0 ==> ById()(kept[0], kept[i]);
      }
    } else {
      forall q | q in policies ensures !p(q) {
        assert p(q) ==> q in kept;
      }
    }
  }

  /** The policy found is one for the capability in the requested scope, or in the "runtime" scope
      when there is none, and has the smallest id among those; none is found only when there is none. */
  lemma LookupExact(policies: seq<Policy>, capability: Capability, scope: string)
    ensures var found := Lookup(policies, capability, scope);
      && (found.None? <==> forall q :: q in policies && q.capability == capability ==> q.scope != scope && q.scope != "runtime")
      && (found.Some? ==> var p := found.value;
           && p in policies && p.capability == capability
           && (p.scope == scope || (p.scope == "runtime" && forall q :: q in policies && q.capability == capability ==> q.scope != scope))
           && forall q :: q in policies && q.capability == capability && q.scope == p.scope ==> StringLe(p.id, q.id))
  {
    hide Filter, StableSort;
    SmallestIsFirst(policies, For(capability, scope));
    SmallestIsFirst(policies, For(capability, "runtime"));
  }

  lemma {:induction false} FilterCounts(s: seq<Policy>, p: Policy -> bool, x: Policy)
    ensures multiset(Filter(s, p))[x] == if p(x) then multiset(s)[x] else 0
  {
    if s != [] {
      FilterCounts(s[1..], p, x);
      assert s == [s[0]] + s[1..];
    }
  }

  lemma FilterPermuted(a: seq<Policy>, b: seq<Policy>, p: Policy -> bool)
    requires multiset(a) == multiset(b)
    ensures multiset(Filter(a, p)) == multiset(Filter(b, p))
  {
    forall x: Policy ensures multiset(Filter(a, p))[x] == multiset(Filter(b, p))[x] {
      FilterCounts(a, p, x);
      FilterCounts(b, p, x);
    }
  }

  ghost predicate UniqueIds(policies: seq<Policy>) {
    forall i, j :: 0 <= i < |policies| && 0 <= j < |policies| && policies[i].id == policies[j].id ==> policies[i] == policies[j]
  }

  lemma SortedFilterPermuted(a: seq<Policy>, b: seq<Policy>, p: Policy -> bool)
    requires multiset(a) == multiset(b) && UniqueIds(a)
    ensures StableSort(Filter(a, p), ById()) == StableSort(Filter(b, p), ById())
  {
    hide Filter, StableSort;
    ByIdPreorder();
    FilterPermuted(a, b, p);
    FilterMembers(a, p);
    var kept := Filter(a, p);
    forall i, j | 0 <= i < |kept| && 0 <= j < |kept| && ById()(kept[i], kept[j]) && ById()(kept[j], kept[i])
      ensures kept[i] == kept[j]
    {
      StringLeTotal(kept[i].id, kept[j].id);
      assert kept[i] in kept && kept[j] in kept;
      assert kept[i] in a && kept[j] in a;
    }
    SortIgnoresOrder(Filter(a, p), Filter(b, p), ById());
  }

  /** The order in which policies are registered does not matter as long as their ids differ. */
  lemma RegistrationOrderIrrelevant(a: seq<Policy>, b: seq<Policy>, escalations: seq<EscalationPolicy>, role: string,
                                    capability: Capability, d: Demand, confidence: real, complexity: real)
    requires multiset(a) == multiset(b) && UniqueIds(a)
    ensures Lookup(a, capability, d.scope) == Lookup(b, capability, d.scope)
    ensures Govern(a, escalations, role, capability, d, confidence, complexity)
         == Govern(b, escalations, role, capability, d, confidence, complexity)
  {
    hide StableSort, Filter, EscalateFor, Finalize, EscalationFor, Assess, Select, RoleCanUse;
    SortedFilterPermuted(a, b, For(capability, d.scope));
    SortedFilterPermuted(a, b, For(capability, "runtime"));
  }
}
