/** The services of the pipeline with the histories they append to. */
module GovernanceController {
  import opened JsonValues
  import opened NestedSearch
  import opened Governance
  import opened GovernanceTheorems
  import opened GovernanceLaws

  /** One check: `if condition: reasons.append(code)`. */
  method Note(reasons: seq<ReasonCode>, condition: bool, code: ReasonCode) returns (r: seq<ReasonCode>)
    ensures r == reasons + When(condition, code)
  {
    r := reasons;
    if condition {
      r := r + [code];
    }
  }

  lemma Regroup<T>(a: seq<T>, b: seq<T>, c: seq<T>, d: seq<T>)
    ensures a + b + c + d == a + (b + c + d)
  {
  }

  method CollectBlocking(p: Policy, model: Option<string>, d: Demand) returns (reasons: seq<ReasonCode>)
    ensures reasons == BlockingReasons(p, model, d)
  {
    var forbidden := Named(model) && model.value in p.forbidden;
    var unlisted := Named(model) && p.allowed != [] && model.value !in p.allowed;
    hide When, OverCost, OverLatency, Level, Named;
    reasons := Note([], forbidden, ModelForbidden);
    assert reasons == When(forbidden, ModelForbidden);
    reasons := Note(reasons, unlisted, ModelNotAllowed);
    reasons := Note(reasons, Level(d.risk) > Level(p.maxRisk), RiskExceedsPolicy);
    reasons := Note(reasons, OverCost(d, p), CostExceedsPolicy);
    reasons := Note(reasons, OverLatency(d, p), LatencyExceedsPolicy);
  }

  method CollectGates(blocking: seq<ReasonCode>, p: Policy, d: Demand) returns (reasons: seq<ReasonCode>)
    ensures reasons == blocking + GateReasons(p, d)
  {
    hide When;
    reasons := Note(blocking, p.needsApproval && !d.approved, ApprovalRequired);
    reasons := Note(reasons, p.needsSupervisor && !d.supervisor, SupervisorRequired);
    reasons := Note(reasons, p.needsDoctor && !d.doctor, DoctorRequired);
    Regroup(blocking, When(p.needsApproval && !d.approved, ApprovalRequired),
            When(p.needsSupervisor && !d.supervisor, SupervisorRequired), When(p.needsDoctor && !d.doctor, DoctorRequired));
  }

  /** `CognitivePolicyEngine.evaluate` on a found policy, collecting reasons one check at a time. */
  method AssessPolicy(p: Policy, model: Option<string>, d: Demand) returns (decision: PolicyDecision)
    ensures decision == Assess(p, model, d)
  {
    hide BlockingReasons, GateReasons;
    var blocking := CollectBlocking(p, model, d);
    var reasons := CollectGates(blocking, p, d);
    var status := if blocking != [] then Blocked else if reasons != [] then RequiresApproval else Allowed;
    decision := PolicyDecision(status, p.id, model, p.needsApproval && !d.approved, p.needsSupervisor && !d.supervisor,
                               p.needsDoctor && !d.doctor, reasons);
  }

  /** `ComplexityEstimator.estimate`, with its three worklist searches. */
  method EstimateComplexity(q: Request) returns (r: real)
    ensures r == ComplexityOf(q)
  {
    hide Holds, Complexity;
    var approval := TruthyNested(q.contracts, {"approval_required", "requires_approval"});
    var validation := TruthyNested(q.contracts, {"validation_required", "requires_validation"});
    var artifacts := TruthyNested(q.contracts, {"artifact_generation", "requires_artifacts"});
    r := Complexity(q, approval, validation, artifacts);
  }

  class Controller {
    const policies: seq<Policy>
    const escalationPolicies: seq<EscalationPolicy>
    var routes: seq<Route>
    var escalations: seq<Escalation>
    var history: seq<Decision>

    constructor (policies: seq<Policy>, escalationPolicies: seq<EscalationPolicy>)
      ensures this.policies == policies && this.escalationPolicies == escalationPolicies
      ensures routes == [] && escalations == [] && history == []
    {
      this.policies, this.escalationPolicies := policies, escalationPolicies;
      routes, escalations, history := [], [], [];
    }

    method EvaluatePolicy(capability: Capability, model: Option<string>, d: Demand) returns (decision: PolicyDecision)
      ensures decision == Evaluate(policies, capability, model, d)
    {
      hide Lookup, Assess;
      var found := Lookup(policies, capability, d.scope);
      if found.None? {
        return PolicyDecision(Blocked, "none", model, false, false, false, [PolicyMissing]);
      }
      decision := AssessPolicy(found.value, model, d);
    }

    method RouteRequest(role: string, capability: Capability, d: Demand) returns (route: Route)
      modifies this`routes
      ensures route == RouteFor(policies, role, capability, d)
      ensures routes == old(routes) + [route]
    {
      hide Lookup, Evaluate, Select, RoleCanUse, EscalationModels;
      var found := Lookup(policies, capability, d.scope);
      if found.None? {
        route := Route(Blocked, role, capability, None, "none", false, false, false, [], [PolicyMissing]);
        routes := routes + [route];
        return;
      }
      var p := found.value;
      var model := Select(p, role);
      var evaluation := EvaluatePolicy(capability, model, d);
      var reasons := evaluation.reasons;
      var bound := RoleCanUse(role, capability);
      if !bound {
        reasons := reasons + [RoleNotBound];
      }
      var models := EscalationModels(p, evaluation);
      route := Route(if bound then evaluation.status else Blocked, role, capability, model, p.id,
                     evaluation.needsSupervisor, evaluation.needsApproval,
                     models != [] && RiskExceedsPolicy !in evaluation.reasons, models, reasons);
      routes := routes + [route];
    }

    method EscalateRoute(route: Route, d: Demand, confidence: real, complexity: real) returns (e: Escalation)
      modifies this`escalations
      ensures e == EscalateFor(route, EscalationFor(escalationPolicies, d.scope, route.capability), confidence, complexity, d.risk)
      ensures escalations == old(escalations) + [e]
    {
      hide EscalationFor;
      var p := EscalationFor(escalationPolicies, d.scope, route.capability);
      var action, target, human, blocked, reasons := Remain, None, false, false, [];
      if route.status == Blocked {
        action, blocked, reasons := BlockRoute, true, reasons + [RouteBlocked];
      } else if Level(d.risk) > Level(p.maxRisk) {
        action, blocked, reasons := BlockRoute, true, reasons + [RiskExceedsEscalation];
      } else if (d.risk == High || d.risk == Critical) && p.humanForHighRisk {
        action, human, reasons := RequestHuman, true, reasons + [HumanRequiredForRisk];
      } else if confidence < p.lowConfidence && complexity >= p.highComplexity && route.escalationModels != [] {
        action, target := Escalate, Some(route.escalationModels[0]);
        reasons := reasons + [LowConfidence, HighComplexity, EscalationAvailable];
      } else if confidence < p.humanConfidence {
        action, human, reasons := RequestHuman, true, reasons + [ConfidenceBelowHuman];
      } else if complexity >= p.highComplexity && route.canEscalate && route.escalationModels != [] {
        action, target := Escalate, Some(route.escalationModels[0]);
        reasons := reasons + [HighComplexity, EscalationAvailable];
      } else {
        reasons := reasons + [RouteSufficient];
      }
      e := Escalation(action, target, confidence, complexity, p.id, human, blocked, reasons);
      escalations := escalations + [e];
    }

    /** `CognitiveGovernanceController.evaluate`: the verdict is the closed form, and every stage
        leaves exactly one record. */
    method EvaluateRequest(q: Request, lowerText: Value -> string) returns (decision: Decision)
      modifies this
      ensures decision == GovernRequest(policies, escalationPolicies, q, lowerText)
      ensures decision.route.capability == Resolve(q, lowerText) && decision.escalation.complexity == ComplexityOf(q)
      ensures ConfidenceOf(q, decision.escalation.confidence)
      ensures decision.status == ClosedForm(policies, escalationPolicies, q.role, decision.route.capability, q.demand,
                                            decision.escalation.confidence)
      ensures routes == old(routes) + [decision.route]
      ensures escalations == old(escalations) + [decision.escalation]
      ensures history == old(history) + [decision]
    {
      hide Resolve, Confidence, ComplexityOf, RouteFor, Evaluate, EscalateFor, EscalationFor, Finalize, ClosedForm, ConfidenceOf;
      var capability := Resolve(q, lowerText);
      var route := RouteRequest(q.role, capability, q.demand);
      RouteCapability(policies, q.role, capability, q.demand);
      var first := EvaluatePolicy(route.capability, route.model, q.demand);
      var confidence := Confidence(q);
      ConfidenceExactly(q);
      var complexity := EstimateComplexity(q);
      var e := EscalateRoute(route, q.demand, confidence, complexity);
      var model := if e.action == Escalate then e.target else route.model;
      var target := first;
      if model != route.model {
        target := EvaluatePolicy(route.capability, model, q.demand);
      }
      decision := Finalize(route, first, target, e, model);
      FinalizeKeeps(route, first, target, e, model);
      EscalationMeasures(route, EscalationFor(escalationPolicies, q.demand.scope, route.capability), confidence, complexity, q.demand.risk);
      history := history + [decision];
      PipelineIsClosedForm(policies, escalationPolicies, q.role, capability, q.demand, confidence, complexity);
    }
  }

  lemma RouteCapability(policies: seq<Policy>, role: string, capability: Capability, d: Demand)
    ensures RouteFor(policies, role, capability, d).capability == capability
  {
    hide Lookup, Evaluate, Select, RoleCanUse, EscalationModels;
  }

  lemma EscalationMeasures(route: Route, p: EscalationPolicy, confidence: real, complexity: real, risk: Risk)
    ensures var e := EscalateFor(route, p, confidence, complexity, risk); e.confidence == confidence && e.complexity == complexity
  {
  }

  lemma FinalizeKeeps(route: Route, first: PolicyDecision, target: PolicyDecision, e: Escalation, model: Option<string>)
    ensures var decision := Finalize(route, first, target, e, model); decision.route == route && decision.escalation == e
  {
    hide FinalReasons;
  }
}
