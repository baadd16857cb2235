/** The cognitive governance pipeline: capability resolution, policy lookup, model selection, policy
    evaluation, routing, escalation and the final decision. */
module Governance {
  import opened JsonValues
  import opened Sequences
  import opened NestedSearch

  datatype Capability =
    | Language | Reasoning | Vision | Ocr | Embedding | Reranking | CodeGeneration | CodeReview | Planning

  datatype Risk = Low | Medium | High | Critical

  datatype Verdict = Allowed | RequiresApproval | Blocked

  datatype Action = Remain | Escalate | RequestHuman | BlockRoute

  datatype ReasonCode =
    | PolicyMissing | ModelForbidden | ModelNotAllowed | RiskExceedsPolicy | CostExceedsPolicy | LatencyExceedsPolicy
    | ApprovalRequired | SupervisorRequired | DoctorRequired | RoleNotBound
    | RouteBlocked | RiskExceedsEscalation | HumanRequiredForRisk | LowConfidence | HighComplexity
    | EscalationAvailable | ConfidenceBelowHuman | RouteSufficient | GovernanceAllowed

  datatype Policy = Policy(
    id: string, scope: string, capability: Capability, allowed: seq<string>, forbidden: seq<string>,
    maxRisk: Risk, maxCost: Option<real>, maxLatency: Option<int>,
    needsApproval: bool, needsSupervisor: bool, needsDoctor: bool)

  datatype EscalationPolicy = EscalationPolicy(
    id: string, scope: string, capability: Option<Capability>, lowConfidence: real, humanConfidence: real,
    highComplexity: real, maxRisk: Risk, humanForHighRisk: bool)

  /** What a request asks for and which gates it has already passed. */
  datatype Demand = Demand(
    scope: string, risk: Risk, cost: Option<real>, latency: Option<int>, approved: bool, supervisor: bool, doctor: bool)

  datatype Request = Request(
    isr: seq<Entry>, contracts: seq<Entry>, role: string, capability: Option<Capability>,
    confidence: Option<real>, demand: Demand)

  datatype PolicyDecision = PolicyDecision(
    status: Verdict, policyId: string, model: Option<string>,
    needsApproval: bool, needsSupervisor: bool, needsDoctor: bool, reasons: seq<ReasonCode>)

  datatype Route = Route(
    status: Verdict, role: string, capability: Capability, model: Option<string>, policyId: string,
    needsSupervisor: bool, needsApproval: bool, canEscalate: bool, escalationModels: seq<string>, reasons: seq<ReasonCode>)

  datatype Escalation = Escalation(
    action: Action, target: Option<string>, confidence: real, complexity: real, policyId: string,
    human: bool, blocked: bool, reasons: seq<ReasonCode>)

  datatype Decision = Decision(
    status: Verdict, model: Option<string>, needsApproval: bool, needsSupervisor: bool, needsDoctor: bool,
    human: bool, route: Route, policy: PolicyDecision, escalation: Escalation, reasons: seq<ReasonCode>)

  function Level(r: Risk): nat {
    match r
    case Low => 0
    case Medium => 1
    case High => 2
    case Critical => 3
  }

  // ---------------------------------------------------------------- lookup and selection

  function ById(): (Policy, Policy) -> bool {
    (a: Policy, b: Policy) => StringLe(a.id, b.id)
  }

  function For(capability: Capability, scope: string): Policy -> bool {
    (p: Policy) => p.capability == capability && p.scope == scope
  }

  /** `for_capability`: the scoped policy of smallest id, else the generic "runtime" one. */
  function Lookup(policies: seq<Policy>, capability: Capability, scope: string): (r: Option<Policy>) {
    var scoped := StableSort(Filter(policies, For(capability, scope)), ById());
    var generic := StableSort(Filter(policies, For(capability, "runtime")), ById());
    if scoped != [] then Some(scoped[0]) else if generic != [] then Some(generic[0]) else None
  }

  function ByEscalationId(): (EscalationPolicy, EscalationPolicy) -> bool {
    (a: EscalationPolicy, b: EscalationPolicy) => StringLe(a.id, b.id)
  }

  const DEFAULT_ESCALATION := EscalationPolicy(
    "cognitive_escalation_policy_runtime_default", "runtime", None, 0.45, 0.6, 0.7, High, true)

  /** `for_scope_and_capability`, over the default policy when none is configured. */
  function EscalationFor(configured: seq<EscalationPolicy>, scope: string, capability: Capability): EscalationPolicy {
    var policies := if configured == [] then [DEFAULT_ESCALATION] else configured;
    var scoped := StableSort(
      Filter(policies, (p: EscalationPolicy) => p.scope == scope && p.capability == Some(capability)), ByEscalationId());
    var generic := StableSort(
      Filter(policies, (p: EscalationPolicy) => p.scope == scope && p.capability.None?), ByEscalationId());
    var all := StableSort(policies, ByEscalationId());
    SortPermutes(policies, ByEscalationId());
    if scoped != [] then scoped[0] else if generic != [] then generic[0] else all[0]
  }

  /** The text the capability is inferred from, as `str(value).lower()` gives it. */
  function IntentText(q: Request, lowerText: Value -> string): string {
    var intent := Get(q.isr, "intent");
    var operation := Get(q.contracts, "operation_type");
    lowerText(if Truthy(intent) then intent else if Truthy(operation) then operation else Text(""))
  }

  function Resolve(q: Request, lowerText: Value -> string): Capability {
    if q.capability.Some? then q.capability.value
    else
      var text := IntentText(q, lowerText);
      if Contains(text, "patch") || Contains(text, "code") then CodeGeneration
      else if Contains(text, "review") then CodeReview
      else if Contains(text, "plan") then Planning
      else if Contains(text, "vision") || Contains(text, "image") then Vision
      else if Contains(text, "ocr") then Ocr
      else if Contains(text, "reason") || Contains(text, "debug") then Reasoning
      else Language
  }

  function Preferred(role: string): seq<string> {
    if role == "semantic_interpreter" then ["local-small", "governed-chat"]
    else if role == "planner" || role == "patch_planner" then ["local-reasoner", "governed-reasoner"]
    else if role == "vision" then ["local-vision", "governed-vision"]
    else if role == "ocr" then ["local-ocr", "governed-ocr"]
    else []
  }

  function FirstAllowed(candidates: seq<string>, allowed: seq<string>): (r: Option<string>)
    ensures r.Some? ==> r.value in allowed
    ensures r.Some? ==>
      exists i :: 0 <= i < |candidates| && candidates[i] == r.value && forall j :: 0 <= j < i ==> candidates[j] !in allowed
    ensures r.None? ==> forall i :: 0 <= i < |candidates| ==> candidates[i] !in allowed
  {
    if candidates == [] then None
    else if candidates[0] in allowed then Some(candidates[0])
    else FirstAllowed(candidates[1..], allowed)
  }

  function Select(p: Policy, role: string): (r: Option<string>)
    ensures r.None? <==> p.allowed == []
    ensures r.Some? ==> r.value in p.allowed
  {
    if p.allowed == [] then None
    else
      var preferred := FirstAllowed(Preferred(role), p.allowed);
      if preferred.Some? then preferred else Some(p.allowed[0])
  }

  predicate RoleCanUse(role: string, c: Capability) {
    if role == "semantic_interpreter" then c in {Language, Reasoning, Planning}
    else if role == "planner" then c in {Planning, Reasoning, Language}
    else if role == "patch_planner" then c in {CodeGeneration, CodeReview, Reasoning, Planning}
    else if role == "vision" then c == Vision
    else if role == "ocr" then c == Ocr
    else if role == "reviewer" then c in {CodeReview, Reasoning, Language}
    else true
  }

  // ---------------------------------------------------------------- policy evaluation

  predicate Named(model: Option<string>) {
    model.Some? && model.value != ""
  }

  predicate OverCost(d: Demand, p: Policy) {
    d.cost.Some? && p.maxCost.Some? && d.cost.value > p.maxCost.value
  }

  predicate OverLatency(d: Demand, p: Policy) {
    d.latency.Some? && p.maxLatency.Some? && d.latency.value > p.maxLatency.value
  }

  function When(condition: bool, code: ReasonCode): seq<ReasonCode> {
    if condition then [code] else []
  }

  function BlockingReasons(p: Policy, model: Option<string>, d: Demand): seq<ReasonCode> {
    When(Named(model) && model.value in p.forbidden, ModelForbidden)
    + When(Named(model) && p.allowed != [] && model.value !in p.allowed, ModelNotAllowed)
    + When(Level(d.risk) > Level(p.maxRisk), RiskExceedsPolicy)
    + When(OverCost(d, p), CostExceedsPolicy)
    + When(OverLatency(d, p), LatencyExceedsPolicy)
  }

  function GateReasons(p: Policy, d: Demand): seq<ReasonCode> {
    When(p.needsApproval && !d.approved, ApprovalRequired)
    + When(p.needsSupervisor && !d.supervisor, SupervisorRequired)
    + When(p.needsDoctor && !d.doctor, DoctorRequired)
  }

  /** `CognitivePolicyEngine.evaluate` */
  function Evaluate(policies: seq<Policy>, capability: Capability, model: Option<string>, d: Demand): PolicyDecision {
    var found := Lookup(policies, capability, d.scope);
    if found.None? then PolicyDecision(Blocked, "none", model, false, false, false, [PolicyMissing])
    else Assess(found.value, model, d)
  }

  function Assess(p: Policy, model: Option<string>, d: Demand): PolicyDecision {
    var blocking := BlockingReasons(p, model, d);
    var gates := GateReasons(p, d);
    PolicyDecision(if blocking != [] then Blocked else if gates != [] then RequiresApproval else Allowed,
                   p.id, model, p.needsApproval && !d.approved, p.needsSupervisor && !d.supervisor,
                   p.needsDoctor && !d.doctor, blocking + gates)
  }

  // ---------------------------------------------------------------- routing

  function EscalationModels(p: Policy, decision: PolicyDecision): seq<string> {
    if decision.status == Allowed || p.allowed == [] then []
    else Filter(p.allowed[1..], (m: string) => m !in p.forbidden)
  }

  /** `CognitiveRouter.route` */
  function RouteFor(policies: seq<Policy>, role: string, capability: Capability, d: Demand): Route {
    var found := Lookup(policies, capability, d.scope);
    if found.None? then Route(Blocked, role, capability, None, "none", false, false, false, [], [PolicyMissing])
    else
      var p := found.value;
      var model := Select(p, role);
      var evaluation := Evaluate(policies, capability, model, d);
      var bound := RoleCanUse(role, capability);
      var models := EscalationModels(p, evaluation);
      Route(if bound then evaluation.status else Blocked, role, capability, model, p.id,
            evaluation.needsSupervisor, evaluation.needsApproval,
            models != [] && RiskExceedsPolicy !in evaluation.reasons, models,
            evaluation.reasons + When(!bound, RoleNotBound))
  }

  // ---------------------------------------------------------------- escalation

  function Clamp(x: real): (r: real)
    ensures 0.0 <= r <= 1.0
  {
    if x < 0.0 then 0.0 else if x > 1.0 then 1.0 else x
  }

  function NumberOf(v: Value): Option<real> {
    match v
    case Number(n) => Some(n)
    case Bool(b) => Some(if b then 1.0 else 0.0)
    case _ => None
  }

  function Confidence(q: Request): (r: real)
    ensures 0.0 <= r <= 1.0
  {
    var isr, contracts := NumberOf(Get(q.isr, "confidence")), NumberOf(Get(q.contracts, "confidence"));
    if q.confidence.Some? then Clamp(q.confidence.value)
    else if isr.Some? then Clamp(isr.value)
    else if contracts.Some? then Clamp(contracts.value)
    else 0.5
  }

  function Count(v: Value): nat {
    match v
    case Null => 0
    case Array(items) => |items|
    case Object(es) => |es|
    case _ => 1
  }

  function Capped(n: nat, weight: real, cap: real): real {
    if n as real * weight < cap then n as real * weight else cap
  }

  /** `ComplexityEstimator.estimate`, given the three nested flags. */
  function Complexity(q: Request, approval: bool, validation: bool, artifacts: bool): (r: real)
    ensures 0.0 <= r <= 1.0
  {
    Clamp(Capped(Count(Get(q.isr, "entities")), 0.08, 0.24)
          + Capped(Count(Get(q.isr, "constraints")), 0.1, 0.2)
          + Capped(Count(Get(q.isr, "expected_outputs")), 0.1, 0.2)
          + Capped(Count(Get(q.contracts, "requested_actions")), 0.12, 0.24)
          + (if approval then 0.18 else 0.0) + (if validation then 0.16 else 0.0) + (if artifacts then 0.1 else 0.0))
  }

  function ComplexityOf(q: Request): (r: real)
    ensures 0.0 <= r <= 1.0
  {
    var c := Object(q.contracts);
    Complexity(q, Holds(c, {"approval_required", "requires_approval"}),
               Holds(c, {"validation_required", "requires_validation"}),
               Holds(c, {"artifact_generation", "requires_artifacts"}))
  }

  /** `CognitiveEscalationEngine.escalate` */
  function EscalateFor(route: Route, p: EscalationPolicy, confidence: real, complexity: real, risk: Risk): Escalation {
    var base := Escalation(Remain, None, confidence, complexity, p.id, false, false, []);
    if route.status == Blocked then base.(action := BlockRoute, blocked := true, reasons := [RouteBlocked])
    else if Level(risk) > Level(p.maxRisk) then
      base.(action := BlockRoute, blocked := true, reasons := [RiskExceedsEscalation])
    else if (risk == High || risk == Critical) && p.humanForHighRisk then
      base.(action := RequestHuman, human := true, reasons := [HumanRequiredForRisk])
    else if confidence < p.lowConfidence && complexity >= p.highComplexity && route.escalationModels != [] then
      base.(action := Escalate, target := Some(route.escalationModels[0]),
            reasons := [LowConfidence, HighComplexity, EscalationAvailable])
    else if confidence < p.humanConfidence then
      base.(action := RequestHuman, human := true, reasons := [ConfidenceBelowHuman])
    else if complexity >= p.highComplexity && route.canEscalate && route.escalationModels != [] then
      base.(action := Escalate, target := Some(route.escalationModels[0]), reasons := [HighComplexity, EscalationAvailable])
    else base.(reasons := [RouteSufficient])
  }

  // ---------------------------------------------------------------- the final decision

  function FinalReasons(route: Route, first: PolicyDecision, target: PolicyDecision, e: Escalation): seq<ReasonCode> {
    var reasons := Dedup(route.reasons + first.reasons + target.reasons + e.reasons);
    if reasons == [] then [GovernanceAllowed] else reasons
  }

  function Finalize(route: Route, first: PolicyDecision, target: PolicyDecision, e: Escalation, model: Option<string>): Decision {
    var approval := route.needsApproval || first.needsApproval || target.needsApproval;
    var supervisor := route.needsSupervisor || first.needsSupervisor || target.needsSupervisor;
    var doctor := first.needsDoctor || target.needsDoctor;
    var blocked := route.status == Blocked || first.status == Blocked || target.status == Blocked || e.blocked;
    var pending := approval || supervisor || doctor || e.human;
    Decision(if blocked then Blocked else if pending then RequiresApproval else Allowed,
             model, approval, supervisor, doctor, e.human, route, target, e, FinalReasons(route, first, target, e))
  }

  /** `CognitiveGovernanceController.evaluate` on a resolved capability and measured request. */
  function Govern(policies: seq<Policy>, escalations: seq<EscalationPolicy>, role: string, capability: Capability,
                  d: Demand, confidence: real, complexity: real): Decision
  {
    var route := RouteFor(policies, role, capability, d);
    var first := Evaluate(policies, capability, route.model, d);
    var e := EscalateFor(route, EscalationFor(escalations, d.scope, capability), confidence, complexity, d.risk);
    var model := if e.action == Escalate then e.target else route.model;
    var target := if model != route.model then Evaluate(policies, capability, model, d) else first;
    Finalize(route, first, target, e, model)
  }

  function GovernRequest(policies: seq<Policy>, escalations: seq<EscalationPolicy>, q: Request, lowerText: Value -> string): Decision {
    Govern(policies, escalations, q.role, Resolve(q, lowerText), q.demand, Confidence(q), ComplexityOf(q))
  }
}
