/** What every stage of the pipeline decides, stated from the request and the configured policies. */
module GovernanceLaws {
  import opened JsonValues
  import opened Sequences
  import opened NestedSearch
  import opened Governance
  import opened GovernanceTheorems

  // ---------------------------------------------------------------- confidence

  /** The first entry with this key holds the number n; truth values count as one and zero. */
  ghost predicate NumberAt(entries: seq<Entry>, key: string, n: real) {
    exists i :: FirstWith(entries, key, i)
      && (entries[i].value == Number(n) || (n == 1.0 && entries[i].value == Bool(true)) || (n == 0.0 && entries[i].value == Bool(false)))
  }

  ghost predicate NoNumberAt(entries: seq<Entry>, key: string) {
    forall i :: FirstWith(entries, key, i) ==> !entries[i].value.Number? && !entries[i].value.Bool?
  }

  /** The confidence that a request states: its own, else a number of its representation, else one of
      its contracts, else one half. */
  ghost predicate States(q: Request, c: real) {
    if q.confidence.Some? then c == q.confidence.value
    else
      || NumberAt(q.isr, "confidence", c)
      || (NoNumberAt(q.isr, "confidence") && NumberAt(q.contracts, "confidence", c))
      || (NoNumberAt(q.isr, "confidence") && NoNumberAt(q.contracts, "confidence") && c == 0.5)
  }

  /** r is the confidence that q states, moved to the nearest bound of 0..1. */
  ghost predicate ConfidenceOf(q: Request, r: real) {
    exists c :: States(q, c) && (0.0 <= c <= 1.0 ==> r == c) && (c < 0.0 ==> r == 0.0) && (c > 1.0 ==> r == 1.0)
  }

  lemma NumberFound(entries: seq<Entry>, key: string)
    ensures var found := NumberOf(Get(entries, key));
      && (found.Some? ==> NumberAt(entries, key, found.value))
      && (found.None? ==> NoNumberAt(entries, key))
  {
    GetExactly(entries, key);
  }

  lemma ConfidenceExactly(q: Request)
    ensures ConfidenceOf(q, Confidence(q))
  {
    hide NumberAt, NoNumberAt, NumberOf;
    NumberFound(q.isr, "confidence");
    NumberFound(q.contracts, "confidence");
    var isr, contracts := NumberOf(Get(q.isr, "confidence")), NumberOf(Get(q.contracts, "confidence"));
    var c := if q.confidence.Some? then q.confidence.value else if isr.Some? then isr.value
             else if contracts.Some? then contracts.value else 0.5;
    assert States(q, c);
  }

  lemma OneNumber(entries: seq<Entry>, key: string, c: real, d: real)
    requires NumberAt(entries, key, c)
    ensures NumberAt(entries, key, d) ==> c == d
    ensures !NoNumberAt(entries, key)
  {
    var i :| FirstWith(entries, key, i)
      && (entries[i].value == Number(c) || (c == 1.0 && entries[i].value == Bool(true)) || (c == 0.0 && entries[i].value == Bool(false)));
    if NumberAt(entries, key, d) {
      var j :| FirstWith(entries, key, j)
        && (entries[j].value == Number(d) || (d == 1.0 && entries[j].value == Bool(true)) || (d == 0.0 && entries[j].value == Bool(false)));
      assert i == j;
    }
  }

  /** No request states two confidences. */
  lemma OneConfidence(q: Request, c: real, d: real)
    requires States(q, c) && States(q, d)
    ensures c == d
  {
    hide NumberAt, NoNumberAt;
    if NumberAt(q.isr, "confidence", c) {
      OneNumber(q.isr, "confidence", c, d);
    }
    if NumberAt(q.isr, "confidence", d) {
      OneNumber(q.isr, "confidence", d, c);
    }
    if NumberAt(q.contracts, "confidence", c) {
      OneNumber(q.contracts, "confidence", c, d);
    }
    if NumberAt(q.contracts, "confidence", d) {
      OneNumber(q.contracts, "confidence", d, c);
    }
  }

  // ---------------------------------------------------------------- complexity

  ghost predicate Counts(v: Value, n: nat) {
    match v
    case Null => n == 0
    case Array(items) => n == |items|
    case Object(entries) => n == |entries|
    case _ => n == 1
  }

  function Least(a: real, b: real): real {
    if a <= b then a else b
  }

  /** Some dictionary inside the contracts holds one of the keys with a value that counts as true. */
  ghost predicate Flagged(q: Request, keys: set<string>) {
    exists path :: HitAt(Object(q.contracts), path, keys)
  }

  function Share(present: bool, weight: real): real {
    if present then weight else 0.0
  }

  /** The estimate adds a capped share for each list and a fixed share for each flag found anywhere in
      the contracts, and never exceeds one. */
  lemma ComplexityExactly(q: Request, entities: nat, constraints: nat, outputs: nat, actions: nat)
    requires Counts(Get(q.isr, "entities"), entities) && Counts(Get(q.isr, "constraints"), constraints)
    requires Counts(Get(q.isr, "expected_outputs"), outputs) && Counts(Get(q.contracts, "requested_actions"), actions)
    ensures ComplexityOf(q) == Least(1.0,
      Least(0.08 * entities as real, 0.24) + Least(0.1 * constraints as real, 0.2) + Least(0.1 * outputs as real, 0.2)
      + Least(0.12 * actions as real, 0.24)
      + Share(Flagged(q, {"approval_required", "requires_approval"}), 0.18)
      + Share(Flagged(q, {"validation_required", "requires_validation"}), 0.16)
      + Share(Flagged(q, {"artifact_generation", "requires_artifacts"}), 0.1))
  {
    hide Holds, Counts, Flagged, Least, Complexity, Share;
    FlaggedHolds(q, {"approval_required", "requires_approval"});
    FlaggedHolds(q, {"validation_required", "requires_validation"});
    FlaggedHolds(q, {"artifact_generation", "requires_artifacts"});
    ComplexitySum(q, entities, constraints, outputs, actions, Flagged(q, {"approval_required", "requires_approval"}),
                  Flagged(q, {"validation_required", "requires_validation"}), Flagged(q, {"artifact_generation", "requires_artifacts"}));
  }

  lemma FlaggedHolds(q: Request, keys: set<string>)
    ensures Flagged(q, keys) <==> Holds(Object(q.contracts), keys)
  {
    HoldsIffReachable(Object(q.contracts), keys);
  }

  lemma ComplexitySum(q: Request, entities: nat, constraints: nat, outputs: nat, actions: nat,
                      approval: bool, validation: bool, artifacts: bool)
    requires Counts(Get(q.isr, "entities"), entities) && Counts(Get(q.isr, "constraints"), constraints)
    requires Counts(Get(q.isr, "expected_outputs"), outputs) && Counts(Get(q.contracts, "requested_actions"), actions)
    ensures Complexity(q, approval, validation, artifacts) == Least(1.0,
      Least(0.08 * entities as real, 0.24) + Least(0.1 * constraints as real, 0.2) + Least(0.1 * outputs as real, 0.2)
      + Least(0.12 * actions as real, 0.24) + Share(approval, 0.18) + Share(validation, 0.16) + Share(artifacts, 0.1))
  {
    hide Counts, Count, Capped, Clamp, Get, Complexity, Least, Share;
    var a, b := 0.08 * entities as real, 0.1 * constraints as real;
    var c, d := 0.1 * outputs as real, 0.12 * actions as real;
    CountedShare(Get(q.isr, "entities"), entities, 0.08, 0.24, a);
    CountedShare(Get(q.isr, "constraints"), constraints, 0.1, 0.2, b);
    CountedShare(Get(q.isr, "expected_outputs"), outputs, 0.1, 0.2, c);
    CountedShare(Get(q.contracts, "requested_actions"), actions, 0.12, 0.24, d);
    SumOfShares(q, Least(a, 0.24), Least(b, 0.2), Least(c, 0.2), Least(d, 0.24), approval, validation, artifacts);
  }

  lemma SumOfShares(q: Request, a: real, b: real, c: real, d: real, approval: bool, validation: bool, artifacts: bool)
    requires Capped(Count(Get(q.isr, "entities")), 0.08, 0.24) == a >= 0.0
    requires Capped(Count(Get(q.isr, "constraints")), 0.1, 0.2) == b >= 0.0
    requires Capped(Count(Get(q.isr, "expected_outputs")), 0.1, 0.2) == c >= 0.0
    requires Capped(Count(Get(q.contracts, "requested_actions")), 0.12, 0.24) == d >= 0.0
    ensures Complexity(q, approval, validation, artifacts)
         == Least(1.0, a + b + c + d + Share(approval, 0.18) + Share(validation, 0.16) + Share(artifacts, 0.1))
  {
    hide Count, Capped, Get, Clamp;
    ClampsToOne();
  }

  lemma CountedShare(v: Value, n: nat, weight: real, cap: real, product: real)
    requires Counts(v, n) && weight >= 0.0 && cap >= 0.0 && product == weight * n as real
    ensures Capped(Count(v), weight, cap) == Least(product, cap) >= 0.0
  {
  }

  lemma ClampsToOne()
    ensures forall x :: x >= 0.0 ==> Clamp(x) == Least(1.0, x)
  {
  }

  // ---------------------------------------------------------------- capability, role and model

  /** The words that name a capability, the most telling first. */
  function Keywords(): seq<(string, Capability)> {
    [("patch", CodeGeneration), ("code", CodeGeneration), ("review", CodeReview), ("plan", Planning), ("vision", Vision),
     ("image", Vision), ("ocr", Ocr), ("reason", Reasoning), ("debug", Reasoning)]
  }

  /** The capability asked for, else the one of the first keyword in the intent, else language. */
  lemma ResolveExactly(q: Request, lowerText: Value -> string)
    ensures q.capability.Some? ==> Resolve(q, lowerText) == q.capability.value
    ensures q.capability.None? ==>
      var text := IntentText(q, lowerText);
      || (exists i :: 0 <= i < 9 && Contains(text, Keywords()[i].0) && Resolve(q, lowerText) == Keywords()[i].1
                      && forall j :: 0 <= j < i ==> !Contains(text, Keywords()[j].0))
      || (Resolve(q, lowerText) == Language && forall j :: 0 <= j < 9 ==> !Contains(text, Keywords()[j].0))
  {
    if q.capability.None? {
      hide Contains, IntentText;
      KeywordsListed();
      hide Keywords;
      var text := IntentText(q, lowerText);
      var i := FirstKeyword(text, 0);
      assert i < 9 ==> Resolve(q, lowerText) == Keywords()[i].1;
    }
  }

  lemma KeywordsListed()
    ensures var ks := Keywords();
      && |ks| == 9 && ks[0] == ("patch", CodeGeneration) && ks[1] == ("code", CodeGeneration) && ks[2] == ("review", CodeReview)
      && ks[3] == ("plan", Planning) && ks[4] == ("vision", Vision) && ks[5] == ("image", Vision) && ks[6] == ("ocr", Ocr)
      && ks[7] == ("reason", Reasoning) && ks[8] == ("debug", Reasoning)
  {
  }

  lemma FirstKeyword(text: string, from: nat) returns (i: nat)
    requires from <= 9
    ensures from <= i <= 9 && (i < 9 ==> Contains(text, Keywords()[i].0))
    ensures forall j :: from <= j < i ==> !Contains(text, Keywords()[j].0)
    decreases 9 - from
  {
    if from == 9 || Contains(text, Keywords()[from].0) {
      i := from;
    } else {
      i := FirstKeyword(text, from + 1);
    }
  }

  /** The intent of the representation where it has one, else the operation type of the contracts. */
  lemma IntentTextExactly(q: Request, lowerText: Value -> string)
    ensures exists v :: IntentText(q, lowerText) == lowerText(v) && Intended(q, v)
  {
    var intent, operation := Get(q.isr, "intent"), Get(q.contracts, "operation_type");
    assert Intended(q, if Truthy(intent) then intent else if Truthy(operation) then operation else Text(""));
  }

  ghost predicate Intended(q: Request, v: Value) {
    var intent, operation := Get(q.isr, "intent"), Get(q.contracts, "operation_type");
    && (Truthy(intent) ==> v == intent)
    && (!Truthy(intent) && Truthy(operation) ==> v == operation)
    && (!Truthy(intent) && !Truthy(operation) ==> v == Text(""))
  }

  /** The roles with their capabilities. */
  function Bindings(): map<string, set<Capability>> {
    map["semantic_interpreter" := {Language, Reasoning, Planning}, "planner" := {Planning, Reasoning, Language},
        "patch_planner" := {CodeGeneration, CodeReview, Reasoning, Planning}, "vision" := {Vision}, "ocr" := {Ocr},
        "reviewer" := {CodeReview, Reasoning, Language}]
  }

  /** A role outside the table may use every capability. */
  lemma RoleExactly(role: string, c: Capability)
    ensures RoleCanUse(role, c) <==> (role in Bindings() ==> c in Bindings()[role])
  {
  }

  /** The roles with the models they prefer, in order. */
  function Preferences(): map<string, seq<string>> {
    map["semantic_interpreter" := ["local-small", "governed-chat"], "planner" := ["local-reasoner", "governed-reasoner"],
        "patch_planner" := ["local-reasoner", "governed-reasoner"], "vision" := ["local-vision", "governed-vision"],
        "ocr" := ["local-ocr", "governed-ocr"]]
  }

  /** The model selected: the first preferred one that the policy allows, else its first one. */
  lemma SelectExactly(p: Policy, role: string)
    ensures p.allowed == [] ==> Select(p, role).None?
    ensures p.allowed != [] && role in Preferences() ==>
      var preferred := Preferences()[role];
      Select(p, role) == Some(if preferred[0] in p.allowed then preferred[0]
                              else if preferred[1] in p.allowed then preferred[1] else p.allowed[0])
    ensures p.allowed != [] && role !in Preferences() ==> Select(p, role) == Some(p.allowed[0])
  {
  }

  /** The order of risks. */
  lemma RisksOrdered(a: Risk, b: Risk)
    ensures Level(a) > Level(b) <==> match b
      case Low => a != Low
      case Medium => a == High || a == Critical
      case High => a == Critical
      case Critical => false
  {
  }

  // ---------------------------------------------------------------- the escalation policy

  lemma ByEscalationIdPreorder()
    ensures TotalPreorder(ByEscalationId())
  {
    forall a: EscalationPolicy, b: EscalationPolicy ensures ByEscalationId()(a, b) || ByEscalationId()(b, a) {
      StringLeTotal(a.id, b.id);
    }
    forall a: EscalationPolicy, b: EscalationPolicy, c: EscalationPolicy | ByEscalationId()(a, b) && ByEscalationId()(b, c)
      ensures ByEscalationId()(a, c)
    {
      StringLeTransitive(a.id, b.id, c.id);
    }
  }

  /** e is one of the policies that satisfy p, with the smallest id among them. */
  ghost predicate Smallest(policies: seq<EscalationPolicy>, p: EscalationPolicy -> bool, e: EscalationPolicy) {
    e in policies && p(e) && forall x :: x in policies && p(x) ==> StringLe(e.id, x.id)
  }

  lemma SmallestEscalation(policies: seq<EscalationPolicy>, p: EscalationPolicy -> bool)
    ensures var kept := StableSort(Filter(policies, p), ByEscalationId());
      && (kept == [] <==> forall x :: x in policies ==> !p(x))
      && (kept != [] ==> Smallest(policies, p, kept[0]))
  {
    hide Filter, StableSort;
    var kept := StableSort(Filter(policies, p), ByEscalationId());
    ByEscalationIdPreorder();
    FilterMembers(policies, p);
    SortPermutes(Filter(policies, p), ByEscalationId());
    SortOrdered(Filter(policies, p), ByEscalationId());
    if kept != [] {
      assert kept[0] in kept;
      forall x | x in policies && p(x) ensures StringLe(kept[0].id, x.id) {
        assert x in kept;
        var i :| 0 <= i < |kept| && kept[i] == x;
        assert ByEscalationId()(kept[0], kept[0]);
        assert i > 0 ==> ByEscalationId()(kept[0], kept[i]);
      }
    } else {
      forall x | x in policies ensures !p(x) {
        assert p(x) ==> x in kept;
      }
    }
  }

  ghost function ForBoth(scope: string, capability: Capability): EscalationPolicy -> bool {
    (p: EscalationPolicy) => p.scope == scope && p.capability == Some(capability)
  }

  ghost function ForScope(scope: string): EscalationPolicy -> bool {
    (p: EscalationPolicy) => p.scope == scope && p.capability.None?
  }

  ghost function Anything(): EscalationPolicy -> bool {
    (p: EscalationPolicy) => true
  }

  /** The escalation policy that applies: of those for the scope and the capability, else of those for
      the scope alone, else of all, the one with the smallest id. Without any the default applies. */
  lemma EscalationLookupExact(configured: seq<EscalationPolicy>, scope: string, capability: Capability)
    ensures var e := EscalationFor(configured, scope, capability);
      && (configured == [] ==> e == EscalationPolicy(
           "cognitive_escalation_policy_runtime_default", "runtime", None, 0.45, 0.6, 0.7, High, true))
      && (configured != [] ==>
           if exists p :: p in configured && ForBoth(scope, capability)(p) then Smallest(configured, ForBoth(scope, capability), e)
           else if exists p :: p in configured && ForScope(scope)(p) then Smallest(configured, ForScope(scope), e)
           else Smallest(configured, Anything(), e))
  {
    if configured == [] {
      DefaultApplies(configured, scope, capability);
    } else {
      hide Filter, StableSort, Smallest;
      SmallestEscalation(configured, ForBoth(scope, capability));
      SmallestEscalation(configured, ForScope(scope));
      SmallestEscalation(configured, Anything());
      FilterAll(configured, Anything());
      SameFilters(configured, scope, capability);
    }
  }

  lemma SameFilters(configured: seq<EscalationPolicy>, scope: string, capability: Capability)
    requires configured != []
    ensures var scoped := StableSort(Filter(configured, ForBoth(scope, capability)), ByEscalationId());
      var general := StableSort(Filter(configured, ForScope(scope)), ByEscalationId());
      var all := StableSort(configured, ByEscalationId());
      && all != []
      && EscalationFor(configured, scope, capability) == if scoped != [] then scoped[0] else if general != [] then general[0] else all[0]
  {
    hide StableSort, Filter;
    SortPermutes(configured, ByEscalationId());
    FilterAgree(configured, (p: EscalationPolicy) => p.scope == scope && p.capability == Some(capability), ForBoth(scope, capability));
    FilterAgree(configured, (p: EscalationPolicy) => p.scope == scope && p.capability.None?, ForScope(scope));
  }

  lemma DefaultApplies(configured: seq<EscalationPolicy>, scope: string, capability: Capability)
    requires configured == []
    ensures EscalationFor(configured, scope, capability) == DEFAULT_ESCALATION
  {
  }

  // ---------------------------------------------------------------- routing

  /** The models a pending request can be moved to: the allowed ones but the first, without the
      forbidden ones. */
  ghost predicate Alternative(p: Policy, m: string) {
    exists i :: 1 <= i < |p.allowed| && p.allowed[i] == m && m !in p.forbidden
  }

  /** The first alternative of a policy. */
  ghost predicate FirstAlternative(p: Policy, m: string) {
    exists i :: 1 <= i < |p.allowed| && p.allowed[i] == m && m !in p.forbidden
      && forall j :: 1 <= j < i ==> p.allowed[j] in p.forbidden
  }

  lemma {:induction false} FilterHead(s: seq<string>, p: string -> bool)
    ensures Filter(s, p) == [] <==> forall i :: 0 <= i < |s| ==> !p(s[i])
    ensures Filter(s, p) != [] ==>
      exists i :: 0 <= i < |s| && s[i] == Filter(s, p)[0] && p(s[i]) && forall j :: 0 <= j < i ==> !p(s[j])
  {
    if s != [] {
      FilterHead(s[1..], p);
      if Filter(s, p) != [] && !p(s[0]) {
        var i :| 0 <= i < |s[1..]| && s[1..][i] == Filter(s[1..], p)[0] && p(s[1..][i]) && forall j :: 0 <= j < i ==> !p(s[1..][j]);
        assert s[i + 1] == Filter(s, p)[0];
        assert forall j :: 0 <= j < i + 1 ==> j == 0 || s[j] == s[1..][j - 1];
      }
    }
  }

  lemma ModelsExactly(p: Policy, decision: PolicyDecision)
    ensures var models := EscalationModels(p, decision);
      && (models != [] <==> decision.status != Allowed && exists m :: Alternative(p, m))
      && (models != [] ==> FirstAlternative(p, models[0]))
  {
    if p.allowed != [] {
      var rest := p.allowed[1..];
      var free := (m: string) => m !in p.forbidden;
      FilterHead(rest, free);
      var models := Filter(rest, free);
      if models != [] {
        var i :| 0 <= i < |rest| && rest[i] == models[0] && free(rest[i]) && forall j :: 0 <= j < i ==> !free(rest[j]);
        assert p.allowed[i + 1] == models[0];
        assert forall j :: 1 <= j < i + 1 ==> p.allowed[j] == rest[j - 1];
        assert Alternative(p, models[0]);
      } else {
        forall i | 1 <= i < |p.allowed| ensures p.allowed[i] in p.forbidden {
          assert rest[i - 1] == p.allowed[i];
        }
      }
    }
  }

  /** The route under a policy: its model, its gates, and its status before any escalation. */
  lemma RouteExactly(policies: seq<Policy>, role: string, capability: Capability, d: Demand, p: Policy)
    requires Lookup(policies, capability, d.scope) == Some(p)
    ensures var r := RouteFor(policies, role, capability, d);
      && r.role == role && r.capability == capability && r.model == Select(p, role) && r.policyId == p.id
      && (r.status == Blocked <==> Stops(p, role, d) || !RoleCanUse(role, capability))
      && (r.status == RequiresApproval <==> !Stops(p, role, d) && RoleCanUse(role, capability) && GateMissing(p, d))
      && (r.needsApproval <==> p.needsApproval && !d.approved) && (r.needsSupervisor <==> p.needsSupervisor && !d.supervisor)
      && (r.canEscalate <==> r.escalationModels != [] && Level(d.risk) <= Level(p.maxRisk))
      && (r.escalationModels != [] <==> (Stops(p, role, d) || GateMissing(p, d)) && exists m :: Alternative(p, m))
      && (r.escalationModels != [] ==> FirstAlternative(p, r.escalationModels[0]))
  {
    hide Lookup, Select, RoleCanUse, EscalationModels, Assess, Alternative, FirstAlternative;
    var model := Select(p, role);
    SelectAllowed(p, role);
    AssessStatus(p, model, d);
    ModelsExactly(p, Assess(p, model, d));
    AssessGates(p, model, d);
  }

  lemma AssessGates(p: Policy, model: Option<string>, d: Demand)
    ensures var a := Assess(p, model, d);
      && a.policyId == p.id && a.model == model
      && (a.needsApproval <==> p.needsApproval && !d.approved) && (a.needsSupervisor <==> p.needsSupervisor && !d.supervisor)
      && (a.needsDoctor <==> p.needsDoctor && !d.doctor)
      && (RiskExceedsPolicy in a.reasons <==> Level(d.risk) > Level(p.maxRisk))
  {
    hide BlockingReasons, GateReasons;
    PolicyReasons(p, model, d, RiskExceedsPolicy);
  }

  /** The check that gives each reason of a policy. */
  ghost predicate PolicyReason(p: Policy, model: Option<string>, d: Demand, x: ReasonCode) {
    match x
    case ModelForbidden => model.Some? && model.value != "" && model.value in p.forbidden
    case ModelNotAllowed => model.Some? && model.value != "" && p.allowed != [] && model.value !in p.allowed
    case RiskExceedsPolicy => Level(d.risk) > Level(p.maxRisk)
    case CostExceedsPolicy => d.cost.Some? && p.maxCost.Some? && d.cost.value > p.maxCost.value
    case LatencyExceedsPolicy => d.latency.Some? && p.maxLatency.Some? && d.latency.value > p.maxLatency.value
    case ApprovalRequired => p.needsApproval && !d.approved
    case SupervisorRequired => p.needsSupervisor && !d.supervisor
    case DoctorRequired => p.needsDoctor && !d.doctor
    case _ => false
  }

  lemma WhenListed(condition: bool, code: ReasonCode, x: ReasonCode)
    ensures x in When(condition, code) <==> condition && x == code
  {
  }

  lemma OverMeans(d: Demand, p: Policy)
    ensures OverCost(d, p) <==> d.cost.Some? && p.maxCost.Some? && d.cost.value > p.maxCost.value
    ensures OverLatency(d, p) <==> d.latency.Some? && p.maxLatency.Some? && d.latency.value > p.maxLatency.value
  {
  }

  lemma BlockingListed(p: Policy, model: Option<string>, d: Demand, x: ReasonCode)
    ensures x in BlockingReasons(p, model, d) <==>
      PolicyReason(p, model, d, x) && x != ApprovalRequired && x != SupervisorRequired && x != DoctorRequired
  {
    hide When, Level, OverCost, OverLatency;
    OverMeans(d, p);
    WhenListed(Named(model) && model.value in p.forbidden, ModelForbidden, x);
    WhenListed(Named(model) && p.allowed != [] && model.value !in p.allowed, ModelNotAllowed, x);
    WhenListed(Level(d.risk) > Level(p.maxRisk), RiskExceedsPolicy, x);
    WhenListed(OverCost(d, p), CostExceedsPolicy, x);
    WhenListed(OverLatency(d, p), LatencyExceedsPolicy, x);
  }

  lemma GatesListed(p: Policy, model: Option<string>, d: Demand, x: ReasonCode)
    ensures x in GateReasons(p, d) <==>
      PolicyReason(p, model, d, x) && (x == ApprovalRequired || x == SupervisorRequired || x == DoctorRequired)
  {
    hide When, Level;
    WhenListed(p.needsApproval && !d.approved, ApprovalRequired, x);
    WhenListed(p.needsSupervisor && !d.supervisor, SupervisorRequired, x);
    WhenListed(p.needsDoctor && !d.doctor, DoctorRequired, x);
  }

  /** A policy decision names exactly the checks that fail. */
  lemma PolicyReasons(p: Policy, model: Option<string>, d: Demand, x: ReasonCode)
    ensures x in Assess(p, model, d).reasons <==> PolicyReason(p, model, d, x)
  {
    hide BlockingReasons, GateReasons, PolicyReason;
    BlockingListed(p, model, d, x);
    GatesListed(p, model, d, x);
  }

  // ---------------------------------------------------------------- escalation

  /** The escalation that a route, a policy and the measured values call for. */
  ghost predicate EscalationRule(x: Escalation, route: Route, e: EscalationPolicy, risk: Risk) {
    var stop := route.status == Blocked || Level(risk) > Level(e.maxRisk);
    var person := (risk == High || risk == Critical) && e.humanForHighRisk;
    var complex := x.complexity >= e.highComplexity;
    && x.policyId == e.id
    && (x.blocked <==> stop) && (x.action == BlockRoute <==> stop)
    && (x.human <==> x.action == RequestHuman)
    && ((x.action == Escalate) ==
         (!stop && !person && complex && route.escalationModels != []
          && (x.confidence < e.lowConfidence || (x.confidence >= e.humanConfidence && route.canEscalate))))
    && (x.action == RequestHuman <==> !stop && x.action != Escalate && (person || x.confidence < e.humanConfidence))
    && (x.target.Some? <==> x.action == Escalate)
    && (x.action == Escalate ==> x.target == Some(route.escalationModels[0]))
  }

  lemma EscalateExactly(route: Route, e: EscalationPolicy, confidence: real, complexity: real, risk: Risk)
    ensures var x := EscalateFor(route, e, confidence, complexity, risk);
      x.confidence == confidence && x.complexity == complexity && EscalationRule(x, route, e, risk)
  {
    hide Level;
  }

  // ---------------------------------------------------------------- the decision

  /** The decision under a policy p, with the escalation policy e that applies: which gates are
      pending, which model is used, and on whose word. */
  lemma GovernExactly(policies: seq<Policy>, escalations: seq<EscalationPolicy>, role: string, capability: Capability,
                      d: Demand, confidence: real, complexity: real, p: Policy)
    requires Lookup(policies, capability, d.scope) == Some(p)
    ensures var x := Govern(policies, escalations, role, capability, d, confidence, complexity);
      && x.route == RouteFor(policies, role, capability, d)
      && x.escalation.confidence == confidence && x.escalation.complexity == complexity
      && EscalationRule(x.escalation, x.route, EscalationFor(escalations, d.scope, capability), d.risk)
      && x.model == (if x.escalation.action == Escalate then x.escalation.target else Select(p, role))
      && (x.needsApproval <==> p.needsApproval && !d.approved) && (x.needsSupervisor <==> p.needsSupervisor && !d.supervisor)
      && (x.needsDoctor <==> p.needsDoctor && !d.doctor) && x.human == x.escalation.human
      && x.policy.policyId == p.id && x.policy.model == x.model
  {
    hide Lookup, EscalationFor, RoleCanUse, Select, Assess, EscalationModels, EscalateFor, EscalationRule, FinalReasons, Alternative, FirstAlternative;
    var route := RouteFor(policies, role, capability, d);
    RouteExactly(policies, role, capability, d, p);
    EscalateExactly(route, EscalationFor(escalations, d.scope, capability), confidence, complexity, d.risk);
    var x := EscalateFor(route, EscalationFor(escalations, d.scope, capability), confidence, complexity, d.risk);
    AssessGates(p, route.model, d);
    AssessGates(p, x.target, d);
  }

  lemma FinalReasonsListed(route: Route, first: PolicyDecision, target: PolicyDecision, e: Escalation, c: ReasonCode)
    requires e.reasons != []
    ensures c in FinalReasons(route, first, target, e) <==>
      c in route.reasons || c in first.reasons || c in target.reasons || c in e.reasons
    ensures Distinct(FinalReasons(route, first, target, e))
  {
    hide Dedup;
    var all := route.reasons + first.reasons + target.reasons + e.reasons;
    assert e.reasons[0] in all && e.reasons[0] in Dedup(all);
  }

  /** Without a policy the request is blocked, no model is used and no gate is named. */
  lemma GovernNothing(policies: seq<Policy>, escalations: seq<EscalationPolicy>, role: string, capability: Capability,
                      d: Demand, confidence: real, complexity: real, c: ReasonCode)
    requires Lookup(policies, capability, d.scope).None?
    ensures var x := Govern(policies, escalations, role, capability, d, confidence, complexity);
      && x.status == Blocked && x.model.None? && !x.needsApproval && !x.needsSupervisor && !x.needsDoctor && !x.human
      && x.policy.policyId == "none" && x.escalation.action == BlockRoute
      && Distinct(x.reasons) && (c in x.reasons <==> c == PolicyMissing || c == RouteBlocked)
  {
    hide Lookup, EscalationFor, FinalReasons;
    var x := Govern(policies, escalations, role, capability, d, confidence, complexity);
    FinalReasonsListed(x.route, x.policy, x.policy, x.escalation, c);
  }

  /** Why a route is escalated, stopped or kept. */
  ghost predicate EscalationReason(x: Escalation, route: Route, e: EscalationPolicy, risk: Risk, c: ReasonCode) {
    match c
    case RouteBlocked => route.status == Blocked
    case RiskExceedsEscalation => route.status != Blocked && Level(risk) > Level(e.maxRisk)
    case HumanRequiredForRisk => x.action == RequestHuman && (risk == High || risk == Critical) && e.humanForHighRisk
    case ConfidenceBelowHuman => x.action == RequestHuman && !((risk == High || risk == Critical) && e.humanForHighRisk)
    case LowConfidence => x.action == Escalate && x.confidence < e.lowConfidence
    case HighComplexity => x.action == Escalate
    case EscalationAvailable => x.action == Escalate
    case RouteSufficient => x.action == Remain
    case _ => false
  }

  lemma EscalationReasonsListed(route: Route, e: EscalationPolicy, confidence: real, complexity: real, risk: Risk, c: ReasonCode)
    ensures var x := EscalateFor(route, e, confidence, complexity, risk);
      c in x.reasons <==> EscalationReason(x, route, e, risk, c)
  {
    hide Level;
  }

  /** The decision gives exactly the reasons of the failed checks, of a role without the capability and
      of the escalation, each of them once. */
  lemma ReasonsExactly(policies: seq<Policy>, escalations: seq<EscalationPolicy>, role: string, capability: Capability,
                       d: Demand, confidence: real, complexity: real, p: Policy, c: ReasonCode)
    requires Lookup(policies, capability, d.scope) == Some(p)
    ensures var x := Govern(policies, escalations, role, capability, d, confidence, complexity);
      c in x.reasons <==>
        || PolicyReason(p, Select(p, role), d, c)
        || (c == RoleNotBound && !RoleCanUse(role, capability))
        || EscalationReason(x.escalation, x.route, EscalationFor(escalations, d.scope, capability), d.risk, c)
  {
    hide Lookup, EscalationFor, RoleCanUse, Select, Assess, EscalationModels, EscalateFor, PolicyReason, EscalationReason, FinalReasons, Level, When;
    var route := RouteFor(policies, role, capability, d);
    var e := EscalationFor(escalations, d.scope, capability);
    var x := EscalateFor(route, e, confidence, complexity, d.risk);
    var model := Select(p, role);
    SelectAllowed(p, role);
    PolicyReasons(p, model, d, c);
    WhenListed(!RoleCanUse(role, capability), RoleNotBound, c);
    EscalationReasonsListed(route, e, confidence, complexity, d.risk, c);
    EscalationReasons(route, e, confidence, complexity, d.risk);
    if x.action == Escalate {
      EscalatedTarget(p, route, e, confidence, complexity, d);
    }
    var decision := Govern(policies, escalations, role, capability, d, confidence, complexity);
    FinalReasonsListed(route, Assess(p, model, d), decision.policy, x, c);
  }
}
