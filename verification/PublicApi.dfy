/** Admission of public requests through three layers: API version, gateway and execution bridge. */
module PublicApi {
  import opened JsonValues
  import opened Sequences

  type Contract = map<string, Value>

  // ---------------------------------------------------------------- the gateway

  datatype GatewayPolicy = GatewayPolicy(
    versions: seq<string>, clientTypes: seq<string>, requiredKeys: seq<string>, forbiddenTargets: seq<string>)

  datatype GatewaySession = GatewaySession(clientId: string, clientType: string, version: string, status: string)

  datatype GatewayRequest = GatewayRequest(
    clientId: string, clientType: string, version: string, session: Option<string>, target: string, contract: Contract)

  datatype GatewayResponse = GatewayResponse(
    id: string, accepted: bool, session: string, kernelStatus: string, reasons: seq<string>)

  /** The kernel's answer to a dispatch. */
  datatype KernelResult = KernelResult(status: string, reason: string)

  type Kernel = (string, Contract) -> KernelResult

  function ClientReasons(p: GatewayPolicy, clientType: string, version: string): seq<string> {
    (if clientType in p.clientTypes then [] else ["client_type_not_allowed"])
    + (if version in p.versions then [] else ["gateway_version_not_supported"])
  }

  function ContractReasons(keys: seq<string>, contract: Contract): seq<string> {
    Map(Filter(keys, (k: string) => k !in contract), (k: string) => "contract_key_missing:" + k)
  }

  function RequestReasons(p: GatewayPolicy, q: GatewayRequest, active: bool): seq<string> {
    ClientReasons(p, q.clientType, q.version) + ContractReasons(p.requiredKeys, q.contract)
    + (if q.target in p.forbiddenTargets then ["direct_internal_module_access_forbidden"] else [])
    + (if active then [] else ["gateway_session_not_active"])
  }

  /** What the gateway demands before it dispatches. */
  ghost predicate Admissible(p: GatewayPolicy, q: GatewayRequest, active: bool) {
    && q.clientType in p.clientTypes && q.version in p.versions
    && (forall k :: k in p.requiredKeys ==> k in q.contract)
    && q.target !in p.forbiddenTargets && active
  }

  lemma ContractReasonsMean(keys: seq<string>, contract: Contract)
    ensures ContractReasons(keys, contract) == [] <==> forall k :: k in keys ==> k in contract
  {
    var missing := (k: string) => k !in contract;
    FilterMembers(keys, missing);
    if forall k :: k in keys ==> k in contract {
      FilterNone(keys, missing);
    } else {
      var k :| k in keys && k !in contract;
      assert k in Filter(keys, missing);
    }
  }

  lemma ReasonsMean(p: GatewayPolicy, q: GatewayRequest, active: bool)
    ensures RequestReasons(p, q, active) == [] <==> Admissible(p, q, active)
  {
    hide ContractReasons;
    ContractReasonsMean(p.requiredKeys, q.contract);
  }

  /** The reasons the gateway gives, one for each demand that is not met. */
  ghost predicate Reason(p: GatewayPolicy, q: GatewayRequest, active: bool, x: string) {
    || (x == "client_type_not_allowed" && q.clientType !in p.clientTypes)
    || (x == "gateway_version_not_supported" && q.version !in p.versions)
    || (exists k :: k in p.requiredKeys && k !in q.contract && x == "contract_key_missing:" + k)
    || (x == "direct_internal_module_access_forbidden" && q.target in p.forbiddenTargets)
    || (x == "gateway_session_not_active" && !active)
  }

  lemma KeysMissing(keys: seq<string>, contract: Contract, x: string)
    ensures x in ContractReasons(keys, contract) <==> exists k :: k in keys && k !in contract && x == "contract_key_missing:" + k
  {
    var missing := (k: string) => k !in contract;
    var absent := Filter(keys, missing);
    FilterMembers(keys, missing);
    var reasons := ContractReasons(keys, contract);
    if x in reasons {
      var i :| 0 <= i < |reasons| && reasons[i] == x;
      assert absent[i] in absent;
    }
    if k :| k in keys && k !in contract && x == "contract_key_missing:" + k {
      assert k in absent;
      var i :| 0 <= i < |absent| && absent[i] == k;
      assert reasons[i] == x;
    }
  }

  lemma ReasonsListed(p: GatewayPolicy, q: GatewayRequest, active: bool, x: string)
    ensures x in RequestReasons(p, q, active) <==> Reason(p, q, active, x)
  {
    hide ContractReasons;
    KeysMissing(p.requiredKeys, q.contract, x);
  }

  class Gateway {
    const policy: GatewayPolicy
    const kernel: Kernel
    var sessions: map<string, GatewaySession>
    var responses: seq<GatewayResponse>

    constructor (policy: GatewayPolicy, kernel: Kernel)
      ensures this.policy == policy && this.kernel == kernel && sessions == map[] && responses == []
    {
      this.policy, this.kernel := policy, kernel;
      sessions, responses := map[], [];
    }

    /** `create_session` */
    method CreateSession(id: string, clientId: string, clientType: string, version: string) returns (session: GatewaySession)
      requires id !in sessions
      modifies this`sessions
      ensures session == GatewaySession(clientId, clientType, version,
        if clientType in policy.clientTypes && version in policy.versions then "active" else "blocked")
      ensures sessions == old(sessions)[id := session]
    {
      var reasons := ClientReasons(policy, clientType, version);
      session := GatewaySession(clientId, clientType, version, if reasons != [] then "blocked" else "active");
      sessions := sessions[id := session];
    }

    /** `_session`: the named session, or a new active one. */
    method FindSession(q: GatewayRequest, newId: string) returns (id: string, session: GatewaySession)
      requires newId !in sessions
      modifies this`sessions
      ensures id in sessions && session == sessions[id]
      ensures if q.session.Some? && q.session.value != "" && q.session.value in old(sessions)
        then id == q.session.value && sessions == old(sessions)
        else id == newId && session.status == "active" && sessions == old(sessions)[newId := session]
    {
      if q.session.Some? && q.session.value != "" && q.session.value in sessions {
        return q.session.value, sessions[q.session.value];
      }
      session := GatewaySession(q.clientId, q.clientType, q.version, "active");
      id := newId;
      sessions := sessions[id := session];
    }

    /** `handle`: exactly one response is stored, and it accepts the request exactly when the request
        is admissible and the kernel is ready for it. */
    method Handle(q: GatewayRequest, newId: string, responseId: string) returns (r: GatewayResponse)
      requires newId !in sessions
      modifies this
      ensures r.id == responseId && r.session in sessions
      ensures responses == old(responses) + [r]
      ensures r.accepted <==>
        Admissible(policy, q, sessions[r.session].status == "active") && kernel(q.target, q.contract).status == "ready"
      ensures r.accepted <==> r.reasons == []
      ensures q.session.None? ==> sessions[r.session].status == "active"
      ensures !Admissible(policy, q, sessions[r.session].status == "active") ==>
        r.kernelStatus == "not_dispatched" && Distinct(r.reasons)
        && forall x :: x in r.reasons <==> Reason(policy, q, sessions[r.session].status == "active", x)
      ensures Admissible(policy, q, sessions[r.session].status == "active") ==>
        var answer := kernel(q.target, q.contract);
        && r.kernelStatus == answer.status
        && (!r.accepted ==> r.reasons == [if answer.reason == "" then "kernel_dispatch_blocked" else answer.reason])
    {
      hide RequestReasons, Reason;
      var id, session := FindSession(q, newId);
      var reasons := RequestReasons(policy, q, session.status == "active");
      ReasonsMean(policy, q, session.status == "active");
      if reasons != [] {
        r := GatewayResponse(responseId, false, id, "not_dispatched", Dedup(reasons));
        forall x ensures x in reasons <==> Reason(policy, q, session.status == "active", x) {
          ReasonsListed(policy, q, session.status == "active", x);
        }
        assert reasons[0] in reasons && reasons[0] in Dedup(reasons);
      } else {
        var result := kernel(q.target, q.contract);
        var accepted := result.status == "ready";
        r := GatewayResponse(responseId, accepted, id, result.status,
                             if accepted then [] else [if result.reason != "" then result.reason else "kernel_dispatch_blocked"]);
      }
      responses := responses + [r];
    }
  }

  // ---------------------------------------------------------------- the public API

  datatype Operation = Chat | Execute | Analyze | Doctor | Validate | Artifacts

  datatype PublicContract = PublicContract(contractType: string, target: string, schemaRef: string)

  function PublicContractFor(op: Operation): PublicContract {
    match op
    case Chat => PublicContract("conversation", "semantic_interpreter", "public.chat.v1")
    case Execute => PublicContract("execution_plan", "planner", "public.execute.v1")
    case Analyze => PublicContract("analysis", "planner", "public.analyze.v1")
    case Doctor => PublicContract("runtime_doctor_report", "runtime_doctor", "public.doctor.v1")
    case Validate => PublicContract("validation_result", "validator", "public.validate.v1")
    case Artifacts => PublicContract("artifact_report", "reporter", "public.artifacts.v1")
  }

  /** The public contract of every operation. */
  lemma PublicContractsListed(op: Operation)
    ensures op == Chat ==> PublicContractFor(op) == PublicContract("conversation", "semantic_interpreter", "public.chat.v1")
    ensures op == Execute ==> PublicContractFor(op) == PublicContract("execution_plan", "planner", "public.execute.v1")
    ensures op == Analyze ==> PublicContractFor(op) == PublicContract("analysis", "planner", "public.analyze.v1")
    ensures op == Doctor ==> PublicContractFor(op) == PublicContract("runtime_doctor_report", "runtime_doctor", "public.doctor.v1")
    ensures op == Validate ==> PublicContractFor(op) == PublicContract("validation_result", "validator", "public.validate.v1")
    ensures op == Artifacts ==> PublicContractFor(op) == PublicContract("artifact_report", "reporter", "public.artifacts.v1")
  {
  }

  const API_VERSIONS: seq<string> := ["1.0"]

  function WithDefault(c: Contract, key: string, value: string): Contract {
    if key in c then c else c[key := Text(value)]
  }

  /** `merge_contract`: the caller's keys win. */
  function Merge(p: PublicContract, c: Contract): (r: Contract)
    ensures forall k :: k in c ==> k in r && r[k] == c[k]
    ensures "contract_type" in r && "schema_ref" in r && "public_contract_version" in r
  {
    WithDefault(WithDefault(WithDefault(c, "contract_type", p.contractType), "schema_ref", p.schemaRef),
                "public_contract_version", "1.0")
  }

  /** Only the three public keys can be added, and each of them gets the value of the public contract
      unless the caller has set it. */
  lemma MergeExactly(p: PublicContract, c: Contract, k: string)
    ensures k in Merge(p, c) <==> k in c || k == "contract_type" || k == "schema_ref" || k == "public_contract_version"
    ensures k !in c ==>
      && (k == "contract_type" ==> Merge(p, c)[k] == Text(p.contractType))
      && (k == "schema_ref" ==> Merge(p, c)[k] == Text(p.schemaRef))
      && (k == "public_contract_version" ==> Merge(p, c)[k] == Text("1.0"))
  {
    assert "contract_type"[0] == 'c' && "schema_ref"[0] == 's' && "public_contract_version"[0] == 'p';
  }

  datatype PublicRequest = PublicRequest(
    clientId: string, clientType: string, version: string, operation: Operation, contract: Contract, payload: Contract)

  predicate Flag(c: Contract, key: string) {
    key in c && Truthy(c[key])
  }

  /** `_requires_runtime_execution` */
  predicate RequiresExecution(c: Contract) {
    || Flag(c, "requires_task") || Flag(c, "execution_required") || Flag(c, "artifact_generation")
    || Flag(c, "validation_required")
    || ("expected_outputs" in c && c["expected_outputs"].Array? && c["expected_outputs"].items != [])
  }

  lemma ExecutionDemanded(c: Contract)
    ensures RequiresExecution(c) <==>
      || (exists k :: k in c && Truthy(c[k]) && (k == "requires_task" || k == "execution_required"
                                                 || k == "artifact_generation" || k == "validation_required"))
      || (exists item, rest :: "expected_outputs" in c && c["expected_outputs"] == Array([item] + rest))
  {
    if "expected_outputs" in c && c["expected_outputs"].Array? && c["expected_outputs"].items != [] {
      var items := c["expected_outputs"].items;
      assert items == [items[0]] + items[1..];
    }
  }

  /** The classification of a contract and payload by their text fields. */
  datatype Classifier = Classifier(
    readonly: (Contract, Contract) -> bool, shell: Contract -> bool, paths: (Contract, Contract) -> seq<string>,
    workspace: (Contract, Contract) -> Option<string>, command: (Contract, Contract) -> Option<string>)

  datatype Approval = Approval(id: string, command: string, workspace: string, status: string)

  datatype RunKind = ShellRun(approval: string, command: string, workspace: string) | ReadonlyRun(workspace: string)

  datatype Run = Run(id: string, kind: RunKind)

  /** What the bridge does to the outside, in order: approvals saved and runs created. */
  datatype Entry = Saved(approval: Approval) | Created(run: Run)

  datatype Ids = Ids(session: string, response: string, audit: string, approval: string, run: string)

  /** The answers of the runtimes behind the bridge: the readonly runtime's status and run, and the
      status that a new shell run starts with. */
  datatype Answers = Answers(readonlyStatus: string, readonlyRun: Option<string>, shellStatus: string)

  datatype Audit = Audit(id: string, operation: Operation, status: string, response: string)

  /** A new shell run waits for its approval. */
  predicate Waiting(status: string, approval: string) {
    (status == "waiting_input" || status == "created" || status == "queued") && approval != ""
  }

  /** What the bridge answers and does, case by case. */
  ghost predicate Bridged(classify: Classifier, q: PublicRequest, contract: Contract, accepted: bool, ids: Ids,
                          answers: Answers, status: string, entries: seq<Entry>)
  {
    var workspace := classify.workspace(contract, q.payload);
    var command := classify.command(contract, q.payload);
    var demanded := accepted && RequiresExecution(contract);
    var readonly := classify.readonly(contract, q.payload);
    var reading := demanded && readonly && workspace.Some? && classify.paths(contract, q.payload) != [];
    var running := demanded && !readonly && classify.shell(contract) && workspace.Some? && command.Some?;
    && (!demanded ==> status == "" && entries == [])
    && (reading ==>
          && status == answers.readonlyStatus
          && entries == (if answers.readonlyRun.None? then []
                         else [Created(Run(answers.readonlyRun.value, ReadonlyRun(workspace.value)))]))
    && (running ==>
          && entries == [Saved(Approval(ids.approval, command.value, workspace.value, "pending")),
                         Created(Run(ids.run, ShellRun(ids.approval, command.value, workspace.value)))]
          && (ids.approval != "" && answers.shellStatus in {"waiting_input", "created", "queued"} ==> status == "pending_approval")
          && (ids.approval == "" || answers.shellStatus !in {"waiting_input", "created", "queued"} ==> status == answers.shellStatus))
    && (demanded && !reading && !running ==> status == "blocked" && entries == [])
  }

  /** The approval is pending and names the very command and workspace of the shell run bound to it. */
  predicate Covers(a: Approval, run: Run) {
    && run.kind.ShellRun? && a.id == run.kind.approval && a.command == run.kind.command
    && a.workspace == run.kind.workspace && a.status == "pending"
  }

  /** The entry just before every created shell run saves the pending approval that it is bound to. */
  ghost predicate Bound(ledger: seq<Entry>) {
    forall i :: 0 <= i < |ledger| && ledger[i].Created? && ledger[i].run.kind.ShellRun? ==>
      i > 0 && ledger[i - 1].Saved? && Covers(ledger[i - 1].approval, ledger[i].run)
  }

  lemma BoundConcat(a: seq<Entry>, b: seq<Entry>)
    requires Bound(a) && Bound(b)
    ensures Bound(a + b)
  {
    var ledger := a + b;
    forall i | |a| <= i < |ledger| && ledger[i].Created? && ledger[i].run.kind.ShellRun?
      ensures i > 0 && ledger[i - 1].Saved? && Covers(ledger[i - 1].approval, ledger[i].run)
    {
      assert ledger[i] == b[i - |a|];
      assert ledger[i - 1] == b[i - |a| - 1];
    }
  }

  /** Nothing is saved or created without an accepted response that demands execution; at most one
      run is created, and an approval is saved exactly for a shell run, just before it. */
  lemma EffectGoverned(classify: Classifier, q: PublicRequest, contract: Contract, accepted: bool, ids: Ids,
                       answers: Answers, status: string, entries: seq<Entry>)
    requires Bridged(classify, q, contract, accepted, ids, answers, status, entries)
    ensures entries != [] ==> accepted && RequiresExecution(contract)
    ensures Bound(entries) && |Filter(entries, (x: Entry) => x.Created?)| <= 1
    ensures forall i :: 0 <= i < |entries| && entries[i].Saved? ==>
      i + 1 < |entries| && entries[i + 1].Created? && Covers(entries[i].approval, entries[i + 1].run)
  {
    hide RequiresExecution;
    if |entries| == 2 {
      assert entries == [entries[0]] + [entries[1]];
      FilterCons(entries[0], [entries[1]], (x: Entry) => x.Created?);
    }
  }

  /** The names in a occur in b in the same order, each at a place of its own. */
  ghost predicate Subsequence(a: seq<string>, b: seq<string>) {
    || a == []
    || (b != [] && a[|a| - 1] == b[|b| - 1] && Subsequence(a[..|a| - 1], b[..|b| - 1]))
    || (b != [] && Subsequence(a, b[..|b| - 1]))
  }

  /** Audits name stored responses in order, each its own. Requests that reach the gateway on other
      ways leave responses without audits. */
  ghost predicate Traced(audits: seq<Audit>, responses: seq<GatewayResponse>) {
    Subsequence(Map(audits, (a: Audit) => a.response), Map(responses, (r: GatewayResponse) => r.id))
  }

  lemma TracedAudited(audits: seq<Audit>, responses: seq<GatewayResponse>, a: Audit, r: GatewayResponse)
    requires Traced(audits, responses) && a.response == r.id
    ensures Traced(audits + [a], responses + [r])
  {
    var names, ids := Map(audits, (x: Audit) => x.response), Map(responses, (x: GatewayResponse) => x.id);
    assert Map(audits + [a], (x: Audit) => x.response) == names + [r.id];
    assert Map(responses + [r], (x: GatewayResponse) => x.id) == ids + [r.id];
    assert (names + [r.id])[..|names|] == names && (ids + [r.id])[..|ids|] == ids;
  }

  /** A request that reaches the gateway directly keeps the audits traced. */
  lemma TracedDirect(audits: seq<Audit>, responses: seq<GatewayResponse>, r: GatewayResponse)
    requires Traced(audits, responses)
    ensures Traced(audits, responses + [r])
  {
    var ids := Map(responses, (x: GatewayResponse) => x.id);
    assert Map(responses + [r], (x: GatewayResponse) => x.id) == ids + [r.id];
    assert (ids + [r.id])[..|ids|] == ids;
  }

  class Api {
    const gateway: Gateway
    const classify: Classifier
    var audits: seq<Audit>
    var ledger: seq<Entry>

    /** Audits and gateway responses correspond one to one. */
    ghost predicate OneToOne()
      reads this, gateway
    {
      && |audits| == |gateway.responses|
      && (forall i :: 0 <= i < |audits| ==> audits[i].response == gateway.responses[i].id)
    }

    constructor (gateway: Gateway, classify: Classifier)
      ensures this.gateway == gateway && this.classify == classify && audits == [] && ledger == []
      ensures Traced(audits, gateway.responses) && Bound(ledger)
    {
      this.gateway, this.classify := gateway, classify;
      audits, ledger := [], [];
    }

    /** `PublicRuntimeExecutionBridge.execute` */
    method ExecuteBridge(q: PublicRequest, contract: Contract, accepted: bool, ids: Ids, answers: Answers)
      returns (status: string)
      modifies this`ledger
      ensures old(ledger) <= ledger
      ensures Bridged(classify, q, contract, accepted, ids, answers, status, ledger[|old(ledger)|..])
    {
      hide RequiresExecution, Covers;
      if !accepted || !RequiresExecution(contract) {
        return "";
      }
      var paths := classify.paths(contract, q.payload);
      var workspace := classify.workspace(contract, q.payload);
      if classify.readonly(contract, q.payload) {
        if workspace.None? {
          return "blocked";
        }
        if paths == [] {
          return "blocked";
        }
        if answers.readonlyRun.Some? {
          ledger := ledger + [Created(Run(answers.readonlyRun.value, ReadonlyRun(workspace.value)))];
        }
        return answers.readonlyStatus;
      }
      if classify.shell(contract) {
        if workspace.None? {
          return "blocked";
        }
        var command := classify.command(contract, q.payload);
        if command.None? {
          return "blocked";
        }
        ledger := ledger + [Saved(Approval(ids.approval, command.value, workspace.value, "pending"))];
        ledger := ledger + [Created(Run(ids.run, ShellRun(ids.approval, command.value, workspace.value)))];
        return if Waiting(answers.shellStatus, ids.approval) then "pending_approval" else answers.shellStatus;
      }
      return "blocked";
    }

    /** `PublicRuntimeAPI.handle`, in any state of the shared lists. */
    method Handle(q: PublicRequest, ids: Ids, answers: Answers) returns (status: string, r: GatewayResponse)
      requires ids.session !in gateway.sessions
      modifies this, gateway
      ensures gateway.responses == old(gateway.responses) + [r] && r.id == ids.response
      ensures audits == old(audits) + [Audit(ids.audit, q.operation, status, ids.response)]
      ensures old(ledger) <= ledger && Bound(ledger[|old(ledger)|..])
      ensures var contract := if q.version in API_VERSIONS then Merge(PublicContractFor(q.operation), q.contract) else map[];
        exists answer :: Bridged(classify, q, contract, r.accepted, ids, answers, answer, ledger[|old(ledger)|..])
          && status == (if answer != "" then answer else if r.accepted then "accepted" else "blocked")
      ensures !r.accepted || q.version !in API_VERSIONS ==> ledger == old(ledger)
      ensures q.version in API_VERSIONS ==>
        var contract := Merge(PublicContractFor(q.operation), q.contract);
        var target := PublicContractFor(q.operation).target;
        r.accepted <==>
          && Admissible(gateway.policy, GatewayRequest(q.clientId, q.clientType, q.version, None, target, contract), true)
          && gateway.kernel(target, contract).status == "ready"
      ensures q.version !in API_VERSIONS ==> (r.accepted <==> StaleVersionAdmitted(gateway.policy, gateway.kernel, q))
      ensures old(Traced(audits, gateway.responses)) ==> Traced(audits, gateway.responses)
      ensures old(OneToOne()) ==> OneToOne()
      ensures old(Bound(ledger)) ==> Bound(ledger)
    {
      hide Merge, Bridged, RequiresExecution, Bound, Traced, PublicContractFor, Map, Reason;
      var target := PublicContractFor(q.operation).target;
      var merged: Contract := map[];
      if q.version in API_VERSIONS {
        merged := Merge(PublicContractFor(q.operation), q.contract);
      }
      r := gateway.Handle(GatewayRequest(q.clientId, q.clientType, q.version, None, target, merged), ids.session, ids.response);
      RequiredKeysOf(gateway.policy);
      EmptyContractNeedsNothing();
      var answer := ExecuteBridge(q, merged, r.accepted, ids, answers);
      ghost var added := ledger[|old(ledger)|..];
      EffectGoverned(classify, q, merged, r.accepted, ids, answers, answer, added);
      assert ledger == old(ledger) + added;
      if old(Bound(ledger)) {
        BoundConcat(old(ledger), added);
      }
      status := if answer != "" then answer else if r.accepted then "accepted" else "blocked";
      var audit := Audit(ids.audit, q.operation, status, r.id);
      if Traced(audits, old(gateway.responses)) {
        TracedAudited(audits, old(gateway.responses), audit, r);
      }
      audits := audits + [audit];
    }
  }

  lemma RequiredKeysOf(p: GatewayPolicy)
    ensures p.requiredKeys == [] <==> forall k :: k !in p.requiredKeys
  {
    assert p.requiredKeys != [] ==> p.requiredKeys[0] in p.requiredKeys;
  }

  /** When the gateway lets through a version that the API rejects: only under a policy that
      supports that version and requires no contract key at all. */
  ghost predicate StaleVersionAdmitted(p: GatewayPolicy, kernel: Kernel, q: PublicRequest) {
    && q.version in p.versions && p.requiredKeys == [] && q.clientType in p.clientTypes
    && PublicContractFor(q.operation).target !in p.forbiddenTargets
    && kernel(PublicContractFor(q.operation).target, map[]).status == "ready"
  }

  /** A policy and a request for which the API's version check is not the last word. */
  lemma StaleVersionCase() returns (p: GatewayPolicy, kernel: Kernel, q: PublicRequest)
    ensures q.version !in API_VERSIONS && StaleVersionAdmitted(p, kernel, q)
  {
    p := GatewayPolicy(["2.0"], ["cli"], [], []);
    kernel := (_, _) => KernelResult("ready", "");
    q := PublicRequest("client", "cli", "2.0", Execute, map[], map[]);
    assert q.version[0] == '2';
  }

  lemma EmptyContractNeedsNothing()
    ensures !RequiresExecution(map[])
  {
  }
}
