/** Parent and child runs of external delegations. */
module Delegations {
  import opened JsonValues
  import opened Sequences

  datatype Decision = DirectResponse | Delegate | Hybrid | Block | RequiresApproval

  /** The status of a run, as far as delegation looks at it. */
  datatype RunStatus = JustCreated | WaitingDelegation | OtherStatus(name: string)

  /** The delegation keys of a task run's intent map, and its status. */
  datatype Run = Run(parent: Option<string>, child: Option<string>, delegation: Option<string>, status: RunStatus)

  datatype Contract = Contract(parent: string, child: string)

  datatype State = State(runs: map<string, Run>, contracts: map<string, Contract>)

  /** A request with the decision taken on it, the identifiers the service would draw and the
      statuses in which the runtime would create the parent and the child. */
  datatype Request = Request(
    parent: Option<string>, decision: Decision, blocked: bool, parentId: string, childId: string, delegationId: string,
    parentStatus: RunStatus, childStatus: RunStatus)

  datatype Reply =
    | Direct
    | Refused(status: string)
    | Raised(error: string)
    | Delegated(delegation: string, parent: string, child: string)

  function FreshRun(status: RunStatus): Run {
    Run(None, None, None, status)
  }

  /** Only a run that has just been created is moved to waiting for its delegation. */
  function Awaiting(status: RunStatus): RunStatus {
    if status == JustCreated then WaitingDelegation else status
  }

  ghost predicate Drawable(st: State, q: Request) {
    q.parentId !in st.runs && q.childId !in st.runs && q.parentId != q.childId && q.delegationId !in st.contracts
  }

  predicate Delegating(q: Request) {
    q.decision == Delegate || q.decision == Hybrid
  }

  predicate NamesParent(q: Request) {
    q.parent.Some? && q.parent.value != ""
  }

  predicate ParentMissing(st: State, q: Request) {
    NamesParent(q) && q.parent.value !in st.runs
  }

  function ParentOf(q: Request): string {
    if NamesParent(q) then q.parent.value else q.parentId
  }

  /** The effect of `create_delegation`. */
  function Create(st: State, q: Request): State {
    if !Delegating(q) || ParentMissing(st, q) then st
    else
      var p := ParentOf(q);
      var parent := if NamesParent(q) then st.runs[p] else FreshRun(Awaiting(q.parentStatus));
      State(st.runs[p := parent.(child := Some(q.childId), delegation := Some(q.delegationId))]
                   [q.childId := FreshRun(q.childStatus).(parent := Some(p), delegation := Some(q.delegationId))],
            st.contracts[q.delegationId := Contract(p, q.childId)])
  }

  class DelegationService {
    var runs: map<string, Run>
    var contracts: map<string, Contract>

    ghost function Records(): State
      reads this
    {
      State(runs, contracts)
    }

    constructor (existing: map<string, Run>)
      ensures runs == existing && contracts == map[]
    {
      runs, contracts := existing, map[];
    }

    /** `_parent_run_for_delegation` */
    method ParentRun(q: Request) returns (found: bool, id: string)
      requires Drawable(Records(), q)
      modifies this`runs
      ensures found == !ParentMissing(old(Records()), q)
      ensures found ==> id == ParentOf(q) && id in runs && id != q.childId
      ensures runs == if NamesParent(q) then old(runs) else old(runs)[q.parentId := FreshRun(Awaiting(q.parentStatus))]
    {
      if q.parent.Some? && q.parent.value != "" {
        return q.parent.value in runs, q.parent.value;
      }
      runs := runs[q.parentId := FreshRun(q.parentStatus)];
      if runs[q.parentId].status == JustCreated {
        runs := runs[q.parentId := runs[q.parentId].(status := WaitingDelegation)];
      }
      return true, q.parentId;
    }

    /** The child run, the links in both directions and the contract. */
    method AddChild(q: Request, parent: string)
      requires parent in runs && q.childId !in runs
      modifies this
      ensures runs == old(runs)[parent := old(runs)[parent].(child := Some(q.childId), delegation := Some(q.delegationId))]
        [q.childId := FreshRun(q.childStatus).(parent := Some(parent), delegation := Some(q.delegationId))]
      ensures contracts == old(contracts)[q.delegationId := Contract(parent, q.childId)]
    {
      runs := runs[q.childId := FreshRun(q.childStatus).(parent := Some(parent))];
      var parentRun, childRun := runs[parent], runs[q.childId];
      parentRun := parentRun.(delegation := Some(q.delegationId));
      parentRun := parentRun.(child := Some(q.childId));
      childRun := childRun.(delegation := Some(q.delegationId));
      childRun := childRun.(parent := Some(parent));
      runs := runs[parent := parentRun];
      runs := runs[q.childId := childRun];
      contracts := contracts[q.delegationId := Contract(parent, q.childId)];
    }

    /** `create_delegation` */
    method CreateDelegation(q: Request) returns (r: Reply)
      requires Drawable(Records(), q)
      modifies this
      ensures Records() == Create(old(Records()), q)
      ensures r == match q.decision
        case DirectResponse => Direct
        case Block => Refused(if q.blocked then "blocked" else "requires_approval")
        case RequiresApproval => Refused(if q.blocked then "blocked" else "requires_approval")
        case _ => if ParentMissing(old(Records()), q) then Raised("parent_task_run_not_found")
                  else Delegated(q.delegationId, ParentOf(q), q.childId)
    {
      if q.decision == DirectResponse {
        return Direct;
      }
      if q.decision == Block || q.decision == RequiresApproval {
        return Refused(if q.blocked then "blocked" else "requires_approval");
      }
      var found, parent := ParentRun(q);
      if !found {
        return Raised("parent_task_run_not_found");
      }
      AddChild(q, parent);
      r := Delegated(q.delegationId, parent, q.childId);
    }
  }

  // ---------------------------------------------------------------- the forest

  /** Every link points to an existing run of smaller rank. */
  ghost predicate Ranked(runs: map<string, Run>, rank: map<string, nat>) {
    && rank.Keys == runs.Keys
    && forall r :: r in runs && runs[r].parent.Some? ==>
         runs[r].parent.value in runs && rank[runs[r].parent.value] < rank[r]
  }

  ghost predicate Forest(runs: map<string, Run>) {
    exists rank :: Ranked(runs, rank)
  }

  /** A walk from run to parent. */
  ghost predicate Walk(runs: map<string, Run>, path: seq<string>) {
    && (forall i :: 0 <= i < |path| ==> path[i] in runs)
    && forall i :: 0 <= i < |path| - 1 ==> runs[path[i]].parent == Some(path[i + 1])
  }

  /** Contracts and links tell the same story: a child links to the parent of its contract, a link
      comes from a contract, and no run is the child of two delegations. */
  ghost predicate Linked(st: State) {
    && (forall d :: d in st.contracts ==>
          && st.contracts[d].child in st.runs && st.contracts[d].parent in st.runs
          && st.runs[st.contracts[d].child].parent == Some(st.contracts[d].parent))
    && (forall r :: r in st.runs && st.runs[r].parent.Some? ==>
          exists d :: d in st.contracts && st.contracts[d] == Contract(st.runs[r].parent.value, r))
    && (forall c, d :: c in st.contracts && d in st.contracts && st.contracts[c].child == st.contracts[d].child ==> c == d)
  }

  /** The run is the parent of some delegation. */
  ghost predicate Delegates(st: State, run: string) {
    exists d :: d in st.contracts && st.contracts[d].parent == run
  }

  /** The delegation a run names is one it takes part in. */
  ghost predicate NamesOwn(st: State) {
    forall r :: r in st.runs && st.runs[r].delegation.Some? ==>
      var d := st.runs[r].delegation.value;
      d in st.contracts && (st.contracts[d].parent == r || st.contracts[d].child == r)
  }

  /** A child still names the delegation that created it exactly when it has not delegated further. */
  ghost predicate ChildNames(st: State, d: string)
    requires d in st.contracts
  {
    var c := st.contracts[d].child;
    c in st.runs && (st.runs[c].delegation == Some(d) <==> !Delegates(st, c))
  }

  ghost predicate Named(st: State) {
    NamesOwn(st) && forall d :: d in st.contracts ==> ChildNames(st, d)
  }

  ghost predicate Sound(st: State) {
    Forest(st.runs) && Linked(st) && Named(st)
  }

  datatype Step = Delegation(request: Request) | NewRun(id: string, status: RunStatus)

  ghost predicate Enabled(st: State, step: Step) {
    match step
    case Delegation(q) => Drawable(st, q)
    case NewRun(id, _) => id !in st.runs
  }

  function Next(st: State, step: Step): State {
    match step
    case Delegation(q) => Create(st, q)
    case NewRun(id, status) => st.(runs := st.runs[id := FreshRun(status)])
  }

  ghost predicate IsHistory(states: seq<State>, steps: seq<Step>) {
    && |states| == |steps| + 1
    && forall i :: 0 <= i < |steps| ==> Enabled(states[i], steps[i]) && states[i + 1] == Next(states[i], steps[i])
  }

  /** Runs that exist before the first delegation carry no delegation keys. */
  ghost predicate Initial(st: State) {
    st.contracts == map[] && forall r :: r in st.runs ==> st.runs[r].parent.None? && st.runs[r].delegation.None?
  }

  /** Adding a new run below p keeps a ranking; p itself may be new or keep its own link. */
  lemma ChildKeepsForest(runs: map<string, Run>, p: string, parent: Run, c: string, child: Run)
    requires Forest(runs) && c !in runs && c != p && child.parent == Some(p)
    requires parent.parent == if p in runs then runs[p].parent else None
    ensures Forest(runs[p := parent][c := child])
  {
    var rank :| Ranked(runs, rank);
    var below := if p in rank then rank[p] else 0;
    assert Ranked(runs[p := parent][c := child], rank[p := below][c := below + 1]);
  }

  lemma CreateKeepsForest(st: State, q: Request)
    requires Forest(st.runs) && Drawable(st, q)
    ensures Forest(Create(st, q).runs)
  {
    if Delegating(q) && !ParentMissing(st, q) {
      hide Forest;
      var p, t := ParentOf(q), Create(st, q);
      ChildKeepsForest(st.runs, p, t.runs[p], q.childId, t.runs[q.childId]);
    }
  }

  lemma CreateKeepsLinked(st: State, q: Request)
    requires Linked(st) && Drawable(st, q)
    ensures Linked(Create(st, q))
  {
    if Delegating(q) && !ParentMissing(st, q) {
      var t := Create(st, q);
      forall r | r in t.runs && t.runs[r].parent.Some?
        ensures exists d :: d in t.contracts && t.contracts[d] == Contract(t.runs[r].parent.value, r)
      {
        if r == q.childId {
          assert t.contracts[q.delegationId] == Contract(t.runs[r].parent.value, r);
        } else {
          var d :| d in st.contracts && st.contracts[d] == Contract(st.runs[r].parent.value, r);
          assert t.contracts[d] == st.contracts[d];
        }
      }
    }
  }

  lemma DelegatesKept(st: State, t: State, d: string, new': Contract, run: string)
    requires d !in st.contracts && t.contracts == st.contracts[d := new'] && new'.parent != run
    ensures Delegates(t, run) <==> Delegates(st, run)
  {
    if Delegates(st, run) {
      var x :| x in st.contracts && st.contracts[x].parent == run;
      assert t.contracts[x].parent == run;
    }
  }

  lemma CreateKeepsChildName(st: State, q: Request, d: string)
    requires Linked(st) && Named(st) && Drawable(st, q) && d in Create(st, q).contracts
    requires Delegating(q) && !ParentMissing(st, q)
    ensures ChildNames(Create(st, q), d)
  {
    var t := Create(st, q);
    var p := ParentOf(q);
    assert t.contracts[q.delegationId].parent == p;
    var c := t.contracts[d].child;
    if d != q.delegationId {
      assert ChildNames(st, d);
    }
    if c == p {
      assert Delegates(t, c);
    } else {
      DelegatesKept(st, t, q.delegationId, Contract(p, q.childId), c);
      assert d == q.delegationId ==> !Delegates(st, c);
    }
  }

  lemma CreateKeepsNamed(st: State, q: Request)
    requires Linked(st) && Named(st) && Drawable(st, q)
    ensures Named(Create(st, q))
  {
    if Delegating(q) && !ParentMissing(st, q) {
      forall d | d in Create(st, q).contracts {
        CreateKeepsChildName(st, q, d);
      }
    }
  }

  lemma NewRunKeepsForest(st: State, id: string, status: RunStatus)
    requires Forest(st.runs) && id !in st.runs
    ensures Forest(Next(st, NewRun(id, status)).runs)
  {
    var rank :| Ranked(st.runs, rank);
    assert Ranked(Next(st, NewRun(id, status)).runs, rank[id := 0]);
  }

  lemma NewRunKeepsRecords(st: State, id: string, status: RunStatus)
    requires Linked(st) && Named(st) && id !in st.runs
    ensures Linked(Next(st, NewRun(id, status))) && Named(Next(st, NewRun(id, status)))
  {
    var t := Next(st, NewRun(id, status));
    forall d | d in t.contracts ensures ChildNames(t, d) {
      assert ChildNames(st, d);
    }
  }

  /** Over every history of delegation requests and new runs the parent links form a forest that
      agrees with the stored contracts. */
  lemma {:induction false} HistoriesSound(states: seq<State>, steps: seq<Step>, i: nat)
    requires IsHistory(states, steps) && Initial(states[0]) && i < |states|
    ensures Sound(states[i])
  {
    if i == 0 {
      var rank: map<string, nat> := map r | r in states[0].runs :: 0;
      assert Ranked(states[0].runs, rank);
    } else {
      HistoriesSound(states, steps, i - 1);
      var st, step := states[i - 1], steps[i - 1];
      match step
      case Delegation(q) =>
        CreateKeepsForest(st, q);
        CreateKeepsLinked(st, q);
        CreateKeepsNamed(st, q);
      case NewRun(id, status) =>
        NewRunKeepsForest(st, id, status);
        NewRunKeepsRecords(st, id, status);
    }
  }

  lemma {:induction false} RanksFall(runs: map<string, Run>, rank: map<string, nat>, path: seq<string>, i: nat, j: nat)
    requires Ranked(runs, rank) && Walk(runs, path) && i < j < |path|
    ensures rank[path[j]] < rank[path[i]]
    decreases j
  {
    assert runs[path[j - 1]].parent == Some(path[j - 1 + 1]);
    if i < j - 1 {
      RanksFall(runs, rank, path, i, j - 1);
    }
  }

  /** Following parents always ends: no walk repeats a run or is longer than the number of runs. */
  lemma WalksEnd(runs: map<string, Run>, path: seq<string>)
    requires Forest(runs) && Walk(runs, path)
    ensures Distinct(path) && |path| <= |runs|
  {
    var rank :| Ranked(runs, rank);
    forall i, j | 0 <= i < j < |path| ensures path[i] != path[j] {
      RanksFall(runs, rank, path, i, j);
    }
    DistinctCount(path);
    var visited := set x | x in path;
    assert visited <= runs.Keys;
    SubsetSize(visited, runs.Keys);
  }

  /** A request creates exactly one contract and one fresh child run, plus a fresh parent when it
      names none, or else it changes nothing at all. */
  lemma CreationsCounted(st: State, q: Request)
    requires Drawable(st, q)
    ensures var t := Create(st, q);
      if Delegating(q) && !ParentMissing(st, q) then
        && t.runs.Keys - st.runs.Keys == (if NamesParent(q) then {q.childId} else {q.parentId, q.childId})
        && t.contracts.Keys - st.contracts.Keys == {q.delegationId}
        && (forall r :: r in st.runs && r != ParentOf(q) ==> t.runs[r] == st.runs[r])
        && (forall r :: r in st.runs ==> t.runs[r].parent == st.runs[r].parent && t.runs[r].status == st.runs[r].status)
        && t.contracts[q.delegationId] == Contract(ParentOf(q), q.childId)
        && t.runs[q.childId] == Run(Some(ParentOf(q)), None, Some(q.delegationId), q.childStatus)
        && t.runs[ParentOf(q)].child == Some(q.childId) && t.runs[ParentOf(q)].delegation == Some(q.delegationId)
        && (!NamesParent(q) ==> t.runs[q.parentId].parent.None?)
        && (!NamesParent(q) && q.parentStatus == JustCreated ==> t.runs[q.parentId].status == WaitingDelegation)
        && (!NamesParent(q) && q.parentStatus != JustCreated ==> t.runs[q.parentId].status == q.parentStatus)
      else t == st
  {
  }

  /** A child that delegates in turn loses the name of its own delegation. */
  lemma NestedDelegationForgets() returns (states: seq<State>, steps: seq<Step>)
    ensures IsHistory(states, steps) && Initial(states[0]) && |steps| == 2
    ensures "task_run_b" in states[1].runs && states[1].runs["task_run_b"].delegation == Some("delegation_1")
    ensures "delegation_1" in states[2].contracts && states[2].contracts["delegation_1"].child == "task_run_b"
    ensures "task_run_b" in states[2].runs && states[2].runs["task_run_b"].delegation == Some("delegation_2")
  {
    var s0 := State(map[], map[]);
    var q1 := Request(None, Delegate, false, "task_run_a", "task_run_b", "delegation_1", JustCreated, JustCreated);
    var q2 := Request(Some("task_run_b"), Delegate, false, "task_run_c", "task_run_d", "delegation_2", JustCreated, JustCreated);
    assert q1.parentId[9] == 'a' && q1.childId[9] == 'b' && q2.parentId[9] == 'c' && q2.childId[9] == 'd';
    assert q1.delegationId[11] == '1' && q2.delegationId[11] == '2';
    var s1 := Create(s0, q1);
    states, steps := [s0, s1, Create(s1, q2)], [Delegation(q1), Delegation(q2)];
  }

  // ---------------------------------------------------------------- the child a run names

  /** The step makes the run the parent of a new delegation. */
  ghost predicate DelegatesFrom(st: State, step: Step, run: string) {
    step.Delegation? && Delegating(step.request) && !ParentMissing(st, step.request) && ParentOf(step.request) == run
  }

  lemma DelegationNames(st: State, step: Step, run: string)
    requires Enabled(st, step) && DelegatesFrom(st, step, run)
    ensures var t, q := Next(st, step), step.request;
      && run in t.runs && t.runs[run].child == Some(q.childId) && t.runs[run].delegation == Some(q.delegationId)
      && q.childId in t.runs && q.delegationId in t.contracts && t.contracts[q.delegationId] == Contract(run, q.childId)
  {
  }

  lemma OtherStepsKeepNames(st: State, step: Step, run: string)
    requires Enabled(st, step) && run in st.runs && !DelegatesFrom(st, step, run)
    ensures run in Next(st, step).runs && Next(st, step).runs[run] == st.runs[run]
  {
  }

  lemma RecordsStay(st: State, step: Step)
    requires Enabled(st, step)
    ensures st.runs.Keys <= Next(st, step).runs.Keys
    ensures forall d :: d in st.contracts ==> d in Next(st, step).contracts && Next(st, step).contracts[d] == st.contracts[d]
  {
  }

  /** No delegation starts from the run between the states j and i. */
  ghost predicate NoneFrom(states: seq<State>, steps: seq<Step>, j: nat, i: nat, run: string)
    requires IsHistory(states, steps) && i < |states|
  {
    forall n :: j <= n < i ==> !DelegatesFrom(states[n], steps[n], run)
  }

  /** Over every history a parent names the child and the delegation of its request j exactly as long
      as it has made no later request, while the contract and the child run stay. */
  lemma {:induction false} ParentNamesLatest(states: seq<State>, steps: seq<Step>, j: nat, i: nat, run: string)
    requires IsHistory(states, steps) && j < i < |states| && DelegatesFrom(states[j], steps[j], run)
    ensures var q := steps[j].request;
      && run in states[i].runs && q.childId in states[i].runs
      && q.delegationId in states[i].contracts && states[i].contracts[q.delegationId] == Contract(run, q.childId)
      && (states[i].runs[run].child == Some(q.childId) <==> NoneFrom(states, steps, j + 1, i, run))
      && (states[i].runs[run].delegation == Some(q.delegationId) <==> NoneFrom(states, steps, j + 1, i, run))
    decreases i
  {
    hide Next, DelegatesFrom, Drawable;
    var st, step := states[i - 1], steps[i - 1];
    if i - 1 == j {
      DelegationNames(st, step, run);
    } else {
      ParentNamesLatest(states, steps, j, i - 1, run);
      RecordsStay(st, step);
      if DelegatesFrom(st, step, run) {
        DelegationNames(st, step, run);
        DrawnNew(st, step, run);
        assert !NoneFrom(states, steps, j + 1, i, run);
      } else {
        OtherStepsKeepNames(st, step, run);
        assert NoneFrom(states, steps, j + 1, i, run) <==> NoneFrom(states, steps, j + 1, i - 1, run);
      }
    }
  }

  lemma DrawnNew(st: State, step: Step, run: string)
    requires Enabled(st, step) && DelegatesFrom(st, step, run)
    ensures step.request.childId !in st.runs && step.request.delegationId !in st.contracts
  {
  }
}
