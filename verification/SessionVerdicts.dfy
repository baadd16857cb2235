/** How long a verdict on a collaboration session lasts: which later polls confirm it, and the runs in
    which they do not. */
module SessionVerdicts {
  import opened JsonValues
  import opened Sequences
  import opened Redaction
  import opened EventLogs
  import opened Sessions
  import opened SessionInvariants
  import opened SessionTheorems
  import opened SessionAuthority

  // ---------------------------------------------------------------- evaluations of the same second

  /** An evaluation stored by the step that received it. */
  ghost predicate StoredBy(e: Evaluation, step: Step)
    requires step.Receive?
  {
    && e.id == step.evaluationId && e.sessionId == step.id && e.receivedAt == step.now && e.ready == step.request.ready
    && e.needsHuman == step.request.needsHuman && e.needsRetry == (step.request.needsRetry || step.violations != [])
    && (e.findings == [] <==> step.request.findings == [] && step.violations == [])
  }

  lemma EvaluationStored(s: Session, step: Step)
    requires step.Receive? && s.id == step.id && Redact(step.id) == step.id && Redact(step.evaluationId) == step.evaluationId
    ensures StoredBy(StoreEvaluation(NewEvaluation(s, step.request, step.violations, step.evaluationId, step.now)), step)
  {
    hide Redact;
    var all := step.request.findings + step.violations;
    assert all != [] ==> all[0] in Dedup(all);
    hide Dedup;
  }

  /** What accepting an evaluation does to the bucket of evaluations and to the session's counters. */
  lemma ReceiveRecords(w: World, step: Step)
    requires Good(w) && step.Receive? && Enabled(w, step) && step.id in w.sessions
    requires w.sessions[step.id].iteration < w.sessions[step.id].runtime.maximum
    ensures var v, s := Next(w, step), w.sessions[step.id];
      && step.evaluationId in v.evaluations && StoredBy(v.evaluations[step.evaluationId], step)
      && v.evaluations == w.evaluations[step.evaluationId := v.evaluations[step.evaluationId]]
      && step.id in v.sessions && v.sessions[step.id].lastEvaluation == Some(step.evaluationId)
      && v.sessions[step.id].iteration == s.iteration + 1
      && v.sessions[step.id].runtime.maximum == s.runtime.maximum
  {
    hide StoreSession, Judge, Dedup, CaughtUp, Remembers, Redact, StoreEvaluation, StoredBy;
    var s := w.sessions[step.id];
    assert GoodAt(w, step.id);
    GeneratedIsStored(step.id);
    GeneratedIsStored(step.evaluationId);
    EvaluationStored(s, step);
    var e := NewEvaluation(s, step.request, step.violations, step.evaluationId, step.now);
    AcceptedStored(s, e, step.summary, step.now);
    RecordedStored(s, e);
  }

  lemma TieJudgesFirst(evaluations: map<string, Evaluation>, id: string, a: string, b: string)
    requires a != b && evaluations.Keys == {a, b}
    requires evaluations[a].sessionId == id && evaluations[b].sessionId == id
    requires evaluations[a].receivedAt == evaluations[b].receivedAt
    ensures Lists([a, b], evaluations) && Latest(Rows(evaluations, [a, b]), id) == Some(evaluations[a])
  {
    var rows := [evaluations[a], evaluations[b]];
    assert Rows(evaluations, [a, b]) == rows;
    hide Latest;
    LatestIsHead(rows, id);
    FilterAll(rows, OfSession(id));
    SortOfOrdered(rows, NewestFirst());
  }

  /** From every initial state with a known run: two evaluations of the same second, and a listing
      under which the poll judges the first although the session names the second. When only the
      second is ready, that poll takes the completion back that the second one brought. */
  lemma SameSecondJudgesOlder(w: World, start: Step, first: Step, second: Step, later: int)
    returns (worlds: seq<World>, poll: Step)
    requires Initial(w) && start.Start? && Enabled(w, start) && start.run in w.logs
    requires first.Receive? && second.Receive? && first.id == start.id && second.id == start.id
    requires Generated(first.evaluationId) && Generated(second.evaluationId) && first.evaluationId != second.evaluationId
    requires first.now == second.now && IterationLimit(start.requestedLimit) >= 2
    ensures IsRun(worlds, [start, first, second, poll]) && worlds[0] == w
    ensures poll.Poll? && poll.id == start.id && poll.summary == second.summary
    ensures start.id in worlds[3].sessions && worlds[3].sessions[start.id].lastEvaluation == Some(second.evaluationId)
    ensures Lists(poll.order, worlds[3].evaluations) && first.evaluationId in worlds[3].evaluations
    ensures Latest(Rows(worlds[3].evaluations, poll.order), start.id) == Some(worlds[3].evaluations[first.evaluationId])
    ensures !first.request.ready && second.request.ready && Consents(second.summary) ==>
      CompletedAt(worlds[3], start.id) && !CompletedAt(worlds[4], start.id)
  {
    hide Next, Good, Consents, Latest, IterationLimit, Generated;
    var id := start.id;
    var v1 := Next(w, start);
    StartOpens(w, start);
    ReachableGood([w, v1], [start], 1);
    var v2 := Next(v1, first);
    ReceiveRecords(v1, first);
    StepKeepsGood(v1, first);
    var v3 := Next(v2, second);
    ReceiveRecords(v2, second);
    StepKeepsGood(v2, second);
    TieJudgesFirst(v3.evaluations, id, first.evaluationId, second.evaluationId);
    poll := Poll(id, [first.evaluationId, second.evaluationId], second.summary, later);
    CompletedStep(v2, second, id);
    CompletedStep(v3, poll, id);
    worlds := [w, v1, v2, v3, Next(v3, poll)];
  }

  // ---------------------------------------------------------------- verdicts over whole runs

  /** The evaluation that a session received last. */
  function LastOutput(s: Session): Option<Evaluation> {
    if s.outputs == [] then None else Some(s.outputs[|s.outputs| - 1])
  }

  /** Status and retry state are those of the verdict on the last evaluation. */
  ghost predicate Settled(s: Session, summary: Option<Summary>) {
    var (strategy, checks) := Judge(s, LastOutput(s), summary);
    && s.status == StatusOf(strategy)
    && s.retryState == RetryState(s.iteration, s.runtime.maximum, s.retryCount, checks.reason, strategy)
  }

  lemma PolledSettles(s: Session, page: seq<Event>, summary: Option<Summary>, now: int)
    requires StoreSession(s) == s
    ensures Settled(StoreSession(Polled(s, page, LastOutput(s), summary, now)), summary)
  {
    hide StoreSession, Observe, Judge, LastOutput;
    ObserveFrame(s, page, now);
    var latest := LastOutput(s);
    var seen := Observe(s, page, now);
    JudgeFrame(s, seen, latest, summary);
    var (strategy, checks) := Judge(seen, latest, summary);
    StoreSettle(seen, strategy, checks.reason, now);
    var t := StoreSession(Polled(s, page, latest, summary, now));
    SameOutputs(s, t);
    VerdictStable(s, latest, summary);
    JudgeFrame(t, s.(status := t.status), latest, summary);
  }

  lemma SameOutputs(s: Session, t: Session)
    requires t.outputs == s.outputs
    ensures LastOutput(t) == LastOutput(s)
  {
  }

  lemma AcceptedSettles(s: Session, e: Evaluation, summary: Option<Summary>, now: int)
    requires StoreSession(s) == s && Redact(e.id) == e.id
    ensures Settled(StoreSession(Accepted(s, e, summary, now)), summary)
  {
    hide StoreSession, Judge, Redact, StoreEvaluation;
    AcceptedFields(s, e, summary, now);
    AcceptedStored(s, e, summary, now);
    RecordedStored(s, e);
  }

  lemma VerdictSettles(w: World, step: Step)
    requires Good(w) && Enabled(w, step) && (step.Poll? || step.Receive?) && step.id in w.sessions
    requires step.Poll? ==> Latest(Rows(w.evaluations, step.order), step.id) == LastOutput(w.sessions[step.id])
    requires step.Receive? ==> w.sessions[step.id].iteration < w.sessions[step.id].runtime.maximum
    ensures step.id in Next(w, step).sessions && Settled(Next(w, step).sessions[step.id], step.summary)
  {
    hide StoreSession, Polled, Accepted, Settled, LastOutput, Latest, Page, Dedup, CaughtUp, Remembers;
    var s := w.sessions[step.id];
    assert GoodAt(w, step.id);
    if step.Poll? {
      PolledSettles(s, PollPage(w, s), step.summary, step.now);
    } else {
      GeneratedIsStored(step.evaluationId);
      AcceptedSettles(s, NewEvaluation(s, step.request, step.violations, step.evaluationId, step.now), step.summary, step.now);
    }
  }

  /** What a poll makes of the session: the verdict on the newest evaluation in the listing. */
  lemma PollVerdict(w: World, step: Step)
    requires Good(w) && step.Poll? && Enabled(w, step) && step.id in w.sessions
    ensures var s := w.sessions[step.id];
      var (strategy, checks) := Judge(s, Latest(Rows(w.evaluations, step.order), step.id), step.summary);
      && step.id in Next(w, step).sessions
      && var t := Next(w, step).sessions[step.id];
         && t.status == StatusOf(strategy)
         && t.retryState == RetryState(s.iteration, s.runtime.maximum, s.retryCount, checks.reason, strategy)
  {
    hide StoreSession, Polled, Judge, StatusOf, Latest, Page, CaughtUp, Remembers;
    var s := w.sessions[step.id];
    assert GoodAt(w, step.id);
    PolledFields(s, PollPage(w, s), Latest(Rows(w.evaluations, step.order), s.id), step.summary, step.now);
  }

  lemma SettledPollConfirms(w: World, step: Step)
    requires Good(w) && step.Poll? && Enabled(w, step) && step.id in w.sessions
    requires Latest(Rows(w.evaluations, step.order), step.id) == LastOutput(w.sessions[step.id])
    requires Settled(w.sessions[step.id], step.summary)
    ensures Confirms(w, Next(w, step), step.id)
  {
    hide Next, Good, Judge, LastOutput, Latest;
    PollVerdict(w, step);
  }

  /** A settled session that is polled with nothing new only notes the time. */
  lemma SettledIdle(s: Session, summary: Option<Summary>, later: int)
    requires StoreSession(s) == s && Settled(s, summary) && s.runtime.current == s.iteration
    ensures StoreSession(Polled(s, [], LastOutput(s), summary, later)) == s.(lastActivity := later)
  {
    hide StoreSession, Observe, Judge, LastOutput;
    ObserveNothing(s, later);
    var (strategy, checks) := Judge(s, LastOutput(s), summary);
    StoreSettle(s, strategy, checks.reason, later);
  }

  /** With nothing new, a poll that confirms the session changes nothing but the time of its last
      activity, and the other way round. */
  lemma IdleIffConfirms(w: World, step: Step)
    requires Good(w) && step.Poll? && Enabled(w, step) && step.id in w.sessions
    requires Latest(Rows(w.evaluations, step.order), step.id) == LastOutput(w.sessions[step.id])
    requires PollPage(w, w.sessions[step.id]) == []
    ensures OnlyActivity(w, Next(w, step), step.id, step.now) <==> Confirms(w, Next(w, step), step.id)
  {
    PollVerdict(w, step);
    if Confirms(w, Next(w, step), step.id) {
      hide StoreSession, Polled, LastOutput, Judge, Latest, PollPage, CaughtUp, Remembers;
      assert GoodAt(w, step.id);
      assert Settled(w.sessions[step.id], step.summary);
      hide Settled;
      SettledIdle(w.sessions[step.id], step.summary, step.now);
    }
  }

  lemma {:induction false} UnjudgedUnchanged(worlds: seq<World>, steps: seq<Step>, i: nat, j: nat, id: string)
    requires IsRun(worlds, steps) && i <= j < |worlds| && id in worlds[i].sessions
    requires forall n :: i <= n < j ==> !Judges(steps[n], id)
    ensures id in worlds[j].sessions && worlds[j].sessions[id] == worlds[i].sessions[id]
    decreases j
  {
    hide Next, Enabled, Judges;
    if i < j {
      UnjudgedUnchanged(worlds, steps, i, j - 1, id);
      OtherStepKeeps(worlds[j - 1], steps[j - 1], id);
    }
  }

  lemma PollsJudgeLastOutput(worlds: seq<World>, steps: seq<Step>, i: nat, id: string, order: seq<string>)
    requires IsRun(worlds, steps) && Initial(worlds[0]) && ClockAdvances(worlds, steps, id)
    requires i < |worlds| && id in worlds[i].sessions && Lists(order, worlds[i].evaluations)
    ensures Latest(Rows(worlds[i].evaluations, order), id) == LastOutput(worlds[i].sessions[id])
  {
    hide Next, Good, Latest, LastOutput, ClockAdvances;
    ReachableGood(worlds, steps, i);
    NamedIsLastOutput(worlds[i], id);
    PollsJudgeLastEvaluation(worlds, steps, i, id, order);
  }

  lemma NamedIsLastOutput(w: World, id: string)
    requires Good(w) && id in w.sessions
    ensures var s := w.sessions[id];
      if s.lastEvaluation.None? then LastOutput(s) == None
      else s.lastEvaluation.value in w.evaluations && LastOutput(s) == Some(w.evaluations[s.lastEvaluation.value])
  {
    hide StoreSession, CaughtUp;
    assert GoodAt(w, id);
  }

  // ---------------------------------------------------------------- verdicts and later polls

  /** The step submits an evaluation to a session whose iterations are used up. */
  ghost predicate OverLimit(w: World, step: Step, id: string) {
    step.Receive? && step.id == id && id in w.sessions && !Accepts(w, step, id)
  }

  /** The verdict that asks for a human because the iterations are used up is also the one that a
      poll reaches: the evaluation calls for a retry and for nothing stronger. */
  predicate AsksForRetry(e: Evaluation, summary: Option<Summary>) {
    var runStatus := if summary.Some? then summary.value.status else "";
    && runStatus != "WAITING_APPROVAL" && !(e.ready && summary.Some? && summary.value.resultSafe) && !e.needsHuman
    && (e.needsRetry || e.findings != [] || runStatus == "FAILED" || runStatus == "WAITING_USER")
  }

  lemma ExhaustedVerdict(s: Session, e: Evaluation, summary: Option<Summary>)
    requires s.iteration >= s.runtime.maximum && s.status != Cancelled && s.status != Expired
    ensures var (strategy, checks) := Judge(s, Some(e), summary);
      strategy == AskHuman && checks.reason == IterationsExhausted <==> AsksForRetry(e, summary)
  {
  }

  /** A submission beyond the limit stores no evaluation and only asks for a human. */
  lemma LimitVerdict(w: World, step: Step)
    requires Good(w) && Enabled(w, step) && step.Receive? && OverLimit(w, step, step.id)
    ensures Next(w, step) == w.(sessions := w.sessions[step.id := Exhausted(w.sessions[step.id])])
    ensures w.sessions[step.id].outputs != []
  {
    hide StoreSession, Exhausted, CaughtUp;
    assert GoodAt(w, step.id);
    ExhaustedStored(w.sessions[step.id]);
  }

  lemma ExhaustedPollIff(w: World, step: Step, before: Session)
    requires Good(w) && step.Poll? && Enabled(w, step) && step.id in w.sessions
    requires w.sessions[step.id] == Exhausted(before) && before.iteration >= before.runtime.maximum && before.outputs != []
    requires Latest(Rows(w.evaluations, step.order), step.id) == LastOutput(w.sessions[step.id])
    ensures Confirms(w, Next(w, step), step.id) <==> AsksForRetry(LastOutput(before).value, step.summary)
  {
    hide Next, Good, Judge, Latest, AsksForRetry;
    PollVerdict(w, step);
    ExhaustedVerdict(w.sessions[step.id], LastOutput(before).value, step.summary);
  }

  /** Between the verdict of step k and the poll of step m no verdict on the session is given, and
      both see the same summary. */
  ghost predicate PollAfterVerdict(worlds: seq<World>, steps: seq<Step>, k: nat, m: nat, id: string)
    requires IsRun(worlds, steps)
  {
    && k < m < |steps| && id in worlds[k].sessions && Judges(steps[k], id)
    && (forall n :: k < n < m ==> !Judges(steps[n], id))
    && steps[m].Poll? && steps[m].id == id && steps[m].summary == steps[k].summary
  }

  /** The state in which the poll of step m finds the session. */
  lemma FoundByPoll(worlds: seq<World>, steps: seq<Step>, k: nat, m: nat, id: string)
    requires IsRun(worlds, steps) && Initial(worlds[0]) && ClockAdvances(worlds, steps, id)
    requires PollAfterVerdict(worlds, steps, k, m, id)
    ensures Good(worlds[m]) && id in worlds[k + 1].sessions && id in worlds[m].sessions
    ensures worlds[m].sessions[id] == worlds[k + 1].sessions[id]
    ensures Latest(Rows(worlds[m].evaluations, steps[m].order), id) == LastOutput(worlds[m].sessions[id])
    ensures !OverLimit(worlds[k], steps[k], id) ==> Settled(worlds[m].sessions[id], steps[m].summary)
  {
    hide Next, Good, Latest, Settled, LastOutput, ClockAdvances;
    ReachableGood(worlds, steps, k);
    ReachableGood(worlds, steps, m);
    StepContinues(worlds[k], steps[k], id);
    assert worlds[k + 1] == Next(worlds[k], steps[k]);
    UnjudgedUnchanged(worlds, steps, k + 1, m, id);
    PollsJudgeLastOutput(worlds, steps, m, id, steps[m].order);
    if steps[k].Poll? {
      PollsJudgeLastOutput(worlds, steps, k, id, steps[k].order);
    }
    if !OverLimit(worlds[k], steps[k], id) {
      VerdictSettles(worlds[k], steps[k]);
    }
  }

  /** When the next poll with the same summary confirms a verdict in status and retry state, with a
      clock that advances between the session's evaluations and whatever happened to the log, to
      other sessions and to the directory in between: always, except that the verdict of a
      submission beyond the limit is confirmed exactly when the last accepted evaluation itself
      calls for a retry. */
  lemma NextPollConfirmsIff(worlds: seq<World>, steps: seq<Step>, k: nat, m: nat, id: string)
    requires IsRun(worlds, steps) && Initial(worlds[0]) && ClockAdvances(worlds, steps, id)
    requires PollAfterVerdict(worlds, steps, k, m, id)
    ensures OverLimit(worlds[k], steps[k], id) ==> worlds[k].sessions[id].outputs != []
    ensures Confirms(worlds[k + 1], worlds[m + 1], id) <==>
      (OverLimit(worlds[k], steps[k], id) ==> AsksForRetry(LastOutput(worlds[k].sessions[id]).value, steps[m].summary))
  {
    hide Next, Good, Latest, Settled, LastOutput, ClockAdvances, AsksForRetry;
    FoundByPoll(worlds, steps, k, m, id);
    if OverLimit(worlds[k], steps[k], id) {
      ReachableGood(worlds, steps, k);
      LimitVerdict(worlds[k], steps[k]);
      ExhaustedPollIff(worlds[m], steps[m], worlds[k].sessions[id]);
    } else {
      SettledPollConfirms(worlds[m], steps[m]);
    }
  }

  /** Under the same conditions a poll that finds no new event changes nothing but the time of the
      last activity, with the same exception. */
  lemma PollAgainIdleIff(worlds: seq<World>, steps: seq<Step>, k: nat, m: nat, id: string)
    requires IsRun(worlds, steps) && Initial(worlds[0]) && ClockAdvances(worlds, steps, id)
    requires PollAfterVerdict(worlds, steps, k, m, id)
    requires id in worlds[m].sessions ==> PollPage(worlds[m], worlds[m].sessions[id]) == []
    ensures id in worlds[k + 1].sessions && id in worlds[m].sessions && worlds[m].sessions[id] == worlds[k + 1].sessions[id]
    ensures OverLimit(worlds[k], steps[k], id) ==> worlds[k].sessions[id].outputs != []
    ensures OnlyActivity(worlds[m], worlds[m + 1], id, steps[m].now) <==>
      (OverLimit(worlds[k], steps[k], id) ==> AsksForRetry(LastOutput(worlds[k].sessions[id]).value, steps[m].summary))
  {
    hide Next, Good, Latest, Settled, LastOutput, ClockAdvances, PollPage, OnlyActivity, AsksForRetry;
    FoundByPoll(worlds, steps, k, m, id);
    NextPollConfirmsIff(worlds, steps, k, m, id);
    IdleIffConfirms(worlds[m], steps[m]);
  }

  lemma OneListed(evaluations: map<string, Evaluation>, id: string, key: string)
    requires evaluations.Keys == {key} && evaluations[key].sessionId == id
    ensures Lists([key], evaluations) && Latest(Rows(evaluations, [key]), id) == Some(evaluations[key])
  {
    hide Latest;
    NewestIsLatest(evaluations, [key], id, key);
  }

  /** The submitted evaluation asks neither for a human nor for a retry and has no findings. */
  predicate AsksNothing(step: Step)
    requires step.Receive?
  {
    !step.request.needsHuman && !step.request.needsRetry && step.request.findings == [] && step.violations == []
  }

  /** From every initial state with a known run: a session of one iteration, an evaluation, a second
      submission that asks for a human because the limit is reached, and a poll that judges the
      first evaluation again. A plain evaluation makes the poll forget that a human was asked for;
      a ready one with the runtime's consent completes the session, loses the completion to the
      second submission and gets it back from the poll. */
  lemma LimitVerdictForgotten(w: World, start: Step, first: Step, second: Step, later: int)
    returns (worlds: seq<World>, poll: Step)
    requires Initial(w) && start.Start? && Enabled(w, start) && start.run in w.logs
    requires first.Receive? && second.Receive? && first.id == start.id && second.id == start.id
    requires Generated(first.evaluationId) && Generated(second.evaluationId) && first.evaluationId != second.evaluationId
    requires IterationLimit(start.requestedLimit) == 1
    ensures IsRun(worlds, [start, first, second, poll]) && worlds[0] == w
    ensures poll.Poll? && poll.id == start.id && poll.summary == second.summary
    ensures start.id in worlds[3].sessions && worlds[3].sessions[start.id].status == NeedsHuman
    ensures start.id in worlds[4].sessions
    ensures AsksNothing(first) && second.summary.None? ==> worlds[4].sessions[start.id].status == Active
    ensures first.request.ready && Consents(first.summary) && Consents(second.summary) ==>
      CompletedAt(worlds[2], start.id) && !CompletedAt(worlds[3], start.id) && CompletedAt(worlds[4], start.id)
  {
    hide Next, Good, Consents, Latest, IterationLimit, Generated, Judge;
    var id := start.id;
    var v1 := Next(w, start);
    StartOpens(w, start);
    ReachableGood([w, v1], [start], 1);
    var v2 := Next(v1, first);
    ReceiveRecords(v1, first);
    StepKeepsGood(v1, first);
    var v3 := Next(v2, second);
    LimitVerdict(v2, second);
    StepKeepsGood(v2, second);
    OneListed(v3.evaluations, id, first.evaluationId);
    poll := Poll(id, [first.evaluationId], second.summary, later);
    PollVerdict(v3, poll);
    PlainVerdict(v3.sessions[id], v3.evaluations[first.evaluationId]);
    CompletedStep(v1, first, id);
    CompletedStep(v3, poll, id);
    worlds := [w, v1, v2, v3, Next(v3, poll)];
  }

  /** Without a summary an evaluation that asks for nothing lets the session go on. */
  lemma PlainVerdict(s: Session, e: Evaluation)
    requires s.status != Cancelled && s.status != Expired
    ensures !e.needsHuman && !e.needsRetry && e.findings == [] ==> Judge(s, Some(e), None).0 == Continue
  {
  }
}
