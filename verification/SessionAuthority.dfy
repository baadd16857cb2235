/** Agreement between evaluations and polls, and the authority rule: an external "ready" never
    completes a session by itself. */
module SessionAuthority {
  import opened JsonValues
  import opened Sequences
  import opened Redaction
  import opened EventLogs
  import opened Sessions
  import opened SessionInvariants
  import opened SessionTheorems

  // ---------------------------------------------------------------- agreement

  /** Storing an evaluation keeps everything the verdict looks at. */
  lemma StoredEvaluationJudged(s: Session, e: Evaluation, summary: Option<Summary>)
    ensures Judge(s, Some(StoreEvaluation(e)), summary) == Judge(s, Some(e), summary)
  {
    hide Redact;
    var f := StoreEvaluation(e);
    assert f.ready == e.ready && f.needsHuman == e.needsHuman && f.needsRetry == e.needsRetry;
    assert f.findings == [] <==> e.findings == [];
    EvaluationFrame(s, e, f, summary);
  }

  /** The verdict sees an evaluation only through its flags and whether it has findings. */
  lemma EvaluationFrame(s: Session, e: Evaluation, f: Evaluation, summary: Option<Summary>)
    requires f.ready == e.ready && f.needsHuman == e.needsHuman && f.needsRetry == e.needsRetry
    requires f.findings == [] <==> e.findings == []
    ensures Judge(s, Some(f), summary) == Judge(s, Some(e), summary)
  {
  }

  /** A verdict, once recorded in the status, is reached again from that status. */
  lemma VerdictStable(s: Session, evaluation: Option<Evaluation>, summary: Option<Summary>)
    ensures var (strategy, checks) := Judge(s, evaluation, summary);
      Judge(s.(status := StatusOf(strategy)), evaluation, summary) == (strategy, checks)
  {
  }

  lemma PolledFields(s: Session, page: seq<Event>, latest: Option<Evaluation>, summary: Option<Summary>, now: int)
    requires StoreSession(s) == s
    ensures var (strategy, checks) := Judge(s, latest, summary);
      var t := StoreSession(Polled(s, page, latest, summary, now));
      && t.status == StatusOf(strategy)
      && t.retryState == RetryState(s.iteration, s.runtime.maximum, s.retryCount, checks.reason, strategy)
  {
    hide StoreSession, Observe;
    ObserveFrame(s, page, now);
    var seen := Observe(s, page, now);
    JudgeFrame(s, seen, latest, summary);
    var (strategy, checks) := Judge(seen, latest, summary);
    StoreSettle(seen, strategy, checks.reason, now);
  }

  lemma AcceptedFields(s: Session, e: Evaluation, summary: Option<Summary>, now: int)
    requires StoreSession(s) == s && Redact(e.id) == e.id
    ensures var t := StoreSession(Accepted(s, e, summary, now));
      var (strategy, checks) := Judge(t, Some(StoreEvaluation(e)), summary);
      && t.status == StatusOf(strategy)
      && t.retryState == RetryState(t.iteration, t.runtime.maximum, t.retryCount, checks.reason, strategy)
  {
    hide StoreSession, Redact;
    var noted := Recorded(s, e);
    RecordedStored(s, e);
    AcceptedStored(s, e, summary, now);
    var (strategy, checks) := Judge(noted, Some(e), summary);
    var t := StoreSession(Accepted(s, e, summary, now));
    VerdictStable(noted, Some(e), summary);
    JudgeFrame(t, noted.(status := t.status), Some(e), summary);
    StoredEvaluationJudged(t, e, summary);
  }

  lemma NewStrictlyNewest(evaluations: map<string, Evaluation>, id: string, key: string, e: Evaluation)
    requires key !in evaluations && e.sessionId == id
    requires forall x :: x in evaluations && evaluations[x].sessionId == id ==> evaluations[x].receivedAt < e.receivedAt
    ensures StrictlyNewest(evaluations[key := e], id, key)
  {
  }

  /** A session that has just accepted its newest evaluation is confirmed by the next poll. */
  lemma PollConfirmsAccepted(s: Session, id: string, evaluations: map<string, Evaluation>, e: Evaluation,
                             summary: Option<Summary>, now: int, order: seq<string>, page: seq<Event>, later: int)
    requires WellKept(s, id) && e.sessionId == id && Generated(e.id) && e.id !in evaluations
    requires forall x :: x in evaluations && evaluations[x].sessionId == id ==> evaluations[x].receivedAt < e.receivedAt
    requires Lists(order, evaluations[e.id := StoreEvaluation(e)])
    ensures var t := StoreSession(Accepted(s, e, summary, now));
      var u := StoreSession(Polled(t, page, Latest(Rows(evaluations[e.id := StoreEvaluation(e)], order), id), summary, later));
      u.status == t.status && u.retryState == t.retryState
  {
    hide StoreSession, Judge, Polled, Accepted, Latest, Redact;
    GeneratedIsStored(id);
    GeneratedIsStored(e.id);
    NewStrictlyNewest(evaluations, id, e.id, StoreEvaluation(e));
    NewestIsLatest(evaluations[e.id := StoreEvaluation(e)], order, id, e.id);
    AcceptedFields(s, e, summary, now);
    StoreSessionIdempotent(Accepted(s, e, summary, now));
    PolledFields(StoreSession(Accepted(s, e, summary, now)), page, Some(StoreEvaluation(e)), summary, later);
  }

  /** After an accepted evaluation that is the newest of its session, a poll with the same summary,
      under any directory order and after any log growth, confirms the same status and retry state. */
  lemma PollConfirmsEvaluation(w: World, receive: Step, grown: map<string, seq<Event>>, poll: Step)
    requires Good(w) && receive.Receive? && Enabled(w, receive) && receive.id in w.sessions
    requires w.sessions[receive.id].iteration < w.sessions[receive.id].runtime.maximum
    requires forall e :: e in w.evaluations && w.evaluations[e].sessionId == receive.id
               ==> w.evaluations[e].receivedAt < receive.now
    requires poll.Poll? && poll.id == receive.id && poll.summary == receive.summary
    requires Enabled(Next(w, receive).(logs := grown), poll)
    ensures Confirms(Next(w, receive), Next(Next(w, receive).(logs := grown), poll), receive.id)
  {
    hide StoreSession, Judge, Polled, Accepted, Page, Latest, Dedup, CaughtUp, Remembers, StoreEvaluation;
    var id := receive.id;
    var s := w.sessions[id];
    assert GoodAt(w, id);
    var e := NewEvaluation(s, receive.request, receive.violations, receive.evaluationId, receive.now);
    var v := Next(w, receive).(logs := grown);
    AcceptedIdentity(s, id, e, receive.summary, receive.now);
    PollConfirmsAccepted(s, id, w.evaluations, e, receive.summary, receive.now, poll.order,
                         PollPage(v, v.sessions[id]), poll.now);
  }

  lemma AcceptedIdentity(s: Session, id: string, e: Evaluation, summary: Option<Summary>, now: int)
    requires WellKept(s, id) && Generated(e.id)
    ensures StoreSession(Accepted(s, e, summary, now)).id == id
  {
    GeneratedIsStored(e.id);
    AcceptedContinues(s, e, summary, now);
  }

  /** Both worlds hold the session with the same status and the same retry state. */
  ghost predicate Confirms(before: World, after: World, id: string) {
    && id in before.sessions && id in after.sessions
    && after.sessions[id].status == before.sessions[id].status
    && after.sessions[id].retryState == before.sessions[id].retryState
  }

  /** A second poll that finds no new event, the same summary and the same latest evaluation
      changes nothing but the time of the last activity. */
  lemma SecondPollIdle(s: Session, page: seq<Event>, latest: Option<Evaluation>, summary: Option<Summary>, now: int, later: int)
    requires StoreSession(s) == s
    ensures var t := StoreSession(Polled(s, page, latest, summary, now));
      StoreSession(Polled(t, [], latest, summary, later)) == t.(lastActivity := later)
  {
    hide StoreSession, Observe, Judge;
    var seen := Observe(s, page, now);
    ObserveFrame(s, page, now);
    JudgeFrame(s, seen, latest, summary);
    var (strategy, checks) := Judge(seen, latest, summary);
    StoreSettle(seen, strategy, checks.reason, now);
    var t := StoreSession(Polled(s, page, latest, summary, now));
    StoreSessionIdempotent(Polled(s, page, latest, summary, now));
    VerdictStable(seen, latest, summary);
    JudgeFrame(seen.(status := t.status), t, latest, summary);
    ObserveNothing(t, later);
    StoreSettle(t, strategy, checks.reason, later);
  }

  lemma ObserveNothing(s: Session, now: int)
    ensures Observe(s, [], now) == s
  {
    NothingRelevant(s.subscribed);
  }

  /** Only the time of the last activity of this session differs. */
  ghost predicate OnlyActivity(before: World, after: World, id: string, now: int) {
    id in before.sessions && after == before.(sessions := before.sessions[id := before.sessions[id].(lastActivity := now)])
  }

  /** The same on the whole system: polling again with nothing new is idle, for any two listings
      that show the same newest evaluation. */
  lemma PollAgainIdle(w: World, first: Step, second: Step)
    requires Good(w) && first.Poll? && Enabled(w, first) && first.id in w.sessions
    requires second.Poll? && second.id == first.id && second.summary == first.summary && Lists(second.order, w.evaluations)
    requires Latest(Rows(w.evaluations, second.order), first.id) == Latest(Rows(w.evaluations, first.order), first.id)
    requires PollPage(Next(w, first), Next(w, first).sessions[first.id]) == []
    ensures Enabled(Next(w, first), second)
    ensures OnlyActivity(Next(w, first), Next(Next(w, first), second), first.id, second.now)
  {
    hide StoreSession, Polled, Page, Latest, CaughtUp, Remembers;
    var s := w.sessions[first.id];
    assert GoodAt(w, first.id);
    var latest := Latest(Rows(w.evaluations, first.order), s.id);
    SecondPollIdle(s, PollPage(w, s), latest, first.summary, first.now, second.now);
    PolledGood(s, first.id, w.logs[s.taskRunId], w.evaluations, latest, first.summary, first.now);
  }

  // ---------------------------------------------------------------- clocks

  /** The step has the session accept an evaluation: it submits one while an iteration is left. */
  ghost predicate Accepts(w: World, step: Step, id: string) {
    && step.Receive? && step.id == id && id in w.sessions
    && w.sessions[id].iteration < w.sessions[id].runtime.maximum
  }

  /** A step leaves the evaluations kept by a session alone or adds the one it has just received. */
  lemma OutputsNext(w: World, step: Step, id: string)
    requires Good(w) && Enabled(w, step) && id in Next(w, step).sessions
    ensures var before := if id in w.sessions then w.sessions[id].outputs else [];
      var after := Next(w, step).sessions[id].outputs;
      || after == before
      || (Accepts(w, step, id) && |after| == |before| + 1 && after[..|before|] == before && after[|before|].receivedAt == step.now)
  {
    hide Next, Good, Enabled;
    if id !in w.sessions {
      StartedEmpty(w, step, id);
    } else if !Judges(step, id) {
      OtherStepKeeps(w, step, id);
    } else if step.Poll? {
      PollOutputs(w, step);
    } else {
      ReceiveOutputs(w, step);
    }
  }

  lemma OtherStepKeeps(w: World, step: Step, id: string)
    requires Enabled(w, step) && id in w.sessions && !Judges(step, id)
    ensures id in Next(w, step).sessions && Next(w, step).sessions[id] == w.sessions[id]
  {
    hide StoreSession, Polled, Accepted, Exhausted, NewSession, Latest, PollPage, NewEvaluation, StoreEvaluation, Append;
  }

  lemma StartedEmpty(w: World, step: Step, id: string)
    requires Enabled(w, step) && id in Next(w, step).sessions && id !in w.sessions
    ensures Next(w, step).sessions[id].outputs == []
  {
    hide StoreSession, Polled, Accepted, Exhausted, NewSession, Latest, PollPage, NewEvaluation, StoreEvaluation, Append;
    NewSessionActive(step.id, step.run, step.requestedLimit, step.subscribed, step.now);
  }

  lemma PollOutputs(w: World, step: Step)
    requires Good(w) && step.Poll? && Enabled(w, step) && step.id in w.sessions
    ensures Next(w, step).sessions[step.id].outputs == w.sessions[step.id].outputs
  {
    hide StoreSession, Polled, Page, Latest, CaughtUp, Remembers;
    var s := w.sessions[step.id];
    assert GoodAt(w, step.id);
    PolledOutputs(s, PollPage(w, s), Latest(Rows(w.evaluations, step.order), s.id), step.summary, step.now);
  }

  lemma ReceiveOutputs(w: World, step: Step)
    requires Good(w) && step.Receive? && Enabled(w, step) && step.id in w.sessions
    ensures var before, after := w.sessions[step.id].outputs, Next(w, step).sessions[step.id].outputs;
      after == before || (Accepts(w, step, step.id) && exists e :: after == before + [e] && e.receivedAt == step.now)
  {
    hide StoreSession, Judge, Dedup, CaughtUp, Remembers, Redact, StoreEvaluation;
    var s := w.sessions[step.id];
    assert GoodAt(w, step.id);
    if s.iteration >= s.runtime.maximum {
      ExhaustedStored(s);
    } else {
      GeneratedIsStored(step.evaluationId);
      var e := NewEvaluation(s, step.request, step.violations, step.evaluationId, step.now);
      AcceptedStored(s, e, step.summary, step.now);
      RecordedStored(s, e);
      StoredTime(e);
    }
  }

  lemma StoredTime(e: Evaluation)
    ensures StoreEvaluation(e).receivedAt == e.receivedAt
  {
  }

  lemma PolledOutputs(s: Session, page: seq<Event>, latest: Option<Evaluation>, summary: Option<Summary>, now: int)
    requires StoreSession(s) == s
    ensures StoreSession(Polled(s, page, latest, summary, now)).outputs == s.outputs
  {
    hide StoreSession, Observe, Judge;
    ObserveFrame(s, page, now);
    var seen := Observe(s, page, now);
    var (strategy, checks) := Judge(seen, latest, summary);
    StoreSettle(seen, strategy, checks.reason, now);
  }

  /** Receipt times grow from one evaluation that the session accepts to the next. Nothing is said
      about other sessions, polls or submissions beyond the limit. */
  ghost predicate ClockAdvances(worlds: seq<World>, steps: seq<Step>, id: string)
    requires |steps| < |worlds|
  {
    forall i, j :: 0 <= i < j < |steps| && Accepts(worlds[i], steps[i], id) && Accepts(worlds[j], steps[j], id)
      ==> steps[i].now < steps[j].now
  }

  ghost predicate Ascending(outputs: seq<Evaluation>) {
    forall i, j :: 0 <= i < j < |outputs| ==> outputs[i].receivedAt < outputs[j].receivedAt
  }

  ghost predicate AcceptedBefore(time: int, worlds: seq<World>, steps: seq<Step>, i: int, id: string)
    requires |steps| < |worlds|
  {
    exists k :: 0 <= k < i && k < |steps| && Accepts(worlds[k], steps[k], id) && steps[k].now == time
  }

  /** Every kept evaluation was accepted by one of the first i steps. */
  ghost predicate AllAcceptedBefore(outputs: seq<Evaluation>, worlds: seq<World>, steps: seq<Step>, i: int, id: string)
    requires |steps| < |worlds|
  {
    forall k :: 0 <= k < |outputs| ==> AcceptedBefore(outputs[k].receivedAt, worlds, steps, i, id)
  }

  lemma AcceptedLater(outputs: seq<Evaluation>, worlds: seq<World>, steps: seq<Step>, i: int, id: string)
    requires |steps| < |worlds| && AllAcceptedBefore(outputs, worlds, steps, i, id)
    ensures AllAcceptedBefore(outputs, worlds, steps, i + 1, id)
  {
    hide Accepts;
    forall k | 0 <= k < |outputs| ensures AcceptedBefore(outputs[k].receivedAt, worlds, steps, i + 1, id) {
      assert AcceptedBefore(outputs[k].receivedAt, worlds, steps, i, id);
    }
  }

  /** An evaluation accepted by step i extends what the first i steps accepted, in order. */
  lemma AcceptedNow(before: seq<Evaluation>, e: Evaluation, worlds: seq<World>, steps: seq<Step>, i: nat, id: string)
    requires |steps| < |worlds| && ClockAdvances(worlds, steps, id)
    requires i < |steps| && Accepts(worlds[i], steps[i], id) && e.receivedAt == steps[i].now
    requires Ascending(before) && AllAcceptedBefore(before, worlds, steps, i, id)
    ensures Ascending(before + [e]) && AllAcceptedBefore(before + [e], worlds, steps, i + 1, id)
  {
    hide Accepts;
    forall k | 0 <= k < |before| ensures before[k].receivedAt < e.receivedAt {
      assert AcceptedBefore(before[k].receivedAt, worlds, steps, i, id);
    }
    AcceptedLater(before, worlds, steps, i, id);
    assert AcceptedBefore(e.receivedAt, worlds, steps, i + 1, id);
  }

  lemma {:induction false} OutputsAscend(worlds: seq<World>, steps: seq<Step>, i: nat, id: string)
    requires IsRun(worlds, steps) && Initial(worlds[0]) && ClockAdvances(worlds, steps, id)
    requires i < |worlds| && id in worlds[i].sessions
    ensures Ascending(worlds[i].sessions[id].outputs)
    ensures AllAcceptedBefore(worlds[i].sessions[id].outputs, worlds, steps, i, id)
    decreases i
  {
    hide Next, Good, Ascending, AllAcceptedBefore, ClockAdvances, Enabled, Accepts;
    if i > 0 {
      var w, step := worlds[i - 1], steps[i - 1];
      ReachableGood(worlds, steps, i - 1);
      OutputsNext(w, step, id);
      var after := worlds[i].sessions[id].outputs;
      var before := if id in w.sessions then w.sessions[id].outputs else [];
      if id in w.sessions {
        OutputsAscend(worlds, steps, i - 1, id);
      } else {
        NothingAccepted(worlds, steps, i - 1, id);
      }
      if after == before {
        AcceptedLater(before, worlds, steps, i - 1, id);
      } else {
        var e := after[|before|];
        assert after == before + [e];
        AcceptedNow(before, e, worlds, steps, i - 1, id);
      }
    }
  }

  lemma NothingAccepted(worlds: seq<World>, steps: seq<Step>, i: int, id: string)
    requires |steps| < |worlds|
    ensures Ascending([]) && AllAcceptedBefore([], worlds, steps, i, id)
  {
  }

  /** With a clock that advances between its evaluations, in every reachable state and for every
      directory order, the poll of a session judges the evaluation that the session names as its last one. */
  lemma PollsJudgeLastEvaluation(worlds: seq<World>, steps: seq<Step>, i: nat, id: string, order: seq<string>)
    requires IsRun(worlds, steps) && Initial(worlds[0]) && ClockAdvances(worlds, steps, id)
    requires i < |worlds| && id in worlds[i].sessions && Lists(order, worlds[i].evaluations)
    ensures var w, s := worlds[i], worlds[i].sessions[id];
      if s.lastEvaluation.None? then Latest(Rows(w.evaluations, order), id) == None
      else s.lastEvaluation.value in w.evaluations
           && Latest(Rows(w.evaluations, order), id) == Some(w.evaluations[s.lastEvaluation.value])
  {
    hide Next, StoreSession, CaughtUp, Latest;
    ReachableGood(worlds, steps, i);
    var w, s := worlds[i], worlds[i].sessions[id];
    assert GoodAt(w, id);
    if s.evaluations == [] {
      LatestStored(w.evaluations, order, id);
    } else {
      OutputsAscend(worlds, steps, i, id);
      ClockNamesLatest(s, id, w.logs[s.taskRunId], w.evaluations);
      NewestIsLatest(w.evaluations, order, id, s.lastEvaluation.value);
    }
  }

  // ---------------------------------------------------------------- authority

  /** The verdict completes a session exactly when the external evaluation is ready, the runtime's
      own result is safe to report, and neither an approval nor an end of the session is pending. */
  lemma CompletionVerdict(s: Session, evaluation: Option<Evaluation>, summary: Option<Summary>)
    ensures Judge(s, evaluation, summary).0 == Complete
       <==> && evaluation.Some? && evaluation.value.ready
            && summary.Some? && summary.value.resultSafe && summary.value.status != "WAITING_APPROVAL"
            && s.status != Cancelled && s.status != Expired
  {
  }

  /** The runtime says that success may be reported and waits for no approval. */
  predicate Consents(summary: Option<Summary>) {
    summary.Some? && summary.value.resultSafe && summary.value.status != "WAITING_APPROVAL"
  }

  /** The step delivers a verdict on this session. */
  predicate Judges(step: Step, id: string) {
    (step.Poll? || step.Receive?) && step.id == id
  }

  /** The step that grants completion: the evaluation it judges is ready and the runtime consents.
      A poll judges the newest evaluation in the listing, a submission the submitted one, unless
      the iterations are used up. */
  ghost predicate Grants(w: World, step: Step, id: string)
    requires Enabled(w, step)
  {
    && id in w.sessions && Judges(step, id) && Consents(step.summary)
    && (step.Receive? ==> w.sessions[id].iteration < w.sessions[id].runtime.maximum && step.request.ready)
    && (step.Poll? ==>
          var latest := Latest(Rows(w.evaluations, step.order), id);
          latest.Some? && latest.value.ready)
  }

  lemma LatestStored(evaluations: map<string, Evaluation>, order: seq<string>, id: string)
    requires Lists(order, evaluations)
    ensures Latest(Rows(evaluations, order), id).Some? ==>
      exists e :: e in evaluations && evaluations[e].sessionId == id && Some(evaluations[e]) == Latest(Rows(evaluations, order), id)
  {
    hide Filter, StableSort;
    var rows := Rows(evaluations, order);
    var own := Filter(rows, OfSession(id));
    hide Latest;
    LatestIsHead(rows, id);
    SortPermutes(own, NewestFirst());
    FilterMembers(rows, OfSession(id));
    RowsMembers(evaluations, order);
    var sorted := StableSort(own, NewestFirst());
    if sorted != [] {
      assert sorted[0] in sorted;
    }
  }

  /** After a poll the session is completed exactly when the newest evaluation is ready and the
      runtime consents. */
  lemma PollCompletesIff(w: World, step: Step)
    requires Good(w) && step.Poll? && Enabled(w, step) && step.id in w.sessions
    ensures Next(w, step).sessions[step.id].status == Completed <==> Grants(w, step, step.id)
  {
    hide StoreSession, Judge, Polled, Page, Latest, CaughtUp, Remembers;
    var s := w.sessions[step.id];
    assert GoodAt(w, step.id);
    var latest := Latest(Rows(w.evaluations, step.order), s.id);
    PolledFields(s, PollPage(w, s), latest, step.summary, step.now);
    CompletionVerdict(s, latest, step.summary);
  }

  /** After a submission the session is completed exactly when there was an iteration left, the
      evaluation is ready and the runtime consents. */
  lemma ReceiveCompletesIff(w: World, step: Step)
    requires Good(w) && step.Receive? && Enabled(w, step) && step.id in w.sessions
    ensures Next(w, step).sessions[step.id].status == Completed <==> Grants(w, step, step.id)
  {
    hide StoreSession, Judge, Dedup, CaughtUp, Remembers, StoreEvaluation;
    var s := w.sessions[step.id];
    assert GoodAt(w, step.id);
    if s.iteration >= s.runtime.maximum {
      ExhaustedStored(s);
    } else {
      var e := NewEvaluation(s, step.request, step.violations, step.evaluationId, step.now);
      AcceptedStored(s, e, step.summary, step.now);
      CompletionVerdict(Recorded(s, e), Some(e), step.summary);
    }
  }

  ghost predicate CompletedAt(w: World, id: string) {
    id in w.sessions && w.sessions[id].status == Completed
  }

  /** The exact law of one step: a verdict completes the session exactly when it is a grant, and
      every other step leaves completion as it was. */
  lemma CompletedStep(w: World, step: Step, id: string)
    requires Good(w) && Enabled(w, step)
    ensures CompletedAt(Next(w, step), id) <==>
      if Judges(step, id) then Grants(w, step, id) else CompletedAt(w, id)
  {
    hide StoreSession, Polled, Accepted, Exhausted, Latest, Dedup, Consents, Good;
    if step.Poll? && step.id == id && id in w.sessions {
      PollCompletesIff(w, step);
    } else if step.Receive? && step.id == id && id in w.sessions {
      ReceiveCompletesIff(w, step);
    } else if step.Start? && step.id == id {
      NewSessionActive(step.id, step.run, step.requestedLimit, step.subscribed, step.now);
    }
  }

  lemma NewSessionActive(id: string, run: string, limit: int, subscribed: seq<string>, now: int)
    ensures StoreSession(NewSession(id, run, limit, subscribed, now)).status == Active
    ensures StoreSession(NewSession(id, run, limit, subscribed, now)).outputs == []
  {
  }

  /** Step k granted completion and no verdict on the session came between k and j. */
  ghost predicate LastGrant(worlds: seq<World>, steps: seq<Step>, k: int, j: int, id: string)
    requires IsRun(worlds, steps) && j < |worlds|
  {
    0 <= k < j && Grants(worlds[k], steps[k], id) && forall m :: k < m < j ==> !Judges(steps[m], id)
  }

  /** In every reachable state a session is completed exactly when the last verdict on it was a grant. */
  lemma {:induction false} CompletedIffLastGrant(worlds: seq<World>, steps: seq<Step>, j: nat, id: string)
    requires IsRun(worlds, steps) && Initial(worlds[0]) && j < |worlds|
    ensures CompletedAt(worlds[j], id) <==> exists k :: LastGrant(worlds, steps, k, j, id)
    decreases j
  {
    hide Next, Good, Grants, Judges, Enabled;
    if j > 0 {
      ReachableGood(worlds, steps, j - 1);
      CompletedStep(worlds[j - 1], steps[j - 1], id);
      CompletedIffLastGrant(worlds, steps, j - 1, id);
      if Judges(steps[j - 1], id) {
        if Grants(worlds[j - 1], steps[j - 1], id) {
          assert LastGrant(worlds, steps, j - 1, j, id);
        }
      } else {
        GrantsJudge(worlds, steps, j);
        if CompletedAt(worlds[j - 1], id) {
          var k :| LastGrant(worlds, steps, k, j - 1, id);
          assert LastGrant(worlds, steps, k, j, id);
        }
        if k :| LastGrant(worlds, steps, k, j, id) {
          assert LastGrant(worlds, steps, k, j - 1, id);
        }
      }
    }
  }

  lemma GrantsJudge(worlds: seq<World>, steps: seq<Step>, j: nat)
    requires IsRun(worlds, steps) && j < |worlds|
    ensures forall k, id :: 0 <= k < j && Grants(worlds[k], steps[k], id) ==> Judges(steps[k], id)
  {
    hide Next;
  }

  /** Whenever a session is completed in a reachable state, an earlier step of that run granted it,
      and from that step on it has stayed completed. */
  lemma {:induction false} CompletionWasGranted(worlds: seq<World>, steps: seq<Step>, j: nat, id: string) returns (k: nat)
    requires IsRun(worlds, steps) && Initial(worlds[0]) && j < |worlds| && CompletedAt(worlds[j], id)
    ensures k < j && Grants(worlds[k], steps[k], id)
    ensures forall m :: k < m <= j ==> CompletedAt(worlds[m], id)
    decreases j
  {
    hide Next, Good, Grants, Judges, Enabled;
    assert j > 0;
    ReachableGood(worlds, steps, j - 1);
    CompletedStep(worlds[j - 1], steps[j - 1], id);
    if Judges(steps[j - 1], id) {
      k := j - 1;
    } else {
      k := CompletionWasGranted(worlds, steps, j - 1, id);
    }
  }

  /** Without the runtime's consent no sequence of evaluations and polls completes a session. */
  lemma NoCompletionWithoutRuntime(worlds: seq<World>, steps: seq<Step>, j: nat, id: string)
    requires IsRun(worlds, steps) && Initial(worlds[0]) && j < |worlds|
    requires forall k :: 0 <= k < |steps| && (steps[k].Poll? || steps[k].Receive?) && steps[k].summary.Some?
               ==> !steps[k].summary.value.resultSafe
    ensures !CompletedAt(worlds[j], id)
  {
    hide Next;
    if CompletedAt(worlds[j], id) {
      var k := CompletionWasGranted(worlds, steps, j, id);
    }
  }

  /** From every initial state with a known run, a session on that run can be completed. */
  lemma CompletionReachable(w: World, start: Step, receive: Step) returns (worlds: seq<World>)
    requires Initial(w) && start.Start? && Enabled(w, start) && start.run in w.logs
    requires receive.Receive? && receive.id == start.id && Generated(receive.evaluationId)
    requires receive.request.ready && Consents(receive.summary)
    ensures IsRun(worlds, [start, receive]) && worlds[0] == w && CompletedAt(worlds[2], start.id)
  {
    hide Next, Good, Consents;
    var v := Next(w, start);
    worlds := [w, v];
    ReachableGood(worlds, [start], 1);
    StartOpens(w, start);
    worlds := [w, v, Next(v, receive)];
    CompletedStep(v, receive, receive.id);
  }

  lemma StartOpens(w: World, step: Step)
    requires step.Start? && Enabled(w, step) && step.run in w.logs
    ensures var v := Next(w, step);
      && step.id in v.sessions && v.evaluations == w.evaluations
      && v.sessions[step.id].status == Active && v.sessions[step.id].iteration == 0
      && v.sessions[step.id].runtime.maximum == IterationLimit(step.requestedLimit)
  {
    hide StoreSession, NewSession;
    NewSessionActive(step.id, step.run, step.requestedLimit, step.subscribed, step.now);
    NewSessionCounters(step.id, step.run, step.requestedLimit, step.subscribed, step.now);
  }

  lemma NewSessionCounters(id: string, run: string, limit: int, subscribed: seq<string>, now: int)
    ensures var s := StoreSession(NewSession(id, run, limit, subscribed, now));
      s.iteration == 0 && s.runtime.maximum == IterationLimit(limit)
  {
  }
}
