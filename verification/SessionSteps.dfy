/** What each step of a collaboration session does to it, field by field. */
module SessionSteps {
  import opened JsonValues
  import opened Sequences
  import opened Redaction
  import opened EventLogs
  import opened Sessions
  import opened SessionInvariants
  import opened SessionTheorems

  // ---------------------------------------------------------------- the rules of a verdict

  predicate AwaitsApproval(summary: Option<Summary>) {
    summary.Some? && summary.value.status == "WAITING_APPROVAL"
  }

  predicate SafeResult(summary: Option<Summary>) {
    summary.Some? && summary.value.resultSafe
  }

  predicate RunInTrouble(summary: Option<Summary>) {
    summary.Some? && (summary.value.status == "FAILED" || summary.value.status == "WAITING_USER")
  }

  /** What an evaluation says: success, a human, or another attempt. */
  datatype Opinion = Opinion(ready: bool, human: bool, retry: bool)

  function OpinionOf(e: Evaluation): Opinion {
    Opinion(e.ready, e.needsHuman, e.needsRetry || e.findings != [])
  }

  function Submitted(step: Step): Opinion
    requires step.Receive?
  {
    var q := step.request;
    Opinion(q.ready, q.needsHuman, q.needsRetry || q.findings != [] || step.violations != [])
  }

  predicate Granted(o: Option<Opinion>, summary: Option<Summary>) {
    o.Some? && o.value.ready && SafeResult(summary)
  }

  predicate AnotherTry(o: Option<Opinion>, summary: Option<Summary>) {
    o.Some? && (o.value.retry || RunInTrouble(summary))
  }

  /** The status that an opinion and the run's summary call for; `used` says that no iteration is left. */
  ghost predicate StatusRule(status: Status, o: Option<Opinion>, summary: Option<Summary>, used: bool) {
    && (status == WaitingApproval <==> AwaitsApproval(summary))
    && (status == Completed <==> !AwaitsApproval(summary) && Granted(o, summary))
    && (status == NeedsHuman <==>
          && !AwaitsApproval(summary) && o.Some? && !Granted(o, summary)
          && (o.value.human || (AnotherTry(o, summary) && used)))
    && (status == RetryRecommended <==>
          && !AwaitsApproval(summary) && o.Some? && !Granted(o, summary)
          && !o.value.human && AnotherTry(o, summary) && !used)
    && (status == Active <==>
          && !AwaitsApproval(summary) && !Granted(o, summary)
          && (o.None? || (!o.value.human && !AnotherTry(o, summary))))
  }

  /** The reason that goes with each status. */
  ghost predicate ReasonRule(status: Status, reason: Reason, o: Option<Opinion>) {
    && (status == WaitingApproval ==> reason == ApprovalPending)
    && (status == Completed ==> reason == ReadyAndValidated)
    && (status == NeedsHuman && o.Some? ==> reason == if o.value.human then HumanRequested else IterationsExhausted)
    && (status == RetryRecommended ==> reason == RetryAdvised)
    && (status == Active ==> reason == if o.None? then WaitingForEvaluation else EvaluationReceived)
  }

  /** The strategy that goes with each status. */
  ghost predicate StrategyRule(status: Status, strategy: Strategy) {
    && (status == Active <==> strategy == Continue)
    && (status == RetryRecommended <==> strategy == Retry)
    && (status == NeedsHuman <==> strategy == AskHuman)
    && (status == WaitingApproval <==> strategy == AskApproval)
    && (status == Completed <==> strategy == Complete)
  }

  /** A verdict that follows the rules and is mirrored in the retry state and the counters. */
  ghost predicate Ruled(t: Session, o: Option<Opinion>, summary: Option<Summary>) {
    && StatusRule(t.status, o, summary, t.iteration >= t.runtime.maximum)
    && StrategyRule(t.status, t.retryState.strategy)
    && ReasonRule(t.status, t.retryState.reason, o)
    && t.retryState.current == t.iteration == t.runtime.current
    && t.retryState.maximum == t.runtime.maximum && t.retryState.retries == t.retryCount
  }

  /** What a verdict reports about its evidence. */
  ghost predicate Evidence(checks: Checks, o: Option<Opinion>, summary: Option<Summary>) {
    && checks.ready == (o.Some? && o.value.ready)
    && checks.truthful == SafeResult(summary)
    && checks.validated == (summary.Some? && (summary.value.resultSafe || summary.value.validationSafe))
    && checks.runStatus == (if summary.None? then "" else summary.value.status)
  }

  function Said(e: Option<Evaluation>): Option<Opinion> {
    if e.None? then None else Some(OpinionOf(e.value))
  }

  /** The decision on an open session follows the rules. */
  lemma JudgeRuled(s: Session, e: Option<Evaluation>, summary: Option<Summary>)
    requires s.status != Cancelled && s.status != Expired
    ensures var (strategy, checks) := Judge(s, e, summary);
      && StatusRule(StatusOf(strategy), Said(e), summary, s.iteration >= s.runtime.maximum)
      && StrategyRule(StatusOf(strategy), strategy)
      && ReasonRule(StatusOf(strategy), checks.reason, Said(e))
      && Evidence(checks, Said(e), summary)
  {
  }

  // ---------------------------------------------------------------- polls

  /** A poll changes the verdict, the time, and what the session has read; a note of what was read is
      added exactly when something was observed. */
  ghost predicate PolledFrom(s: Session, t: Session, now: int) {
    && t == s.(status := t.status, retryState := t.retryState, runtime := t.runtime, lastActivity := now,
               cursor := t.cursor, observed := t.observed, history := t.history)
    && t.runtime.maximum == s.runtime.maximum && s.observed <= t.observed
    && t.history == (if t.observed == s.observed then s.history
                     else s.history + [Observed(|t.observed| - |s.observed|, t.cursor, now)])
  }

  lemma ObserveRecords(s: Session, page: seq<Event>, now: int)
    requires StoreSession(s) == s
    ensures var t := StoreSession(Observe(s, page, now));
      && t == s.(cursor := t.cursor, observed := t.observed, history := t.history)
      && s.observed <= t.observed
      && t.history == (if t.observed == s.observed then s.history
                       else s.history + [Observed(|t.observed| - |s.observed|, t.cursor, now)])
  {
    hide Sanitize, Redact, Relevant, Dump, StoreEvaluation, StoreSession;
    ObserveFrame(s, page, now);
    var relevant := Relevant(s.subscribed, page);
    StoreParts(s);
    StoreParts(Observe(s, page, now));
    SanitizeAppended(s.observed, relevant);
    if relevant != [] {
      NoteAppended(s.history, Observed(|relevant|, Observe(s, page, now).cursor, now));
    }
  }

  lemma StoreParts(s: Session)
    ensures var t := StoreSession(s);
      && t.observed == Map(s.observed, (v: Value) => Sanitize(v)) && t.history == Map(s.history, StoreNote)
      && t.cursor == s.cursor && t.outputs == Map(s.outputs, StoreEvaluation) && t.evaluations == Map(s.evaluations, Redact)
  {
  }

  lemma NoteAppended(history: seq<Note>, note: Note)
    requires Map(history, StoreNote) == history
    ensures Map(history + [note], StoreNote) == history + [StoreNote(note)]
  {
    var l, r := Map(history + [note], StoreNote), history + [StoreNote(note)];
    forall i | 0 <= i < |l| ensures l[i] == r[i] {
      if i < |history| {
        assert Map(history, StoreNote)[i] == history[i];
      }
    }
  }

  lemma PolledRuled(s: Session, page: seq<Event>, latest: Option<Evaluation>, summary: Option<Summary>, now: int)
    requires StoreSession(s) == s && s.status != Cancelled && s.status != Expired
    ensures var t := StoreSession(Polled(s, page, latest, summary, now));
      Ruled(t, Said(latest), summary) && PolledFrom(s, t, now)
  {
    hide StoreSession, Observe, Judge, StatusRule, ReasonRule, StrategyRule, Evidence;
    ObserveFrame(s, page, now);
    ObserveRecords(s, page, now);
    var seen := Observe(s, page, now);
    var (strategy, checks) := Judge(seen, latest, summary);
    StoreSettle(seen, strategy, checks.reason, now);
    JudgeRuled(seen, latest, summary);
  }

  /** After a poll: status, reason and strategy follow the rules for the newest evaluation in the
      listing, retries are not counted, and only this session changes. */
  lemma PollStep(w: World, step: Step)
    requires Good(w) && step.Poll? && Enabled(w, step) && step.id in w.sessions
    ensures var v, s := Next(w, step), w.sessions[step.id];
      && step.id in v.sessions && v == w.(sessions := w.sessions[step.id := v.sessions[step.id]])
      && Ruled(v.sessions[step.id], Said(Latest(Rows(w.evaluations, step.order), step.id)), step.summary)
      && PolledFrom(s, v.sessions[step.id], step.now)
  {
    hide StoreSession, Polled, Page, Latest, CaughtUp, Remembers, Ruled, PolledFrom, Said;
    var s := w.sessions[step.id];
    assert GoodAt(w, step.id);
    PolledRuled(s, PollPage(w, s), Latest(Rows(w.evaluations, step.order), s.id), step.summary, step.now);
  }

  // ---------------------------------------------------------------- submissions

  /** An evaluation as the store keeps it. */
  ghost predicate KeptAs(e: Evaluation, s: Session, step: Step)
    requires step.Receive?
  {
    var run := if step.request.taskRunId.Some? && step.request.taskRunId.value != "" then step.request.taskRunId.value else s.taskRunId;
    && e.id == step.evaluationId && e.sessionId == step.id && e.taskRunId == Redact(run) && e.receivedAt == step.now
    && e.findings == Map(Dedup(step.request.findings + step.violations), Redact)
    && e.recommendations == Map(step.request.recommendations, Redact)
    && e.ready == step.request.ready && e.needsHuman == step.request.needsHuman
    && e.needsRetry == (step.request.needsRetry || step.violations != [])
  }

  /** An accepted submission counts one iteration and one retry exactly when it ends in a recommended
      retry, and is remembered under its identifier. */
  ghost predicate AcceptedFrom(s: Session, t: Session, e: Evaluation, now: int) {
    && t == s.(status := t.status, retryState := t.retryState, runtime := t.runtime, lastActivity := now,
               iteration := s.iteration + 1, retryCount := t.retryCount, lastEvaluation := Some(e.id),
               outputs := s.outputs + [e], evaluations := s.evaluations + [e.id],
               history := s.history + [Evaluated(e.id, s.iteration + 1, now)])
    && t.runtime.maximum == s.runtime.maximum
    && t.retryCount == s.retryCount + (if t.status == RetryRecommended then 1 else 0)
  }

  lemma SameOpinion(s: Session, step: Step)
    requires step.Receive?
    ensures OpinionOf(NewEvaluation(s, step.request, step.violations, step.evaluationId, step.now)) == Submitted(step)
  {
    var all := step.request.findings + step.violations;
    assert all != [] ==> all[0] in Dedup(all);
  }

  lemma RecordedParts(s: Session, e: Evaluation)
    requires StoreSession(s) == s && Redact(e.id) == e.id
    ensures var t := StoreSession(Recorded(s, e));
      t == s.(iteration := s.iteration + 1, runtime := s.runtime.(current := s.iteration + 1), lastEvaluation := Some(e.id),
              outputs := s.outputs + [StoreEvaluation(e)], evaluations := s.evaluations + [e.id],
              history := s.history + [Evaluated(e.id, s.iteration + 1, e.receivedAt)])
  {
    hide Redact, StoreEvaluation, StoreSession;
    RecordedStored(s, e);
    StoreParts(s);
    StoreParts(Recorded(s, e));
    NoteAppended(s.history, Evaluated(e.id, s.iteration + 1, e.receivedAt));
  }

  lemma AcceptedRuled(s: Session, e: Evaluation, summary: Option<Summary>, now: int)
    requires StoreSession(s) == s && Redact(e.id) == e.id && s.status != Cancelled && s.status != Expired
    requires e.receivedAt == now
    ensures var t := StoreSession(Accepted(s, e, summary, now));
      Ruled(t, Some(OpinionOf(e)), summary) && AcceptedFrom(s, t, StoreEvaluation(e).(id := e.id), now)
  {
    hide StoreSession, Judge, StatusRule, ReasonRule, Evidence, Redact, OpinionOf;
    RecordedParts(s, e);
    AcceptedStored(s, e, summary, now);
    JudgeRuled(Recorded(s, e), Some(e), summary);
    StoredId(e);
  }

  lemma StoredId(e: Evaluation)
    requires Redact(e.id) == e.id
    ensures StoreEvaluation(e).id == e.id
  {
  }

  lemma SubmissionKept(s: Session, step: Step)
    requires step.Receive? && s.id == step.id && Redact(step.id) == step.id && Redact(step.evaluationId) == step.evaluationId
    ensures KeptAs(StoreEvaluation(NewEvaluation(s, step.request, step.violations, step.evaluationId, step.now)), s, step)
  {
    hide Redact, Dedup;
  }

  /** After a submission with an iteration left: status, reason and strategy follow the rules for the
      submitted evaluation, the counters move by one, the evaluation is stored, and only this
      session changes. */
  lemma ReceiveStep(w: World, step: Step)
    requires Good(w) && step.Receive? && Enabled(w, step) && step.id in w.sessions
    requires w.sessions[step.id].iteration < w.sessions[step.id].runtime.maximum
    ensures var v, s := Next(w, step), w.sessions[step.id];
      && step.id in v.sessions && step.evaluationId in v.evaluations
      && var t, e := v.sessions[step.id], v.evaluations[step.evaluationId];
         && v == w.(sessions := w.sessions[step.id := t], evaluations := w.evaluations[step.evaluationId := e])
         && KeptAs(e, s, step) && AcceptedFrom(s, t, e, step.now) && Ruled(t, Some(Submitted(step)), step.summary)
  {
    hide StoreSession, Accepted, NewEvaluation, StoreEvaluation, CaughtUp, Remembers, Redact, Ruled, AcceptedFrom, Submitted, OpinionOf;
    var s := w.sessions[step.id];
    assert GoodAt(w, step.id);
    GeneratedIsStored(step.id);
    GeneratedIsStored(step.evaluationId);
    var e := NewEvaluation(s, step.request, step.violations, step.evaluationId, step.now);
    NewParts(s, step);
    SubmissionKept(s, step);
    SameOpinion(s, step);
    AcceptedRuled(s, e, step.summary, step.now);
    StoredId(e);
  }

  lemma NewParts(s: Session, step: Step)
    requires step.Receive?
    ensures var e := NewEvaluation(s, step.request, step.violations, step.evaluationId, step.now);
      e.id == step.evaluationId && e.receivedAt == step.now
  {
  }

  /** A submission beyond the limit stores nothing and only asks for a human. */
  lemma LimitStep(w: World, step: Step)
    requires Good(w) && step.Receive? && Enabled(w, step) && step.id in w.sessions
    requires w.sessions[step.id].iteration >= w.sessions[step.id].runtime.maximum
    ensures var s := w.sessions[step.id];
      Next(w, step) == w.(sessions := w.sessions[step.id := s.(
        status := NeedsHuman, reason := Some(IterationsExhausted),
        retryState := RetryState(s.iteration, s.runtime.maximum, s.retryCount, IterationsExhausted, AskHuman))])
  {
    hide StoreSession, CaughtUp;
    assert GoodAt(w, step.id);
    ExhaustedStored(w.sessions[step.id]);
  }

  // ---------------------------------------------------------------- the start

  /** The twelve kinds of events that a session follows unless it is told otherwise. */
  ghost predicate StandardKinds(types: seq<string>) {
    types == ["run_created", "run_queued", "run_waiting_input", "approval_required", "approval_preview_created",
              "patch_applied", "validation_completed", "artifact_created", "run_completed", "run_failed",
              "run_blocked", "run_cancelled"]
  }

  /** A new session: the requested limit where it lies in 1..25, three for zero, otherwise the nearest
      bound; the given subscriptions, or the default ones when none are given; everything else empty. */
  lemma StartStep(w: World, step: Step)
    requires step.Start? && Enabled(w, step) && step.run in w.logs
    ensures var v := Next(w, step);
      && step.id in v.sessions && v == w.(sessions := w.sessions[step.id := v.sessions[step.id]])
      && var t := v.sessions[step.id];
         && t.id == step.id && t.taskRunId == step.run && t.status == Active && t.lastActivity == step.now
         && t.iteration == t.retryCount == t.runtime.current == t.cursor == 0
         && t.retryState == RetryState(0, t.runtime.maximum, 0, SessionStarted, Continue)
         && t.lastEvaluation.None? && t.reason.None? && t.observed == [] && t.outputs == [] && t.evaluations == []
         && t.history == [Opened(step.run, step.now)]
         && (1 <= step.requestedLimit <= 25 ==> t.runtime.maximum == step.requestedLimit)
         && (step.requestedLimit == 0 ==> t.runtime.maximum == 3)
         && (step.requestedLimit < 0 ==> t.runtime.maximum == 1)
         && (step.requestedLimit > 25 ==> t.runtime.maximum == 25)
         && (step.subscribed != [] ==> t.subscribed == Map(step.subscribed, Redact))
         && (step.subscribed == [] ==> StandardKinds(t.subscribed))
  {
    hide Redact;
    GeneratedIsStored(step.id);
    GeneratedIsStored(step.run);
    DefaultsStored();
  }

  lemma DefaultsStored()
    ensures Map(DefaultSubscriptions(), Redact) == DefaultSubscriptions()
  {
    hide Redact, DefaultSubscriptions;
    var types := DefaultSubscriptions();
    forall i | 0 <= i < |types| ensures Redact(types[i]) == types[i] {
      if i < 6 {
        FirstDefaultsGenerated(i);
      } else {
        LastDefaultsGenerated(i);
      }
      GeneratedIsStored(types[i]);
    }
  }

  lemma FirstDefaultsGenerated(i: nat)
    requires i < |DefaultSubscriptions()| && i < 6
    ensures Generated(DefaultSubscriptions()[i])
  {
  }

  lemma LastDefaultsGenerated(i: nat)
    requires 6 <= i < |DefaultSubscriptions()|
    ensures Generated(DefaultSubscriptions()[i])
  {
  }

  // ---------------------------------------------------------------- what is stored is clean

  ghost predicate CleanText(s: string) {
    |s| <= MAX_TEXT && !HoldsSecret(s)
  }

  ghost predicate CleanTexts(s: seq<string>) {
    forall i :: 0 <= i < |s| ==> CleanText(s[i])
  }

  ghost predicate CleanEvaluation(e: Evaluation) {
    CleanText(e.id) && CleanText(e.sessionId) && CleanText(e.taskRunId) && CleanTexts(e.findings) && CleanTexts(e.recommendations)
  }

  ghost predicate CleanNote(n: Note) {
    (n.Opened? ==> CleanText(n.taskRunId)) && (n.Evaluated? ==> CleanText(n.evaluationId))
  }

  /** No text anywhere in the session holds a secret or is too long. */
  ghost predicate CleanSession(s: Session) {
    && CleanText(s.id) && CleanText(s.taskRunId) && (s.lastEvaluation.Some? ==> CleanText(s.lastEvaluation.value))
    && CleanTexts(s.subscribed) && CleanTexts(s.evaluations)
    && (forall i :: 0 <= i < |s.observed| ==> Clean(s.observed[i]))
    && (forall i :: 0 <= i < |s.history| ==> CleanNote(s.history[i]))
    && (forall i :: 0 <= i < |s.outputs| ==> CleanEvaluation(s.outputs[i]))
  }

  lemma RedactedClean(s: string)
    ensures CleanText(Redact(s))
  {
    RedactRemovesSecrets(s);
  }

  lemma RedactedAllClean(s: seq<string>)
    ensures CleanTexts(Map(s, Redact))
  {
    hide Redact, CleanText;
    forall i | 0 <= i < |s| ensures CleanText(Map(s, Redact)[i]) {
      RedactedClean(s[i]);
    }
  }

  lemma StoredEvaluationClean(e: Evaluation)
    ensures CleanEvaluation(StoreEvaluation(e))
  {
    hide Redact, CleanText, CleanTexts;
    RedactedClean(e.id);
    RedactedClean(e.sessionId);
    RedactedClean(e.taskRunId);
    RedactedAllClean(e.findings);
    RedactedAllClean(e.recommendations);
  }

  lemma StoredNoteClean(n: Note)
    ensures CleanNote(StoreNote(n))
  {
    hide Redact, CleanText;
    match n
    case Opened(run, _) => RedactedClean(run);
    case Observed(_, _, _) =>
    case Evaluated(id, _, _) => RedactedClean(id);
  }

  lemma StoredSessionClean(s: Session)
    ensures CleanSession(StoreSession(s))
  {
    hide Redact, CleanText, CleanTexts, Sanitize, Clean, StoreNote, CleanNote, StoreEvaluation, CleanEvaluation;
    RedactedClean(s.id);
    RedactedClean(s.taskRunId);
    if s.lastEvaluation.Some? {
      RedactedClean(s.lastEvaluation.value);
    }
    RedactedAllClean(s.subscribed);
    RedactedAllClean(s.evaluations);
    forall i | 0 <= i < |s.observed| ensures Clean(StoreSession(s).observed[i]) {
      SanitizeCleans(s.observed[i], "");
    }
    forall i | 0 <= i < |s.history| ensures CleanNote(StoreSession(s).history[i]) {
      StoredNoteClean(s.history[i]);
    }
    forall i | 0 <= i < |s.outputs| ensures CleanEvaluation(StoreSession(s).outputs[i]) {
      StoredEvaluationClean(s.outputs[i]);
    }
  }

  /** In every reachable state no record of the store holds a secret, whatever was submitted or
      logged before. */
  lemma NothingSecretStored(worlds: seq<World>, steps: seq<Step>, i: nat)
    requires IsRun(worlds, steps) && Initial(worlds[0]) && i < |worlds|
    ensures forall id :: id in worlds[i].sessions ==> CleanSession(worlds[i].sessions[id])
    ensures forall e :: e in worlds[i].evaluations ==> CleanEvaluation(worlds[i].evaluations[e])
  {
    hide Next, Good, CleanSession, CleanEvaluation;
    ReachableGood(worlds, steps, i);
    forall id | id in worlds[i].sessions ensures CleanSession(worlds[i].sessions[id]) {
      GoodSessionClean(worlds[i], id);
    }
    forall e | e in worlds[i].evaluations ensures CleanEvaluation(worlds[i].evaluations[e]) {
      GoodEvaluationClean(worlds[i], e);
    }
  }

  lemma GoodSessionClean(w: World, id: string)
    requires Good(w) && id in w.sessions
    ensures CleanSession(w.sessions[id])
  {
    hide StoreSession, CleanSession;
    assert GoodAt(w, id);
    StoredSessionClean(w.sessions[id]);
  }

  lemma GoodEvaluationClean(w: World, e: string)
    requires Good(w) && e in w.evaluations
    ensures CleanEvaluation(w.evaluations[e])
  {
    hide StoreSession, CaughtUp, CleanText, CleanTexts, CleanEvaluation;
    var id := w.evaluations[e].sessionId;
    assert GoodAt(w, id);
    var s := w.sessions[id];
    var i :| 0 <= i < |s.evaluations| && s.evaluations[i] == e;
    GoodSessionClean(w, id);
    assert CleanEvaluation(s.outputs[i]);
  }
}
