/** What every reachable state of the collaboration runtime satisfies. */
module SessionInvariants {
  import opened JsonValues
  import opened Sequences
  import opened Redaction
  import opened EventLogs
  import opened Sessions

  // ---------------------------------------------------------------- storing twice

  lemma StoreNoteIdempotent(n: Note)
    ensures StoreNote(StoreNote(n)) == StoreNote(n)
  {
    match n
    case Opened(run, _) => RedactIdempotent(run);
    case Observed(_, _, _) =>
    case Evaluated(id, _, _) => RedactIdempotent(id);
  }

  lemma RedactAllIdempotent(s: seq<string>)
    ensures Map(Map(s, Redact), Redact) == Map(s, Redact)
  {
    forall i | 0 <= i < |s| {
      RedactIdempotent(s[i]);
    }
  }

  lemma StoreEvaluationIdempotent(e: Evaluation)
    ensures StoreEvaluation(StoreEvaluation(e)) == StoreEvaluation(e)
  {
    RedactIdempotent(e.id);
    RedactIdempotent(e.sessionId);
    RedactIdempotent(e.taskRunId);
    RedactAllIdempotent(e.findings);
    RedactAllIdempotent(e.recommendations);
  }

  /** A stored session is written back unchanged. */
  lemma StoreSessionIdempotent(s: Session)
    ensures StoreSession(StoreSession(s)) == StoreSession(s)
  {
    RedactIdempotent(s.id);
    RedactIdempotent(s.taskRunId);
    if s.lastEvaluation.Some? {
      RedactIdempotent(s.lastEvaluation.value);
    }
    RedactAllIdempotent(s.subscribed);
    RedactAllIdempotent(s.evaluations);
    forall i | 0 <= i < |s.observed| ensures Sanitize(Sanitize(s.observed[i])) == Sanitize(s.observed[i]) {
      SanitizeIdempotent(s.observed[i], "");
    }
    forall i | 0 <= i < |s.history| {
      StoreNoteIdempotent(s.history[i]);
    }
    forall i | 0 <= i < |s.outputs| {
      StoreEvaluationIdempotent(s.outputs[i]);
    }
    var t := StoreSession(s);
    var u := StoreSession(t);
    assert u.observed == t.observed && u.history == t.history && u.outputs == t.outputs;
  }

  lemma GeneratedIsStored(id: string)
    requires Generated(id)
    ensures Redact(id) == id
  {
    RedactKeepsIdentifier(id);
  }

  // ---------------------------------------------------------------- the invariant

  /** The counters of a session agree with each other and with the limit; its status mirrors the last
      strategy, and a recommended retry always leaves room for another evaluation. */
  ghost predicate Counters(s: Session) {
    && 1 <= s.runtime.maximum <= 25
    && s.iteration <= s.runtime.maximum
    && s.retryCount <= s.iteration && s.retryCount <= s.runtime.maximum - 1
    && s.runtime.current == s.iteration
    && s.retryState.current == s.iteration
    && s.retryState.maximum == s.runtime.maximum
    && s.retryState.retries == s.retryCount
    && |s.evaluations| == s.iteration
    && s.status == StatusOf(s.retryState.strategy)
    && (s.retryState.strategy == Retry ==> s.iteration < s.runtime.maximum)
    && (s.retryState.reason == IterationsExhausted ==> s.iteration == s.runtime.maximum)
  }

  /** The remembered evaluation ids are exactly those stored for the session, each once; next to
      them the session keeps the stored evaluations themselves. */
  ghost predicate Remembers(sessionId: string, ids: seq<string>, outputs: seq<Evaluation>, evaluations: map<string, Evaluation>) {
    && |ids| == |outputs| && Distinct(ids)
    && (forall e :: e in evaluations && evaluations[e].sessionId == sessionId ==> e in ids)
    && (forall i :: 0 <= i < |ids| ==>
         ids[i] in evaluations && evaluations[ids[i]].sessionId == sessionId && outputs[i] == evaluations[ids[i]])
  }

  ghost predicate NamesLast(last: Option<string>, ids: seq<string>) {
    last == if ids == [] then None else Some(ids[|ids| - 1])
  }

  /** The session has observed the subscribed part of the log up to its cursor. */
  ghost predicate CaughtUp(s: Session, log: seq<Event>) {
    && s.subscribed != []
    && s.cursor <= MaxSequence(log)
    && s.observed == ObservedUpTo(s.subscribed, log, s.cursor)
  }

  /** Sessions are kept in their stored form, under their own generated identifier, and none of
      the steps cancels or expires one. */
  ghost predicate WellKept(s: Session, id: string) {
    s.id == id && Generated(id) && StoreSession(s) == s && s.status != Cancelled && s.status != Expired
  }

  ghost predicate GoodSession(s: Session, id: string, log: seq<Event>, evaluations: map<string, Evaluation>) {
    && WellKept(s, id)
    && Counters(s)
    && NamesLast(s.lastEvaluation, s.evaluations)
    && Remembers(id, s.evaluations, s.outputs, evaluations)
    && CaughtUp(s, log)
  }

  ghost predicate GoodAt(w: World, id: string) {
    && id in w.sessions && w.sessions[id].taskRunId in w.logs
    && GoodSession(w.sessions[id], id, w.logs[w.sessions[id].taskRunId], w.evaluations)
  }

  ghost predicate Good(w: World) {
    && (forall run :: run in w.logs ==> Increasing(w.logs[run]))
    && (forall e :: e in w.evaluations ==> w.evaluations[e].id == e)
    && (forall e :: e in w.evaluations ==> w.evaluations[e].sessionId in w.sessions)
    && (forall id :: id in w.sessions ==> GoodAt(w, id))
  }

  // ---------------------------------------------------------------- every step keeps it

  lemma NewSessionGood(id: string, run: string, limit: int, subscribed: seq<string>, now: int, log: seq<Event>,
                       evaluations: map<string, Evaluation>)
    requires Generated(id) && Generated(run) && Increasing(log)
    requires forall e :: e in evaluations ==> evaluations[e].sessionId != id
    ensures var t := StoreSession(NewSession(id, run, limit, subscribed, now));
      t.taskRunId == run && GoodSession(t, id, log, evaluations)
  {
    var s := NewSession(id, run, limit, subscribed, now);
    var t := StoreSession(s);
    GeneratedIsStored(id);
    GeneratedIsStored(run);
    StoreSessionIdempotent(s);
    FilterNone(log, SubscribedUpTo(t.subscribed, 0));
    assert t.observed == ObservedUpTo(t.subscribed, log, 0);
  }

  lemma StoreSettle(s: Session, strategy: Strategy, reason: Reason, now: int)
    ensures StoreSession(Settle(s, strategy, reason, now)) == Settle(StoreSession(s), strategy, reason, now)
  {
  }

  lemma SanitizeAppended(observed: seq<Value>, added: seq<Event>)
    requires Map(observed, (v: Value) => Sanitize(v)) == observed
    ensures Map(observed + Map(added, Dump), (v: Value) => Sanitize(v)) == observed + Map(added, StoredEvent)
  {
    var clean := (v: Value) => Sanitize(v);
    var l, r := Map(observed + Map(added, Dump), clean), observed + Map(added, StoredEvent);
    forall i | 0 <= i < |l| ensures l[i] == r[i] {
      if i < |observed| {
        assert Map(observed, clean)[i] == observed[i];
      }
    }
  }

  lemma StoredObserve(s: Session, log: seq<Event>, now: int)
    requires Increasing(log) && CaughtUp(s, log) && StoreSession(s) == s
    ensures CaughtUp(StoreSession(Observe(s, Page(log, s.cursor, POLL_LIMIT), now)), log)
  {
    hide Filter, Page, ObservedUpTo, StoredEvent, Dump, Sanitize, Redact, Relevant;
    var page := Page(log, s.cursor, POLL_LIMIT);
    var u := StoreSession(Observe(s, page, now));
    assert u.subscribed == s.subscribed;
    var relevant := Relevant(s.subscribed, page);
    SanitizeAppended(s.observed, relevant);
    if page != [] {
      PageObserves(s.subscribed, log, s.cursor, POLL_LIMIT);
      assert relevant == [] ==> s.observed + Map(relevant, StoredEvent) == s.observed;
    } else {
      NothingRelevant(s.subscribed);
    }
  }

  lemma NothingRelevant(types: seq<string>)
    ensures Relevant(types, []) == []
  {
  }

  lemma ObserveFrame(s: Session, page: seq<Event>, now: int)
    requires StoreSession(s) == s
    ensures var t := StoreSession(Observe(s, page, now));
      t == s.(cursor := t.cursor, observed := t.observed, history := t.history)
    ensures var t := Observe(s, page, now);
      t == s.(cursor := t.cursor, observed := t.observed, history := t.history)
  {
  }

  /** The verdict sees a session only through its status, its counter and its limit. */
  lemma JudgeFrame(s: Session, t: Session, evaluation: Option<Evaluation>, summary: Option<Summary>)
    requires s.status == t.status && s.iteration == t.iteration && s.runtime.maximum == t.runtime.maximum
    ensures Judge(s, evaluation, summary) == Judge(t, evaluation, summary)
  {
  }

  lemma PolledGood(s: Session, id: string, log: seq<Event>, evaluations: map<string, Evaluation>,
                   latest: Option<Evaluation>, summary: Option<Summary>, now: int)
    requires GoodSession(s, id, log, evaluations) && Increasing(log)
    ensures var t := StoreSession(Polled(s, Page(log, s.cursor, POLL_LIMIT), latest, summary, now));
      t.taskRunId == s.taskRunId && GoodSession(t, id, log, evaluations)
  {
    hide StoreSession, ObservedUpTo, Page, Remembers, Observe;
    var page := Page(log, s.cursor, POLL_LIMIT);
    var seen := Observe(s, page, now);
    ObserveFrame(s, page, now);
    var (strategy, checks) := Judge(seen, latest, summary);
    StoredObserve(s, log, now);
    StoreSettle(seen, strategy, checks.reason, now);
    StoreSessionIdempotent(Polled(s, page, latest, summary, now));
  }

  lemma RemembersNew(sessionId: string, ids: seq<string>, outputs: seq<Evaluation>,
                     evaluations: map<string, Evaluation>, id: string, e: Evaluation)
    requires Remembers(sessionId, ids, outputs, evaluations)
    requires id !in evaluations && e.sessionId == sessionId
    ensures Remembers(sessionId, ids + [id], outputs + [e], evaluations[id := e])
  {
    var ids', now := ids + [id], evaluations[id := e];
    forall x | x in now && now[x].sessionId == sessionId ensures x in ids' {
      assert x == id || x in ids;
      assert ids'[|ids|] == id;
    }
  }

  lemma RecordedStored(s: Session, e: Evaluation)
    requires StoreSession(s) == s && Redact(e.id) == e.id
    ensures var t := StoreSession(Recorded(s, e));
      t == Recorded(s, e).(outputs := s.outputs + [StoreEvaluation(e)], history := t.history)
  {
    var t := StoreSession(Recorded(s, e));
    assert t.evaluations == s.evaluations + [e.id] by {
      assert Map(s.evaluations, Redact) == s.evaluations;
    }
    assert t.outputs == s.outputs + [StoreEvaluation(e)] by {
      assert Map(s.outputs, StoreEvaluation) == s.outputs;
    }
  }

  lemma AcceptedGood(s: Session, id: string, log: seq<Event>, evaluations: map<string, Evaluation>,
                     e: Evaluation, summary: Option<Summary>, now: int)
    requires GoodSession(s, id, log, evaluations) && s.iteration < s.runtime.maximum
    requires e.id !in evaluations && Generated(e.id) && e.sessionId == id
    ensures var t := StoreSession(Accepted(s, e, summary, now));
      t.taskRunId == s.taskRunId && GoodSession(t, id, log, evaluations[e.id := StoreEvaluation(e)])
  {
    hide StoreSession, ObservedUpTo, Remembers, Redact, MaxSequence;
    GeneratedIsStored(id);
    GeneratedIsStored(e.id);
    RecordedStored(s, e);
    RemembersNew(id, s.evaluations, s.outputs, evaluations, e.id, StoreEvaluation(e));
    var noted := Recorded(s, e);
    var (strategy, checks) := Judge(noted, Some(e), summary);
    StoreSessionIdempotent(Accepted(s, e, summary, now));
    AcceptedStored(s, e, summary, now);
  }

  lemma AcceptedStored(s: Session, e: Evaluation, summary: Option<Summary>, now: int)
    ensures var noted := StoreSession(Recorded(s, e));
      var (strategy, checks) := Judge(Recorded(s, e), Some(e), summary);
      var counted := if strategy == Retry then noted.(retryCount := noted.retryCount + 1) else noted;
      StoreSession(Accepted(s, e, summary, now)) == Settle(counted, strategy, checks.reason, now)
  {
  }

  lemma ExhaustedGood(s: Session, id: string, log: seq<Event>, evaluations: map<string, Evaluation>)
    requires GoodSession(s, id, log, evaluations) && s.iteration >= s.runtime.maximum
    ensures var t := StoreSession(Exhausted(s));
      t.taskRunId == s.taskRunId && GoodSession(t, id, log, evaluations)
  {
    hide ObservedUpTo, Remembers, Redact, Sanitize;
    StoreSessionIdempotent(Exhausted(s));
    assert StoreSession(Exhausted(s)) == Exhausted(s);
  }

  lemma GrownGood(s: Session, id: string, log: seq<Event>, event: Event, evaluations: map<string, Evaluation>)
    requires GoodSession(s, id, log, evaluations)
    ensures GoodSession(s, id, Append(log, event), evaluations)
  {
    hide ObservedUpTo, Append, Remembers, StoreSession;
    AppendPreservesObserved(s.subscribed, log, event, s.cursor);
  }

  lemma OtherEvaluationGood(s: Session, id: string, log: seq<Event>, evaluations: map<string, Evaluation>, key: string, e: Evaluation)
    requires GoodSession(s, id, log, evaluations) && key !in evaluations && e.sessionId != id
    ensures GoodSession(s, id, log, evaluations[key := e])
  {
    hide ObservedUpTo, StoreSession;
  }

  lemma PollKeepsGood(w: World, step: Step, id: string)
    requires Good(w) && step.Poll? && Enabled(w, step) && id in w.sessions
    ensures GoodAt(Next(w, step), id)
  {
    hide GoodSession, StoreSession, Polled, Page, Latest;
    var s := w.sessions[id];
    assert GoodAt(w, id);
    if step.id == id {
      var latest := Latest(Rows(w.evaluations, step.order), s.id);
      PolledGood(s, id, w.logs[s.taskRunId], w.evaluations, latest, step.summary, step.now);
    }
  }

  lemma ReceiveKeepsGood(w: World, step: Step, id: string)
    requires Good(w) && step.Receive? && Enabled(w, step) && id in w.sessions
    ensures GoodAt(Next(w, step), id)
  {
    hide GoodSession, StoreSession, Accepted, Exhausted, Page, Dedup, Redact;
    var s := w.sessions[id];
    var log := w.logs[s.taskRunId];
    assert GoodAt(w, id);
    if step.id in w.sessions {
      var t := w.sessions[step.id];
      assert GoodAt(w, step.id);
      ReceiverFacts(t, step.id, w.logs[t.taskRunId], w.evaluations);
      var e := NewEvaluation(t, step.request, step.violations, step.evaluationId, step.now);
      if t.iteration >= t.runtime.maximum {
        if step.id == id {
          ExhaustedGood(s, id, log, w.evaluations);
        }
      } else if step.id == id {
        AcceptedGood(s, id, log, w.evaluations, e, step.summary, step.now);
      } else {
        OtherEvaluationGood(s, id, log, w.evaluations, step.evaluationId, StoreEvaluation(e));
      }
    }
  }

  lemma ReceiverFacts(s: Session, id: string, log: seq<Event>, evaluations: map<string, Evaluation>)
    requires GoodSession(s, id, log, evaluations)
    ensures s.id == id && Redact(id) == id
  {
    GeneratedIsStored(id);
  }

  lemma GrowKeepsGood(w: World, step: Step, id: string)
    requires Good(w) && step.Grow? && Enabled(w, step) && id in w.sessions
    ensures GoodAt(Next(w, step), id)
  {
    hide GoodSession, Append;
    var s := w.sessions[id];
    assert GoodAt(w, id);
    if s.taskRunId == step.run {
      GrownGood(s, id, w.logs[step.run], step.event, w.evaluations);
    }
  }

  lemma StartKeepsGood(w: World, step: Step, id: string)
    requires Good(w) && step.Start? && Enabled(w, step) && id in Next(w, step).sessions
    ensures GoodAt(Next(w, step), id)
  {
    hide GoodSession, StoreSession, NewSession;
    if id in w.sessions {
      assert GoodAt(w, id);
    } else {
      NewSessionGood(id, step.run, step.requestedLimit, step.subscribed, step.now, w.logs[step.run], w.evaluations);
    }
  }

  lemma NextKeepsBuckets(w: World, step: Step)
    requires Good(w) && Enabled(w, step)
    ensures var v := Next(w, step);
      && (forall run :: run in v.logs ==> Increasing(v.logs[run]))
      && (forall e :: e in v.evaluations ==> v.evaluations[e].id == e)
      && (forall e :: e in v.evaluations ==> v.evaluations[e].sessionId in v.sessions)
      && (forall id :: id in v.sessions ==> id in w.sessions || step.Start?)
  {
    hide GoodSession, StoreSession, Polled, Accepted, Exhausted, NewSession, Page, Latest, Dedup, Redact;
    if step.Receive? && step.id in w.sessions {
      assert GoodAt(w, step.id);
      ReceiverFacts(w.sessions[step.id], step.id, w.logs[w.sessions[step.id].taskRunId], w.evaluations);
      GeneratedIsStored(step.evaluationId);
    }
  }

  lemma StepKeepsGood(w: World, step: Step)
    requires Good(w) && Enabled(w, step)
    ensures Good(Next(w, step))
  {
    hide GoodAt, Next;
    var v := Next(w, step);
    NextKeepsBuckets(w, step);
    forall id | id in v.sessions ensures GoodAt(v, id) {
      match step
      case Grow(_, _) => GrowKeepsGood(w, step, id);
      case Start(_, _, _, _, _) => StartKeepsGood(w, step, id);
      case Poll(_, _, _, _) => PollKeepsGood(w, step, id);
      case Receive(_, _, _, _, _, _) => ReceiveKeepsGood(w, step, id);
    }
  }

  /** Every state of every run satisfies the invariant. */
  lemma {:induction false} ReachableGood(worlds: seq<World>, steps: seq<Step>, i: nat)
    requires IsRun(worlds, steps) && Initial(worlds[0]) && i < |worlds|
    ensures Good(worlds[i])
  {
    hide GoodAt, Next;
    if i > 0 {
      ReachableGood(worlds, steps, i - 1);
      StepKeepsGood(worlds[i - 1], steps[i - 1]);
    }
  }

  /** In every reachable state the number of evaluations stored for a session is its iteration
      counter, which never passes the limit. */
  lemma StoredEvaluationCount(worlds: seq<World>, steps: seq<Step>, i: nat, id: string)
    requires IsRun(worlds, steps) && Initial(worlds[0]) && i < |worlds| && id in worlds[i].sessions
    ensures var w := worlds[i];
      var stored := set e | e in w.evaluations && w.evaluations[e].sessionId == id;
      && |stored| == w.sessions[id].iteration == |w.sessions[id].evaluations|
      && |stored| <= w.sessions[id].runtime.maximum <= 25
  {
    hide CaughtUp, StoreSession, Next;
    ReachableGood(worlds, steps, i);
    var w := worlds[i];
    assert GoodAt(w, id);
    RememberedCount(id, w.sessions[id].evaluations, w.sessions[id].outputs, w.evaluations);
  }

  lemma RememberedCount(id: string, ids: seq<string>, outputs: seq<Evaluation>, evaluations: map<string, Evaluation>)
    requires Remembers(id, ids, outputs, evaluations)
    ensures |set e | e in evaluations && evaluations[e].sessionId == id| == |ids|
  {
    DistinctCount(ids);
    assert (set e | e in evaluations && evaluations[e].sessionId == id) == (set x | x in ids);
  }
}
