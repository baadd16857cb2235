/** The collaboration service over its store: every call changes the stored records exactly as the
    step of the same name does. */
module SessionService {
  import opened JsonValues
  import opened Sequences
  import opened EventLogs
  import opened Sessions
  import opened SessionInvariants
  import opened SessionSteps

  datatype Reply<+T> = Raised(error: string) | Missing | Done(value: T)

  datatype PollResponse = PollResponse(session: Session, relevant: seq<Event>, strategy: Strategy, checks: Checks)

  datatype Receipt =
    | LimitReached(session: Session)
    | Judged(evaluation: Evaluation, session: Session, strategy: Strategy, checks: Checks)

  /** The identifiers the store accepts as file names: `[A-Za-z0-9_.:-]+`. */
  predicate StoreId(id: string) {
    && id != ""
    && forall i :: 0 <= i < |id| ==> 'a' <= id[i] <= 'z' || 'A' <= id[i] <= 'Z' || '0' <= id[i] <= '9' || id[i] in "_.:-"
  }

  /** An identifier that the store accepts is not empty and names a file inside its bucket; generated
      identifiers are accepted. */
  lemma StoreIdSafe(id: string)
    ensures StoreId(id) ==> id != "" && '/' !in id && '\\' !in id && '\0' !in id
    ensures Generated(id) ==> StoreId(id)
  {
  }

  /** The evaluation with the validator's violations among its findings, lines 461-489 of the service. */
  method MakeEvaluation(session: Session, request: EvaluationRequest, violations: seq<string>, id: string, now: int)
    returns (evaluation: Evaluation)
    ensures evaluation == NewEvaluation(session, request, violations, id, now)
  {
    var findings := Dedup(request.findings + violations);
    var run := session.taskRunId;
    if request.taskRunId.Some? && request.taskRunId.value != "" {
      run := request.taskRunId.value;
    }
    evaluation := Evaluation(id, session.id, run, findings, request.recommendations,
                             request.needsRetry || violations != [], request.ready, request.needsHuman, now);
  }

  /** The bookkeeping of an evaluation, lines 491-501 of the service. */
  method Record(s: Session, evaluation: Evaluation) returns (session: Session)
    ensures session == Recorded(s, evaluation)
  {
    session := s.(iteration := s.iteration + 1);
    session := session.(runtime := session.runtime.(current := session.iteration));
    session := session.(lastEvaluation := Some(evaluation.id));
    session := session.(outputs := session.outputs + [evaluation]);
    session := session.(evaluations := session.evaluations + [evaluation.id]);
    session := session.(history := session.history + [Evaluated(evaluation.id, session.iteration, evaluation.receivedAt)]);
  }

  /** Bookkeeping and verdict, lines 491-515 of the service. */
  method Conclude(s: Session, evaluation: Evaluation, summary: Option<Summary>, now: int)
    returns (session: Session, strategy: Strategy, checks: Checks)
    ensures session == Accepted(s, evaluation, summary, now)
    requires s.status != Cancelled && s.status != Expired
    ensures strategy == session.retryState.strategy && checks.reason == session.retryState.reason
    ensures Evidence(checks, Some(OpinionOf(evaluation)), summary)
  {
    hide Judge;
    session := Record(s, evaluation);
    var verdict := Judge(session, Some(evaluation), summary);
    JudgeRuled(session, Some(evaluation), summary);
    strategy, checks := verdict.0, verdict.1;
    if strategy == Retry {
      session := session.(retryCount := session.retryCount + 1);
    }
    session := session.(retryState := RetryState(session.iteration, session.runtime.maximum, session.retryCount,
                                                 checks.reason, strategy));
    session := session.(status := StatusOf(strategy));
    session := session.(lastActivity := now);
  }

  class CollaborationService {
    var logs: map<string, seq<Event>>
    var sessions: map<string, Session>
    var evaluations: map<string, Evaluation>

    ghost function Records(): World
      reads this
    {
      World(logs, sessions, evaluations)
    }

    constructor (runs: map<string, seq<Event>>)
      requires forall run :: run in runs ==> Increasing(runs[run])
      ensures Initial(Records()) && Good(Records()) && logs == runs
    {
      logs, sessions, evaluations := runs, map[], map[];
    }

    /** `start_continuous_session` */
    method StartSession(id: string, run: string, requestedLimit: int, subscribed: seq<string>, now: int)
      returns (r: Reply<Session>)
      requires Good(Records()) && Enabled(Records(), Start(id, run, requestedLimit, subscribed, now))
      modifies this
      ensures Good(Records())
      ensures Records() == Next(old(Records()), Start(id, run, requestedLimit, subscribed, now))
      ensures r == if run in old(logs) then Done(NewSession(id, run, requestedLimit, subscribed, now))
                   else Raised("task_run_not_found")
    {
      ghost var before := Records();
      hide Good, StoreSession, DefaultSubscriptions, Generated;
      StepKeepsGood(before, Start(id, run, requestedLimit, subscribed, now));
      if run !in logs {
        return Raised("task_run_not_found");
      }
      var limit := IterationLimit(requestedLimit);
      var types := subscribed;
      if types == [] {
        types := DefaultSubscriptions();
      }
      var session := Session(id, run, 0, Active, now, SuccessRuntime(limit, 0),
                             RetryState(0, limit, 0, SessionStarted, Continue), None, 0, None, types, 0, [], [], [], []);
      session := session.(history := session.history + [Opened(run, now)]);
      assert session == NewSession(id, run, requestedLimit, subscribed, now);
      sessions := sessions[id := StoreSession(session)];
      r := Done(session);
    }

    /** `poll_continuous_session` */
    method PollSession(id: string, order: seq<string>, summary: Option<Summary>, now: int)
      returns (r: Reply<PollResponse>)
      requires Good(Records()) && Lists(order, evaluations)
      modifies this
      ensures Good(Records())
      ensures Records() == Next(old(Records()), Poll(id, order, summary, now))
      ensures r.Raised? <==> !StoreId(id)
      ensures r.Missing? <==> StoreId(id) && id !in old(sessions)
      ensures r.Done? ==>
        var s := old(sessions[id]);
        var page := old(PollPage(Records(), s));
        && r.value.relevant == Relevant(s.subscribed, page)
        && r.value.session == Polled(s, page, old(Latest(Rows(evaluations, order), s.id)), summary, now)
        && r.value.strategy == r.value.session.retryState.strategy
        && r.value.checks.reason == r.value.session.retryState.reason
        && Evidence(r.value.checks, Said(old(Latest(Rows(evaluations, order), s.id))), summary)
    {
      ghost var before := Records();
      hide Good, StoreSession, Relevant, Page, Latest, StoreId, Judge, Dump, MaxSequence, Evidence, StatusRule, ReasonRule, StrategyRule, Said;
      StepKeepsGood(before, Poll(id, order, summary, now));
      KnownIsOpen(before, id);
      if !StoreId(id) {
        return Raised("invalid_external_collaboration_id");
      }
      if id !in sessions {
        return Missing;
      }
      var session := sessions[id];
      var events := [];
      if session.taskRunId in logs {
        events := Page(logs[session.taskRunId], session.cursor, POLL_LIMIT);
      }
      var relevant := Relevant(session.subscribed, events);
      if events != [] {
        session := session.(cursor := MaxSequence(events));
      }
      if relevant != [] {
        session := session.(observed := session.observed + Map(relevant, Dump));
        session := session.(history := session.history + [Observed(|relevant|, session.cursor, now)]);
      }
      var latest := Latest(Rows(evaluations, order), session.id);
      var (strategy, checks) := Judge(session, latest, summary);
      JudgeRuled(session, latest, summary);
      session := session.(retryState := RetryState(session.iteration, session.runtime.maximum, session.retryCount,
                                                   checks.reason, strategy));
      session := session.(status := StatusOf(strategy));
      session := session.(lastActivity := now);
      session := session.(runtime := session.runtime.(current := session.iteration));
      sessions := sessions[id := StoreSession(session)];
      r := Done(PollResponse(session, relevant, strategy, checks));
    }

    /** `receive_success_evaluation` */
    method ReceiveEvaluation(id: string, evaluationId: string, request: EvaluationRequest, violations: seq<string>,
                             summary: Option<Summary>, now: int)
      returns (r: Reply<Receipt>)
      requires Good(Records()) && Enabled(Records(), Receive(id, evaluationId, request, violations, summary, now))
      modifies this
      ensures Good(Records())
      ensures Records() == Next(old(Records()), Receive(id, evaluationId, request, violations, summary, now))
      ensures r.Raised? <==> !StoreId(id)
      ensures r.Missing? <==> StoreId(id) && id !in old(sessions)
      ensures r.Done? ==>
        var s := old(sessions[id]);
        if s.iteration >= s.runtime.maximum then r.value == LimitReached(Exhausted(s))
        else
          && r.value.Judged?
          && r.value.evaluation == NewEvaluation(s, request, violations, evaluationId, now)
          && r.value.session == Accepted(s, r.value.evaluation, summary, now)
          && r.value.strategy == r.value.session.retryState.strategy
          && r.value.checks.reason == r.value.session.retryState.reason
          && Evidence(r.value.checks, Some(OpinionOf(r.value.evaluation)), summary)
    {
      ghost var before := Records();
      hide Good, StoreSession, StoreId, StoreEvaluation, NewEvaluation, Accepted, Generated, Evidence, OpinionOf;
      StepKeepsGood(before, Receive(id, evaluationId, request, violations, summary, now));
      KnownIsOpen(before, id);
      if !StoreId(id) {
        return Raised("invalid_external_collaboration_id");
      }
      if id !in sessions {
        return Missing;
      }
      var session := sessions[id];
      if session.iteration >= session.runtime.maximum {
        session := session.(status := NeedsHuman, reason := Some(IterationsExhausted));
        session := session.(retryState := RetryState(session.iteration, session.runtime.maximum, session.retryCount,
                                                     IterationsExhausted, AskHuman));
        sessions := sessions[id := StoreSession(session)];
        return Done(LimitReached(session));
      }
      var evaluation := MakeEvaluation(session, request, violations, evaluationId, now);
      evaluations := evaluations[evaluationId := StoreEvaluation(evaluation)];
      var strategy, checks;
      session, strategy, checks := Conclude(session, evaluation, summary, now);
      sessions := sessions[id := StoreSession(session)];
      r := Done(Judged(evaluation, session, strategy, checks));
    }
  }

  lemma KnownIsOpen(w: World, id: string)
    requires Good(w)
    ensures id in w.sessions ==> StoreId(id) && w.sessions[id].status != Cancelled && w.sessions[id].status != Expired
  {
    if id in w.sessions {
      assert GoodAt(w, id);
    }
  }
}
