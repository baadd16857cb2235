/** Continuous collaboration sessions: an external model follows a task run, polls its event
    log and submits success evaluations, while the runtime alone decides when the work is done. */
module Sessions {
  import opened JsonValues
  import opened Sequences
  import opened Redaction
  import opened EventLogs

  datatype Status = Active | RetryRecommended | NeedsHuman | WaitingApproval | Completed | Cancelled | Expired

  datatype Strategy = Continue | Retry | AskHuman | AskApproval | Complete | Cancel | Expire

  datatype Reason =
    | SessionStarted | WaitingForEvaluation | EvaluationReceived | ApprovalPending
    | ReadyAndValidated | HumanRequested | IterationsExhausted | RetryAdvised

  /** The public summary of the followed run: its status and the two success flags. */
  datatype Summary = Summary(status: string, validationSafe: bool, resultSafe: bool)

  datatype Checks = Checks(ready: bool, validated: bool, truthful: bool, runStatus: string, reason: Reason)

  datatype Evaluation = Evaluation(
    id: string, sessionId: string, taskRunId: string, findings: seq<string>, recommendations: seq<string>,
    needsRetry: bool, ready: bool, needsHuman: bool, receivedAt: int)

  datatype EvaluationRequest = EvaluationRequest(
    taskRunId: Option<string>, findings: seq<string>, recommendations: seq<string>,
    needsRetry: bool, ready: bool, needsHuman: bool)

  /** The part of a session that counts iterations against its limit. */
  datatype SuccessRuntime = SuccessRuntime(maximum: int, current: nat)

  datatype RetryState = RetryState(current: nat, maximum: int, retries: nat, reason: Reason, strategy: Strategy)

  datatype Note =
    | Opened(taskRunId: string, at: int)
    | Observed(count: nat, last: nat, at: int)
    | Evaluated(evaluationId: string, iteration: nat, at: int)

  datatype Session = Session(
    id: string, taskRunId: string, iteration: nat, status: Status, lastActivity: int,
    runtime: SuccessRuntime, retryState: RetryState, lastEvaluation: Option<string>, retryCount: nat,
    reason: Option<Reason>, subscribed: seq<string>, cursor: nat, observed: seq<Value>,
    history: seq<Note>, outputs: seq<Evaluation>, evaluations: seq<string>)

  const POLL_LIMIT := 500

  // ---------------------------------------------------------------- decisions

  function Judge(s: Session, evaluation: Option<Evaluation>, summary: Option<Summary>): (Strategy, Checks) {
    var runStatus := if summary.Some? then summary.value.status else "";
    var truthful := summary.Some? && summary.value.resultSafe;
    var validated := truthful || (summary.Some? && summary.value.validationSafe);
    var ready := evaluation.Some? && evaluation.value.ready;
    var checks := Checks(ready, validated, truthful, runStatus,
                         if evaluation.None? then WaitingForEvaluation else EvaluationReceived);
    if s.status == Cancelled then (Cancel, checks)
    else if s.status == Expired then (Expire, checks)
    else if runStatus == "WAITING_APPROVAL" then (AskApproval, checks.(reason := ApprovalPending))
    else if evaluation.None? then (Continue, checks)
    else if ready && validated && truthful then (Complete, checks.(reason := ReadyAndValidated))
    else if evaluation.value.needsHuman then (AskHuman, checks.(reason := HumanRequested))
    else if evaluation.value.needsRetry || evaluation.value.findings != []
         || runStatus == "FAILED" || runStatus == "WAITING_USER" then
      if s.iteration >= s.runtime.maximum then (AskHuman, checks.(reason := IterationsExhausted))
      else (Retry, checks.(reason := RetryAdvised))
    else (Continue, checks)
  }

  function StatusOf(strategy: Strategy): Status {
    match strategy
    case Continue => Active
    case Retry => RetryRecommended
    case AskHuman => NeedsHuman
    case AskApproval => WaitingApproval
    case Complete => Completed
    case Cancel => Cancelled
    case Expire => Expired
  }

  /** `max(1, min(int(requested or 3), 25))` */
  function IterationLimit(requested: int): (limit: int)
    ensures 1 <= limit <= 25
  {
    var wanted := if requested == 0 then 3 else requested;
    if wanted < 1 then 1 else if wanted > 25 then 25 else wanted
  }

  function DefaultSubscriptions(): seq<string> {
    ["run_created", "run_queued", "run_waiting_input", "approval_required", "approval_preview_created",
     "patch_applied", "validation_completed", "artifact_created", "run_completed", "run_failed",
     "run_blocked", "run_cancelled"]
  }

  // ---------------------------------------------------------------- the sanitising store

  function StoreNote(n: Note): Note {
    match n
    case Opened(run, at) => Opened(Redact(run), at)
    case Observed(_, _, _) => n
    case Evaluated(id, iteration, at) => Evaluated(Redact(id), iteration, at)
  }

  function StoreEvaluation(e: Evaluation): Evaluation {
    e.(id := Redact(e.id), sessionId := Redact(e.sessionId), taskRunId := Redact(e.taskRunId),
       findings := Map(e.findings, Redact), recommendations := Map(e.recommendations, Redact))
  }

  /** What reading back a saved session returns: every string has been through redaction. */
  function StoreSession(s: Session): Session {
    s.(id := Redact(s.id), taskRunId := Redact(s.taskRunId),
       lastEvaluation := if s.lastEvaluation.Some? then Some(Redact(s.lastEvaluation.value)) else None,
       subscribed := Map(s.subscribed, Redact), observed := Map(s.observed, (v: Value) => Sanitize(v)),
       history := Map(s.history, StoreNote), outputs := Map(s.outputs, StoreEvaluation),
       evaluations := Map(s.evaluations, Redact))
  }

  /** The directory listing of a bucket, in whatever order the file system gives. */
  ghost predicate Lists<T>(order: seq<string>, bucket: map<string, T>) {
    Distinct(order) && forall id :: id in order <==> id in bucket
  }

  function Rows<T>(bucket: map<string, T>, order: seq<string>): (rows: seq<T>)
    requires forall id :: id in order ==> id in bucket
    ensures |rows| == |order| && forall i :: 0 <= i < |order| ==> rows[i] == bucket[order[i]]
  {
    seq(|order|, i requires 0 <= i < |order| => bucket[order[i]])
  }

  /** Newest first, the order in which the store lists evaluations. */
  function NewestFirst(): (Evaluation, Evaluation) -> bool {
    (a: Evaluation, b: Evaluation) => a.receivedAt >= b.receivedAt
  }

  function OfSession(sessionId: string): Evaluation -> bool {
    (e: Evaluation) => e.sessionId == sessionId
  }

  /** `list_evaluations(session_id=..., limit=...)` */
  function ListEvaluations(rows: seq<Evaluation>, sessionId: string, limit: int): seq<Evaluation> {
    Prefix(Filter(StableSort(rows, NewestFirst()), OfSession(sessionId)),
           if limit < 1 then 1 else if limit > 1000 then 1000 else limit)
  }

  /** `_latest_evaluation` over the listed rows. */
  function Latest(rows: seq<Evaluation>, sessionId: string): Option<Evaluation> {
    var listed := ListEvaluations(rows, sessionId, 1);
    if listed == [] then None else Some(listed[0])
  }

  // ---------------------------------------------------------------- session updates

  function NewSession(id: string, taskRunId: string, requestedLimit: int, subscribed: seq<string>, now: int): Session {
    var limit := IterationLimit(requestedLimit);
    Session(id, taskRunId, 0, Active, now, SuccessRuntime(limit, 0),
            RetryState(0, limit, 0, SessionStarted, Continue), None, 0, None,
            if subscribed == [] then DefaultSubscriptions() else subscribed, 0, [],
            [Opened(taskRunId, now)], [], [])
  }

  function Observe(s: Session, page: seq<Event>, now: int): Session {
    var cursor := if page == [] then s.cursor else MaxSequence(page);
    var relevant := Relevant(s.subscribed, page);
    if relevant == [] then s.(cursor := cursor)
    else s.(cursor := cursor, observed := s.observed + Map(relevant, Dump),
            history := s.history + [Observed(|relevant|, cursor, now)])
  }

  /** The session after a verdict, with its retry state, status and iteration counter mirrored. */
  function Settle(s: Session, strategy: Strategy, reason: Reason, now: int): Session {
    s.(retryState := RetryState(s.iteration, s.runtime.maximum, s.retryCount, reason, strategy),
       status := StatusOf(strategy), lastActivity := now,
       runtime := s.runtime.(current := s.iteration))
  }

  function Polled(s: Session, page: seq<Event>, latest: Option<Evaluation>, summary: Option<Summary>, now: int): Session {
    var seen := Observe(s, page, now);
    var (strategy, checks) := Judge(seen, latest, summary);
    Settle(seen, strategy, checks.reason, now)
  }

  function Exhausted(s: Session): Session {
    s.(status := NeedsHuman, reason := Some(IterationsExhausted),
       retryState := RetryState(s.iteration, s.runtime.maximum, s.retryCount, IterationsExhausted, AskHuman))
  }

  function NewEvaluation(s: Session, request: EvaluationRequest, violations: seq<string>, id: string, now: int): Evaluation {
    Evaluation(id, s.id,
               if request.taskRunId.Some? && request.taskRunId.value != "" then request.taskRunId.value else s.taskRunId,
               Dedup(request.findings + violations), request.recommendations,
               request.needsRetry || violations != [], request.ready, request.needsHuman, now)
  }

  function Recorded(s: Session, e: Evaluation): Session {
    s.(iteration := s.iteration + 1, runtime := s.runtime.(current := s.iteration + 1),
       lastEvaluation := Some(e.id), outputs := s.outputs + [e], evaluations := s.evaluations + [e.id],
       history := s.history + [Evaluated(e.id, s.iteration + 1, e.receivedAt)])
  }

  function Accepted(s: Session, e: Evaluation, summary: Option<Summary>, now: int): Session {
    var noted := Recorded(s, e);
    var (strategy, checks) := Judge(noted, Some(e), summary);
    var counted := if strategy == Retry then noted.(retryCount := noted.retryCount + 1) else noted;
    Settle(counted, strategy, checks.reason, now)
  }

  // ---------------------------------------------------------------- the whole system

  datatype World = World(
    logs: map<string, seq<Event>>, sessions: map<string, Session>, evaluations: map<string, Evaluation>)

  datatype Step =
    | Grow(run: string, event: Event)
    | Start(id: string, run: string, requestedLimit: int, subscribed: seq<string>, now: int)
    | Poll(id: string, order: seq<string>, summary: Option<Summary>, now: int)
    | Receive(id: string, evaluationId: string, request: EvaluationRequest, violations: seq<string>,
              summary: Option<Summary>, now: int)

  /** Generated identifiers: non-empty, short and made of letters, digits and underscores. */
  predicate Generated(id: string) {
    && 0 < |id| <= 200
    && forall i :: 0 <= i < |id| ==> 'a' <= id[i] <= 'z' || 'A' <= id[i] <= 'Z' || '0' <= id[i] <= '9' || id[i] == '_'
  }

  /** A step may happen when the identifiers it draws are fresh and its directory listing is one
      of the current bucket. Unknown runs and sessions are allowed: they change nothing. */
  ghost predicate Enabled(w: World, step: Step) {
    match step
    case Grow(run, _) => run in w.logs
    case Start(id, run, _, _, _) => Generated(id) && id !in w.sessions && (run in w.logs ==> Generated(run))
    case Poll(id, order, _, _) => Lists(order, w.evaluations)
    case Receive(_, evaluationId, _, _, _, _) => Generated(evaluationId) && evaluationId !in w.evaluations
  }

  function PollPage(w: World, s: Session): seq<Event> {
    if s.taskRunId in w.logs then Page(w.logs[s.taskRunId], s.cursor, POLL_LIMIT) else []
  }

  ghost function Next(w: World, step: Step): World
    requires Enabled(w, step)
  {
    match step
    case Grow(run, event) => w.(logs := w.logs[run := Append(w.logs[run], event)])
    case Start(id, run, requestedLimit, subscribed, now) =>
      if run !in w.logs then w
      else w.(sessions := w.sessions[id := StoreSession(NewSession(id, run, requestedLimit, subscribed, now))])
    case Poll(id, order, summary, now) =>
      if id !in w.sessions then w
      else
        var s := w.sessions[id];
        var latest := Latest(Rows(w.evaluations, order), s.id);
        w.(sessions := w.sessions[id := StoreSession(Polled(s, PollPage(w, s), latest, summary, now))])
    case Receive(id, evaluationId, request, violations, summary, now) =>
      if id !in w.sessions then w
      else
        var s := w.sessions[id];
        if s.iteration >= s.runtime.maximum then w.(sessions := w.sessions[id := StoreSession(Exhausted(s))])
        else
          var e := NewEvaluation(s, request, violations, evaluationId, now);
          w.(sessions := w.sessions[id := StoreSession(Accepted(s, e, summary, now))],
             evaluations := w.evaluations[evaluationId := StoreEvaluation(e)])
  }

  /** A run of the system: consecutive worlds related by enabled steps. */
  ghost predicate IsRun(worlds: seq<World>, steps: seq<Step>) {
    && |worlds| == |steps| + 1
    && forall i :: 0 <= i < |steps| ==> Enabled(worlds[i], steps[i]) && worlds[i + 1] == Next(worlds[i], steps[i])
  }

  ghost predicate Initial(w: World) {
    && w.sessions == map[] && w.evaluations == map[]
    && forall run :: run in w.logs ==> Increasing(w.logs[run])
  }
}
