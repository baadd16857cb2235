/** Whole-run properties of collaboration sessions: progress through the log, and the evaluation
    that polls judge. */
module SessionTheorems {
  import opened JsonValues
  import opened Sequences
  import opened Redaction
  import opened EventLogs
  import opened Sessions
  import opened SessionInvariants

  // ---------------------------------------------------------------- progress

  /** t continues s: same identity, limit and subscriptions; the cursor and the counters have not
      gone back, and what was observed or remembered is still there, in front. */
  ghost predicate Continues(s: Session, t: Session) {
    && t.id == s.id && t.taskRunId == s.taskRunId && t.subscribed == s.subscribed
    && t.runtime.maximum == s.runtime.maximum
    && s.cursor <= t.cursor && s.iteration <= t.iteration && s.retryCount <= t.retryCount
    && s.observed <= t.observed && s.evaluations <= t.evaluations
  }

  lemma PolledContinues(s: Session, id: string, log: seq<Event>, evaluations: map<string, Evaluation>,
                        latest: Option<Evaluation>, summary: Option<Summary>, now: int)
    requires GoodSession(s, id, log, evaluations) && Increasing(log)
    ensures Continues(s, StoreSession(Polled(s, Page(log, s.cursor, POLL_LIMIT), latest, summary, now)))
  {
    hide ObservedUpTo, Page, Remembers, Redact, Sanitize, Judge, Relevant, Dump;
    var page := Page(log, s.cursor, POLL_LIMIT);
    var seen := Observe(s, page, now);
    var (strategy, checks) := Judge(seen, latest, summary);
    var t := StoreSession(Settle(seen, strategy, checks.reason, now));
    assert t.subscribed == s.subscribed && t.evaluations == s.evaluations;
    SanitizeAppended(s.observed, Relevant(s.subscribed, page));
    if page != [] {
      PageObserves(s.subscribed, log, s.cursor, POLL_LIMIT);
    }
  }

  lemma AcceptedContinues(s: Session, e: Evaluation, summary: Option<Summary>, now: int)
    requires StoreSession(s) == s && Redact(e.id) == e.id
    ensures Continues(s, StoreSession(Accepted(s, e, summary, now)))
  {
    hide StoreSession, Judge;
    RecordedStored(s, e);
    AcceptedStored(s, e, summary, now);
  }

  lemma StepContinues(w: World, step: Step, id: string)
    requires Good(w) && Enabled(w, step) && id in w.sessions
    ensures id in Next(w, step).sessions && Continues(w.sessions[id], Next(w, step).sessions[id])
  {
    hide Polled, Accepted, StoreSession, Page, Latest, Dedup, Redact, CaughtUp, Remembers;
    var s := w.sessions[id];
    assert GoodAt(w, id);
    if !step.Grow? && step.id == id {
      if step.Poll? {
        var latest := Latest(Rows(w.evaluations, step.order), s.id);
        PolledContinues(s, id, w.logs[s.taskRunId], w.evaluations, latest, step.summary, step.now);
      } else if step.Receive? {
        if s.iteration >= s.runtime.maximum {
          ExhaustedStored(s);
        } else {
          GeneratedIsStored(step.evaluationId);
          AcceptedContinues(s, NewEvaluation(s, step.request, step.violations, step.evaluationId, step.now),
                            step.summary, step.now);
        }
      }
    }
  }

  lemma ExhaustedStored(s: Session)
    requires StoreSession(s) == s
    ensures StoreSession(Exhausted(s)) == Exhausted(s)
  {
    hide Redact, Sanitize, StoreNote, StoreEvaluation;
  }

  /** Over every interleaving of polls, evaluations, new sessions and log growth, a session only
      moves forward: its cursor never goes back and nothing it observed is lost or repeated. */
  lemma {:induction false} SessionsMoveForward(worlds: seq<World>, steps: seq<Step>, i: nat, j: nat, id: string)
    requires IsRun(worlds, steps) && Initial(worlds[0]) && i <= j < |worlds| && id in worlds[i].sessions
    ensures id in worlds[j].sessions && Continues(worlds[i].sessions[id], worlds[j].sessions[id])
    decreases j
  {
    hide Next, Good;
    if i < j {
      SessionsMoveForward(worlds, steps, i, j - 1, id);
      ReachableGood(worlds, steps, j - 1);
      StepContinues(worlds[j - 1], steps[j - 1], id);
    }
  }

  /** In every reachable state, reading page by page has given exactly the filtered prefix of the
      whole log, whatever happened in between. */
  lemma PollingRefinesFiltering(worlds: seq<World>, steps: seq<Step>, i: nat, id: string)
    requires IsRun(worlds, steps) && Initial(worlds[0]) && i < |worlds| && id in worlds[i].sessions
    ensures var s := worlds[i].sessions[id];
      && s.taskRunId in worlds[i].logs
      && s.observed == ObservedUpTo(s.subscribed, worlds[i].logs[s.taskRunId], s.cursor)
      && s.cursor <= MaxSequence(worlds[i].logs[s.taskRunId])
  {
    hide Next, ObservedUpTo, StoreSession;
    ReachableGood(worlds, steps, i);
    assert GoodAt(worlds[i], id);
  }

  lemma PollAdvances(w: World, step: Step)
    requires Good(w) && step.Poll? && Enabled(w, step) && step.id in w.sessions
    ensures var s, t := w.sessions[step.id], Next(w, step).sessions[step.id];
      var backlog := Pending(w.logs[s.taskRunId], s.cursor);
      && t.taskRunId == s.taskRunId && Next(w, step).logs == w.logs
      && Pending(w.logs[s.taskRunId], t.cursor) == (if backlog < 500 then 0 else backlog - 500)
  {
    hide StoreSession, Page, Latest, Judge, Filter, Observe, Remembers, ObservedUpTo, Redact, Sanitize;
    var s := w.sessions[step.id];
    assert GoodAt(w, step.id);
    var log := w.logs[s.taskRunId];
    var page := Page(log, s.cursor, POLL_LIMIT);
    PageShrinksBacklog(log, s.cursor, POLL_LIMIT);
    var seen := Observe(s, page, step.now);
    var latest := Latest(Rows(w.evaluations, step.order), s.id);
    var (strategy, checks) := Judge(seen, latest, step.summary);
    StoreSettle(seen, strategy, checks.reason, step.now);
    ObserveFrame(s, page, step.now);
    ObserveCursor(s, page, step.now);
  }

  lemma ObserveCursor(s: Session, page: seq<Event>, now: int)
    ensures StoreSession(Observe(s, page, now)).cursor == if page == [] then s.cursor else MaxSequence(page)
  {
  }

  /** How many of the steps poll the session. */
  function Polls(steps: seq<Step>, id: string): nat {
    if steps == [] then 0 else (if steps[0].Poll? && steps[0].id == id then 1 else 0) + Polls(steps[1..], id)
  }

  /** No step appends to the log. */
  ghost predicate Quiet(steps: seq<Step>, run: string) {
    forall i :: 0 <= i < |steps| && steps[i].Grow? ==> steps[i].run != run
  }

  /** Enough polls of a session observe every subscribed event of its log, whatever else happens in
      between, as long as that log does not grow. */
  lemma {:induction false} PollsCatchUp(worlds: seq<World>, steps: seq<Step>, id: string)
    requires IsRun(worlds, steps) && Good(worlds[0]) && GoodAt(worlds[0], id)
    requires Quiet(steps, worlds[0].sessions[id].taskRunId)
    requires var s := worlds[0].sessions[id];
      Pending(worlds[0].logs[s.taskRunId], s.cursor) <= 500 * Polls(steps, id)
    ensures GoodAt(worlds[|steps|], id)
    ensures var s := worlds[|steps|].sessions[id];
      && s.taskRunId == worlds[0].sessions[id].taskRunId
      && worlds[|steps|].logs[s.taskRunId] == worlds[0].logs[s.taskRunId]
      && s.observed == Map(Relevant(s.subscribed, worlds[0].logs[s.taskRunId]), StoredEvent)
    decreases |steps|
  {
    hide Next, Good, GoodSession, Pending, Relevant, StoredEvent, Enabled;
    var w := worlds[0];
    if steps == [] {
      FinishedObserving(w, id);
    } else {
      assert worlds[1] == Next(w, steps[0]);
      QuietStep(w, steps[0], id);
      RunTail(worlds, steps);
      assert Quiet(steps[1..], w.sessions[id].taskRunId);
      PollsCatchUp(worlds[1..], steps[1..], id);
    }
  }

  lemma RunTail(worlds: seq<World>, steps: seq<Step>)
    requires IsRun(worlds, steps) && steps != []
    ensures IsRun(worlds[1..], steps[1..])
  {
    hide Next, Enabled;
    forall i | 0 <= i < |steps[1..]|
      ensures Enabled(worlds[1..][i], steps[1..][i]) && worlds[1..][i + 1] == Next(worlds[1..][i], steps[1..][i])
    {
      assert steps[1..][i] == steps[i + 1] && worlds[1..][i] == worlds[i + 1];
    }
  }

  lemma FinishedObserving(w: World, id: string)
    requires Good(w) && GoodAt(w, id)
    requires Pending(w.logs[w.sessions[id].taskRunId], w.sessions[id].cursor) == 0
    ensures var s := w.sessions[id]; s.observed == Map(Relevant(s.subscribed, w.logs[s.taskRunId]), StoredEvent)
  {
    hide StoreSession, Remembers, ObservedUpTo, Pending, Relevant, StoredEvent;
    var s := w.sessions[id];
    NothingPending(s.subscribed, w.logs[s.taskRunId], s.cursor);
  }

  lemma LogKept(w: World, step: Step, run: string)
    requires Enabled(w, step) && run in w.logs && (step.Grow? ==> step.run != run)
    ensures run in Next(w, step).logs && Next(w, step).logs[run] == w.logs[run]
  {
  }

  lemma QuietStep(w: World, step: Step, id: string)
    requires Good(w) && Enabled(w, step) && GoodAt(w, id)
    requires step.Grow? ==> step.run != w.sessions[id].taskRunId
    ensures var v := Next(w, step);
      var s := w.sessions[id];
      && Good(v) && GoodAt(v, id) && v.sessions[id].taskRunId == s.taskRunId
      && v.logs[s.taskRunId] == w.logs[s.taskRunId]
      && var log := w.logs[s.taskRunId];
         var backlog := Pending(log, s.cursor);
         var left := Pending(log, v.sessions[id].cursor);
         if step.Poll? && step.id == id then left == (if backlog < 500 then 0 else backlog - 500)
         else left <= backlog
  {
    hide GoodSession, Next, Pending, Enabled;
    var s := w.sessions[id];
    StepKeepsGood(w, step);
    StepContinues(w, step, id);
    LogKept(w, step, s.taskRunId);
    assert GoodAt(Next(w, step), id);
    if step.Poll? && step.id == id {
      PollAdvances(w, step);
    } else {
      PendingFalls(w.logs[s.taskRunId], s.cursor, Next(w, step).sessions[id].cursor);
    }
  }

  lemma NothingPending(types: seq<string>, log: seq<Event>, cursor: nat)
    requires Increasing(log) && Pending(log, cursor) == 0
    ensures ObservedUpTo(types, log, cursor) == Map(Relevant(types, log), StoredEvent)
  {
    hide Filter, StoredEvent;
    var n := CutAt(log, cursor);
    FilterAgree(log, SubscribedUpTo(types, cursor), (e: Event) => Subscribed(types, e));
    RelevantIsFilter(types, log);
  }

  // ---------------------------------------------------------------- the evaluation that polls judge

  lemma NewestFirstPreorder()
    ensures TotalPreorder(NewestFirst())
  {
  }

  lemma LatestIsHead(rows: seq<Evaluation>, id: string)
    ensures var own := StableSort(Filter(rows, OfSession(id)), NewestFirst());
      Latest(rows, id) == if own == [] then None else Some(own[0])
  {
    NewestFirstPreorder();
    SortFilterCommute(rows, NewestFirst(), OfSession(id));
  }

  ghost predicate StrictlyNewest(evaluations: map<string, Evaluation>, id: string, last: string) {
    && last in evaluations && evaluations[last].sessionId == id
    && forall e :: e in evaluations && evaluations[e].sessionId == id && e != last
         ==> evaluations[e].receivedAt < evaluations[last].receivedAt
  }

  lemma RowsMembers(evaluations: map<string, Evaluation>, order: seq<string>)
    requires Lists(order, evaluations)
    ensures forall e :: e in evaluations ==> evaluations[e] in Rows(evaluations, order)
    ensures forall r :: r in Rows(evaluations, order) ==> exists e :: e in evaluations && evaluations[e] == r
  {
    var rows := Rows(evaluations, order);
    forall e | e in evaluations ensures evaluations[e] in rows {
      var i :| 0 <= i < |order| && order[i] == e;
      assert rows[i] == evaluations[e];
    }
    forall r | r in rows ensures exists e :: e in evaluations && evaluations[e] == r {
      var i :| 0 <= i < |rows| && rows[i] == r;
      assert order[i] in evaluations;
    }
  }

  /** A strictly newest evaluation is the one judged, whatever order the directory is listed in. */
  lemma NewestIsLatest(evaluations: map<string, Evaluation>, order: seq<string>, id: string, last: string)
    requires Lists(order, evaluations) && StrictlyNewest(evaluations, id, last)
    ensures Latest(Rows(evaluations, order), id) == Some(evaluations[last])
  {
    hide Filter, StableSort, Latest;
    var rows := Rows(evaluations, order);
    var own := Filter(rows, OfSession(id));
    var sorted := StableSort(own, NewestFirst());
    LatestIsHead(rows, id);
    RowsMembers(evaluations, order);
    FilterMembers(rows, OfSession(id));
    SortPermutes(own, NewestFirst());
    NewestFirstPreorder();
    SortOrdered(own, NewestFirst());
    assert evaluations[last] in sorted;
    var k :| 0 <= k < |sorted| && sorted[k] == evaluations[last];
    assert sorted[0] in sorted;
    var e :| e in evaluations && evaluations[e] == sorted[0];
    assert k > 0 ==> NewestFirst()(sorted[0], sorted[k]);
  }

  lemma {:induction false} ListingOf(keys: set<string>) returns (order: seq<string>)
    ensures Distinct(order) && forall k :: k in order <==> k in keys
    decreases keys
  {
    if keys == {} {
      order := [];
    } else {
      var k :| k in keys;
      var rest := ListingOf(keys - {k});
      order := [k] + rest;
    }
  }

  lemma SortedHeadOfFirst(x: Evaluation, rest: seq<Evaluation>, y: Evaluation)
    requires x != y && x.receivedAt >= y.receivedAt
    ensures StableSort([x] + rest, NewestFirst())[0] != y
    ensures StableSort([x] + rest, NewestFirst()) != []
  {
    assert ([x] + rest)[1..] == rest;
  }

  /** A listing that shows an evaluation at least as new as the last one first makes the poll judge
      something else. */
  lemma TieHidesLast(evaluations: map<string, Evaluation>, id: string, last: string, other: string) returns (order: seq<string>)
    requires last in evaluations && other in evaluations && evaluations[other] != evaluations[last]
    requires evaluations[other].sessionId == id && evaluations[other].receivedAt >= evaluations[last].receivedAt
    ensures Lists(order, evaluations) && Latest(Rows(evaluations, order), id) != Some(evaluations[last])
  {
    hide Filter, StableSort, Latest;
    var rest := ListingOf(evaluations.Keys - {other});
    order := [other] + rest;
    var rows := Rows(evaluations, order);
    var tail := Rows(evaluations, rest);
    assert rows == [evaluations[other]] + tail;
    FilterCons(evaluations[other], tail, OfSession(id));
    LatestIsHead(rows, id);
    SortedHeadOfFirst(evaluations[other], Filter(tail, OfSession(id)), evaluations[last]);
  }

  /** The poll is sure to judge the named evaluation exactly when that one is strictly newer than
      every other evaluation stored for the session. Receipt times are cut to whole seconds, so
      two evaluations within one second break it. */
  lemma LatestExactly(evaluations: map<string, Evaluation>, id: string, last: string)
    requires last in evaluations && evaluations[last].sessionId == id
    requires forall e :: e in evaluations ==> evaluations[e].id == e
    ensures (forall order :: Lists(order, evaluations) ==> Latest(Rows(evaluations, order), id) == Some(evaluations[last]))
       <==> StrictlyNewest(evaluations, id, last)
  {
    hide Latest;
    if StrictlyNewest(evaluations, id, last) {
      forall order | Lists(order, evaluations)
        ensures Latest(Rows(evaluations, order), id) == Some(evaluations[last])
      {
        NewestIsLatest(evaluations, order, id, last);
      }
    } else {
      var other :| other in evaluations && evaluations[other].sessionId == id && other != last
        && evaluations[other].receivedAt >= evaluations[last].receivedAt;
      assert evaluations[other].id != evaluations[last].id;
      var order := TieHidesLast(evaluations, id, last, other);
    }
  }

  /** Receipt times that grow along the remembered evaluations single out the named one. */
  lemma ClockNamesLatest(s: Session, id: string, log: seq<Event>, evaluations: map<string, Evaluation>)
    requires GoodSession(s, id, log, evaluations) && s.evaluations != []
    requires forall i, j :: 0 <= i < j < |s.outputs| ==> s.outputs[i].receivedAt < s.outputs[j].receivedAt
    ensures s.lastEvaluation.Some? && StrictlyNewest(evaluations, id, s.lastEvaluation.value)
  {
    hide CaughtUp, StoreSession;
    var n := |s.evaluations| - 1;
    forall e | e in evaluations && evaluations[e].sessionId == id && e != s.evaluations[n]
      ensures evaluations[e].receivedAt < evaluations[s.evaluations[n]].receivedAt
    {
      var i :| 0 <= i < |s.evaluations| && s.evaluations[i] == e;
      assert s.outputs[i] == evaluations[e] && s.outputs[n] == evaluations[s.evaluations[n]];
    }
  }
}
