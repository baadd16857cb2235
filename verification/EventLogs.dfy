/** The append-only event log of a task run and the page that a polling client reads from it. */
module EventLogs {
  import opened JsonValues
  import opened Sequences
  import opened Redaction

  datatype Event = Event(sequence: nat, kind: string, status: string, message: string, metadata: Value)

  /** `event.model_dump()` */
  function Dump(e: Event): Value {
    Object([Entry("sequence", Number(e.sequence as real)), Entry("type", Text(e.kind)),
            Entry("status", Text(e.status)), Entry("message", Text(e.message)), Entry("metadata", e.metadata)])
  }

  function MaxSequence(events: seq<Event>): (m: nat)
    ensures forall i :: 0 <= i < |events| ==> events[i].sequence <= m
    ensures events != [] ==> exists i :: 0 <= i < |events| && events[i].sequence == m
  {
    if events == [] then 0
    else
      var rest := MaxSequence(events[1..]);
      if rest > events[0].sequence then rest else events[0].sequence
  }

  ghost predicate Increasing(log: seq<Event>) {
    && (forall i :: 0 <= i < |log| ==> 0 < log[i].sequence)
    && (forall i, j :: 0 <= i < j < |log| ==> log[i].sequence < log[j].sequence)
  }

  /** The store allocates the next sequence number itself, whatever the caller proposed. */
  function Append(log: seq<Event>, e: Event): (r: seq<Event>)
    ensures Increasing(log) ==> Increasing(r)
  {
    log + [e.(sequence := MaxSequence(log) + 1)]
  }

  /** The log keeps what it held; the new event comes last, unchanged but for its number, which is one
      more than the largest so far. */
  lemma AppendExactly(log: seq<Event>, e: Event)
    ensures var r := Append(log, e);
      && |r| == |log| + 1 && log <= r
      && r[|log|].kind == e.kind && r[|log|].status == e.status && r[|log|].message == e.message && r[|log|].metadata == e.metadata
      && (log == [] ==> r[|log|].sequence == 1)
      && (log != [] && Increasing(log) ==> r[|log|].sequence == log[|log| - 1].sequence + 1)
  {
    if log != [] && Increasing(log) {
      LastIsMax(log);
    }
  }

  /** The record of an event holds each of its fields under its own name. */
  lemma DumpExactly(e: Event)
    ensures var record := Dump(e);
      && record.Object? && |record.entries| == 5
      && Get(record.entries, "sequence") == Number(e.sequence as real) && Get(record.entries, "type") == Text(e.kind)
      && Get(record.entries, "status") == Text(e.status) && Get(record.entries, "message") == Text(e.message)
      && Get(record.entries, "metadata") == e.metadata
  {
    var es := Dump(e).entries;
    assert es[0].key[0] == 's' && es[4].key[0] == 'm';
    assert |es[0].key| == 8 && |es[1].key| == 4 && |es[2].key| == 6 && |es[3].key| == 7 && |es[4].key| == 8;
    forall i | 0 <= i < 5 ensures Get(es, es[i].key) == es[i].value {
      assert FirstWith(es, es[i].key, i);
      GetExactly(es, es[i].key);
    }
    assert es[0].key == "sequence" && es[1].key == "type" && es[2].key == "status" && es[3].key == "message" && es[4].key == "metadata";
  }

  function After(cursor: int): Event -> bool {
    (e: Event) => e.sequence > cursor
  }

  /** `events(run, after_sequence=cursor, limit=limit)`: the oldest events after the cursor. */
  function Page(log: seq<Event>, cursor: int, limit: int): seq<Event> {
    Prefix(Filter(log, After(cursor)), if limit < 1 then 1 else if limit > 1000 then 1000 else limit)
  }

  predicate Subscribed(types: seq<string>, e: Event) {
    types == [] || e.kind in types
  }

  /** `_relevant_events` */
  function Relevant(types: seq<string>, events: seq<Event>): seq<Event> {
    if types == [] then events else Filter(events, (e: Event) => e.kind in types)
  }

  function StoredEvent(e: Event): Value {
    Sanitize(Dump(e))
  }

  function SubscribedUpTo(types: seq<string>, cursor: int): Event -> bool {
    (e: Event) => e.sequence <= cursor && Subscribed(types, e)
  }

  /** What a session that has read the log up to the cursor must have observed: every subscribed
      event of that part of the log, once and in order, in its stored form. */
  function ObservedUpTo(types: seq<string>, log: seq<Event>, cursor: int): seq<Value> {
    Map(Filter(log, SubscribedUpTo(types, cursor)), StoredEvent)
  }

  // ---------------------------------------------------------------- reading page by page

  lemma RelevantIsFilter(types: seq<string>, events: seq<Event>)
    ensures Relevant(types, events) == Filter(events, (e: Event) => Subscribed(types, e))
  {
    if types == [] {
      FilterAll(events, (e: Event) => Subscribed(types, e));
    } else {
      FilterAgree(events, (e: Event) => e.kind in types, (e: Event) => Subscribed(types, e));
    }
  }

  /** The cursor cuts an increasing log in two. */
  lemma {:induction false} CutAt(log: seq<Event>, cursor: int) returns (n: nat)
    requires Increasing(log)
    ensures n <= |log|
    ensures forall i :: 0 <= i < |log| ==> (log[i].sequence > cursor <==> n <= i)
    ensures Filter(log, After(cursor)) == log[n..]
  {
    n := |log|;
    while n > 0 && log[n - 1].sequence > cursor
      invariant n <= |log|
      invariant forall i :: n <= i < |log| ==> log[i].sequence > cursor
    {
      n := n - 1;
    }
    FilterSuffix(log, n, After(cursor));
  }

  lemma LastIsMax(events: seq<Event>)
    requires Increasing(events) && events != []
    ensures MaxSequence(events) == events[|events| - 1].sequence
  {
    var i :| 0 <= i < |events| && events[i].sequence == MaxSequence(events);
  }

  lemma FilterMoved(a: seq<Event>, b: seq<Event>, c: seq<Event>,
                    was: Event -> bool, now: Event -> bool, p: Event -> bool)
    requires forall i :: 0 <= i < |a| ==> was(a[i]) == now(a[i])
    requires forall i :: 0 <= i < |b| ==> !was(b[i]) && now(b[i]) == p(b[i])
    requires forall i :: 0 <= i < |c| ==> !was(c[i]) && !now(c[i])
    ensures Filter(a + b + c, now) == Filter(a + b + c, was) + Filter(b, p)
  {
    hide Filter;
    var kept, added := Filter(a, was), Filter(b, p);
    assert Filter(a + b + c, now) == kept + added by {
      FilterConcat3(a, b, c, now);
      FilterAgree(a, was, now);
      FilterAgree(b, now, p);
      FilterNone(c, now);
      assert kept + added + [] == kept + added;
    }
    assert Filter(a + b + c, was) == kept by {
      FilterConcat3(a, b, c, was);
      FilterNone(b, was);
      FilterNone(c, was);
      assert kept + [] + [] == kept;
    }
  }

  lemma PageIsSlice(log: seq<Event>, cursor: nat, limit: int) returns (n: nat, m: nat)
    requires Increasing(log) && Page(log, cursor, limit) != []
    ensures n < m <= |log| && Page(log, cursor, limit) == log[n..m]
    ensures Filter(log, After(cursor)) == log[n..]
    ensures MaxSequence(log[n..m]) == log[m - 1].sequence
    ensures forall i :: 0 <= i < n ==> log[i].sequence <= cursor
    ensures forall i :: n <= i < |log| ==> log[i].sequence > cursor
  {
    hide Filter;
    n := CutAt(log, cursor);
    m := n + |Page(log, cursor, limit)|;
    LastIsMax(log[n..m]);
  }

  lemma SliceObserved(types: seq<string>, log: seq<Event>, n: nat, m: nat, cursor: nat, last: nat)
    requires n <= m <= |log| && cursor <= last
    requires forall i :: 0 <= i < n ==> log[i].sequence <= cursor
    requires forall i :: n <= i < m ==> cursor < log[i].sequence <= last
    requires forall i :: m <= i < |log| ==> last < log[i].sequence
    ensures Filter(log, SubscribedUpTo(types, last))
         == Filter(log, SubscribedUpTo(types, cursor)) + Relevant(types, log[n..m])
  {
    hide Filter, Relevant;
    ThreeParts(log, n, m);
    FilterMoved(log[..n], log[n..m], log[m..], SubscribedUpTo(types, cursor), SubscribedUpTo(types, last),
                (e: Event) => Subscribed(types, e));
    RelevantIsFilter(types, log[n..m]);
  }

  /** Moving the cursor to the end of the next page observes exactly the subscribed events of
      that page, and skips nothing. */
  lemma PageObserves(types: seq<string>, log: seq<Event>, cursor: nat, limit: int)
    requires Increasing(log) && Page(log, cursor, limit) != []
    ensures var page := Page(log, cursor, limit);
      && MaxSequence(page) > cursor
      && MaxSequence(page) <= MaxSequence(log)
      && ObservedUpTo(types, log, MaxSequence(page))
           == ObservedUpTo(types, log, cursor) + Map(Relevant(types, page), StoredEvent)
  {
    hide Filter, StoredEvent, Relevant;
    var n, m := PageIsSlice(log, cursor, limit);
    SliceObserved(types, log, n, m, cursor, log[m - 1].sequence);
  }

  /** Growth of the log never touches what lies behind the cursor. */
  lemma AppendPreservesObserved(types: seq<string>, log: seq<Event>, e: Event, cursor: nat)
    requires cursor <= MaxSequence(log)
    ensures ObservedUpTo(types, Append(log, e), cursor) == ObservedUpTo(types, log, cursor)
    ensures MaxSequence(log) < MaxSequence(Append(log, e))
  {
    var p := SubscribedUpTo(types, cursor);
    var added := [e.(sequence := MaxSequence(log) + 1)];
    FilterConcat(log, added, p);
    assert Append(log, e)[|log|] == added[0];
  }

  /** How many events are still ahead of the cursor. */
  function Pending(log: seq<Event>, cursor: int): nat {
    |Filter(log, After(cursor))|
  }

  /** Each page takes `limit` events off the backlog, or all that are left. */
  lemma PageShrinksBacklog(log: seq<Event>, cursor: nat, limit: int)
    requires Increasing(log) && 1 <= limit <= 1000
    ensures var page := Page(log, cursor, limit);
      && |page| == (if Pending(log, cursor) < limit then Pending(log, cursor) else limit)
      && (page != [] ==> Pending(log, MaxSequence(page)) == Pending(log, cursor) - |page|)
  {
    hide Filter;
    if Page(log, cursor, limit) != [] {
      var n, m := PageIsSlice(log, cursor, limit);
      var l := CutAt(log, log[m - 1].sequence);
      assert l == m by {
        assert log[m - 1].sequence <= log[m - 1].sequence;
        assert m < |log| ==> log[m].sequence > log[m - 1].sequence;
      }
    }
  }

  /** A cursor further on has no more events ahead of it. */
  lemma {:induction false} PendingFalls(log: seq<Event>, cursor: int, later: int)
    requires cursor <= later
    ensures Pending(log, later) <= Pending(log, cursor)
  {
    if log != [] {
      PendingFalls(log[1..], cursor, later);
    }
  }
}
