/** The search for a truthy flag anywhere in a nested contract. */
module NestedSearch {
  import opened JsonValues
  import opened Sequences

  /** v holds one of the keys with a truthy value, at any depth. */
  predicate Holds(v: Value, keys: set<string>)
    decreases v
  {
    match v
    case Array(items) => exists i :: 0 <= i < |items| && Holds(items[i], keys)
    case Object(es) => exists i :: 0 <= i < |es| && (Hit(es[i], keys) || Holds(es[i].value, keys))
    case _ => false
  }

  predicate Hit(e: Entry, keys: set<string>) {
    e.key in keys && Truthy(e.value)
  }

  predicate AnyHolds(pending: seq<Value>, keys: set<string>) {
    exists i :: 0 <= i < |pending| && Holds(pending[i], keys)
  }

  function Values(es: seq<Entry>): seq<Value> {
    Map(es, (e: Entry) => e.value)
  }

  // ---------------------------------------------------------------- reachability

  function Child(v: Value, i: nat): Option<Value> {
    match v
    case Array(items) => if i < |items| then Some(items[i]) else None
    case Object(es) => if i < |es| then Some(es[i].value) else None
    case _ => None
  }

  /** The value found by following child positions from v. */
  function At(v: Value, path: seq<nat>): Option<Value>
    decreases |path|
  {
    if path == [] then Some(v)
    else
      var c := Child(v, path[0]);
      if c.None? then None else At(c.value, path[1..])
  }

  ghost predicate HitAt(v: Value, path: seq<nat>, keys: set<string>) {
    At(v, path).Some? && At(v, path).value.Object?
    && exists i :: 0 <= i < |At(v, path).value.entries| && Hit(At(v, path).value.entries[i], keys)
  }

  lemma {:induction false} HoldsReaches(v: Value, keys: set<string>) returns (path: seq<nat>)
    requires Holds(v, keys)
    ensures HitAt(v, path, keys)
    decreases v
  {
    match v
    case Array(items) =>
      var i :| 0 <= i < |items| && Holds(items[i], keys);
      var rest := HoldsReaches(items[i], keys);
      path := [i as nat] + rest;
      assert path[1..] == rest;
    case Object(es) =>
      var i :| 0 <= i < |es| && (Hit(es[i], keys) || Holds(es[i].value, keys));
      if Hit(es[i], keys) {
        path := [];
      } else {
        var rest := HoldsReaches(es[i].value, keys);
        path := [i as nat] + rest;
        assert path[1..] == rest;
      }
  }

  lemma {:induction false} ReachesHolds(v: Value, path: seq<nat>, keys: set<string>)
    requires HitAt(v, path, keys)
    ensures Holds(v, keys)
    decreases |path|
  {
    if path != [] {
      ReachesHolds(Child(v, path[0]).value, path[1..], keys);
      match v
      case Array(items) => assert Holds(items[path[0]], keys);
      case Object(es) => assert Holds(es[path[0]].value, keys);
    }
  }

  /** Some dictionary reachable through dictionary values and lists holds a key with a truthy value
      exactly when the recursive search says so. */
  lemma HoldsIffReachable(v: Value, keys: set<string>)
    ensures Holds(v, keys) <==> exists path :: HitAt(v, path, keys)
  {
    if Holds(v, keys) {
      var path := HoldsReaches(v, keys);
    }
    forall path | HitAt(v, path, keys) ensures Holds(v, keys) {
      ReachesHolds(v, path, keys);
    }
  }

  // ---------------------------------------------------------------- the worklist

  /** Number of values in v, itself included. */
  ghost function Size(v: Value): (n: nat)
    ensures n > 0
    decreases v, 1
  {
    match v
    case Array(items) => 1 + SizeAll(items)
    case Object(es) => 1 + SizeEntries(es)
    case _ => 1
  }

  ghost function SizeAll(items: seq<Value>): nat
    decreases items, 0
  {
    if items == [] then 0 else Size(items[0]) + SizeAll(items[1..])
  }

  ghost function SizeEntries(es: seq<Entry>): nat
    decreases es, 0
  {
    if es == [] then 0 else Size(es[0].value) + SizeEntries(es[1..])
  }

  lemma {:induction false} SizeAllConcat(a: seq<Value>, b: seq<Value>)
    ensures SizeAll(a + b) == SizeAll(a) + SizeAll(b)
  {
    if a == [] {
      assert a + b == b;
    } else {
      assert (a + b)[1..] == a[1..] + b;
      SizeAllConcat(a[1..], b);
    }
  }

  lemma {:induction false} SizeOfValues(es: seq<Entry>)
    ensures SizeAll(Values(es)) == SizeEntries(es)
  {
    if es != [] {
      assert Values(es)[1..] == Values(es[1..]);
      SizeOfValues(es[1..]);
    }
  }

  lemma SizeOfLast(pending: seq<Value>)
    requires pending != []
    ensures SizeAll(pending) == SizeAll(pending[..|pending| - 1]) + Size(pending[|pending| - 1])
  {
    var last := pending[|pending| - 1];
    assert pending == pending[..|pending| - 1] + [last];
    SizeAllConcat(pending[..|pending| - 1], [last]);
    assert [last][1..] == [];
  }

  lemma AnyHoldsConcat(a: seq<Value>, b: seq<Value>, keys: set<string>)
    ensures AnyHolds(a + b, keys) <==> AnyHolds(a, keys) || AnyHolds(b, keys)
  {
    if AnyHolds(a, keys) {
      var i :| 0 <= i < |a| && Holds(a[i], keys);
      assert (a + b)[i] == a[i];
    }
    if AnyHolds(b, keys) {
      var i :| 0 <= i < |b| && Holds(b[i], keys);
      assert (a + b)[|a| + i] == b[i];
    }
  }

  lemma AnyHoldsOne(v: Value, keys: set<string>)
    ensures AnyHolds([v], keys) <==> Holds(v, keys)
  {
    assert [v][0] == v;
  }

  lemma ObjectHolds(es: seq<Entry>, keys: set<string>)
    requires forall i :: 0 <= i < |es| ==> !Hit(es[i], keys)
    ensures Holds(Object(es), keys) <==> AnyHolds(Values(es), keys)
  {
    assert forall i :: 0 <= i < |es| ==> Values(es)[i] == es[i].value;
  }

  /** Replacing the last pending value by its children keeps the answer. */
  lemma Expanded(pending: seq<Value>, rest: seq<Value>, current: Value, children: seq<Value>, keys: set<string>)
    requires pending == rest + [current]
    requires Holds(current, keys) <==> AnyHolds(children, keys)
    ensures AnyHolds(rest + children, keys) <==> AnyHolds(pending, keys)
  {
    AnyHoldsConcat(rest, [current], keys);
    AnyHoldsOne(current, keys);
    AnyHoldsConcat(rest, children, keys);
  }

  lemma HitHolds(es: seq<Entry>, i: nat, pending: seq<Value>, rest: seq<Value>, keys: set<string>)
    requires pending == rest + [Object(es)] && i < |es| && Hit(es[i], keys)
    ensures AnyHolds(pending, keys)
  {
    AnyHoldsConcat(rest, [Object(es)], keys);
    AnyHoldsOne(Object(es), keys);
  }

  /** `_truthy_nested` */
  method TruthyNested(source: seq<Entry>, keys: set<string>) returns (found: bool)
    ensures found <==> Holds(Object(source), keys)
  {
    hide Holds, AnyHolds, Size, SizeAll, SizeEntries;
    var pending := [Object(source)];
    AnyHoldsOne(Object(source), keys);
    while pending != []
      invariant AnyHolds(pending, keys) <==> Holds(Object(source), keys)
      decreases SizeAll(pending)
    {
      var current := pending[|pending| - 1];
      ghost var before := pending;
      SizeOfLast(pending);
      pending := pending[..|pending| - 1];
      ghost var rest := pending;
      assert before == rest + [current];
      if current.Object? {
        var es := current.entries;
        for i := 0 to |es|
          invariant pending == rest + Values(es[..i])
          invariant forall k :: 0 <= k < i ==> !Hit(es[k], keys)
        {
          if es[i].key in keys && Truthy(es[i].value) {
            HitHolds(es, i, before, rest, keys);
            return true;
          }
          pending := pending + [es[i].value];
          assert Values(es[..i + 1]) == Values(es[..i]) + [es[i].value];
        }
        assert es[..|es|] == es;
        ObjectHolds(es, keys);
        Expanded(before, rest, current, Values(es), keys);
        SizeAllConcat(rest, Values(es));
        SizeOfValues(es);
        SizeUnfold(current);
      } else if current.Array? {
        pending := pending + current.items;
        ArrayHolds(current.items, keys);
        Expanded(before, rest, current, current.items, keys);
        SizeAllConcat(rest, current.items);
        SizeUnfold(current);
      } else {
        ScalarHolds(current, keys);
        Expanded(before, rest, current, [], keys);
        assert rest + [] == rest;
      }
    }
    NothingHolds(keys);
    return false;
  }

  lemma SizeUnfold(v: Value)
    ensures v.Object? ==> Size(v) == 1 + SizeEntries(v.entries)
    ensures v.Array? ==> Size(v) == 1 + SizeAll(v.items)
  {
  }

  lemma ArrayHolds(items: seq<Value>, keys: set<string>)
    ensures Holds(Array(items), keys) <==> AnyHolds(items, keys)
  {
  }

  lemma ScalarHolds(v: Value, keys: set<string>)
    requires !v.Object? && !v.Array?
    ensures Holds(v, keys) <==> AnyHolds([], keys)
  {
  }

  lemma NothingHolds(keys: set<string>)
    ensures !AnyHolds([], keys)
  {
  }
}
