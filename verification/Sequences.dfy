/** List operations shared by the services: filtering, order-preserving de-duplication and
    Python's stable `sorted`. */
module Sequences {

  function Filter<T>(s: seq<T>, p: T -> bool): (r: seq<T>)
    ensures |r| <= |s|
  {
    if s == [] then [] else (if p(s[0]) then [s[0]] else []) + Filter(s[1..], p)
  }

  lemma FilterCons<T>(x: T, s: seq<T>, p: T -> bool)
    ensures Filter([x] + s, p) == (if p(x) then [x] else []) + Filter(s, p)
  {
    assert ([x] + s)[1..] == s;
  }

  lemma {:induction false} FilterMembers<T(!new)>(s: seq<T>, p: T -> bool)
    ensures forall x :: x in Filter(s, p) <==> x in s && p(x)
  {
    if s != [] {
      FilterMembers(s[1..], p);
    }
  }

  lemma {:induction false} FilterConcat<T>(a: seq<T>, b: seq<T>, p: T -> bool)
    ensures Filter(a + b, p) == Filter(a, p) + Filter(b, p)
  {
    if a == [] {
      assert a + b == b;
    } else {
      var head := if p(a[0]) then [a[0]] else [];
      calc {
        Filter(a + b, p);
        { assert a + b == [a[0]] + (a[1..] + b); FilterCons(a[0], a[1..] + b, p); }
        head + Filter(a[1..] + b, p);
        { FilterConcat(a[1..], b, p); }
        head + (Filter(a[1..], p) + Filter(b, p));
        (head + Filter(a[1..], p)) + Filter(b, p);
      }
    }
  }

  /** Two predicates that agree on the elements of a list select the same sublist. */
  lemma {:induction false} FilterAgree<T>(s: seq<T>, p: T -> bool, q: T -> bool)
    requires forall i :: 0 <= i < |s| ==> p(s[i]) == q(s[i])
    ensures Filter(s, p) == Filter(s, q)
  {
    if s != [] {
      FilterAgree(s[1..], p, q);
    }
  }

  lemma {:induction false} FilterAll<T>(s: seq<T>, p: T -> bool)
    requires forall i :: 0 <= i < |s| ==> p(s[i])
    ensures Filter(s, p) == s
  {
    if s != [] {
      FilterAll(s[1..], p);
    }
  }

  lemma {:induction false} FilterNone<T>(s: seq<T>, p: T -> bool)
    requires forall i :: 0 <= i < |s| ==> !p(s[i])
    ensures Filter(s, p) == []
  {
    if s != [] {
      FilterNone(s[1..], p);
    }
  }

  lemma ThreeParts<T>(s: seq<T>, n: nat, m: nat)
    requires n <= m <= |s|
    ensures s == s[..n] + s[n..m] + s[m..]
  {
  }

  lemma FilterConcat3<T>(a: seq<T>, b: seq<T>, c: seq<T>, p: T -> bool)
    ensures Filter(a + b + c, p) == Filter(a, p) + Filter(b, p) + Filter(c, p)
  {
    FilterConcat(a + b, c, p);
    FilterConcat(a, b, p);
  }

  /** A predicate that holds exactly on s[n..] selects that part. */
  lemma FilterSuffix<T>(s: seq<T>, n: nat, p: T -> bool)
    requires n <= |s|
    requires forall i :: 0 <= i < |s| ==> p(s[i]) == (n <= i)
    ensures Filter(s, p) == s[n..]
  {
    assert Filter(s, p) == Filter(s[..n], p) + Filter(s[n..], p) by {
      FilterConcat(s[..n], s[n..], p);
      assert s == s[..n] + s[n..];
    }
    assert Filter(s[..n], p) == [] by {
      FilterNone(s[..n], p);
    }
    assert Filter(s[n..], p) == s[n..] by {
      FilterAll(s[n..], p);
    }
  }

  function Map<T, U>(s: seq<T>, f: T -> U): (r: seq<U>)
    ensures |r| == |s|
    ensures forall i :: 0 <= i < |s| ==> r[i] == f(s[i])
  {
    seq(|s|, i requires 0 <= i < |s| => f(s[i]))
  }

  /** Python's `s[:n]` for any integer n. */
  function Prefix<T>(s: seq<T>, n: int): seq<T> {
    if n >= |s| then s
    else if n >= 0 then s[..n]
    else if |s| + n >= 0 then s[..|s| + n]
    else []
  }

  /** The first elements of s, at most max of them. */
  function UpTo<T>(s: seq<T>, max: int): seq<T> {
    if max <= 0 then [] else if |s| <= max then s else s[..max]
  }

  ghost predicate Distinct<T>(s: seq<T>) {
    forall i, j :: 0 <= i < j < |s| ==> s[i] != s[j]
  }

  lemma {:induction false} DistinctCount<T>(s: seq<T>)
    requires Distinct(s)
    ensures |set x | x in s| == |s|
  {
    if s != [] {
      var init, last := s[..|s| - 1], s[|s| - 1];
      DistinctCount(init);
      assert (set x | x in s) == (set x | x in init) + {last};
    }
  }

  lemma {:induction false} SubsetSize<T>(a: set<T>, b: set<T>)
    requires a <= b
    ensures |a| <= |b|
  {
    if a != {} {
      var x :| x in a;
      SubsetSize(a - {x}, b - {x});
    }
  }

  /** `list(dict.fromkeys(s))`: the first occurrence of every element, in order. */
  function Dedup<T(==, !new)>(s: seq<T>): (r: seq<T>)
    ensures Distinct(r)
    ensures forall x :: x in r ==> x in s
    ensures forall x :: x in s ==> x in r
    ensures |r| <= |s|
    decreases |s|
  {
    if s == [] then []
    else
      var rest := Filter(s[1..], x => x != s[0]);
      FilterMembers(s[1..], x => x != s[0]);
      assert forall x :: x in s[1..] ==> x == s[0] || x in rest;
      var tail := Dedup(rest);
      assert forall i :: 0 <= i < |tail| ==> tail[i] in rest;
      [s[0]] + tail
  }

  /** The first occurrences keep their order. */
  lemma {:induction false} DedupOrder<T(!new)>(s: seq<T>)
    ensures forall i, j :: 0 <= i < j < |Dedup(s)| ==> Before(s, Dedup(s)[i], Dedup(s)[j])
    decreases |s|
  {
    if s != [] {
      var rest := Filter(s[1..], x => x != s[0]);
      FilterMembers(s[1..], x => x != s[0]);
      DedupOrder(rest);
      var r, tail := Dedup(s), Dedup(rest);
      assert r == [s[0]] + tail;
      forall i, j | 0 <= i < j < |r| ensures Before(s, r[i], r[j]) {
        assert r[j] == tail[j - 1] && tail[j - 1] in rest;
        if i == 0 {
          assert s[0] == r[0] && r[j] != s[0];
        } else {
          assert r[i] == tail[i - 1] && tail[i - 1] in rest && Before(rest, tail[i - 1], tail[j - 1]);
          BeforeFiltered(s[1..], x => x != s[0], r[i], r[j]);
          BeforeLater(s, r[i], r[j]);
        }
      }
    }
  }

  /** The element x stands in s, and y does not stand before its first place. */
  ghost predicate Before<T(!new)>(s: seq<T>, x: T, y: T) {
    exists k :: 0 <= k < |s| && s[k] == x && forall l :: 0 <= l <= k ==> s[l] != y
  }

  lemma {:induction false} BeforeFiltered<T(!new)>(s: seq<T>, p: T -> bool, x: T, y: T)
    requires Before(Filter(s, p), x, y) && p(y)
    ensures Before(s, x, y)
  {
    var kept := Filter(s, p);
    var k :| 0 <= k < |kept| && kept[k] == x && forall l :: 0 <= l <= k ==> kept[l] != y;
    var rest := Filter(s[1..], p);
    if p(s[0]) {
      assert kept == [s[0]] + rest && kept[0] != y;
      if k > 0 {
        assert forall l :: 0 <= l <= k - 1 ==> rest[l] == kept[l + 1];
        assert Before(rest, x, y);
        BeforeFiltered(s[1..], p, x, y);
        BeforeLater(s, x, y);
      }
    } else {
      assert kept == rest;
      BeforeFiltered(s[1..], p, x, y);
      BeforeLater(s, x, y);
    }
  }

  lemma BeforeLater<T(!new)>(s: seq<T>, x: T, y: T)
    requires s != [] && s[0] != y && Before(s[1..], x, y)
    ensures Before(s, x, y)
  {
    var k :| 0 <= k < |s[1..]| && s[1..][k] == x && forall l :: 0 <= l <= k ==> s[1..][l] != y;
    assert s[k + 1] == x;
    forall l | 0 <= l <= k + 1 ensures s[l] != y {
      assert l > 0 ==> s[l] == s[1..][l - 1];
    }
  }

  /** A slice `s[:n]` is the head of s of length n; a negative n counts from the end. */
  lemma PrefixExactly<T>(s: seq<T>, n: int)
    ensures Prefix(s, n) <= s
    ensures 0 <= n <= |s| ==> |Prefix(s, n)| == n
    ensures n > |s| ==> Prefix(s, n) == s
    ensures -|s| <= n < 0 ==> |Prefix(s, n)| == |s| + n
    ensures n < -|s| ==> Prefix(s, n) == []
  {
  }

  // ---------------------------------------------------------------- stable sorting

  ghost predicate TotalPreorder<T(!new)>(le: (T, T) -> bool) {
    && (forall x, y :: le(x, y) || le(y, x))
    && (forall x, y, z :: le(x, y) && le(y, z) ==> le(x, z))
  }

  ghost predicate Ordered<T>(s: seq<T>, le: (T, T) -> bool) {
    forall i, j :: 0 <= i < j < |s| ==> le(s[i], s[j])
  }

  function Insert<T>(x: T, s: seq<T>, le: (T, T) -> bool): seq<T> {
    if s == [] || le(x, s[0]) then [x] + s else [s[0]] + Insert(x, s[1..], le)
  }

  /** Python's `sorted`: ascending for `le`, ties kept in their original order. */
  function StableSort<T>(s: seq<T>, le: (T, T) -> bool): seq<T> {
    if s == [] then [] else Insert(s[0], StableSort(s[1..], le), le)
  }

  lemma {:induction false} InsertPermutes<T>(x: T, s: seq<T>, le: (T, T) -> bool)
    ensures multiset(Insert(x, s, le)) == multiset(s) + multiset{x}
    ensures |Insert(x, s, le)| == |s| + 1
    ensures forall y :: y in Insert(x, s, le) <==> y == x || y in s
  {
    if s != [] && !le(x, s[0]) {
      InsertPermutes(x, s[1..], le);
      assert s == [s[0]] + s[1..];
    }
  }

  lemma {:induction false} InsertOrdered<T(!new)>(x: T, s: seq<T>, le: (T, T) -> bool)
    requires TotalPreorder(le) && Ordered(s, le)
    ensures Ordered(Insert(x, s, le), le)
  {
    if s != [] && !le(x, s[0]) {
      InsertOrdered(x, s[1..], le);
      InsertPermutes(x, s[1..], le);
      var r := Insert(x, s[1..], le);
      forall j | 0 <= j < |r| ensures le(s[0], r[j]) {
        assert r[j] in r;
      }
    }
  }

  /** `sorted` returns a rearrangement of its input. */
  lemma {:induction false} SortPermutes<T>(s: seq<T>, le: (T, T) -> bool)
    ensures multiset(StableSort(s, le)) == multiset(s)
    ensures |StableSort(s, le)| == |s|
    ensures forall y :: y in StableSort(s, le) <==> y in s
  {
    if s != [] {
      SortPermutes(s[1..], le);
      InsertPermutes(s[0], StableSort(s[1..], le), le);
      assert s == [s[0]] + s[1..];
    }
  }

  lemma {:induction false} SortOrdered<T(!new)>(s: seq<T>, le: (T, T) -> bool)
    requires TotalPreorder(le)
    ensures Ordered(StableSort(s, le), le)
  {
    if s != [] {
      SortOrdered(s[1..], le);
      InsertOrdered(s[0], StableSort(s[1..], le), le);
    }
  }

  lemma OrderedHead<T(!new)>(x: T, s: seq<T>, le: (T, T) -> bool)
    requires TotalPreorder(le) && Ordered(s, le)
    requires s == [] || le(x, s[0])
    ensures forall y :: y in s ==> le(x, y)
  {
    forall y | y in s ensures le(x, y) {
      var i :| 0 <= i < |s| && s[i] == y;
      if i > 0 {
        assert le(s[0], s[i]);
      }
    }
  }

  lemma InsertFront<T>(x: T, s: seq<T>, le: (T, T) -> bool)
    requires forall y :: y in s ==> le(x, y)
    ensures Insert(x, s, le) == [x] + s
  {
    assert s != [] ==> s[0] in s;
  }

  lemma InsertFilterFront<T(!new)>(x: T, s: seq<T>, le: (T, T) -> bool, p: T -> bool)
    requires forall y :: y in s ==> le(x, y)
    ensures Filter(Insert(x, s, le), p)
         == if p(x) then Insert(x, Filter(s, p), le) else Filter(s, p)
  {
    InsertFront(x, s, le);
    FilterCons(x, s, p);
    FilterMembers(s, p);
    InsertFront(x, Filter(s, p), le);
    assert [] + Filter(s, p) == Filter(s, p);
  }

  lemma InsertPastHead<T>(x: T, head: T, rest: seq<T>, le: (T, T) -> bool)
    requires !le(x, head)
    ensures Insert(x, [head] + rest, le) == [head] + Insert(x, rest, le)
  {
    assert ([head] + rest)[1..] == rest;
  }

  lemma {:induction false} InsertFilterStep<T>(x: T, head: T, rest: seq<T>, le: (T, T) -> bool, p: T -> bool)
    requires !le(x, head)
    requires Filter(Insert(x, rest, le), p)
          == if p(x) then Insert(x, Filter(rest, p), le) else Filter(rest, p)
    ensures Filter(Insert(x, [head] + rest, le), p)
         == if p(x) then Insert(x, Filter([head] + rest, p), le) else Filter([head] + rest, p)
  {
    var kept := Filter(rest, p);
    calc {
      Filter(Insert(x, [head] + rest, le), p);
      { InsertPastHead(x, head, rest, le); }
      Filter([head] + Insert(x, rest, le), p);
      { FilterCons(head, Insert(x, rest, le), p); }
      (if p(head) then [head] else []) + (if p(x) then Insert(x, kept, le) else kept);
    }
    FilterCons(head, rest, p);
    if p(head) {
      InsertPastHead(x, head, kept, le);
    } else {
      assert [] + kept == kept;
      assert [] + Insert(x, kept, le) == Insert(x, kept, le);
    }
  }

  lemma {:induction false} InsertFilter<T(!new)>(x: T, s: seq<T>, le: (T, T) -> bool, p: T -> bool)
    requires TotalPreorder(le) && Ordered(s, le)
    ensures Filter(Insert(x, s, le), p)
         == if p(x) then Insert(x, Filter(s, p), le) else Filter(s, p)
  {
    if s == [] || le(x, s[0]) {
      OrderedHead(x, s, le);
      InsertFilterFront(x, s, le, p);
    } else {
      InsertFilter(x, s[1..], le, p);
      InsertFilterStep(x, s[0], s[1..], le, p);
      assert s == [s[0]] + s[1..];
    }
  }

  /** Ranking and then filtering is the same as filtering and then ranking. */
  lemma {:induction false} SortFilterCommute<T(!new)>(s: seq<T>, le: (T, T) -> bool, p: T -> bool)
    requires TotalPreorder(le)
    ensures Filter(StableSort(s, le), p) == StableSort(Filter(s, p), le)
  {
    if s != [] {
      SortFilterCommute(s[1..], le, p);
      SortOrdered(s[1..], le);
      InsertFilter(s[0], StableSort(s[1..], le), le, p);
      var rest := Filter(s[1..], p);
      assert p(s[0]) ==> Filter(s, p) == [s[0]] + rest && ([s[0]] + rest)[1..] == rest;
      assert !p(s[0]) ==> Filter(s, p) == rest;
    }
  }

  lemma {:induction false} SortOfOrdered<T>(s: seq<T>, le: (T, T) -> bool)
    requires Ordered(s, le)
    ensures StableSort(s, le) == s
  {
    if |s| > 1 {
      SortOfOrdered(s[1..], le);
    }
  }

  /** Stability: any group of mutually tied elements keeps its original order. */
  lemma SortStable<T(!new)>(s: seq<T>, le: (T, T) -> bool, p: T -> bool)
    requires TotalPreorder(le)
    requires forall x, y :: p(x) && p(y) ==> le(x, y)
    ensures Filter(StableSort(s, le), p) == Filter(s, p)
  {
    SortFilterCommute(s, le, p);
    FilterMembers(s, p);
    SortOfOrdered(Filter(s, p), le);
  }

  lemma OrderedHeads<T(!new)>(a: seq<T>, b: seq<T>, le: (T, T) -> bool)
    requires a != [] && b != [] && Ordered(a, le) && Ordered(b, le) && multiset(a) == multiset(b)
    requires TotalPreorder(le)
    ensures le(a[0], b[0]) && le(b[0], a[0])
  {
    assert a[0] in multiset(b) && b[0] in multiset(a);
    var i :| 0 <= i < |b| && b[i] == a[0];
    var j :| 0 <= j < |a| && a[j] == b[0];
    assert le(a[0], a[0]) && le(b[0], b[0]);
  }

  lemma TailMultiset<T>(s: seq<T>)
    requires s != []
    ensures multiset(s[1..]) == multiset(s) - multiset{s[0]}
  {
    assert s == [s[0]] + s[1..];
  }

  ghost predicate NoTies<T>(s: seq<T>, le: (T, T) -> bool) {
    forall i, j :: 0 <= i < |s| && 0 <= j < |s| && le(s[i], s[j]) && le(s[j], s[i]) ==> s[i] == s[j]
  }

  lemma NoTiesPermuted<T>(a: seq<T>, b: seq<T>, le: (T, T) -> bool)
    requires NoTies(a, le) && multiset(a) == multiset(b)
    ensures NoTies(b, le)
  {
    forall i, j | 0 <= i < |b| && 0 <= j < |b| && le(b[i], b[j]) && le(b[j], b[i])
      ensures b[i] == b[j]
    {
      assert b[i] in multiset(a) && b[j] in multiset(a);
      var k :| 0 <= k < |a| && a[k] == b[i];
      var l :| 0 <= l < |a| && a[l] == b[j];
    }
  }

  /** An order without ties makes the sorted list depend only on the elements, not on their order. */
  lemma {:induction false} OrderedUnique<T(!new)>(a: seq<T>, b: seq<T>, le: (T, T) -> bool)
    requires Ordered(a, le) && Ordered(b, le) && multiset(a) == multiset(b)
    requires NoTies(a, le) && TotalPreorder(le)
    ensures a == b
  {
    assert |a| == |multiset(a)| == |multiset(b)| == |b|;
    if a != [] {
      OrderedHeads(a, b, le);
      var i :| 0 <= i < |a| && a[i] == b[0] by {
        assert b[0] in multiset(a);
      }
      assert a[0] == b[0];
      TailMultiset(a);
      TailMultiset(b);
      OrderedUnique(a[1..], b[1..], le);
    }
  }

  lemma SortIgnoresOrder<T(!new)>(a: seq<T>, b: seq<T>, le: (T, T) -> bool)
    requires TotalPreorder(le) && multiset(a) == multiset(b)
    requires NoTies(a, le)
    ensures StableSort(a, le) == StableSort(b, le)
  {
    SortPermutes(a, le);
    SortPermutes(b, le);
    NoTiesPermuted(a, StableSort(a, le), le);
    SortOrdered(a, le);
    SortOrdered(b, le);
    OrderedUnique(StableSort(a, le), StableSort(b, le), le);
  }

  // ---------------------------------------------------------------- strings

  /** Python's `word in s`. */
  predicate Contains(s: string, word: string) {
    word <= s || (s != [] && Contains(s[1..], word))
  }

  predicate StandsAt(s: string, word: string, i: int) {
    0 <= i <= |s| - |word| && s[i..i + |word|] == word
  }

  lemma {:induction false} StandsThere(s: string, word: string, i: nat)
    requires StandsAt(s, word, i)
    ensures Contains(s, word)
  {
    if i > 0 {
      assert s[1..][i - 1..i - 1 + |word|] == s[i..i + |word|];
      StandsThere(s[1..], word, i - 1);
    }
  }

  lemma {:induction false} FoundAt(s: string, word: string) returns (i: nat)
    requires Contains(s, word)
    ensures StandsAt(s, word, i)
  {
    if word <= s {
      i := 0;
    } else {
      var n := FoundAt(s[1..], word);
      i := n + 1;
      assert s[i..i + |word|] == s[1..][n..n + |word|];
    }
  }

  /** The word stands somewhere in the text. */
  lemma ContainsExactly(s: string, word: string)
    ensures Contains(s, word) <==> exists i :: StandsAt(s, word, i)
  {
    hide Contains, StandsAt;
    if Contains(s, word) {
      var i := FoundAt(s, word);
    }
    if i :| StandsAt(s, word, i) {
      StandsFrom(s, word, i);
    }
  }

  lemma StandsFrom(s: string, word: string, i: int)
    requires StandsAt(s, word, i)
    ensures Contains(s, word)
  {
    StandsThere(s, word, i);
  }

  predicate EndsWith(s: string, suffix: string) {
    |suffix| <= |s| && s[|s| - |suffix|..] == suffix
  }

  /** Python's string order: by code point, a proper prefix first. */
  predicate StringLe(a: string, b: string) {
    a == [] || (b != [] && (a[0] < b[0] || (a[0] == b[0] && StringLe(a[1..], b[1..]))))
  }

  lemma {:induction false} StringLeTotal(a: string, b: string)
    ensures StringLe(a, b) || StringLe(b, a)
    ensures StringLe(a, b) && StringLe(b, a) ==> a == b
  {
    if a != [] && b != [] && a[0] == b[0] {
      StringLeTotal(a[1..], b[1..]);
    }
  }

  /** The strings agree before position i, where a ends or shows the smaller character. */
  ghost predicate SmallerAt(a: string, b: string, i: int) {
    && 0 <= i <= |a| && i <= |b| && a[..i] == b[..i]
    && (i == |a| || (i < |b| && a[i] < b[i]))
  }

  lemma SmallerHead(a: string, b: string, i: int)
    ensures SmallerAt(a, b, i) && i > 0 ==> b != [] && a[0] == b[0]
  {
    if SmallerAt(a, b, i) && i > 0 {
      assert a[0] == a[..i][0] == b[..i][0] == b[0];
    }
  }

  lemma {:induction false} StringLeExactly(a: string, b: string)
    ensures StringLe(a, b) <==> exists i :: SmallerAt(a, b, i)
  {
    if a == [] {
      assert SmallerAt(a, b, 0);
    } else if b == [] || a[0] != b[0] {
      assert SmallerAt(a, b, 0) <==> StringLe(a, b);
      forall i ensures SmallerAt(a, b, i) ==> i == 0 {
        SmallerHead(a, b, i);
      }
    } else {
      StringLeExactly(a[1..], b[1..]);
      if i :| SmallerAt(a, b, i) {
        assert i > 0;
        assert a[1..][..i - 1] == a[..i][1..] && b[1..][..i - 1] == b[..i][1..];
        assert SmallerAt(a[1..], b[1..], i - 1);
      }
      if i :| SmallerAt(a[1..], b[1..], i) {
        assert a[..i + 1] == [a[0]] + a[1..][..i] && b[..i + 1] == [b[0]] + b[1..][..i];
        assert SmallerAt(a, b, i + 1);
      }
    }
  }

  lemma {:induction false} StringLeTransitive(a: string, b: string, c: string)
    requires StringLe(a, b) && StringLe(b, c)
    ensures StringLe(a, c)
  {
    if a != [] && a[0] == b[0] == c[0] {
      StringLeTransitive(a[1..], b[1..], c[1..]);
    }
  }
}
