/** Recognition of known semantic patterns: weighted scores, rounding, ranking and the cut. */
module PatternRanking {
  import opened JsonValues
  import opened Sequences

  datatype Trust = LowTrust | MediumTrust | HighTrust

  datatype Pattern = Pattern(
    id: string, conceptId: string, trust: Trust, intent: string, scope: string,
    constraints: map<string, Value>, outputs: set<string>)

  datatype Normalized = Normalized(intent: string, scope: string, constraints: map<string, Value>, outputs: set<string>)

  datatype Match = Match(pattern: Pattern, confidence: real, promptUsed: bool, modifiesRuntime: bool)

  /** Python's equality of two constraint values. */
  type Same = (Value, Value) -> bool

  function Hits(p: Pattern, q: Normalized, same: Same): set<string> {
    set k | k in p.constraints && same(if k in q.constraints then q.constraints[k] else Null, p.constraints[k])
  }

  function ConstraintShare(p: Pattern, q: Normalized, same: Same): real {
    if p.constraints == map[] then 0.0
    else 0.15 * (|Hits(p, q, same)| as real / |p.constraints| as real)
  }

  function TrustWeight(t: Trust): real {
    match t
    case LowTrust => 0.02
    case MediumTrust => 0.06
    case HighTrust => 0.1
  }

  /** `SemanticPatternScorer.score` */
  function Score(p: Pattern, q: Normalized, same: Same): real {
    var total := (if q.intent == p.intent then 0.45 else 0.0)
      + (if q.scope == p.scope then 0.2 else 0.0)
      + ConstraintShare(p, q, same)
      + (if p.outputs * q.outputs != {} then 0.1 else 0.0)
      + TrustWeight(p.trust);
    if total < 0.99 then total else 0.99
  }

  /** Rounding to two decimals moves a score by at most half a hundredth. */
  ghost predicate RoundsToCents(round: real -> real) {
    forall x :: x - 0.005 <= round(x) <= x + 0.005
  }

  function MatchOf(p: Pattern, q: Normalized, same: Same, round: real -> real): Match {
    Match(p, round(Score(p, q, same)), false, false)
  }

  /** `SemanticPatternValidator.validate` gives no error. */
  predicate Valid(m: Match) {
    !m.promptUsed && !m.modifiesRuntime && 0.0 <= m.confidence <= 1.0
  }

  /** The sort key `(-confidence, concept_id)`. */
  function Stronger(): (Match, Match) -> bool {
    (a: Match, b: Match) =>
      a.confidence > b.confidence || (a.confidence == b.confidence && StringLe(a.pattern.conceptId, b.pattern.conceptId))
  }

  function Limit(requested: int): (n: int)
    ensures 1 <= n <= 100
  {
    if requested < 1 then 1 else if requested > 100 then 100 else requested
  }

  lemma ShareBounded(p: Pattern, q: Normalized, same: Same)
    ensures 0.0 <= ConstraintShare(p, q, same) <= 0.15
  {
    if p.constraints != map[] {
      var hits, all := Hits(p, q, same), p.constraints.Keys;
      assert hits <= all;
      SubsetSize(hits, all);
      assert |all| == |p.constraints| > 0;
      Fraction(|hits|, |all|);
    }
  }

  lemma Fraction(n: nat, d: nat)
    requires n <= d && d > 0
    ensures 0.0 <= n as real / d as real <= 1.0
  {
  }

  /** The weights leave a gap: a score with intent and scope is at least 0.67, one without the
      intent at most 0.55, and every score lies in 0.02..0.99. */
  lemma ScoreGap(p: Pattern, q: Normalized, same: Same)
    ensures 0.02 <= Score(p, q, same) <= 0.99
    ensures q.intent == p.intent && q.scope == p.scope ==> Score(p, q, same) >= 0.67
    ensures q.intent != p.intent ==> Score(p, q, same) <= 0.55
  {
    ShareBounded(p, q, same);
  }

  lemma StrongerPreorder()
    ensures TotalPreorder(Stronger())
  {
    forall a: Match, b: Match ensures Stronger()(a, b) || Stronger()(b, a) {
      StringLeTotal(a.pattern.conceptId, b.pattern.conceptId);
    }
    forall a: Match, b: Match, c: Match | Stronger()(a, b) && Stronger()(b, c) ensures Stronger()(a, c) {
      if a.confidence == b.confidence == c.confidence {
        StringLeTransitive(a.pattern.conceptId, b.pattern.conceptId, c.pattern.conceptId);
      }
    }
  }

  /** All patterns, ranked. */
  function Ranked(patterns: seq<Pattern>, q: Normalized, same: Same, round: real -> real): seq<Match> {
    StableSort(Map(patterns, p => MatchOf(p, q, same, round)), Stronger())
  }

  /** `SemanticPatternEngine.recognize`: neither the score filter nor the validator ever drops a
      pattern, so the matches are the ranked patterns cut to the limit. */
  method Recognize(patterns: seq<Pattern>, q: Normalized, requested: int, same: Same, round: real -> real)
    returns (matches: seq<Match>)
    requires RoundsToCents(round)
    ensures matches == Prefix(Ranked(patterns, q, same, round), Limit(requested))
    ensures |matches| == if |patterns| < Limit(requested) then |patterns| else Limit(requested)
  {
    hide Score, StableSort;
    matches := [];
    for i := 0 to |patterns|
      invariant matches == Map(patterns[..i], p => MatchOf(p, q, same, round))
    {
      var confidence := round(Score(patterns[i], q, same));
      ScoreGap(patterns[i], q, same);
      var found := Match(patterns[i], confidence, false, false);
      if confidence > 0.0 && Valid(found) {
        matches := matches + [found];
      }
    }
    assert patterns[..|patterns|] == patterns;
    SortPermutes(matches, Stronger());
    matches := Prefix(StableSort(matches, Stronger()), Limit(requested));
  }

  ghost predicate FullMatch(p: Pattern, q: Normalized) {
    q.intent == p.intent && q.scope == p.scope
  }

  lemma RankedMembers(patterns: seq<Pattern>, q: Normalized, same: Same, round: real -> real)
    ensures var ranked := Ranked(patterns, q, same, round);
      && |ranked| == |patterns|
      && (forall p :: p in patterns ==> MatchOf(p, q, same, round) in ranked)
      && (forall m :: m in ranked ==> m == MatchOf(m.pattern, q, same, round))
      && Ordered(ranked, Stronger())
  {
    hide StableSort, Score;
    var unsorted := Map(patterns, p => MatchOf(p, q, same, round));
    StrongerPreorder();
    SortPermutes(unsorted, Stronger());
    SortOrdered(unsorted, Stronger());
    forall p | p in patterns ensures MatchOf(p, q, same, round) in unsorted {
      var i :| 0 <= i < |patterns| && patterns[i] == p;
      assert unsorted[i] == MatchOf(p, q, same, round);
    }
  }

  /** A pattern that matches intent and scope ranks strictly above every pattern that misses the
      intent, whatever the constraints and the rounding. */
  lemma FullMatchRanksAbove(patterns: seq<Pattern>, q: Normalized, same: Same, round: real -> real, i: nat, j: nat)
    requires RoundsToCents(round)
    requires i < |Ranked(patterns, q, same, round)| && j < |Ranked(patterns, q, same, round)|
    requires FullMatch(Ranked(patterns, q, same, round)[i].pattern, q)
    requires Ranked(patterns, q, same, round)[j].pattern.intent != q.intent
    ensures i < j
  {
    hide Score, Ranked;
    var ranked := Ranked(patterns, q, same, round);
    RankedMembers(patterns, q, same, round);
    var a, b := ranked[i], ranked[j];
    assert a in ranked && b in ranked;
    ScoreGap(a.pattern, q, same);
    ScoreGap(b.pattern, q, same);
    assert a.confidence > b.confidence;
    assert j < i ==> Stronger()(b, a);
  }

  /** A pattern that misses the intent is returned only when every full match is returned too. */
  lemma MissNeverDisplacesMatch(patterns: seq<Pattern>, q: Normalized, requested: int, same: Same, round: real -> real,
                                miss: Match, p: Pattern)
    requires RoundsToCents(round)
    requires miss in Prefix(Ranked(patterns, q, same, round), Limit(requested)) && miss.pattern.intent != q.intent
    requires p in patterns && FullMatch(p, q)
    ensures MatchOf(p, q, same, round) in Prefix(Ranked(patterns, q, same, round), Limit(requested))
  {
    hide Score, Ranked;
    var ranked := Ranked(patterns, q, same, round);
    var cut := Prefix(ranked, Limit(requested));
    RankedMembers(patterns, q, same, round);
    var j :| 0 <= j < |cut| && cut[j] == miss;
    var i :| 0 <= i < |ranked| && ranked[i] == MatchOf(p, q, same, round);
    FullMatchRanksAbove(patterns, q, same, round, i, j);
    assert cut[i] == ranked[i];
  }

  // ---------------------------------------------------------------- the score and the order, exactly

  /** The constraints of the pattern that the request meets; a missing one counts as None. */
  ghost function Met(p: Pattern, q: Normalized, same: Same): set<string> {
    set k | k in p.constraints
      && ((k in q.constraints && same(q.constraints[k], p.constraints[k])) || (k !in q.constraints && same(Null, p.constraints[k])))
  }

  ghost function Points(yes: bool, points: real): real {
    if yes then points else 0.0
  }

  /** Intent, scope, the share of met constraints, a common output and the trust in the entry add up to
      the score, which is cut at 0.99. */
  lemma ScoreExactly(p: Pattern, q: Normalized, same: Same, constraints: real)
    requires p.constraints == map[] ==> constraints == 0.0
    requires p.constraints != map[] ==> constraints == 0.15 * (|Met(p, q, same)| as real / |p.constraints| as real)
    ensures var sum := Points(q.intent == p.intent, 0.45) + Points(q.scope == p.scope, 0.2) + constraints
        + Points(exists o :: o in p.outputs && o in q.outputs, 0.1)
        + Points(p.trust == LowTrust, 0.02) + Points(p.trust == MediumTrust, 0.06) + Points(p.trust == HighTrust, 0.1);
      (sum <= 0.99 ==> Score(p, q, same) == sum) && (sum > 0.99 ==> Score(p, q, same) == 0.99)
  {
    assert Met(p, q, same) == Hits(p, q, same);
    if o :| o in p.outputs && o in q.outputs {
      assert o in p.outputs * q.outputs;
    } else {
      assert p.outputs * q.outputs == {};
    }
  }

  /** The result lists every pattern once with its rounded score, best first, and equal scores by
      concept; a number of results from 1 to 100 is taken as it is. */
  lemma RankedExactly(patterns: seq<Pattern>, q: Normalized, same: Same, round: real -> real)
    ensures var r := Ranked(patterns, q, same, round);
      && multiset(r) == multiset(Map(patterns, p => MatchOf(p, q, same, round)))
      && forall i, j :: 0 <= i < j < |r| ==>
           && r[i].confidence >= r[j].confidence
           && (r[i].confidence == r[j].confidence ==> StringLe(r[i].pattern.conceptId, r[j].pattern.conceptId))
  {
    hide StableSort, MatchOf;
    var unsorted := Map(patterns, p => MatchOf(p, q, same, round));
    StrongerPreorder();
    SortPermutes(unsorted, Stronger());
    SortOrdered(unsorted, Stronger());
    var r := Ranked(patterns, q, same, round);
    assert forall i, j :: 0 <= i < j < |r| ==> Stronger()(r[i], r[j]);
  }

  lemma LimitExactly(requested: int)
    ensures 1 <= requested <= 100 ==> Limit(requested) == requested
    ensures requested < 1 ==> Limit(requested) == 1
    ensures requested > 100 ==> Limit(requested) == 100
  {
  }
}
