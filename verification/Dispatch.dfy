/**
 The dispatch ranking. Measurements are reals and scores, which the source rounds to four decimals, are integers in
 units of 0.0001.
 */
module Dispatch {
  import opened Prelude

  datatype Candidate = Candidate(id: int, rating: Option<real>, acceptance: Option<real>, completion: Option<real>,
                                 distanceKm: Option<real>, etaMinutes: Option<real>, earnings: Option<real>)

  datatype Scored = Scored(candidate: Candidate, score: int)

  datatype Recommendation = Recommendation(driver: Option<int>, ranked: seq<Scored>, batching: bool)

  /** One, in units of 0.0001, and the threshold for batching. */
  const UNIT := 10000
  const BATCHING_SCORE := 6200

  function OrZero(x: Option<real>): real { if x.Some? then x.value else 0.0 }

  function Clamped(value: real, max: real): (r: real)
    requires max > 0.0
    ensures 0.0 <= r <= 1.0
  {
    if value / max < 0.0 then 0.0 else if value / max > 1.0 then 1.0 else value / max
  }

  function RawScore(c: Candidate): (r: real)
    ensures 0.0 <= r <= 1.0
  {
    Clamped(OrZero(c.rating) * 20.0, 100.0) * 0.25 + Clamped(OrZero(c.acceptance), 100.0) * 0.2 +
    Clamped(OrZero(c.completion), 100.0) * 0.2 + (1.0 - Clamped(OrZero(c.distanceKm), 25.0)) * 0.15 +
    (1.0 - Clamped(OrZero(c.etaMinutes), 45.0)) * 0.1 + Clamped(OrZero(c.earnings), 80.0) * 0.1
  }

  /** toFixed(4): the nearest multiple of 0.0001, the larger of two. */
  function Rounded(x: real): int { (x * 10000.0 + 0.5).Floor }

  function Score(c: Candidate): (s: int)
    ensures 0 <= s <= UNIT
  {
    Rounded(RawScore(c))
  }

  function WithScores(candidates: seq<Candidate>): (r: seq<Scored>)
    ensures |r| == |candidates| && forall i | 0 <= i < |r| :: r[i] == Scored(candidates[i], Score(candidates[i]))
  {
    seq(|candidates|, i requires 0 <= i < |candidates| => Scored(candidates[i], Score(candidates[i])))
  }

  /** In front of the first entry that does not score higher. */
  function Insert(x: Scored, ranked: seq<Scored>): seq<Scored> {
    if ranked == [] || x.score >= ranked[0].score then [x] + ranked else [ranked[0]] + Insert(x, ranked[1..])
  }

  /** sort((a, b) => b.score - a.score), which is stable. */
  function Ranked(entries: seq<Scored>): seq<Scored> {
    if entries == [] then [] else Insert(entries[0], Ranked(entries[1..]))
  }

  function Optimize(candidates: seq<Candidate>): Recommendation {
    var ranked := Ranked(WithScores(candidates));
    Recommendation(if ranked == [] then None else Some(ranked[0].candidate.id), ranked,
                   |ranked| >= 2 && ranked[1].score >= BATCHING_SCORE)
  }

  // ---------------------------------------------------------------- what a stable descending order is

  ghost predicate Descending(entries: seq<Scored>) {
    forall i, j | 0 <= i < j < |entries| :: entries[i].score >= entries[j].score
  }

  /** The entries with one score, in their order. */
  function Having(entries: seq<Scored>, score: int): (r: seq<Scored>)
    ensures forall x | x in r :: x in entries && x.score == score
  {
    if entries == [] then []
    else (if entries[0].score == score then [entries[0]] else []) + Having(entries[1..], score)
  }

  /** The same entries, highest score first, ties in the order in which they came. */
  ghost predicate StablyRanks(entries: seq<Scored>, ranked: seq<Scored>) {
    Descending(ranked) && forall score: int {:trigger Having(ranked, score)} ::
                            Having(ranked, score) == Having(entries, score)
  }

  lemma {:induction false} InsertIsPermutation(x: Scored, ranked: seq<Scored>)
    ensures multiset(Insert(x, ranked)) == multiset(ranked) + multiset{x}
  {
    if ranked != [] && x.score < ranked[0].score {
      InsertIsPermutation(x, ranked[1..]);
      assert ranked == [ranked[0]] + ranked[1..];
    }
  }

  lemma {:induction false} InsertDescends(x: Scored, ranked: seq<Scored>)
    requires Descending(ranked)
    ensures Descending(Insert(x, ranked))
  {
    if ranked != [] && x.score < ranked[0].score {
      InsertDescends(x, ranked[1..]);
      InsertIsPermutation(x, ranked[1..]);
      var rest := Insert(x, ranked[1..]);
      forall i | 0 <= i < |rest| ensures ranked[0].score >= rest[i].score {
        assert rest[i] in multiset(rest);
        assert rest[i] == x || rest[i] in ranked[1..];
      }
    }
  }

  lemma HavingStep(x: Scored, rest: seq<Scored>, score: int)
    ensures Having([x] + rest, score) == if x.score == score then [x] + Having(rest, score) else Having(rest, score)
  {
    assert ([x] + rest)[1..] == rest;
  }

  lemma {:induction false} InsertHaving(x: Scored, ranked: seq<Scored>, score: int)
    ensures Having(Insert(x, ranked), score) == if x.score == score then [x] + Having(ranked, score) else Having(ranked, score)
  {
    hide Having;
    if ranked == [] || x.score >= ranked[0].score {
      HavingStep(x, ranked, score);
    } else {
      InsertHaving(x, ranked[1..], score);
      HavingStep(ranked[0], Insert(x, ranked[1..]), score);
      HavingStep(ranked[0], ranked[1..], score);
      assert ranked == [ranked[0]] + ranked[1..];
    }
  }

  lemma {:induction false} RankedHaving(entries: seq<Scored>, score: int)
    ensures Having(Ranked(entries), score) == Having(entries, score)
  {
    if entries != [] {
      RankedHaving(entries[1..], score);
      InsertHaving(entries[0], Ranked(entries[1..]), score);
    }
  }

  lemma {:induction false} RankedDescends(entries: seq<Scored>)
    ensures Descending(Ranked(entries)) && multiset(Ranked(entries)) == multiset(entries)
  {
    if entries != [] {
      RankedDescends(entries[1..]);
      InsertDescends(entries[0], Ranked(entries[1..]));
      InsertIsPermutation(entries[0], Ranked(entries[1..]));
      assert entries == [entries[0]] + entries[1..];
    }
  }

  /** The ranking is a stable descending permutation of the scored candidates. */
  lemma RankingIsStable(entries: seq<Scored>)
    ensures StablyRanks(entries, Ranked(entries)) && multiset(Ranked(entries)) == multiset(entries)
  {
    RankedDescends(entries);
    forall score: int ensures Having(Ranked(entries), score) == Having(entries, score) {
      RankedHaving(entries, score);
    }
  }

  lemma {:induction false} HavingFound(entries: seq<Scored>, x: Scored)
    requires x in entries
    ensures x in Having(entries, x.score)
  {
    if entries[0] != x {
      assert entries == [entries[0]] + entries[1..];
      HavingFound(entries[1..], x);
    }
  }

  /** And it is the only one: whatever sorts stably by descending score gives this list. */
  lemma {:induction false} RankingIsUnique(entries: seq<Scored>, a: seq<Scored>, b: seq<Scored>)
    requires StablyRanks(entries, a) && StablyRanks(entries, b)
    ensures a == b
  {
    SameRanking(a, b);
  }

  lemma {:induction false} SameRanking(a: seq<Scored>, b: seq<Scored>)
    requires Descending(a) && Descending(b)
    requires forall score: int {:trigger Having(b, score)} :: Having(b, score) == Having(a, score)
    ensures a == b
  {
    SomeHaving(b);
    if a != [] {
      SameFirst(a, b);
      forall score: int ensures Having(b[1..], score) == Having(a[1..], score) {
        assert Having(b, score) == Having(a, score);
        HavingRest(a, score);
        HavingRest(b, score);
      }
      SameRanking(a[1..], b[1..]);
      assert a == [a[0]] + a[1..] && b == [b[0]] + b[1..];
    }
  }

  lemma SomeHaving(entries: seq<Scored>)
    ensures entries == [] || exists score {:trigger Having(entries, score)} :: Having(entries, score) != []
  {
    if entries != [] {
      HavingFound(entries, entries[0]);
      assert Having(entries, entries[0].score) != [];
    }
  }

  lemma FirstIsFirst(entries: seq<Scored>)
    requires entries != []
    ensures Having(entries, entries[0].score) != [] && Having(entries, entries[0].score)[0] == entries[0]
  {
  }

  lemma HighestFirst(a: seq<Scored>, x: Scored)
    requires Descending(a) && x in a
    ensures a[0].score >= x.score
  {
  }

  lemma HavingIsPart(entries: seq<Scored>, score: int)
    requires Having(entries, score) != []
    ensures Having(entries, score)[0] in entries && Having(entries, score)[0].score == score
  {
    assert Having(entries, score)[0] in Having(entries, score);
  }

  lemma SameFirst(a: seq<Scored>, b: seq<Scored>)
    requires Descending(a) && Descending(b) && a != []
    requires forall score: int {:trigger Having(b, score)} :: Having(b, score) == Having(a, score)
    ensures b != [] && a[0] == b[0]
  {
    hide Having, Descending;
    FirstIsFirst(a);
    HavingIsPart(b, a[0].score);
    HighestFirst(b, Having(b, a[0].score)[0]);
    FirstIsFirst(b);
    HavingIsPart(a, b[0].score);
    HighestFirst(a, Having(a, b[0].score)[0]);
  }

  lemma HavingRest(entries: seq<Scored>, score: int)
    requires entries != []
    ensures Having(entries[1..], score) ==
            if entries[0].score == score then Having(entries, score)[1..] else Having(entries, score)
  {
  }

  // ---------------------------------------------------------------- what the recommendation says

  /** The recommended driver is the earliest candidate of the highest score; there is none only without candidates. */
  lemma RecommendedIsEarliestBest(candidates: seq<Candidate>) returns (best: nat)
    ensures Optimize(candidates).driver.None? <==> candidates == []
    ensures candidates != [] ==>
              && best < |candidates| && Optimize(candidates).driver == Some(candidates[best].id)
              && (forall i | 0 <= i < |candidates| :: Score(candidates[i]) <= Score(candidates[best]))
              && (forall i | 0 <= i < best :: Score(candidates[i]) < Score(candidates[best]))
  {
    var entries := WithScores(candidates);
    var ranked := Ranked(entries);
    RankingIsStable(entries);
    assert |ranked| == |multiset(ranked)| == |entries|;
    best := 0;
    if candidates != [] {
      RankedHaving(entries, ranked[0].score);
      HavingFound(ranked, ranked[0]);
      assert Having(ranked, ranked[0].score)[0] == ranked[0];
      best := FirstHaving(entries, ranked[0].score);
      forall i | 0 <= i < |candidates| ensures Score(candidates[i]) <= ranked[0].score {
        assert entries[i] in multiset(entries);
        assert entries[i] in multiset(ranked);
        assert entries[i] in ranked;
      }
    }
  }

  lemma {:induction false} FirstHaving(entries: seq<Scored>, score: int) returns (i: nat)
    requires Having(entries, score) != []
    ensures i < |entries| && entries[i] == Having(entries, score)[0] && forall j | 0 <= j < i :: entries[j].score != score
  {
    if entries[0].score == score {
      i := 0;
    } else {
      var k := FirstHaving(entries[1..], score);
      i := k + 1;
      forall j | 0 <= j < i ensures entries[j].score != score {
        assert j > 0 ==> entries[1..][j - 1] == entries[j];
      }
    }
  }

  function CountAtLeast(entries: seq<Scored>, score: int): (n: nat)
    ensures n <= |entries|
  {
    if entries == [] then 0 else (if entries[0].score >= score then 1 else 0) + CountAtLeast(entries[1..], score)
  }

  lemma {:induction false} InsertCount(x: Scored, ranked: seq<Scored>, score: int)
    ensures CountAtLeast(Insert(x, ranked), score) == CountAtLeast(ranked, score) + if x.score >= score then 1 else 0
  {
    if ranked == [] || x.score >= ranked[0].score {
      assert ([x] + ranked)[1..] == ranked;
    } else {
      InsertCount(x, ranked[1..], score);
      assert ([ranked[0]] + Insert(x, ranked[1..]))[1..] == Insert(x, ranked[1..]);
    }
  }

  lemma {:induction false} RankedCount(entries: seq<Scored>, score: int)
    ensures CountAtLeast(Ranked(entries), score) == CountAtLeast(entries, score)
  {
    if entries != [] {
      RankedCount(entries[1..], score);
      InsertCount(entries[0], Ranked(entries[1..]), score);
    }
  }

  lemma {:induction false} DescendingCount(ranked: seq<Scored>, score: int)
    requires Descending(ranked)
    ensures CountAtLeast(ranked, score) >= 1 <==> |ranked| >= 1 && ranked[0].score >= score
    ensures CountAtLeast(ranked, score) >= 2 <==> |ranked| >= 2 && ranked[1].score >= score
  {
    if ranked != [] {
      DescendingCount(ranked[1..], score);
    }
  }

  /** Batching is offered exactly when at least two candidates score 0.62 or more. */
  lemma BatchingMeansTwoAbove(candidates: seq<Candidate>)
    ensures Optimize(candidates).batching <==> CountAtLeast(WithScores(candidates), BATCHING_SCORE) >= 2
  {
    var entries := WithScores(candidates);
    RankedCount(entries, BATCHING_SCORE);
    RankingIsStable(entries);
    DescendingCount(Ranked(entries), BATCHING_SCORE);
  }

  /** No better measurement lowers a score. */
  ghost predicate NoWorse(a: Candidate, b: Candidate) {
    && OrZero(a.rating) >= OrZero(b.rating) && OrZero(a.acceptance) >= OrZero(b.acceptance)
    && OrZero(a.completion) >= OrZero(b.completion) && OrZero(a.distanceKm) <= OrZero(b.distanceKm)
    && OrZero(a.etaMinutes) <= OrZero(b.etaMinutes) && OrZero(a.earnings) >= OrZero(b.earnings)
  }

  lemma BetterNeverScoresLower(a: Candidate, b: Candidate)
    requires NoWorse(a, b)
    ensures Score(a) >= Score(b)
  {
    assert RawScore(a) >= RawScore(b);
  }

  // ---------------------------------------------------------------- what a measurement is worth

  datatype Measure = Rating | Acceptance | Completion | Distance | Eta | Earnings

  /** Up to where a measurement counts. */
  function Range(m: Measure): real {
    match m
    case Rating => 5.0
    case Acceptance | Completion => 100.0
    case Distance => 25.0
    case Eta => 45.0
    case Earnings => 80.0
  }

  /** Its share of the score. */
  function Weight(m: Measure): real {
    match m
    case Rating => 0.25
    case Acceptance | Completion => 0.2
    case Distance => 0.15
    case Eta | Earnings => 0.1
  }

  /** The end of the range that earns nothing: far away and late, but otherwise zero. */
  function Worst(m: Measure): real { if m.Distance? || m.Eta? then Range(m) else 0.0 }

  function With(c: Candidate, m: Measure, x: real): Candidate {
    match m
    case Rating => c.(rating := Some(x))
    case Acceptance => c.(acceptance := Some(x))
    case Completion => c.(completion := Some(x))
    case Distance => c.(distanceKm := Some(x))
    case Eta => c.(etaMinutes := Some(x))
    case Earnings => c.(earnings := Some(x))
  }

  function WorstOf(id: int): Candidate {
    Candidate(id, Some(0.0), Some(0.0), Some(0.0), Some(25.0), Some(45.0), Some(0.0))
  }

  /** A measurement earns its weight in proportion to how far it is from the worst. */
  ghost predicate Earns(score: Candidate -> real, c: Candidate, m: Measure, x: real) {
    score(With(c, m, x)) ==
    score(With(c, m, Worst(m))) + Weight(m) * (if m.Distance? || m.Eta? then Range(m) - x else x) / Range(m)
  }

  ghost predicate IsScore(score: Candidate -> real) {
    && (forall id {:trigger WorstOf(id)} :: score(WorstOf(id)) == 0.0)
    && forall c, m, x {:trigger Earns(score, c, m, x)} | 0.0 <= x <= Range(m) :: Earns(score, c, m, x)
  }

  function Trim(x: Option<real>, max: real): real {
    if OrZero(x) < 0.0 then 0.0 else if OrZero(x) > max then max else OrZero(x)
  }

  /** The candidate with every measurement moved to the nearest end of its range; one that is missing counts as zero. */
  function Trimmed(c: Candidate): Candidate {
    Candidate(c.id, Some(Trim(c.rating, 5.0)), Some(Trim(c.acceptance, 100.0)), Some(Trim(c.completion, 100.0)),
              Some(Trim(c.distanceKm, 25.0)), Some(Trim(c.etaMinutes, 45.0)), Some(Trim(c.earnings, 80.0)))
  }

  /**
   The weights and ranges make the score: it obeys them, it is the only one that does for measurements within their
   ranges, and others count as the nearest end.
   */
  lemma WeightsFixScore(score: Candidate -> real, c: Candidate)
    requires IsScore(score)
    ensures IsScore(RawScore) && RawScore(c) == RawScore(Trimmed(c)) && score(Trimmed(c)) == RawScore(Trimmed(c))
  {
    ScoreIsWeighted();
    TrimmedScoresAlike(c);
    hide RawScore;
    SameScore(score, RawScore, c);
  }

  /** A score is the nearest multiple of 0.0001, the larger one of two. */
  lemma ScoreIsNearest(c: Candidate)
    ensures -0.5 < Score(c) as real - RawScore(c) * 10000.0 <= 0.5
  {
  }

  lemma ScoreIsWeighted()
    ensures IsScore(RawScore)
  {
    forall c, m, x | 0.0 <= x <= Range(m) ensures Earns(RawScore, c, m, x) {
      RawEarns(c, m, x);
    }
  }

  lemma RawEarns(c: Candidate, m: Measure, x: real)
    requires 0.0 <= x <= Range(m)
    ensures Earns(RawScore, c, m, x)
  {
  }

  lemma TrimmedScoresAlike(c: Candidate)
    ensures RawScore(c) == RawScore(Trimmed(c))
  {
  }

  /** Exchanging one measurement for another changes both scores alike. */
  lemma Exchange(f: Candidate -> real, g: Candidate -> real, c: Candidate, m: Measure, x: real)
    requires IsScore(f) && IsScore(g) && 0.0 <= x <= Range(m)
    requires c == With(c, m, Worst(m)) && f(c) == g(c)
    ensures f(With(c, m, x)) == g(With(c, m, x))
  {
    assert Earns(f, c, m, x) && Earns(g, c, m, x);
  }

  lemma SameScore(f: Candidate -> real, g: Candidate -> real, c: Candidate)
    requires IsScore(f) && IsScore(g)
    ensures f(Trimmed(c)) == g(Trimmed(c))
  {
    var d := WorstOf(c.id);
    assert f(d) == g(d);
    Exchange(f, g, d, Rating, Trim(c.rating, 5.0));
    d := With(d, Rating, Trim(c.rating, 5.0));
    Exchange(f, g, d, Acceptance, Trim(c.acceptance, 100.0));
    d := With(d, Acceptance, Trim(c.acceptance, 100.0));
    Exchange(f, g, d, Completion, Trim(c.completion, 100.0));
    d := With(d, Completion, Trim(c.completion, 100.0));
    Exchange(f, g, d, Distance, Trim(c.distanceKm, 25.0));
    d := With(d, Distance, Trim(c.distanceKm, 25.0));
    Exchange(f, g, d, Eta, Trim(c.etaMinutes, 45.0));
    d := With(d, Eta, Trim(c.etaMinutes, 45.0));
    Exchange(f, g, d, Earnings, Trim(c.earnings, 80.0));
  }
}
