/**
 Scoring and ranking of knowledge chunks: cosine similarity of embeddings,
 keyword scores, and the top-K selection shared by both searches. Vectors and
 scores are exact reals, and the square root is a parameter.
 */
module Search {
  import opened Common
  import Chunker
  import opened RealArithmetic

  // ---- Cosine similarity ------------------------------------------------------

  /** The inner product of two vectors of the same length. */
  function Dot(a: seq<real>, b: seq<real>): real
    requires |a| == |b|
  {
    if a == [] then 0.0 else Dot(a[..|a| - 1], b[..|b| - 1]) + Times(a[|a| - 1], b[|b| - 1])
  }

  /** `sqrt` is the nonnegative square root on the nonnegative reals. */
  ghost predicate IsSqrt(sqrt: real -> real) {
    forall x: real :: x >= 0.0 ==> sqrt(x) >= 0.0 && Square(sqrt(x)) == x
  }

  function Cosine(a: seq<real>, b: seq<real>, sqrt: real -> real): real {
    if |a| != |b| || Dot(a, a) == 0.0 || Dot(b, b) == 0.0 then 0.0
    else
      Quotient(Dot(a, b), Times(sqrt(Dot(a, a)), sqrt(Dot(b, b))))
  }

  /** Division that is total; the roots of nonzero norms are never zero. */
  function Quotient(n: real, d: real): real {
    if d == 0.0 then 0.0 else n / d
  }

  method CosineSimilarity(a: seq<real>, b: seq<real>, sqrt: real -> real) returns (score: real)
    requires IsSqrt(sqrt)
    ensures score == Cosine(a, b, sqrt)
    ensures -1.0 <= score <= 1.0
  {
    CosineBounded(a, b, sqrt);
    if |a| != |b| { return 0.0; }
    var dot, na, nb := 0.0, 0.0, 0.0;
    var i := 0;
    while i < |a|
      invariant 0 <= i <= |a|
      invariant dot == Dot(a[..i], b[..i])
      invariant na == Dot(a[..i], a[..i])
      invariant nb == Dot(b[..i], b[..i])
    {
      assert a[..i + 1][..i] == a[..i] && b[..i + 1][..i] == b[..i];
      dot := dot + Times(a[i], b[i]);
      na := na + Times(a[i], a[i]);
      nb := nb + Times(b[i], b[i]);
      i := i + 1;
    }
    assert a[..i] == a && b[..i] == b;
    if na == 0.0 || nb == 0.0 {
      return 0.0;
    }
    NormsPositive(a, sqrt);
    NormsPositive(b, sqrt);
    PositiveTimes(sqrt(na), sqrt(nb));
    return dot / Times(sqrt(na), sqrt(nb));
  }

  lemma PositiveTimes(a: real, b: real)
    requires a > 0.0 && b > 0.0
    ensures Times(a, b) > 0.0
  {
  }

  lemma SquareNonNegative(a: real)
    ensures Times(a, a) >= 0.0 && Square(a) == Times(a, a)
    ensures Times(a, a) == 0.0 ==> a == 0.0
  {
    if a != 0.0 { ProductNonZero(a, a); }
  }

  lemma {:induction false} NormNonNegative(a: seq<real>)
    ensures Dot(a, a) >= 0.0
  {
    if a != [] {
      NormNonNegative(a[..|a| - 1]);
      SquareNonNegative(a[|a| - 1]);
    }
  }

  lemma NormsPositive(a: seq<real>, sqrt: real -> real)
    requires IsSqrt(sqrt) && Dot(a, a) != 0.0
    ensures sqrt(Dot(a, a)) > 0.0 && Square(sqrt(Dot(a, a))) == Dot(a, a) > 0.0
  {
    NormNonNegative(a);
    SquareNonNegative(sqrt(Dot(a, a)));
  }

  /** Σ (a − t·b)². */
  function Gap(a: seq<real>, b: seq<real>, t: real): real
    requires |a| == |b|
  {
    if a == [] then 0.0
    else Gap(a[..|a| - 1], b[..|b| - 1], t) + Square(a[|a| - 1] - Times(t, b[|b| - 1]))
  }

  /** na − 2t·dot + t²·nb. */
  function Expanded(na: real, dot: real, nb: real, t: real): real {
    na - 2.0 * t * dot + t * t * nb
  }

  lemma ExpandStep(x: real, y: real, t: real, na: real, dot: real, nb: real)
    ensures Expanded(na, dot, nb, t) + Square(x - Times(t, y))
            == Expanded(na + Times(x, x), dot + Times(x, y), nb + Times(y, y), t)
  {
  }

  lemma {:induction false} GapExpanded(a: seq<real>, b: seq<real>, t: real)
    requires |a| == |b|
    ensures Gap(a, b, t) == Expanded(Dot(a, a), Dot(a, b), Dot(b, b), t)
  {
    if a != [] {
      var a', b' := a[..|a| - 1], b[..|b| - 1];
      GapExpanded(a', b', t);
      ExpandStep(a[|a| - 1], b[|b| - 1], t, Dot(a', a'), Dot(a', b'), Dot(b', b'));
    }
  }

  lemma {:induction false} GapSign(a: seq<real>, b: seq<real>, t: real)
    requires |a| == |b|
    ensures Gap(a, b, t) >= 0.0
    ensures Gap(a, b, t) == 0.0 <==> forall i :: 0 <= i < |a| ==> a[i] == Times(t, b[i])
  {
    if a != [] {
      var n := |a| - 1;
      GapSign(a[..n], b[..n], t);
      SquareNonNegative(a[n] - Times(t, b[n]));
      assert forall i :: 0 <= i < n ==> a[..n][i] == a[i] && b[..n][i] == b[i];
    }
  }

  lemma MinimalGap(na: real, dot: real, nb: real) returns (t: real)
    requires nb > 0.0
    ensures Times(Expanded(na, dot, nb, t), nb) == Times(na, nb) - Square(dot)
    ensures dot > 0.0 ==> t > 0.0
  {
    t := dot / nb;
    assert t * nb == dot;
    assert t * t * nb == t * dot;
    assert (t * dot) * nb == dot * dot;
    assert (na - t * dot) * nb == na * nb - (t * dot) * nb;
  }

  lemma SignOfProduct(g: real, nb: real)
    requires nb > 0.0 && g >= 0.0
    ensures Times(g, nb) >= 0.0 && (Times(g, nb) == 0.0 ==> g == 0.0)
  {
  }

  /** Some multiple of `b` comes so near to `a` that the gap times nb is na·nb − dot². */
  lemma NearestMultiple(a: seq<real>, b: seq<real>) returns (t: real)
    requires |a| == |b| && Dot(b, b) > 0.0
    ensures Square(Dot(a, b)) <= Times(Dot(a, a), Dot(b, b))
    ensures Square(Dot(a, b)) == Times(Dot(a, a), Dot(b, b)) ==> Multiple(a, b, t)
    ensures Dot(a, b) > 0.0 ==> t > 0.0
  {
    t := MinimalGap(Dot(a, a), Dot(a, b), Dot(b, b));
    GapExpanded(a, b, t);
    GapSign(a, b, t);
    SignOfProduct(Gap(a, b, t), Dot(b, b));
  }

  /** dot² ≤ na·nb for all vectors of equal length. */
  lemma CauchySchwarz(a: seq<real>, b: seq<real>)
    requires |a| == |b|
    ensures Square(Dot(a, b)) <= Times(Dot(a, a), Dot(b, b))
  {
    NormNonNegative(b);
    if Dot(b, b) == 0.0 {
      ZeroVector(a, b);
    } else {
      var t := NearestMultiple(a, b);
    }
  }

  lemma {:induction false} ZeroVector(a: seq<real>, b: seq<real>)
    requires |a| == |b| && Dot(b, b) == 0.0
    ensures Dot(a, b) == 0.0
  {
    if a != [] {
      var a', b' := a[..|a| - 1], b[..|b| - 1];
      NormNonNegative(b');
      SquareNonNegative(b[|b| - 1]);
      ZeroVector(a', b');
      assert Times(a[|a| - 1], 0.0) == 0.0;
    }
  }

  lemma BoundedQuotient(dot: real, na: real, nb: real, ra: real, rb: real)
    requires ra > 0.0 && rb > 0.0 && Square(ra) == na && Square(rb) == nb
    requires Square(dot) <= Times(na, nb)
    ensures -1.0 <= Quotient(dot, Times(ra, rb)) <= 1.0
    ensures Quotient(dot, Times(ra, rb)) == 1.0 <==> dot > 0.0 && Square(dot) == Times(na, nb)
  {
    var d := Times(ra, rb);
    PositiveTimes(ra, rb);
    RootOfProduct(ra, rb);
    var q := dot / d;
    assert q * d == dot;
    SquareOrder(dot, d);
    if q > 1.0 { ProductAbove(q, d); }
    if q < -1.0 { ProductAbove(-q, d); }
    assert q == 1.0 ==> dot == d;
    assert dot == d ==> q == 1.0;
  }

  lemma RootOfProduct(ra: real, rb: real)
    ensures Square(Times(ra, rb)) == Times(Square(ra), Square(rb))
  {
    var d := ra * rb;
    assert d * d == ra * (rb * d);
    assert rb * d == ra * (rb * rb);
  }

  lemma ProductAbove(q: real, d: real)
    requires q > 1.0 && d > 0.0
    ensures q * d > d
  {
    PositiveTimes(q - 1.0, d);
    assert Times(q - 1.0, d) == q * d - d;
  }

  lemma SquareIncreases(x: real, d: real)
    requires 0.0 <= x < d
    ensures Square(x) < Square(d)
  {
    PositiveTimes(d - x, d + x);
    assert Times(d - x, d + x) == Square(d) - Square(x);
  }

  lemma SquareOrder(x: real, d: real)
    requires d > 0.0 && Square(x) <= Square(d)
    ensures -d <= x <= d
    ensures x > 0.0 && Square(x) == Square(d) ==> x == d
  {
    assert Square(-x) == Square(x);
    if x > d {
      SquareIncreases(d, x);
    } else if x < -d {
      SquareIncreases(d, -x);
    } else if 0.0 < x < d {
      SquareIncreases(x, d);
    }
  }

  /** Scores lie in [-1, 1]; 1 is reached exactly by vectors of the same direction. */
  lemma CosineBounded(a: seq<real>, b: seq<real>, sqrt: real -> real)
    requires IsSqrt(sqrt)
    ensures -1.0 <= Cosine(a, b, sqrt) <= 1.0
    ensures Cosine(a, b, sqrt) == 1.0 <==> SameDirection(a, b)
  {
    if |a| != |b| {
    } else if Dot(a, a) == 0.0 || Dot(b, b) == 0.0 {
    } else {
      NormsPositive(a, sqrt);
      NormsPositive(b, sqrt);
      CauchySchwarz(a, b);
      BoundedQuotient(Dot(a, b), Dot(a, a), Dot(b, b), sqrt(Dot(a, a)), sqrt(Dot(b, b)));
      DirectionFromDot(a, b);
    }
  }

  /** `a` is a positive multiple of `b`, and neither is the zero vector. */
  ghost predicate SameDirection(a: seq<real>, b: seq<real>) {
    && |a| == |b|
    && Dot(a, a) != 0.0 && Dot(b, b) != 0.0
    && exists t: real :: t > 0.0 && Multiple(a, b, t)
  }

  predicate Multiple(a: seq<real>, b: seq<real>, t: real)
    requires |a| == |b|
  {
    forall i :: 0 <= i < |a| ==> a[i] == Times(t, b[i])
  }

  lemma DirectionFromDot(a: seq<real>, b: seq<real>)
    requires |a| == |b| && Dot(a, a) != 0.0 && Dot(b, b) != 0.0
    ensures SameDirection(a, b) <==> Dot(a, b) > 0.0 && Square(Dot(a, b)) == Times(Dot(a, a), Dot(b, b))
  {
    if Dot(a, b) > 0.0 && Square(Dot(a, b)) == Times(Dot(a, a), Dot(b, b)) { DotGivesDirection(a, b); }
    if SameDirection(a, b) {
      var t :| t > 0.0 && Multiple(a, b, t);
      DirectionGivesDot(a, b, t);
    }
  }

  lemma DotGivesDirection(a: seq<real>, b: seq<real>)
    requires |a| == |b| && Dot(a, a) != 0.0 && Dot(b, b) != 0.0
    requires Dot(a, b) > 0.0 && Square(Dot(a, b)) == Times(Dot(a, a), Dot(b, b))
    ensures SameDirection(a, b)
  {
    NormNonNegative(b);
    var t := NearestMultiple(a, b);
    assert t > 0.0 && Multiple(a, b, t);
  }

  lemma DirectionGivesDot(a: seq<real>, b: seq<real>, t: real)
    requires |a| == |b| && Dot(b, b) != 0.0 && t > 0.0 && Multiple(a, b, t)
    ensures Dot(a, b) > 0.0 && Square(Dot(a, b)) == Times(Dot(a, a), Dot(b, b))
  {
    var nb := Dot(b, b);
    NormNonNegative(b);
    MultipleDots(a, b, t);
    PositiveTimes(t, nb);
    SquareOfScaled(t, nb);
  }

  lemma SquareOfScaled(t: real, nb: real)
    ensures Square(Times(t, nb)) == Times(Times(t, Times(t, nb)), nb)
  {
  }

  lemma MultipleStep(t: real, y: real, d: real)
    ensures Times(Times(t, y), y) + Times(t, d) == Times(t, d + Times(y, y))
    ensures Times(Times(t, y), Times(t, y)) + Times(t, Times(t, d)) == Times(t, Times(t, d + Times(y, y)))
  {
    assert t * (t * (d + y * y)) == t * (t * d) + t * (t * (y * y));
  }

  lemma {:induction false} MultipleDots(a: seq<real>, b: seq<real>, t: real)
    requires |a| == |b| && Multiple(a, b, t)
    ensures Dot(a, b) == Times(t, Dot(b, b))
    ensures Dot(a, a) == Times(t, Times(t, Dot(b, b)))
  {
    if a != [] {
      var n := |a| - 1;
      assert forall i :: 0 <= i < n ==> a[..n][i] == a[i] && b[..n][i] == b[i];
      MultipleDots(a[..n], b[..n], t);
      MultipleStep(t, b[n], Dot(b[..n], b[..n]));
    }
  }

  // ---- Ranking -----------------------------------------------------------------

  /** A scored chunk; the position is its place in the list the repository returned. */
  datatype Hit = Hit(position: nat, score: real)

  function Scored(scores: seq<real>): seq<Hit> {
    seq(|scores|, i requires 0 <= i < |scores| => Hit(i, scores[i]))
  }

  function Qualifying(hits: seq<Hit>, threshold: real): seq<Hit> {
    if hits == [] then []
    else
      var rest := Qualifying(hits[..|hits| - 1], threshold);
      var last := hits[|hits| - 1];
      if last.score > threshold then rest + [last] else rest
  }

  /** The place a later hit takes in a descending list: behind every equal score. */
  function Insert(h: Hit, sorted: seq<Hit>): seq<Hit> {
    if sorted == [] then [h]
    else if sorted[0].score < h.score then [h] + sorted
    else [sorted[0]] + Insert(h, sorted[1..])
  }

  /** A stable descending sort. */
  function OrderByDescending(hits: seq<Hit>): seq<Hit> {
    if hits == [] then [] else Insert(hits[|hits| - 1], OrderByDescending(hits[..|hits| - 1]))
  }

  function Take(hits: seq<Hit>, k: int): seq<Hit> {
    if k <= 0 then [] else if k < |hits| then hits[..k] else hits
  }

  /** The pipeline of both searches: filter, sort, take. */
  function Rank(scores: seq<real>, threshold: real, topK: int): seq<Hit> {
    Take(OrderByDescending(Qualifying(Scored(scores), threshold)), topK)
  }

  /** The order results are shown in: better first, ties in repository order. */
  predicate Before(x: Hit, y: Hit) {
    x.score > y.score || (x.score == y.score && x.position < y.position)
  }

  predicate Ranked(hits: seq<Hit>) {
    forall i, j :: 0 <= i < j < |hits| ==> Before(hits[i], hits[j])
  }

  lemma {:induction false} InsertMembers(h: Hit, sorted: seq<Hit>)
    ensures multiset(Insert(h, sorted)) == multiset(sorted) + multiset{h}
  {
    if sorted != [] {
      assert sorted == [sorted[0]] + sorted[1..];
      InsertMembers(h, sorted[1..]);
    }
  }

  lemma FirstRanked(first: Hit, rest: seq<Hit>)
    requires Ranked(rest) && forall x :: x in rest ==> Before(first, x)
    ensures Ranked([first] + rest)
  {
  }

  lemma {:induction false} InsertRanked(h: Hit, sorted: seq<Hit>)
    requires Ranked(sorted)
    requires forall x :: x in sorted ==> x.position < h.position
    ensures Ranked(Insert(h, sorted))
  {
    if sorted != [] {
      var first, rest := sorted[0], sorted[1..];
      assert sorted == [first] + rest;
      if first.score < h.score {
        FirstRanked(h, sorted);
      } else {
        InsertRanked(h, rest);
        InsertMembers(h, rest);
        var r := Insert(h, rest);
        forall x | x in r
          ensures Before(first, x)
        {
          assert x in multiset(r);
          assert x == h || x in rest;
        }
        FirstRanked(first, r);
      }
    }
  }

  lemma {:induction false} SortRanked(hits: seq<Hit>)
    requires forall i, j :: 0 <= i < j < |hits| ==> hits[i].position < hits[j].position
    ensures Ranked(OrderByDescending(hits))
    ensures multiset(OrderByDescending(hits)) == multiset(hits)
  {
    if hits != [] {
      var init, last := hits[..|hits| - 1], hits[|hits| - 1];
      assert hits == init + [last];
      SortRanked(init);
      forall x | x in OrderByDescending(init)
        ensures x.position < last.position
      {
        assert x in multiset(init);
      }
      InsertRanked(last, OrderByDescending(init));
      InsertMembers(last, OrderByDescending(init));
    }
  }

  lemma {:induction false} QualifyingIsFilter(hits: seq<Hit>, threshold: real)
    requires forall i, j :: 0 <= i < j < |hits| ==> hits[i].position < hits[j].position
    ensures var q := Qualifying(hits, threshold);
            && (forall h :: h in q <==> h in hits && h.score > threshold)
            && (forall i, j :: 0 <= i < j < |q| ==> q[i].position < q[j].position)
  {
    if hits != [] {
      QualifyingIsFilter(hits[..|hits| - 1], threshold);
      assert hits == hits[..|hits| - 1] + [hits[|hits| - 1]];
    }
  }

  lemma SameMembers(a: seq<Hit>, b: seq<Hit>)
    requires multiset(a) == multiset(b)
    ensures |a| == |b|
    ensures forall h :: h in a <==> h in b
  {
    assert |multiset(a)| == |multiset(b)|;
    assert forall h :: h in a <==> h in multiset(a);
    assert forall h :: h in b <==> h in multiset(b);
  }

  lemma ScoredMember(scores: seq<real>, h: Hit)
    ensures h in Scored(scores) <==> h.position < |scores| && h.score == scores[h.position]
  {
    if h.position < |scores| && h.score == scores[h.position] {
      assert Scored(scores)[h.position] == h;
    }
  }

  /** The qualifying chunks in ranked order: the same hits, each once. */
  lemma SortedQualifying(scores: seq<real>, threshold: real)
    ensures var q := Qualifying(Scored(scores), threshold);
            var sorted := OrderByDescending(q);
            && Ranked(sorted) && |sorted| == |q|
            && forall h :: h in sorted <==> h.position < |scores| && h.score == scores[h.position] > threshold
  {
    var hits := Scored(scores);
    var q := Qualifying(hits, threshold);
    QualifyingIsFilter(hits, threshold);
    SortRanked(q);
    var sorted := OrderByDescending(q);
    SameMembers(sorted, q);
    forall h: Hit
      ensures h in sorted <==> h.position < |scores| && h.score == scores[h.position] > threshold
    {
      ScoredMember(scores, h);
    }
  }

  /** Whatever a ranked list loses when it is cut comes after everything it keeps. */
  lemma CutKeepsBest(sorted: seq<Hit>, k: int, kept: Hit, omitted: Hit)
    requires Ranked(sorted)
    requires kept in Take(sorted, k) && omitted in sorted && omitted !in Take(sorted, k)
    ensures Before(kept, omitted)
  {
    var r := Take(sorted, k);
    var i :| 0 <= i < |r| && r[i] == kept;
    var j :| 0 <= j < |sorted| && sorted[j] == omitted;
    assert forall n :: 0 <= n < |r| ==> r[n] == sorted[n];
    assert i < j;
  }

  /**
   The ranked hits are at most topK qualifying chunks in descending order with
   ties in repository order, as many as there are, and every chunk left out
   that qualifies comes after every one kept.
   */
  lemma RankSelectsBest(scores: seq<real>, threshold: real, topK: int)
    ensures var r, q := Rank(scores, threshold, topK), Qualifying(Scored(scores), threshold);
            && Ranked(r)
            && |r| == (if topK <= 0 then 0 else if topK < |q| then topK else |q|)
            && (forall h :: h in r ==> h.position < |scores| && h.score == scores[h.position] > threshold)
            && (forall i, h | 0 <= i < |scores| && scores[i] > threshold && Hit(i, scores[i]) !in r && h in r ::
                  Before(h, Hit(i, scores[i])))
  {
    var sorted := OrderByDescending(Qualifying(Scored(scores), threshold));
    SortedQualifying(scores, threshold);
    var r := Take(sorted, topK);
    assert forall h :: h in r ==> h in sorted;
    forall i, h | 0 <= i < |scores| && scores[i] > threshold && Hit(i, scores[i]) !in r && h in r
      ensures Before(h, Hit(i, scores[i]))
    {
      CutKeepsBest(sorted, topK, h, Hit(i, scores[i]));
    }
  }

  // ---- Keyword search --------------------------------------------------------------

  predicate OccursAt(text: string, term: string, i: nat) { i + |term| <= |text| && text[i..i + |term|] == term }

  /** `text.Contains(term)`. */
  predicate Contains(text: string, term: string) { exists i :: 0 <= i <= |text| && OccursAt(text, term, i) }

  function SplitSpaces(s: string): (parts: seq<string>)
    ensures |parts| >= 1
  {
    if s == "" then [""]
    else
      var rest := SplitSpaces(s[1..]);
      if s[0] == ' ' then [""] + rest else [[s[0]] + rest[0]] + rest[1..]
  }

  /** The terms of a query: its parts between spaces, trimmed, the empty ones dropped. */
  function Terms(query: string): seq<string> { Chunker.TrimmedNonEmpty(SplitSpaces(query)) }

  function Matches(text: string, terms: seq<string>): nat {
    if terms == [] then 0
    else Matches(text, terms[..|terms| - 1]) + if Contains(text, terms[|terms| - 1]) then 1 else 0
  }

  /** Matched terms over terms, with the divisor kept at one for an empty query. */
  function KeywordScore(text: string, terms: seq<string>): real { Share(Matches(text, terms), |terms|) }

  function Share(matched: nat, terms: nat): real { matched as real / (if terms > 1 then terms else 1) as real }

  /** `lower` is the invariant lower case. */
  function KeywordScores(chunks: seq<string>, query: string, lower: string -> string): seq<real> {
    seq(|chunks|, i requires 0 <= i < |chunks| => KeywordScore(lower(chunks[i]), Terms(lower(query))))
  }

  function KeywordHits(chunks: seq<string>, query: string, topK: int, lower: string -> string): seq<Hit> {
    Rank(KeywordScores(chunks, query, lower), 0.0, topK)
  }

  predicate MentionsSome(text: string, terms: seq<string>) {
    exists k :: 0 <= k < |terms| && Contains(text, terms[k])
  }

  predicate MentionsAll(text: string, terms: seq<string>) {
    forall k :: 0 <= k < |terms| ==> Contains(text, terms[k])
  }

  lemma {:induction false} MatchesCount(text: string, terms: seq<string>)
    ensures Matches(text, terms) <= |terms|
    ensures Matches(text, terms) > 0 <==> MentionsSome(text, terms)
    ensures Matches(text, terms) == |terms| <==> MentionsAll(text, terms)
  {
    if terms != [] {
      var n := |terms| - 1;
      MatchesCount(text, terms[..n]);
      if MentionsSome(text, terms[..n]) {
        var k :| 0 <= k < n && Contains(text, terms[..n][k]);
        assert Contains(text, terms[k]);
      }
      assert forall k :: 0 <= k < n ==> terms[..n][k] == terms[k];
    }
  }

  lemma ShareRange(matched: nat, terms: nat)
    requires matched <= terms
    ensures 0.0 <= Share(matched, terms) <= 1.0
    ensures Share(matched, terms) > 0.0 <==> matched > 0
    ensures Share(matched, terms) == 1.0 <==> matched == terms > 0
  {
  }

  /** Scores lie in [0, 1]: positive exactly when some term occurs in the text, 1 exactly when all of them do. */
  lemma KeywordScoreRange(text: string, terms: seq<string>)
    ensures 0.0 <= KeywordScore(text, terms) <= 1.0
    ensures KeywordScore(text, terms) > 0.0 <==> MentionsSome(text, terms)
    ensures KeywordScore(text, terms) == 1.0 <==> terms != [] && MentionsAll(text, terms)
  {
    MatchesCount(text, terms);
    ShareRange(Matches(text, terms), |terms|);
  }

  lemma ShareOrder(a: nat, b: nat, terms: nat)
    requires Share(a, terms) >= Share(b, terms)
    ensures a >= b
  {
  }

  /** The chunks some term of the query occurs in. */
  function Mentioning(chunks: seq<string>, query: string, lower: string -> string): set<nat> {
    set i | 0 <= i < |chunks| && MentionsSome(lower(chunks[i]), Terms(lower(query)))
  }

  lemma {:induction false} QualifyingCount(hits: seq<Hit>, threshold: real)
    ensures |Qualifying(hits, threshold)| == |set i | 0 <= i < |hits| && hits[i].score > threshold|
  {
    var all := set i | 0 <= i < |hits| && hits[i].score > threshold;
    if hits != [] {
      var n := |hits| - 1;
      QualifyingCount(hits[..n], threshold);
      var init := set i | 0 <= i < n && hits[..n][i].score > threshold;
      assert all == init + if hits[n].score > threshold then {n} else {};
    }
  }

  lemma MentioningQualify(chunks: seq<string>, query: string, lower: string -> string)
    ensures |Qualifying(Scored(KeywordScores(chunks, query, lower)), 0.0)| == |Mentioning(chunks, query, lower)|
    ensures forall i :: 0 <= i < |chunks| ==>
              (KeywordScores(chunks, query, lower)[i] > 0.0 <==> i in Mentioning(chunks, query, lower))
  {
    var hits := Scored(KeywordScores(chunks, query, lower));
    QualifyingCount(hits, 0.0);
    forall i | 0 <= i < |chunks|
      ensures hits[i].score > 0.0 <==> i in Mentioning(chunks, query, lower)
    {
      KeywordScoreRange(lower(chunks[i]), Terms(lower(query)));
    }
    assert (set i | 0 <= i < |hits| && hits[i].score > 0.0) == Mentioning(chunks, query, lower);
  }

  /**
   Keyword search returns only chunks some term occurs in, as many of them as topK allows, those with
   more of the terms first; a chunk left out has at most as many as any returned.
   */
  lemma KeywordSearchFinds(chunks: seq<string>, query: string, topK: int, lower: string -> string)
    ensures var r, found := KeywordHits(chunks, query, topK, lower), Mentioning(chunks, query, lower);
            && |r| == (if topK <= 0 then 0 else if topK < |found| then topK else |found|)
            && (forall h :: h in r ==> h.position in found)
            && (forall i, j :: 0 <= i < j < |r| ==>
                  && r[i].position != r[j].position
                  && MatchesAt(chunks, query, lower, r[i].position) >= MatchesAt(chunks, query, lower, r[j].position))
            && (forall h, i :: h in r && i in found && (forall g :: g in r ==> g.position != i) ==>
                  MatchesAt(chunks, query, lower, h.position) >= MatchesAt(chunks, query, lower, i))
  {
    var scores, terms := KeywordScores(chunks, query, lower), Terms(lower(query));
    var r, found := KeywordHits(chunks, query, topK, lower), Mentioning(chunks, query, lower);
    RankSelectsBest(scores, 0.0, topK);
    MentioningQualify(chunks, query, lower);
    forall i, j | 0 <= i < j < |r|
      ensures r[i].position != r[j].position
      ensures MatchesAt(chunks, query, lower, r[i].position) >= MatchesAt(chunks, query, lower, r[j].position)
    {
      assert r[i] in r && r[j] in r && Before(r[i], r[j]);
      ShareOrder(Matches(lower(chunks[r[i].position]), terms), Matches(lower(chunks[r[j].position]), terms), |terms|);
    }
    forall h, i | h in r && i in found && (forall g :: g in r ==> g.position != i)
      ensures MatchesAt(chunks, query, lower, h.position) >= MatchesAt(chunks, query, lower, i)
    {
      assert Hit(i, scores[i]) !in r && Before(h, Hit(i, scores[i]));
      ShareOrder(Matches(lower(chunks[h.position]), terms), Matches(lower(chunks[i]), terms), |terms|);
    }
  }

  /** How many terms of the query occur in a chunk. */
  function MatchesAt(chunks: seq<string>, query: string, lower: string -> string, i: nat): nat {
    if i < |chunks| then Matches(lower(chunks[i]), Terms(lower(query))) else 0
  }

  lemma {:induction false} WhiteSpaces(s: string)
    ensures AllWhite(s) <==> Chunker.AllPartsWhite(SplitSpaces(s))
  {
    if s == "" {
      assert AllWhite("");
    } else {
      var rest := SplitSpaces(s[1..]);
      WhiteSpaces(s[1..]);
      assert s == [s[0]] + s[1..];
      Chunker.WhiteCons(s[0], s[1..]);
      if s[0] == ' ' {
        assert AllWhite("");
        Chunker.AllPartsCons("", rest);
      } else {
        Chunker.WhiteCons(s[0], rest[0]);
        assert rest == [rest[0]] + rest[1..];
        Chunker.AllPartsCons(rest[0], rest[1..]);
        Chunker.AllPartsCons([s[0]] + rest[0], rest[1..]);
      }
    }
  }

  lemma {:induction false} NoneLeft(parts: seq<string>)
    ensures Chunker.TrimmedNonEmpty(parts) == [] <==> Chunker.AllPartsWhite(parts)
  {
    if parts != [] {
      NoneLeft(parts[1..]);
      Chunker.TrimEmptyIff(parts[0]);
      assert parts == [parts[0]] + parts[1..];
      Chunker.AllPartsCons(parts[0], parts[1..]);
    }
  }

  /** A query has no terms, and so finds nothing, exactly when it is white space. */
  lemma BlankQueries(query: string)
    ensures Terms(query) == [] <==> AllWhite(query)
  {
    WhiteSpaces(query);
    NoneLeft(SplitSpaces(query));
  }

  // ---- Terms and scores in their own words -----------------------------------------------------------

  /** The parts with a space between each two. */
  function Spaced(parts: seq<string>): string {
    if parts == [] then "" else if |parts| == 1 then parts[0] else parts[0] + " " + Spaced(parts[1..])
  }

  /** The parts of a query hold no space, and with spaces between them they are the query. */
  lemma {:induction false} PartsSpellQuery(s: string)
    ensures Spaced(SplitSpaces(s)) == s
    ensures forall k :: 0 <= k < |SplitSpaces(s)| ==> ' ' !in SplitSpaces(s)[k]
  {
    if s != "" {
      var rest := SplitSpaces(s[1..]);
      PartsSpellQuery(s[1..]);
      if s[0] == ' ' {
        assert ([""] + rest)[1..] == rest;
      } else {
        FirstSpaced(s[0], rest);
        assert ' ' !in rest[0];
      }
    }
  }

  lemma FirstSpaced(c: char, rest: seq<string>)
    requires rest != []
    ensures Spaced([[c] + rest[0]] + rest[1..]) == [c] + Spaced(rest)
  {
    var longer := [[c] + rest[0]] + rest[1..];
    assert longer[1..] == rest[1..];
    if |rest| > 1 {
      assert [c] + rest[0] + " " + Spaced(rest[1..]) == [c] + (rest[0] + " " + Spaced(rest[1..]));
    }
  }

  /** Which terms of a list occur in a text. */
  function Occurring(text: string, terms: seq<string>): set<nat> {
    set k: nat | k < |terms| && Contains(text, terms[k])
  }

  lemma {:induction false} MatchesAreOccurring(text: string, terms: seq<string>)
    ensures Matches(text, terms) == |Occurring(text, terms)|
  {
    if terms != [] {
      var n := |terms| - 1;
      MatchesAreOccurring(text, terms[..n]);
      assert Occurring(text, terms) == Occurring(text, terms[..n]) + if Contains(text, terms[n]) then {n} else {};
    } else {
      assert Occurring(text, terms) == {};
    }
  }

  /** A keyword score is the share of the terms that occur in the text. */
  lemma ScoreIsShare(text: string, terms: seq<string>)
    requires terms != []
    ensures Times(KeywordScore(text, terms), |terms| as real) == |Occurring(text, terms)| as real
  {
    MatchesAreOccurring(text, terms);
    QuotientBack(Matches(text, terms) as real, |terms| as real);
  }

  lemma QuotientBack(a: real, b: real)
    requires b != 0.0
    ensures Times(a / b, b) == a
  {
  }

  /** The cosine of nonzero vectors times the lengths of both is their inner product. */
  lemma CosineTimesLengths(a: seq<real>, b: seq<real>, sqrt: real -> real)
    requires IsSqrt(sqrt) && |a| == |b| && Dot(a, a) != 0.0 && Dot(b, b) != 0.0
    ensures Times(Cosine(a, b, sqrt), Times(sqrt(Dot(a, a)), sqrt(Dot(b, b)))) == Dot(a, b)
  {
    NormsPositive(a, sqrt);
    NormsPositive(b, sqrt);
    PositiveTimes(sqrt(Dot(a, a)), sqrt(Dot(b, b)));
    QuotientBack(Dot(a, b), Times(sqrt(Dot(a, a)), sqrt(Dot(b, b))));
  }

  /** A vector of length `n` that is `x` at `i` and 0 elsewhere. */
  function Axis(n: nat, i: nat, x: real): (v: seq<real>)
    ensures |v| == n
  {
    seq(n, k => if k == i then x else 0.0)
  }

  /** The inner product with such a vector is the product at its place. */
  lemma {:induction false} DotWithAxis(a: seq<real>, i: nat, x: real)
    requires i < |a|
    ensures Dot(a, Axis(|a|, i, x)) == Times(a[i], x)
  {
    var n := |a| - 1;
    var axis := Axis(|a|, i, x);
    assert axis[..n] == Axis(n, i, x);
    if i == n {
      DotWithZeros(a[..n], i, x);
    } else {
      DotWithAxis(a[..n], i, x);
      assert Times(a[n], 0.0) == 0.0;
    }
  }

  lemma {:induction false} DotWithZeros(a: seq<real>, i: nat, x: real)
    requires i >= |a|
    ensures Dot(a, Axis(|a|, i, x)) == 0.0
  {
    if a != [] {
      var n := |a| - 1;
      assert Axis(|a|, i, x)[..n] == Axis(n, i, x);
      DotWithZeros(a[..n], i, x);
      assert Times(a[n], 0.0) == 0.0;
    }
  }

  function Added(a: seq<real>, b: seq<real>): seq<real>
    requires |a| == |b|
  {
    seq(|a|, k requires 0 <= k < |a| => a[k] + b[k])
  }

  /** The inner product is additive, so its values on single places say what it is. */
  lemma {:induction false} DotAdds(a: seq<real>, b: seq<real>, c: seq<real>)
    requires |a| == |b| == |c|
    ensures Dot(a, Added(b, c)) == Dot(a, b) + Dot(a, c)
  {
    if a != [] {
      var n := |a| - 1;
      assert Added(b, c)[..n] == Added(b[..n], c[..n]);
      DotAdds(a[..n], b[..n], c[..n]);
      assert Times(a[n], b[n] + c[n]) == Times(a[n], b[n]) + Times(a[n], c[n]);
    }
  }
}
