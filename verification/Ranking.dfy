/** What the search index ranks by: how a text is cut into terms, how rare a term is, and which of
    two documents comes first. */
module Ranking {
  import opened Text
  import opened VectorIndexes

  // ------------------------------------------------------------------
  // Terms of a text
  // ------------------------------------------------------------------

  /** A nonempty run of lower-case letters and digits. */
  ghost predicate IsTerm(s: string) {
    s != [] && forall i :: 0 <= i < |s| ==> 'a' <= s[i] <= 'z' || '0' <= s[i] <= '9'
  }

  /** A character that separates terms, whatever its case. */
  predicate Separates(c: char) {
    !('a' <= c <= 'z') && !('A' <= c <= 'Z') && !('0' <= c <= '9')
  }

  lemma {:induction false} RunsConcat(s: string, current: string, rest: string, c: char)
    requires !IsTokenChar(c)
    ensures Runs(s + [c] + rest, current) == Runs(s, current) + Runs(rest, "")
    decreases s
  {
    var all := s + [c] + rest;
    if s == [] {
      assert all[0] == c && all[1..] == rest;
    } else {
      assert all[0] == s[0] && all[1..] == s[1..] + [c] + rest;
      RunsConcat(s[1..], current + [s[0]], rest, c);
      RunsConcat(s[1..], "", rest, c);
    }
  }

  lemma {:induction false} RunsOfTerm(s: string, current: string)
    requires forall i :: 0 <= i < |s| ==> IsTokenChar(s[i])
    ensures Runs(s, current) == if current + s == [] then [] else [current + s]
    decreases s
  {
    if s == [] {
      assert current + s == current;
    } else {
      RunsOfTerm(s[1..], current + [s[0]]);
      assert current + [s[0]] + s[1..] == current + s;
    }
  }

  lemma LowerConcat(a: string, b: string)
    ensures Lower(a + b) == Lower(a) + Lower(b)
  {}

  lemma SeparatorStays(c: char)
    requires Separates(c)
    ensures Lower([c]) == [c] && !IsTokenChar(c)
  {}

  /** A separator cuts a text in two; together with the next two lemmas this fixes the terms of
      every text. */
  lemma TokenizeSplits(a: string, c: char, b: string)
    requires Separates(c)
    ensures Tokenize(a + [c] + b) == Tokenize(a) + Tokenize(b)
  {
    hide Runs;
    SeparatorStays(c);
    LowerConcat(a + [c], b);
    LowerConcat(a, [c]);
    RunsConcat(Lower(a), "", Lower(b), c);
  }

  /** A text without separators is one term, in lower case, if there is anything. */
  lemma TokenizeWord(s: string)
    requires forall i :: 0 <= i < |s| ==> !Separates(s[i])
    ensures Tokenize(s) == if s == [] then [] else [Lower(s)]
  {
    hide Runs;
    assert forall i :: 0 <= i < |s| ==> IsTokenChar(Lower(s)[i]);
    RunsOfTerm(Lower(s), "");
    assert "" + Lower(s) == Lower(s);
  }

  lemma {:induction false} RunsAreTerms(s: string, current: string, t: string)
    requires t in Runs(s, current) && (current != [] ==> IsTerm(current))
    ensures IsTerm(t)
    decreases s
  {
    if s != [] {
      if IsTokenChar(s[0]) {
        RunsAreTerms(s[1..], current + [s[0]], t);
      } else if t in Runs(s[1..], "") {
        RunsAreTerms(s[1..], "", t);
      }
    }
  }

  /** Every token is a term. */
  lemma TokensAreTerms(text: string, t: string)
    requires t in Tokenize(text)
    ensures IsTerm(t)
  {
    RunsAreTerms(Lower(text), "", t);
  }

  // ------------------------------------------------------------------
  // How rare a term is
  // ------------------------------------------------------------------

  /** The logarithm rises strictly. */
  ghost predicate Rises(log: real -> real) {
    log(1.0) == 0.0 && forall x, y :: 0.0 < x < y ==> log(x) < log(y)
  }

  /** In how many documents the term occurs. */
  ghost function DocumentsWith(documents: map<string, string>, t: string): set<string> {
    set k | k in documents && t in Tokenize(documents[k])
  }

  lemma HoldingIsWith(documents: map<string, string>, t: string)
    ensures Holding(documents, documents.Keys, t) == DocumentsWith(documents, t)
  {
    hide Tokenize;
  }

  lemma RatioFalls(n: nat, d1: nat, d2: nat)
    requires d1 < d2
    ensures (n + 1) as real / (d1 + 1) as real > (n + 1) as real / (d2 + 1) as real > 0.0
  {
    var a, x, y := (n + 1) as real, (d1 + 1) as real, (d2 + 1) as real;
    QuotientFalls(a, x, y);
  }

  lemma QuotientFalls(a: real, x: real, y: real)
    requires a > 0.0 && 0.0 < x < y
    ensures a / x > a / y > 0.0
  {
    var p, q := a / x, a / y;
    FractionPositive(a, y);
    assert p * x == a && q * y == a;
    assert (p - q) * x == q * (y - x);
    PositiveProduct(q, y - x);
    PositiveFactor(p - q, x);
  }

  lemma PositiveFactor(u: real, x: real)
    requires x > 0.0 && u * x > 0.0
    ensures u > 0.0
  {}

  lemma IdfFalls(n: nat, d1: nat, d2: nat, log: real -> real)
    requires Rises(log) && d1 < d2
    ensures Idf(d1, n, log) > Idf(d2, n, log)
  {
    RatioFalls(n, d1, d2);
  }

  lemma MulGrows(a: real, x: real, y: real)
    requires a > 0.0 && x > y
    ensures Mul(a, x) > Mul(a, y)
  {
    MulSign(a, x - y);
    MulPlus(a, x, y);
    hide Mul;
  }

  lemma TermFrequencyPositive(tokens: seq<string>, t: string)
    requires t in tokens
    ensures Count(tokens, t) as real / |tokens| as real > 0.0
  {
    CountPositive(tokens, t);
    FractionPositive(Count(tokens, t) as real, |tokens| as real);
  }

  lemma FractionPositive(x: real, y: real)
    requires x > 0.0 && y > 0.0
    ensures x / y > 0.0
  {
    var q := x / y;
    assert q * y == x;
  }

  /** Of two terms that occur equally often in a text, the one found in fewer documents weighs
      strictly more. */
  lemma RarerWeighsMore(documents: map<string, string>, text: string, t1: string, t2: string, log: real -> real)
    requires Rises(log) && t1 in Tokenize(text) && t2 in Tokenize(text)
    requires Count(Tokenize(text), t1) == Count(Tokenize(text), t2)
    requires |DocumentsWith(documents, t1)| < |DocumentsWith(documents, t2)|
    ensures VectorOf(documents, text, log)[t1] > VectorOf(documents, text, log)[t2]
  {
    hide Tokenize, Holding, DocumentsWith, Mul, Idf, Count, Rises;
    var tokens := Tokenize(text);
    HoldingIsWith(documents, t1);
    HoldingIsWith(documents, t2);
    TermFrequencyPositive(tokens, t1);
    IdfFalls(|documents|, |DocumentsWith(documents, t1)|, |DocumentsWith(documents, t2)|, log);
    MulGrows(Count(tokens, t1) as real / |tokens| as real, Idf(|DocumentsWith(documents, t1)|, |documents|, log),
      Idf(|DocumentsWith(documents, t2)|, |documents|, log));
  }

  lemma EqualRatio(n: nat)
    ensures (n + 1) as real / (n + 1) as real == 1.0
  {}

  /** A term found in every document weighs exactly its share of the text. */
  lemma CommonestWeighsItsShare(documents: map<string, string>, text: string, t: string, log: real -> real)
    requires Rises(log) && t in Tokenize(text) && |DocumentsWith(documents, t)| == |documents|
    ensures VectorOf(documents, text, log)[t] == Count(Tokenize(text), t) as real / |Tokenize(text)| as real
  {
    hide Tokenize, Holding, DocumentsWith, Count;
    HoldingIsWith(documents, t);
    EqualRatio(|documents|);
    assert Idf(|documents|, |documents|, log) == 1.0;
    hide Idf;
  }

  /** A term's weight in a text is proportional to its share of it. */
  lemma WeightIsProportional(documents: map<string, string>, text1: string, text2: string, t: string, log: real -> real)
    requires t in Tokenize(text1) && t in Tokenize(text2)
    ensures Mul(VectorOf(documents, text1, log)[t], Count(Tokenize(text2), t) as real / |Tokenize(text2)| as real) ==
      Mul(VectorOf(documents, text2, log)[t], Count(Tokenize(text1), t) as real / |Tokenize(text1)| as real)
  {
    hide Tokenize, Holding, Count, Idf, Mul;
    var df := |Holding(documents, documents.Keys, t)|;
    Proportion(Count(Tokenize(text1), t) as real / |Tokenize(text1)| as real,
      Count(Tokenize(text2), t) as real / |Tokenize(text2)| as real, Idf(df, |documents|, log));
  }

  lemma Proportion(a: real, b: real, i: real)
    ensures Mul(Mul(a, i), b) == Mul(Mul(b, i), a)
  {
    assert (a * i) * b == (b * i) * a;
  }

  // ------------------------------------------------------------------
  // Scores
  // ------------------------------------------------------------------

  /** Texts without a common term score 0. */
  lemma NothingSharedScoresZero(documents: map<string, string>, query: string, key: string, log: real -> real,
      sqrt: real -> real)
    requires key in documents && forall t :: t in Tokenize(query) ==> t !in Tokenize(documents[key])
    ensures ScoreOf(documents, query, key, log, sqrt) == 0.0
  {
    hide Tokenize, Mul, Weight, Holding;
    var a, b := VectorOf(documents, query, log), VectorOf(documents, documents[key], log);
    forall t | t in a.Keys + b.Keys ensures Product(a, b)(t) == 0.0 {
      MulSign(At(a, t), At(b, t));
    }
    SumWiden({}, a.Keys + b.Keys, Product(a, b));
    SumEmpty(Product(a, b));
    hide VectorOf;
    ZeroQuotient(Mul(sqrt(Norm2(a)), sqrt(Norm2(b))));
  }

  lemma ZeroQuotient(n: real)
    ensures Quotient(0.0, n) == 0.0
  {}

  /** A document scores 1 for its own text, if it has any term. */
  lemma OwnTextScoresOne(documents: map<string, string>, key: string, log: real -> real, sqrt: real -> real)
    requires key in documents && Tokenize(documents[key]) != [] && IsLog(log) && IsSqrt(sqrt)
    ensures ScoreOf(documents, documents[key], key, log, sqrt) == 1.0
  {
    hide Tokenize, Mul, Weight, Holding, IsLog, IsSqrt, Quotient;
    var a := VectorOf(documents, documents[key], log);
    assert Tokenize(documents[key])[0] in a;
    WeightsPositive(documents, documents[key], log);
    hide VectorOf;
    NormPositive(a, Tokenize(documents[key])[0], sqrt);
    assert a.Keys + a.Keys == a.Keys;
    RootOf(a, sqrt);
    SelfQuotient(Norm2(a));
  }

  lemma SelfQuotient(n: real)
    requires n != 0.0
    ensures Quotient(n, n) == 1.0
  {}

  lemma NormPositive(a: Vector, t: string, sqrt: real -> real)
    requires IsSqrt(sqrt) && t in a && a[t] > 0.0 && NonNegative(a)
    ensures Norm2(a) > 0.0 && sqrt(Norm2(a)) > 0.0
  {
    hide Mul, IsSqrt;
    forall x | x in a.Keys ensures Product(a, a)(x) >= 0.0 {
      SquareSign(At(a, x));
    }
    SumNonNegative(a.Keys, Product(a, a));
    MulSign(a[t], a[t]);
    assert Product(a, a)(t) > 0.0;
    RootOf(a, sqrt);
    MulSign(sqrt(Norm2(a)), sqrt(Norm2(a)));
  }

  /** The only term that query and document share. */
  ghost predicate SharesOnly(documents: map<string, string>, query: string, key: string, t: string)
    requires key in documents
  {
    && t in Tokenize(query) && t in Tokenize(documents[key])
    && forall u :: u in Tokenize(query) && u in Tokenize(documents[key]) ==> u == t
  }

  /** The documents have the same terms equally often, but for `t1` in one and `t2` in the other. */
  ghost predicate SameShape(a: seq<string>, b: seq<string>, t1: string, t2: string) {
    && |a| == |b| && t1 in a && t2 in b && t2 !in a && t1 !in b && Count(a, t1) == Count(b, t2)
    && forall u :: u != t1 && u != t2 ==> (u in a <==> u in b) && Count(a, u) == Count(b, u)
  }

  lemma OneTermDot(a: Vector, b: Vector, t: string)
    requires t in a && t in b && forall u :: u in a && u in b ==> u == t
    ensures Dot(a, b) == Mul(a[t], b[t])
  {
    hide Mul;
    forall u | u in a.Keys + b.Keys && u !in {t} ensures Product(a, b)(u) == 0.0 {
      MulSign(At(a, u), At(b, u));
    }
    SumWiden({t}, a.Keys + b.Keys, Product(a, b));
    SumTake({t}, Product(a, b), t);
    assert {t} - {t} == {};
    SumEmpty(Product(a, b));
  }

  lemma NormSplits(a: Vector, t: string)
    requires t in a
    ensures Norm2(a) == Mul(a[t], a[t]) + Sum(a.Keys - {t}, Product(a, a))
  {
    hide Mul;
    SumTake(a.Keys, Product(a, a), t);
  }

  /** A larger share of the same rest is a larger share of the whole. */
  lemma ShareGrows(w1: real, w2: real, rest: real, n1: real, n2: real)
    requires w1 >= w2 > 0.0 && rest >= 0.0 && n1 > 0.0 && n2 > 0.0
    requires Mul(n1, n1) == Mul(w1, w1) + rest && Mul(n2, n2) == Mul(w2, w2) + rest
    ensures Mul(w2, n1) <= Mul(w1, n2)
  {
    hide Mul;
    var a, b := Mul(w1, w1), Mul(w2, w2);
    SquareOfProduct(w2, n1);
    SquareOfProduct(w1, n2);
    MulPlus(b, a, rest);
    MulPlus(a, b, rest);
    MulSwap(a, b);
    if w1 > w2 {
      LargerSquare(w1, w2);
    }
    MulSign(a - b, rest);
    MulPlus(rest, a, b);
    MulSwap(a, rest);
    MulSwap(b, rest);
    MulSwap(a - b, rest);
    MulSign(w2, n1);
    MulSign(w1, n2);
    SquaresOrder(Mul(w2, n1), Mul(w1, n2));
  }

  lemma CrossQuotients(d1: real, m1: real, d2: real, m2: real)
    requires m1 > 0.0 && m2 > 0.0 && d1 * m2 > d2 * m1
    ensures Quotient(d1, m1) > Quotient(d2, m2)
  {
    var x, y := d1 / m1, d2 / m2;
    assert x * m1 == d1 && y * m2 == d2;
    assert (x - y) * (m1 * m2) == d1 * m2 - d2 * m1 by {
      assert x * (m1 * m2) == (x * m1) * m2;
      assert y * (m1 * m2) == (y * m2) * m1;
    }
    PositiveProduct(m1, m2);
    PositiveFactor(x - y, m1 * m2);
  }

  lemma HigherScore(q1: real, q2: real, w1: real, w2: real, nq: real, n1: real, n2: real)
    requires q1 > q2 > 0.0 && w2 > 0.0 && w1 > 0.0 && nq > 0.0 && n1 > 0.0 && n2 > 0.0
    requires Mul(w2, n1) <= Mul(w1, n2)
    ensures Quotient(Mul(q1, w1), Mul(nq, n1)) > Quotient(Mul(q2, w2), Mul(nq, n2))
  {
    hide Quotient;
    var x, y := w1 * n2, w2 * n1;
    PositiveProduct(w2, n1);
    PositiveProduct(nq, n1);
    PositiveProduct(nq, n2);
    assert q1 * x >= q1 * y by { NotSmaller(q1, x, y); }
    assert q1 * y > q2 * y by { PositiveProduct(q1 - q2, y); }
    PositiveProduct(nq, q1 * x - q2 * y);
    Rearranged(q1, w1, nq, n2);
    Rearranged(q2, w2, nq, n1);
    CrossQuotients(q1 * w1, nq * n1, q2 * w2, nq * n2);
  }

  lemma NotSmaller(q: real, x: real, y: real)
    requires q > 0.0 && x >= y
    ensures q * x >= q * y
  {}

  lemma Rearranged(q: real, w: real, nq: real, n: real)
    ensures (q * w) * (nq * n) == nq * (q * (w * n))
  {
    assert (q * w) * (nq * n) == ((q * w) * nq) * n;
    assert ((q * w) * nq) * n == (nq * (q * w)) * n;
    assert (nq * (q * w)) * n == nq * ((q * w) * n);
    assert (q * w) * n == q * (w * n);
  }

  lemma RisesIsLog(log: real -> real)
    requires Rises(log)
    ensures IsLog(log)
  {}

  /** In documents of the same shape the rarer of the two terms weighs more, and everything else the
      same. */
  lemma ShapeWeights(documents: map<string, string>, k1: string, k2: string, t1: string, t2: string, log: real -> real)
    requires k1 in documents && k2 in documents && Rises(log)
    requires SameShape(Tokenize(documents[k1]), Tokenize(documents[k2]), t1, t2)
    requires |DocumentsWith(documents, t1)| < |DocumentsWith(documents, t2)|
    ensures var v1 := VectorOf(documents, documents[k1], log);
      var v2 := VectorOf(documents, documents[k2], log);
      && t1 in v1 && t2 in v2 && v1[t1] > v2[t2] && v1.Keys - {t1} == v2.Keys - {t2}
      && forall u :: u in v1.Keys - {t1} ==> v1[u] == v2[u]
  {
    hide Tokenize, Holding, DocumentsWith, Mul, Idf, Count, Rises;
    var a, b := Tokenize(documents[k1]), Tokenize(documents[k2]);
    HoldingIsWith(documents, t1);
    HoldingIsWith(documents, t2);
    TermFrequencyPositive(a, t1);
    IdfFalls(|documents|, |DocumentsWith(documents, t1)|, |DocumentsWith(documents, t2)|, log);
    MulGrows(Count(a, t1) as real / |a| as real, Idf(|DocumentsWith(documents, t1)|, |documents|, log),
      Idf(|DocumentsWith(documents, t2)|, |documents|, log));
  }

  lemma SameRest(v1: Vector, v2: Vector, t1: string, t2: string)
    requires t1 in v1 && t2 in v2 && v1.Keys - {t1} == v2.Keys - {t2}
    requires forall u :: u in v1.Keys - {t1} ==> v1[u] == v2[u]
    ensures Sum(v1.Keys - {t1}, Product(v1, v1)) == Sum(v2.Keys - {t2}, Product(v2, v2)) >= 0.0
  {
    hide Mul;
    SumSame(v1.Keys - {t1}, Product(v1, v1), Product(v2, v2));
    SumSquares(v1.Keys - {t1}, v1);
  }

  lemma VectorComparison(q: Vector, v1: Vector, v2: Vector, t1: string, t2: string, sqrt: real -> real)
    requires IsSqrt(sqrt) && NonNegative(q) && NonNegative(v1) && NonNegative(v2)
    requires t1 in q && t2 in q && t1 in v1 && t2 in v2 && q[t1] > q[t2] > 0.0 && v1[t1] > v2[t2] > 0.0
    requires forall u :: u in q && u in v1 ==> u == t1
    requires forall u :: u in q && u in v2 ==> u == t2
    requires v1.Keys - {t1} == v2.Keys - {t2} && forall u :: u in v1.Keys - {t1} ==> v1[u] == v2[u]
    ensures CosineOf(q, v1, sqrt) > CosineOf(q, v2, sqrt)
  {
    hide Mul, Dot, Norm2, IsSqrt, Quotient, Sum, NonNegative;
    OneTermDot(q, v1, t1);
    OneTermDot(q, v2, t2);
    NormSplits(v1, t1);
    NormSplits(v2, t2);
    SameRest(v1, v2, t1, t2);
    NormPositive(q, t1, sqrt);
    NormPositive(v1, t1, sqrt);
    NormPositive(v2, t2, sqrt);
    RootOf(v1, sqrt);
    RootOf(v2, sqrt);
    ShareGrows(v1[t1], v2[t2], Sum(v1.Keys - {t1}, Product(v1, v1)), sqrt(Norm2(v1)), sqrt(Norm2(v2)));
    HigherScore(q[t1], q[t2], v1[t1], v2[t2], sqrt(Norm2(q)), sqrt(Norm2(v1)), sqrt(Norm2(v2)));
  }

  /** Of two documents of the same shape that each share one term with the query, the one that shares
      the rarer term scores higher, if the query has both equally often. */
  lemma RarerMatchScoresHigher(documents: map<string, string>, query: string, k1: string, k2: string, t1: string,
      t2: string, log: real -> real, sqrt: real -> real)
    requires k1 in documents && k2 in documents && Rises(log) && IsSqrt(sqrt)
    requires SharesOnly(documents, query, k1, t1) && SharesOnly(documents, query, k2, t2)
    requires Count(Tokenize(query), t1) == Count(Tokenize(query), t2)
    requires SameShape(Tokenize(documents[k1]), Tokenize(documents[k2]), t1, t2)
    requires |DocumentsWith(documents, t1)| < |DocumentsWith(documents, t2)|
    ensures ScoreOf(documents, query, k1, log, sqrt) > ScoreOf(documents, query, k2, log, sqrt)
  {
    var q := VectorOf(documents, query, log);
    var v1, v2 := VectorOf(documents, documents[k1], log), VectorOf(documents, documents[k2], log);
    assert forall u :: u in q && u in v1 ==> u == t1;
    assert forall u :: u in q && u in v2 ==> u == t2;
    assert t1 in q && t2 in q;
    hide Tokenize, Count, DocumentsWith, VectorOf, CosineOf, Rises, IsSqrt, SameShape;
    RisesIsLog(log);
    WeightsPositive(documents, query, log);
    WeightsPositive(documents, documents[k1], log);
    WeightsPositive(documents, documents[k2], log);
    RarerWeighsMore(documents, query, t1, t2, log);
    ShapeWeights(documents, k1, k2, t1, t2, log);
    VectorComparison(q, v1, v2, t1, t2, sqrt);
  }

  /** In what `search` answers, such a document comes before the other one, and is there whenever the
      other is. */
  lemma RarerMatchComesFirst(documents: map<string, string>, query: string, topK: nat, minScore: real,
      log: real -> real,
      sqrt: real -> real, hits: seq<Hit>, k1: string, k2: string, j: nat)
    requires k1 in documents && k2 in documents && Answers(documents, query, topK, minScore, log, sqrt, hits)
    requires ScoreOf(documents, query, k1, log, sqrt) > ScoreOf(documents, query, k2, log, sqrt)
    requires j < |hits| && hits[j].key == k2
    ensures exists i :: 0 <= i < j && hits[i].key == k1
  {
    hide ScoreOf;
    assert hits[j] in hits;
    var h :| h in hits && h.key == k1;
    var i :| 0 <= i < |hits| && hits[i] == h;
    assert i != j;
    assert !(j < i);
  }
}
