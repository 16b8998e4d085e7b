/** The TF-IDF search index over exact reals. Logarithm and square root are parameters, of which
    only monotonicity and the square are used. */
module VectorIndexes {
  import opened Text

  type Vector = map<string, real>

  // ------------------------------------------------------------------
  // Tokens
  // ------------------------------------------------------------------

  predicate IsTokenChar(c: char) {
    'a' <= c <= 'z' || '0' <= c <= '9'
  }

  /** The maximal runs of token characters. */
  function Runs(s: string, current: string): seq<string> {
    if s == [] then (if current == [] then [] else [current])
    else if IsTokenChar(s[0]) then Runs(s[1..], current + [s[0]])
    else (if current == [] then [] else [current]) + Runs(s[1..], "")
  }

  function Tokenize(text: string): seq<string> {
    Runs(Lower(text), "")
  }

  // ------------------------------------------------------------------
  // Sums
  // ------------------------------------------------------------------

  ghost function Sum(s: set<string>, f: string -> real): real {
    if s == {} then 0.0 else
      var x :| x in s;
      f(x) + Sum(s - {x}, f)
  }

  lemma {:induction false} SumTake(s: set<string>, f: string -> real, x: string)
    requires x in s
    ensures Sum(s, f) == f(x) + Sum(s - {x}, f)
    decreases s
  {
    var y :| y in s && Sum(s, f) == f(y) + Sum(s - {y}, f);
    if y != x {
      SumTake(s - {y}, f, x);
      SumTake(s - {x}, f, y);
      assert s - {y} - {x} == s - {x} - {y};
    }
  }

  lemma {:induction false} SumNonNegative(s: set<string>, f: string -> real)
    requires forall x :: x in s ==> f(x) >= 0.0
    ensures Sum(s, f) >= 0.0
    ensures forall x :: x in s ==> Sum(s, f) >= f(x)
    decreases s
  {
    forall x | x in s ensures Sum(s, f) >= f(x) {
      SumTake(s, f, x);
      SumNonNegative(s - {x}, f);
    }
  }

  lemma {:induction false} SumSame(s: set<string>, f: string -> real, g: string -> real)
    requires forall x :: x in s ==> f(x) == g(x)
    ensures Sum(s, f) == Sum(s, g)
    decreases s
  {
    if s != {} {
      var x :| x in s;
      SumTake(s, f, x);
      SumTake(s, g, x);
      SumSame(s - {x}, f, g);
    }
  }

  /** Terms that are zero add nothing. */
  lemma {:induction false} SumWiden(s: set<string>, t: set<string>, f: string -> real)
    requires s <= t && forall x :: x in t && x !in s ==> f(x) == 0.0
    ensures Sum(t, f) == Sum(s, f)
    decreases t - s
  {
    if s == t {
    } else {
      var x :| x in t && x !in s;
      SumTake(t, f, x);
      assert (t - {x}) - s < t - s by { assert x !in (t - {x}) - s && x in t - s; }
      SumWiden(s, t - {x}, f);
    }
  }

  // ------------------------------------------------------------------
  // Cauchy and Schwarz
  // ------------------------------------------------------------------

  /** Multiplication under a name, so that sums of products can be compared linearly. */
  function Mul(x: real, y: real): real {
    x * y
  }

  lemma MulSign(x: real, y: real)
    ensures x >= 0.0 && y >= 0.0 ==> Mul(x, y) >= 0.0
    ensures x > 0.0 && y > 0.0 ==> Mul(x, y) > 0.0
    ensures x == 0.0 || y == 0.0 ==> Mul(x, y) == 0.0
  {
    if x > 0.0 && y > 0.0 {
      PositiveProduct(x, y);
    }
  }

  lemma PositiveProduct(x: real, y: real)
    requires x > 0.0 && y > 0.0
    ensures x * y > 0.0
  {}

  lemma SquareOfNegative(x: real, y: real)
    requires y == -x
    ensures Mul(y, y) == Mul(x, x)
  {}

  lemma SquareSign(x: real)
    ensures Mul(x, x) >= 0.0 && (x != 0.0 ==> Mul(x, x) > 0.0)
  {
    hide Mul;
    SquareOfNegative(x, -x);
    MulSign(x, x);
    MulSign(-x, -x);
  }

  lemma DropFactor(a: real, x: real)
    requires a > 0.0 && Mul(a, x) >= 0.0
    ensures x >= 0.0
  {
    hide Mul;
    if x < 0.0 {
      MulSign(a, -x);
      MulNegative(a, x);
    }
  }

  lemma MulNegative(a: real, x: real)
    ensures Mul(a, -x) == -Mul(a, x)
  {}

  lemma MulPlus(a: real, x: real, y: real)
    ensures Mul(a, x + y) == Mul(a, x) + Mul(a, y) && Mul(a, x - y) == Mul(a, x) - Mul(a, y)
    ensures Mul(x + y, a) == Mul(x, a) + Mul(y, a) && Mul(x - y, a) == Mul(x, a) - Mul(y, a)
  {}

  lemma MulSwap(x: real, y: real)
    ensures Mul(x, y) == Mul(y, x)
  {}

  lemma MulTurn(x: real, y: real, z: real)
    ensures Mul(x, Mul(y, z)) == Mul(Mul(x, y), z)
  {}

  /** The mixed term of the induction step, doubled. */
  lemma MixedTerm(a: real, b: real, d: real, x: real, y: real)
    requires a >= 0.0 && b >= 0.0 && Mul(d, d) <= Mul(a, b)
    ensures 2.0 * Mul(d, Mul(x, y)) <= Mul(a, Mul(y, y)) + Mul(b, Mul(x, x))
  {
    hide Mul;
    SquareSign(x);
    SquareSign(y);
    SquareSign(d);
    if a == 0.0 {
      MulSign(a, b);
      MulSign(b, Mul(x, x));
      MulSign(a, Mul(y, y));
      MulSign(d, Mul(x, y));
    } else {
      SquareSign(Mul(a, y) - Mul(d, x));
      MulSign(Mul(a, b) - Mul(d, d), Mul(x, x));
      MixedIdentity(a, b, d, x, y);
      DropFactor(a, Mul(a, Mul(y, y)) + Mul(b, Mul(x, x)) - 2.0 * Mul(d, Mul(x, y)));
    }
  }

  lemma MixedIdentity(a: real, b: real, d: real, x: real, y: real)
    ensures Mul(a, Mul(a, Mul(y, y)) + Mul(b, Mul(x, x)) - 2.0 * Mul(d, Mul(x, y))) ==
      Mul(Mul(a, y) - Mul(d, x), Mul(a, y) - Mul(d, x)) + Mul(Mul(a, b) - Mul(d, d), Mul(x, x))
  {
    hide Mul;
    var p, q, r := Mul(a, Mul(y, y)), Mul(b, Mul(x, x)), Mul(d, Mul(x, y));
    ThreeTerms(a, p, q, r);
    SquareOfDifference(Mul(a, y), Mul(d, x));
    MulPlus(Mul(x, x), Mul(a, b), Mul(d, d));
    SquareOfProduct(a, y);
    SquareOfProduct(d, x);
    MulTurn(a, a, Mul(y, y));
    MulTurn(a, b, Mul(x, x));
    CrossTerm(a, y, d, x);
  }

  lemma ThreeTerms(a: real, p: real, q: real, r: real)
    ensures Mul(a, p + q - 2.0 * r) == Mul(a, p) + Mul(a, q) - 2.0 * Mul(a, r)
  {}

  lemma SquareOfDifference(u: real, v: real)
    ensures Mul(u - v, u - v) == Mul(u, u) - 2.0 * Mul(u, v) + Mul(v, v)
  {}

  lemma SquareOfProduct(x: real, y: real)
    ensures Mul(Mul(x, y), Mul(x, y)) == Mul(Mul(x, x), Mul(y, y))
  {}

  lemma CrossTerm(a: real, y: real, d: real, x: real)
    ensures Mul(Mul(a, y), Mul(d, x)) == Mul(a, Mul(d, Mul(x, y)))
  {}

  lemma Expand(d: real, x: real, y: real, a: real, b: real)
    ensures Mul(Mul(x, y) + d, Mul(x, y) + d) == Mul(d, d) + 2.0 * Mul(d, Mul(x, y)) + Mul(Mul(x, x), Mul(y, y))
    ensures Mul(Mul(x, x) + a, Mul(y, y) + b)
      == Mul(a, b) + Mul(a, Mul(y, y)) + Mul(b, Mul(x, x)) + Mul(Mul(x, x), Mul(y, y))
  {
    var p := x * y;
    assert (p + d) * (p + d) == d * d + 2.0 * (d * p) + p * p;
    assert p * p == (x * x) * (y * y);
  }

  function At(v: Vector, t: string): real {
    if t in v then v[t] else 0.0
  }

  function Product(a: Vector, b: Vector): string -> real {
    t => Mul(At(a, t), At(b, t))
  }

  lemma OneMoreTerm(ab: real, aa: real, bb: real, x: real, y: real)
    requires Mul(ab, ab) <= Mul(aa, bb) && aa >= 0.0 && bb >= 0.0
    ensures Mul(Mul(x, y) + ab, Mul(x, y) + ab) <= Mul(Mul(x, x) + aa, Mul(y, y) + bb)
  {
    hide Mul;
    MixedTerm(aa, bb, ab, x, y);
    Expand(ab, x, y, aa, bb);
  }

  lemma SumEmpty(f: string -> real)
    ensures Sum({}, f) == 0.0
  {}

  lemma {:induction false} CauchySchwarz(s: set<string>, a: Vector, b: Vector)
    ensures Mul(Sum(s, Product(a, b)), Sum(s, Product(a, b))) <= Mul(Sum(s, Product(a, a)), Sum(s, Product(b, b)))
    decreases s
  {
    hide At, Sum, Mul;
    if s == {} {
      SumEmpty(Product(a, b));
      SumEmpty(Product(a, a));
      MulSign(0.0, 0.0);
      MulSign(0.0, Sum(s, Product(b, b)));
    } else {
      var x :| x in s;
      var t := s - {x};
      TakeProduct(s, a, b, x);
      TakeProduct(s, a, a, x);
      TakeProduct(s, b, b, x);
      CauchySchwarz(t, a, b);
      SumSquares(t, a);
      SumSquares(t, b);
      OneMoreTerm(Sum(t, Product(a, b)), Sum(t, Product(a, a)), Sum(t, Product(b, b)), At(a, x), At(b, x));
    }
  }

  lemma TakeProduct(s: set<string>, a: Vector, b: Vector, x: string)
    requires x in s
    ensures Sum(s, Product(a, b)) == Mul(At(a, x), At(b, x)) + Sum(s - {x}, Product(a, b))
  {
    SumTake(s, Product(a, b), x);
  }

  lemma SumSquares(s: set<string>, a: Vector)
    ensures Sum(s, Product(a, a)) >= 0.0
  {
    forall x | x in s ensures Product(a, a)(x) >= 0.0 {
      SquareSign(At(a, x));
    }
    SumNonNegative(s, Product(a, a));
  }

  // ------------------------------------------------------------------
  // Weights
  // ------------------------------------------------------------------

  ghost predicate IsLog(log: real -> real) {
    log(1.0) == 0.0 && forall x, y :: 0.0 < x <= y ==> log(x) <= log(y)
  }

  ghost predicate IsSqrt(sqrt: real -> real) {
    forall x :: x >= 0.0 ==> sqrt(x) >= 0.0 && Mul(sqrt(x), sqrt(x)) == x
  }

  function Count(tokens: seq<string>, t: string): nat {
    if tokens == [] then 0 else (if tokens[|tokens| - 1] == t then 1 else 0) + Count(tokens[..|tokens| - 1], t)
  }

  function Frequency(docFreq: map<string, nat>, t: string): nat {
    if t in docFreq then docFreq[t] else 0
  }

  function Idf(df: nat, numDocs: nat, log: real -> real): real {
    log((numDocs + 1) as real / (df + 1) as real) + 1.0
  }

  /** The weight of a term of a text, given in how many documents it occurs. */
  function Weight(tokens: seq<string>, t: string, df: nat, numDocs: nat, log: real -> real): real
    requires tokens != []
  {
    Mul(Count(tokens, t) as real / |tokens| as real, Idf(df, numDocs, log))
  }

  /** The documents among `keys` that contain a term. */
  ghost function Holding(documents: map<string, string>, keys: set<string>, t: string): set<string> {
    set k | k in keys && k in documents && t in Tokenize(documents[k])
  }

  ghost function VectorOf(documents: map<string, string>, text: string, log: real -> real): Vector {
    map t | t in Tokenize(text) :: Weight(Tokenize(text), t, |Holding(documents, documents.Keys, t)|, |documents|, log)
  }

  lemma {:induction false} CountPositive(tokens: seq<string>, t: string)
    ensures Count(tokens, t) > 0 <==> t in tokens
  {
    if tokens != [] {
      var front := tokens[..|tokens| - 1];
      CountPositive(front, t);
      assert tokens == front + [tokens[|tokens| - 1]];
    }
  }

  /** With no more documents containing a term than there are documents, its idf is at least 1. */
  lemma IdfAtLeastOne(df: nat, numDocs: nat, log: real -> real)
    requires IsLog(log) && df <= numDocs
    ensures Idf(df, numDocs, log) >= 1.0
  {
    var ratio := (numDocs + 1) as real / (df + 1) as real;
    assert ratio >= 1.0;
    assert log(1.0) <= log(ratio);
  }

  lemma {:induction false} SubsetIsSmaller(s: set<string>, t: set<string>)
    requires s <= t
    ensures |s| <= |t|
    decreases s
  {
    if s != {} {
      var x :| x in s;
      SubsetIsSmaller(s - {x}, t - {x});
    }
  }

  /** No term occurs in more documents than there are. */
  lemma HoldingBound(documents: map<string, string>, t: string)
    ensures |Holding(documents, documents.Keys, t)| <= |documents|
  {
    hide Tokenize;
    SubsetIsSmaller(Holding(documents, documents.Keys, t), documents.Keys);
    assert |documents.Keys| == |documents|;
  }

  /** Hence every weight is positive. */
  lemma WeightsPositive(documents: map<string, string>, text: string, log: real -> real)
    requires IsLog(log)
    ensures forall t :: t in VectorOf(documents, text, log) ==> VectorOf(documents, text, log)[t] > 0.0
  {
    hide Tokenize, Holding, Mul, Idf, IsLog;
    var tokens := Tokenize(text);
    forall t | t in tokens ensures Weight(tokens, t, |Holding(documents, documents.Keys, t)|, |documents|, log) > 0.0 {
      CountPositive(tokens, t);
      HoldingBound(documents, t);
      IdfAtLeastOne(|Holding(documents, documents.Keys, t)|, |documents|, log);
      MulSign(Count(tokens, t) as real / |tokens| as real,
        Idf(|Holding(documents, documents.Keys, t)|, |documents|, log));
    }
  }

  // ------------------------------------------------------------------
  // Cosine
  // ------------------------------------------------------------------

  ghost function Dot(a: Vector, b: Vector): real {
    Sum(a.Keys + b.Keys, Product(a, b))
  }

  ghost function Norm2(a: Vector): real {
    Sum(a.Keys, Product(a, a))
  }

  /** Division by a product of two non-zero numbers never meets the zero. */
  function Quotient(d: real, n: real): real {
    if n == 0.0 then 0.0 else d / n
  }

  ghost function CosineOf(a: Vector, b: Vector, sqrt: real -> real): real {
    var na, nb := sqrt(Norm2(a)), sqrt(Norm2(b));
    if a == map[] || b == map[] || na == 0.0 || nb == 0.0 then 0.0 else Quotient(Dot(a, b), Mul(na, nb))
  }

  ghost predicate NonNegative(v: Vector) {
    forall t :: t in v ==> v[t] >= 0.0
  }

  lemma DotBound(a: Vector, b: Vector)
    ensures Mul(Dot(a, b), Dot(a, b)) <= Mul(Norm2(a), Norm2(b))
  {
    hide Mul, At;
    var both := a.Keys + b.Keys;
    CauchySchwarz(both, a, b);
    WidenNorm(a, both);
    WidenNorm(b, both);
  }

  lemma WidenNorm(a: Vector, both: set<string>)
    requires a.Keys <= both
    ensures Sum(both, Product(a, a)) == Norm2(a)
  {
    SumWiden(a.Keys, both, Product(a, a));
  }

  lemma DotNonNegative(a: Vector, b: Vector)
    requires NonNegative(a) && NonNegative(b)
    ensures Dot(a, b) >= 0.0
  {
    forall t | t in a.Keys + b.Keys ensures Product(a, b)(t) >= 0.0 {
      MulSign(At(a, t), At(b, t));
    }
    SumNonNegative(a.Keys + b.Keys, Product(a, b));
  }

  lemma LargerSquare(x: real, y: real)
    requires x > y >= 0.0
    ensures Mul(x, x) > Mul(y, y)
  {
    hide Mul;
    MulPlus(x, x, y);
    MulPlus(y, x, y);
    MulSwap(x, y);
    MulSign(x, x - y);
    MulSign(y, x - y);
  }

  lemma SquaresOrder(x: real, y: real)
    requires x >= 0.0 && y >= 0.0 && Mul(x, x) <= Mul(y, y)
    ensures x <= y
  {
    hide Mul;
    if x > y {
      LargerSquare(x, y);
    }
  }

  lemma QuotientInUnit(d: real, n: real)
    requires 0.0 <= d <= n && n > 0.0
    ensures 0.0 <= Quotient(d, n) <= 1.0
  {}

  lemma ScoreBound(d: real, na: real, nb: real)
    requires d >= 0.0 && Mul(d, d) <= Mul(Mul(na, na), Mul(nb, nb)) && na > 0.0 && nb > 0.0
    ensures 0.0 <= Quotient(d, Mul(na, nb)) <= 1.0
  {
    hide Mul, Quotient;
    MulSign(na, nb);
    SquareOfProduct(na, nb);
    SquaresOrder(d, Mul(na, nb));
    QuotientInUnit(d, Mul(na, nb));
  }

  /** Each score lies between 0 and 1. */
  lemma CosineInUnit(a: Vector, b: Vector, sqrt: real -> real)
    requires NonNegative(a) && NonNegative(b) && IsSqrt(sqrt)
    ensures 0.0 <= CosineOf(a, b, sqrt) <= 1.0
  {
    hide Dot, Norm2, NonNegative, Mul, Quotient, IsSqrt;
    DotBound(a, b);
    DotNonNegative(a, b);
    RootOf(a, sqrt);
    RootOf(b, sqrt);
    var na, nb := sqrt(Norm2(a)), sqrt(Norm2(b));
    if na != 0.0 && nb != 0.0 {
      ScoreBound(Dot(a, b), na, nb);
    }
  }

  lemma RootOf(a: Vector, sqrt: real -> real)
    requires IsSqrt(sqrt)
    ensures sqrt(Norm2(a)) >= 0.0 && Mul(sqrt(Norm2(a)), sqrt(Norm2(a))) == Norm2(a)
  {
    SumSquares(a.Keys, a);
  }

  /** The similarity of a query and a document of the index. */
  ghost function ScoreOf(documents: map<string, string>, query: string, key: string, log: real -> real,
      sqrt: real -> real): real
    requires key in documents
  {
    CosineOf(VectorOf(documents, query, log), VectorOf(documents, documents[key], log), sqrt)
  }

  lemma ScoreInUnit(documents: map<string, string>, query: string, key: string, log: real -> real, sqrt: real -> real)
    requires key in documents && IsLog(log) && IsSqrt(sqrt)
    ensures 0.0 <= ScoreOf(documents, query, key, log, sqrt) <= 1.0
  {
    hide VectorOf, CosineOf, IsLog, IsSqrt;
    WeightsPositive(documents, query, log);
    WeightsPositive(documents, documents[key], log);
    CosineInUnit(VectorOf(documents, query, log), VectorOf(documents, documents[key], log), sqrt);
  }

  // ------------------------------------------------------------------
  // The loops
  // ------------------------------------------------------------------

  method SumOver(s: set<string>, f: string -> real) returns (r: real)
    ensures r == Sum(s, f)
  {
    r := 0.0;
    var todo := s;
    while todo != {}
      invariant r + Sum(todo, f) == Sum(s, f)
      decreases |todo|
    {
      var x :| x in todo;
      SumTake(todo, f, x);
      r := r + f(x);
      todo := todo - {x};
    }
  }

  /** `_cosine`. */
  method Cosine(a: Vector, b: Vector, sqrt: real -> real) returns (score: real)
    ensures score == CosineOf(a, b, sqrt)
  {
    if a == map[] || b == map[] {
      return 0.0;
    }
    var dot := SumOver(a.Keys + b.Keys, Product(a, b));
    var squaresA := SumOver(a.Keys, Product(a, a));
    var squaresB := SumOver(b.Keys, Product(b, b));
    var na, nb := sqrt(squaresA), sqrt(squaresB);
    if na == 0.0 || nb == 0.0 {
      return 0.0;
    }
    score := Quotient(dot, Mul(na, nb));
  }

  method CountTerms(tokens: seq<string>) returns (freq: map<string, nat>)
    ensures forall t :: t in freq <==> t in tokens
    ensures forall t :: Frequency(freq, t) == Count(tokens, t)
  {
    freq := map[];
    var i := 0;
    while i < |tokens|
      invariant 0 <= i <= |tokens|
      invariant forall t :: t in freq <==> t in tokens[..i]
      invariant forall t :: Frequency(freq, t) == Count(tokens[..i], t)
    {
      assert tokens[..i + 1][..i] == tokens[..i] && tokens[..i + 1] == tokens[..i] + [tokens[i]];
      freq := freq[tokens[i] := Frequency(freq, tokens[i]) + 1];
      i := i + 1;
    }
    assert tokens[..i] == tokens;
  }

  /** `_tfidf_vector`. */
  method TfidfVector(tokens: seq<string>, docFreq: map<string, nat>, numDocs: nat,
      log: real -> real) returns (vec: Vector)
    ensures forall t :: t in vec <==> t in tokens
    ensures forall t :: t in vec ==> vec[t] == Weight(tokens, t, Frequency(docFreq, t), numDocs, log)
  {
    hide Mul, Idf, Count;
    vec := map[];
    if tokens == [] {
      return;
    }
    var freq := CountTerms(tokens);
    var todo := freq.Keys;
    while todo != {}
      invariant todo <= freq.Keys && vec.Keys == freq.Keys - todo
      invariant forall t :: t in vec ==> vec[t] == Weight(tokens, t, Frequency(docFreq, t), numDocs, log)
      decreases |todo|
    {
      var t :| t in todo;
      var tf := freq[t] as real / |tokens| as real;
      assert freq[t] == Frequency(freq, t);
      vec := vec[t := Mul(tf, Idf(Frequency(docFreq, t), numDocs, log))];
      todo := todo - {t};
    }
  }

  /** For every term, in how many documents it occurs. */
  method CountDocuments(documents: map<string, string>) returns (docFreq: map<string, nat>)
    ensures forall t :: Frequency(docFreq, t) == |Holding(documents, documents.Keys, t)|
  {
    hide Tokenize;
    docFreq := map[];
    var todo := documents.Keys;
    NothingHolds(documents);
    assert documents.Keys - todo == {};
    while todo != {}
      invariant todo <= documents.Keys
      invariant forall t :: Frequency(docFreq, t) == |Holding(documents, documents.Keys - todo, t)|
      decreases |todo|
    {
      var key :| key in todo;
      var tokens := Tokenize(documents[key]);
      docFreq := CountOnce(docFreq, tokens);
      OneMoreHolds(documents, documents.Keys - todo, key);
      assert documents.Keys - (todo - {key}) == (documents.Keys - todo) + {key};
      todo := todo - {key};
    }
    assert documents.Keys - todo == documents.Keys;
  }

  /** Adds one for each distinct token. */
  method CountOnce(docFreq: map<string, nat>, tokens: seq<string>) returns (more: map<string, nat>)
    ensures forall t :: Frequency(more, t) == Frequency(docFreq, t) + if t in tokens then 1 else 0
  {
    more := docFreq;
    var distinct := set t | t in tokens;
    var todo := distinct;
    while todo != {}
      invariant todo <= distinct
      invariant forall t :: Frequency(more, t) == Frequency(docFreq, t) + if t in distinct - todo then 1 else 0
      decreases |todo|
    {
      var t :| t in todo;
      more := more[t := Frequency(more, t) + 1];
      todo := todo - {t};
    }
  }

  lemma NothingHolds(documents: map<string, string>)
    ensures forall t :: Holding(documents, {}, t) == {}
  {}

  lemma OneMoreHolds(documents: map<string, string>, done: set<string>, key: string)
    requires key in documents && key !in done && done <= documents.Keys
    ensures forall t ::
      |Holding(documents, done + {key}, t)| ==
      |Holding(documents, done, t)| + if t in Tokenize(documents[key]) then 1 else 0
  {
    hide Tokenize;
    forall t ensures |Holding(documents, done + {key}, t)|
      == |Holding(documents, done, t)| + if t in Tokenize(documents[key]) then 1 else 0
    {
      if t in Tokenize(documents[key]) {
        assert Holding(documents, done + {key}, t) == Holding(documents, done, t) + {key};
      } else {
        assert Holding(documents, done + {key}, t) == Holding(documents, done, t);
      }
    }
  }

  // ------------------------------------------------------------------
  // The index
  // ------------------------------------------------------------------

  datatype Hit = Hit(key: string, text: string, score: real)

  ghost predicate BestFirst(hits: seq<Hit>) {
    forall i, j :: 0 <= i < j < |hits| ==> hits[i].score >= hits[j].score
  }

  ghost predicate OncePerKey(hits: seq<Hit>) {
    forall i, j :: 0 <= i < j < |hits| ==> hits[i].key != hits[j].key
  }

  /** Behind everything that scores as high. */
  function InsertHit(hits: seq<Hit>, h: Hit): seq<Hit> {
    if hits == [] || h.score > hits[0].score then [h] + hits else [hits[0]] + InsertHit(hits[1..], h)
  }

  lemma {:induction false} InsertHitFacts(hits: seq<Hit>, h: Hit)
    requires BestFirst(hits) && OncePerKey(hits) && forall x :: x in hits ==> x.key != h.key
    ensures BestFirst(InsertHit(hits, h)) && OncePerKey(InsertHit(hits, h))
    ensures forall x :: x in InsertHit(hits, h) <==> x in hits || x == h
  {
    if hits != [] && h.score <= hits[0].score {
      assert hits == [hits[0]] + hits[1..];
      InsertHitFacts(hits[1..], h);
      var more := InsertHit(hits[1..], h);
      forall j | 0 <= j < |more| ensures hits[0].score >= more[j].score && hits[0].key != more[j].key {
        assert more[j] in more;
      }
    }
  }

  lemma TopHits(sorted: seq<Hit>, hits: seq<Hit>, topK: nat)
    requires BestFirst(sorted) && OncePerKey(sorted)
    requires hits == if |sorted| <= topK then sorted else sorted[..topK]
    ensures BestFirst(hits) && OncePerKey(hits) && |hits| <= topK && forall h :: h in hits ==> h in sorted
    ensures forall h :: h in sorted && h !in hits ==> |hits| == topK && forall x :: x in hits ==> x.score >= h.score
  {
    forall h | h in sorted && h !in hits ensures |hits| == topK && forall x :: x in hits ==> x.score >= h.score {
      var j :| 0 <= j < |sorted| && sorted[j] == h;
      assert j >= |hits|;
      forall x | x in hits ensures x.score >= h.score {
        var i :| 0 <= i < |hits| && hits[i] == x;
        assert sorted[i] == x;
      }
    }
  }

  lemma SameVector(documents: map<string, string>, docFreq: map<string, nat>, text: string, log: real -> real,
      vec: Vector)
    requires forall t :: Frequency(docFreq, t) == |Holding(documents, documents.Keys, t)|
    requires forall t :: t in vec <==> t in Tokenize(text)
    requires forall t :: t in vec ==> vec[t] == Weight(Tokenize(text), t, Frequency(docFreq, t), |documents|, log)
    ensures vec == VectorOf(documents, text, log)
  {
    hide Tokenize, Holding, Weight, Frequency;
  }

  /** What `search` promises about its answer. */
  ghost predicate Answers(documents: map<string, string>, query: string, topK: nat, minScore: real, log: real -> real,
      sqrt: real -> real, hits: seq<Hit>)
  {
    && |hits| <= topK && BestFirst(hits) && OncePerKey(hits)
    && (forall h :: h in hits ==>
          h.key in documents && h.text == documents[h.key] && h.score == ScoreOf(documents, query, h.key, log, sqrt))
    && (forall h :: h in hits ==> minScore <= h.score && 0.0 <= h.score <= 1.0)
    && (forall k ::
          k in documents && ScoreOf(documents, query, k, log, sqrt) >= minScore &&
          (forall h :: h in hits ==> h.key != k) ==>
          |hits| == topK && forall h :: h in hits ==> h.score >= ScoreOf(documents, query, k, log, sqrt))
  }

  class VectorIndex {
    var documents: map<string, string>

    constructor ()
      ensures documents == map[]
    {
      documents := map[];
    }

    method Add(key: string, text: string)
      modifies this
      ensures documents == old(documents)[key := text]
    {
      documents := documents[key := text];
    }

    method Remove(key: string)
      modifies this
      ensures documents == old(documents) - {key}
    {
      documents := documents - {key};
    }

    method Score(docFreq: map<string, nat>, query: Vector, key: string, log: real -> real, sqrt: real -> real,
        ghost queryText: string) returns (score: real)
      requires key in documents && query == VectorOf(documents, queryText, log)
      requires forall t :: Frequency(docFreq, t) == |Holding(documents, documents.Keys, t)|
      ensures score == ScoreOf(documents, queryText, key, log, sqrt)
    {
      hide Tokenize, Holding, Weight, Frequency, VectorOf, CosineOf;
      var vec := TfidfVector(Tokenize(documents[key]), docFreq, |documents|, log);
      SameVector(documents, docFreq, documents[key], log, vec);
      score := Cosine(query, vec, sqrt);
    }

    /** At most `topK` documents that score at least `minScore`, best first; none left out scores
        higher than one that is not. */
    method Search(query: string, topK: nat, minScore: real, log: real -> real,
        sqrt: real -> real) returns (hits: seq<Hit>)
      requires IsLog(log) && IsSqrt(sqrt)
      ensures Answers(documents, query, topK, minScore, log, sqrt, hits)
    {
      hide Tokenize, Holding, Weight, Frequency, VectorOf, CosineOf, ScoreOf, IsLog, IsSqrt, BestFirst, OncePerKey;
      var docFreq := CountDocuments(documents);
      var queryVec := TfidfVector(Tokenize(query), docFreq, |documents|, log);
      SameVector(documents, docFreq, query, log, queryVec);
      var scored: seq<Hit> := [];
      NoHits();
      var todo := documents.Keys;
      while todo != {}
        invariant todo <= documents.Keys && BestFirst(scored) && OncePerKey(scored)
        invariant forall h :: h in scored <==>
          h.key in documents.Keys - todo && h.score == ScoreOf(documents, query, h.key, log, sqrt)
            && h.score >= minScore && h.text == documents[h.key]
        decreases |todo|
      {
        var key :| key in todo;
        var score := Score(docFreq, queryVec, key, log, sqrt, query);
        if score >= minScore {
          InsertHitFacts(scored, Hit(key, documents[key], score));
          scored := InsertHit(scored, Hit(key, documents[key], score));
        }
        todo := todo - {key};
      }
      hits := if |scored| <= topK then scored else scored[..topK];
      TopHits(scored, hits, topK);
      forall h | h in hits ensures 0.0 <= h.score <= 1.0 {
        ScoreInUnit(documents, query, h.key, log, sqrt);
      }
      forall k | k in documents && ScoreOf(documents, query, k, log, sqrt) >= minScore
        && (forall h :: h in hits ==> h.key != k)
        ensures |hits| == topK && forall h :: h in hits ==> h.score >= ScoreOf(documents, query, k, log, sqrt)
      {
        assert Hit(k, documents[k], ScoreOf(documents, query, k, log, sqrt)) in scored;
      }
    }
  }

  lemma NoHits()
    ensures BestFirst([]) && OncePerKey([])
  {}
}
