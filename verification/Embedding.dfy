/**
 The deterministic feature-hashed embedding. Every weight is a multiple of an eighth, so the
 accumulator is modelled exactly, in eighths; normalisation and decimal rounding are over the
 reals. The hash is an arbitrary function.
 */
module Embedding {
  import opened Sums
  import opened Numerals

  const DIMENSION: nat := 64

  // ----- Tokens -----

  predicate TokenChar(c: char) {
    'a' <= c <= 'z' || '0' <= c <= '9' || c == '_' || c == '.' || c == '-'
  }

  function TokenRun(s: string): (n: nat)
    ensures n <= |s|
  {
    if s != "" && TokenChar(s[0]) then 1 + TokenRun(s[1..]) else 0
  }

  /** re.findall of [a-z0-9_.\-]+ on lower-cased text. */
  function Tokens(s: string): seq<string>
    decreases |s|
  {
    if s == "" then []
    else if TokenRun(s) == 0 then Tokens(s[1..])
    else [s[..TokenRun(s)]] + Tokens(s[TokenRun(s)..])
  }

  lemma {:induction false} RunStopsAtGap(a: string, c: char, b: string)
    requires !TokenChar(c)
    ensures TokenRun(a + [c] + b) == TokenRun(a)
  {
    if a != "" {
      assert (a + [c] + b)[1..] == a[1..] + [c] + b;
      RunStopsAtGap(a[1..], c, b);
    }
  }

  /** Texts joined by a character outside tokens have the tokens of both. */
  lemma {:induction false} TokensOfJoined(a: string, c: char, b: string)
    requires !TokenChar(c)
    ensures Tokens(a + [c] + b) == Tokens(a) + Tokens(b)
    decreases |a|
  {
    var s := a + [c] + b;
    RunStopsAtGap(a, c, b);
    if a == "" {
      assert s[1..] == b;
    } else {
      var n := if TokenRun(a) == 0 then 1 else TokenRun(a);
      assert s[n..] == a[n..] + [c] + b && s[..n] == a[..n];
      TokensOfJoined(a[n..], c, b);
    }
  }

  /** A run of token characters is one token; with what joining does, this determines the tokens of any text. */
  lemma {:induction false} TokenAlone(w: string)
    requires forall i :: 0 <= i < |w| ==>
      'a' <= w[i] <= 'z' || '0' <= w[i] <= '9' || w[i] == '_' || w[i] == '.' || w[i] == '-'
    ensures TokenRun(w) == |w| && Tokens(w) == if w == "" then [] else [w]
  {
    if w != "" {
      TokenAlone(w[1..]);
      assert TokenRun(w) == |w| && w[..|w|] == w && w[|w|..] == "";
      assert Tokens(w[|w|..]) == [];
    }
  }

  // ----- The accumulator, in eighths -----

  /** Eight times the keyword weight. */
  function Weight(token: string): int {
    if token in {"t1046", "t1190", "t1498", "t1071", "t1595", "t1110", "t1041", "t1021", "t1059", "t1133"} then 40
    else if token in {"discovery", "scan", "exploit", "denial", "flood", "dos", "beacon", "c2", "brute", "exfiltration",
                      "lateral", "persistence"} then 24
    else if token in {"port", "sweep", "credential", "password", "movement", "script", "command", "vpn"} then 20
    else if token in {"web", "http", "https"} then 16
    else 8
  }

  function Sign(h: nat, bit: nat): int
    requires bit in {32, 128}
  {
    if (h / bit) % 2 == 0 then 1 else -1
  }

  /** A sign is read off one bit of the hash: bit 5 for trigrams, bit 7 for tokens. */
  lemma SignIsBit(h: nat, bit: nat, q: nat, r: nat)
    requires bit in {32, 128} && r < bit
    ensures h == 2 * bit * q + r ==> Sign(h, bit) == 1
    ensures h == 2 * bit * q + bit + r ==> Sign(h, bit) == -1
  {
    if bit == 32 {
      if h == 64 * q + r { assert h / 32 == 2 * q; }
      if h == 64 * q + 32 + r { assert h / 32 == 2 * q + 1; }
    } else {
      if h == 256 * q + r { assert h / 128 == 2 * q; }
      if h == 256 * q + 128 + r { assert h / 128 == 2 * q + 1; }
    }
  }

  /** The keyword weights: 5 for technique ids, 3, 2.5 and 2 for keywords, 1 for everything else. */
  lemma WeightsAre(w: string)
    ensures w in {"t1046", "t1190", "t1498", "t1071", "t1595", "t1110", "t1041", "t1021", "t1059", "t1133"} <==> Weight(w) == 5 * 8
    ensures Weight(w) == 3 * 8 <==>
      w in {"discovery", "scan", "exploit", "denial", "flood", "dos", "beacon", "c2", "brute", "exfiltration", "lateral", "persistence"}
    ensures w in {"port", "sweep", "credential", "password", "movement", "script", "command", "vpn"} <==> 2 * Weight(w) == 5 * 8
    ensures w in {"web", "http", "https"} <==> Weight(w) == 2 * 8
    ensures Weight(w) in {40, 24, 20, 16, 8}
  {
  }

  /** What one token's trigrams from position i on add to component d, given a quarter of its weight. */
  function TrigramPart(hash: string -> nat, token: string, i: nat, quarter: int, d: nat): int
    decreases |token| - i
  {
    if i + 3 > |token| then 0
    else
      var h := hash(token[i..i + 3]);
      (if h % DIMENSION == d then Sign(h, 32) * quarter else 0) + TrigramPart(hash, token, i + 1, quarter, d)
  }

  function TokenPart(hash: string -> nat, token: string, d: nat): int {
    var h := hash(token);
    (if h % DIMENSION == d then Sign(h, 128) * Weight(token) else 0) + TrigramPart(hash, token, 0, Weight(token) / 4, d)
  }

  function Component(hash: string -> nat, tokens: seq<string>, d: nat): int {
    if tokens == [] then 0 else TokenPart(hash, tokens[0], d) + Component(hash, tokens[1..], d)
  }

  lemma {:induction false} ComponentConcat(hash: string -> nat, a: seq<string>, b: seq<string>, d: nat)
    ensures Component(hash, a + b, d) == Component(hash, a, d) + Component(hash, b, d)
  {
    if a == [] {
      assert a + b == b;
    } else {
      assert (a + b)[1..] == a[1..] + b;
      ComponentConcat(hash, a[1..], b, d);
    }
  }

  lemma WithoutOne(a: seq<string>, i: nat)
    requires i < |a|
    ensures multiset(a[..i] + a[i + 1..]) == multiset(a) - multiset{a[i]}
  {
    assert a == a[..i] + [a[i]] + a[i + 1..];
  }

  lemma PullOut(hash: string -> nat, b: seq<string>, i: nat, d: nat)
    requires i < |b|
    ensures Component(hash, b, d) == TokenPart(hash, b[i], d) + Component(hash, b[..i] + b[i + 1..], d)
  {
    var x, y := b[..i], b[i + 1..];
    assert b == x + ([b[i]] + y) && ([b[i]] + y)[1..] == y;
    ComponentConcat(hash, x, [b[i]] + y, d);
    ComponentConcat(hash, x, y, d);
  }

  lemma SameMultiset(a: seq<string>, b: seq<string>) returns (i: nat)
    requires multiset(a) == multiset(b) && a != []
    ensures i < |b| && b[i] == a[0] && multiset(a[1..]) == multiset(b[..i] + b[i + 1..])
  {
    assert a[0] in multiset(b);
    i :| 0 <= i < |b| && b[i] == a[0];
    WithoutFirst(a);
    WithoutOne(b, i);
  }

  lemma EmptyMultiset(b: seq<string>)
    requires multiset(b) == multiset{}
    ensures b == []
  {
    assert |multiset(b)| == |b|;
  }

  /** The raw embedding depends only on which tokens occur how often. */
  lemma {:induction false} ComponentIgnoresOrder(hash: string -> nat, a: seq<string>, b: seq<string>, d: nat)
    requires multiset(a) == multiset(b)
    ensures Component(hash, a, d) == Component(hash, b, d)
    decreases |a|
  {
    if a == [] {
      EmptyMultiset(b);
    } else {
      var i := SameMultiset(a, b);
      ComponentIgnoresOrder(hash, a[1..], b[..i] + b[i + 1..], d);
      PullOut(hash, b, i, d);
    }
  }

  /** Joining two texts by a gap adds their raw embeddings. */
  lemma RawEmbeddingIsAdditive(hash: string -> nat, a: string, c: char, b: string, d: nat)
    requires !TokenChar(c)
    ensures Component(hash, Tokens(a + [c] + b), d) == Component(hash, Tokens(a), d) + Component(hash, Tokens(b), d)
  {
    TokensOfJoined(a, c, b);
    ComponentConcat(hash, Tokens(a), Tokens(b), d);
  }

  method AddTrigrams(vec: array<int>, hash: string -> nat, token: string, quarter: int)
    requires vec.Length == DIMENSION
    modifies vec
    ensures forall d :: 0 <= d < DIMENSION ==> vec[d] == old(vec[d]) + TrigramPart(hash, token, 0, quarter, d)
  {
    var i := 0;
    while i + 3 <= |token|
      invariant forall d :: 0 <= d < DIMENSION ==>
        vec[d] + TrigramPart(hash, token, i, quarter, d) == old(vec[d]) + TrigramPart(hash, token, 0, quarter, d)
      decreases |token| - i
    {
      var h := hash(token[i..i + 3]);
      vec[h % DIMENSION] := vec[h % DIMENSION] + Sign(h, 32) * quarter;
      i := i + 1;
    }
  }

  /** The nested accumulation loops of embed_text. */
  method Accumulate(hash: string -> nat, tokens: seq<string>) returns (vec: array<int>)
    ensures fresh(vec) && vec.Length == DIMENSION
    ensures forall d :: 0 <= d < DIMENSION ==> vec[d] == Component(hash, tokens, d)
  {
    vec := new int[DIMENSION](_ => 0);
    for k := 0 to |tokens|
      invariant fresh(vec) && vec.Length == DIMENSION
      invariant forall d :: 0 <= d < DIMENSION ==> vec[d] == Component(hash, tokens[..k], d)
    {
      var token := tokens[k];
      var h, w := hash(token), Weight(token);
      vec[h % DIMENSION] := vec[h % DIMENSION] + Sign(h, 128) * w;
      AddTrigrams(vec, hash, token, w / 4);
      assert tokens[..k + 1] == tokens[..k] + [token] && [token][1..] == [];
      forall d | 0 <= d < DIMENSION ensures Component(hash, tokens[..k + 1], d)
          == Component(hash, tokens[..k], d) + TokenPart(hash, token, d) {
        ComponentConcat(hash, tokens[..k], [token], d);
      }
    }
    assert tokens[..|tokens|] == tokens;
  }

  // ----- Normalisation -----

  function Sq(x: real): real { x * x }

  function SumSq(v: seq<real>): real {
    if v == [] then 0.0 else v[0] * v[0] + SumSq(v[1..])
  }

  function Dot(a: seq<real>, b: seq<real>): real
    requires |a| == |b|
  {
    if a == [] then 0.0 else a[0] * b[0] + Dot(a[1..], b[1..])
  }

  /** round(v / norm, 6) on every component. */
  function Normalised(v: seq<real>, norm: real): (r: seq<real>)
    requires norm > 0.0
    ensures |r| == |v|
    ensures forall i :: 0 <= i < |v| ==> r[i] == Round(v[i] / norm, 6)
  {
    seq(|v|, i requires 0 <= i < |v| => Round(v[i] / norm, 6))
  }

  /** The fallback for blank text and for a zero accumulator: 1/sqrt(64) is exactly 0.125. */
  function Uniform(): (r: seq<real>)
    ensures |r| == DIMENSION
  {
    seq(DIMENSION, _ => 0.125)
  }

  /** embed_text after the accumulation; norm is the square root it takes. */
  function Finish(v: seq<real>, norm: real): seq<real> {
    if norm > 0.000000000001 then Normalised(v, norm) else Uniform()
  }

  /** An accumulator with any component is normalised and rounded; one without gives the uniform vector. */
  lemma EmbeddingIs(raw: seq<int>, norm: real, d: nat)
    requires |raw| == DIMENSION && d < DIMENSION && norm >= 0.0 && Sq(norm) == SumSq(FromEighths(raw))
    ensures |Finish(FromEighths(raw), norm)| == DIMENSION
    ensures if exists i :: 0 <= i < DIMENSION && raw[i] != 0
      then norm > 0.0 && Finish(FromEighths(raw), norm)[d] == Round((raw[d] as real / 8.0) / norm, 6)
      else Finish(FromEighths(raw), norm)[d] == 0.125
  {
    FallbackExactlyWhenZero(raw, norm);
  }

  const HALF_STEP := 0.0000005

  lemma RoundIsClose(x: real)
    ensures -HALF_STEP <= Round(x, 6) - x <= HALF_STEP
  {
    assert Pow10(6) == 1000000 by {
      assert Pow10(1) == 10 && Pow10(2) == 100 && Pow10(3) == 1000 && Pow10(4) == 10000 && Pow10(5) == 100000;
    }
    GridIsClose(x);
  }

  lemma GridIsClose(x: real)
    ensures -HALF_STEP <= ToGrid(x, 1000000.0) - x <= HALF_STEP
  {
    var n := Nearest(Times(x, 1000000.0));
    assert -0.5 <= x * 1000000.0 - n as real <= 0.5;
    assert ToGrid(x, 1000000.0) == n as real / 1000000.0;
  }

  /** Rounding one component moves its square by little: the cross term is bounded through
      (|u| - 1/8)^2 >= 0. */
  lemma SquareDrift(u: real, r: real)
    requires -HALF_STEP <= r - u <= HALF_STEP
    ensures r * r - u * u <= HALF_STEP * (8.0 * (u * u) + 0.125 + HALF_STEP)
    ensures u * u - r * r <= HALF_STEP * (8.0 * (u * u) + 0.125 + HALF_STEP)
  {
    var e, a := r - u, Abs(u);
    assert a * a == u * u;
    assert r * r - u * u == e * (2.0 * u + e);
    assert 2.0 * a <= 8.0 * (u * u) + 0.125 by {
      assert (a - 0.125) * (a - 0.125) >= 0.0;
      assert (a - 0.125) * (a - 0.125) == a * a - 0.25 * a + 0.015625;
    }
    ProductBound(e, 2.0 * u + e, HALF_STEP, 2.0 * a + HALF_STEP);
  }

  lemma ProductBound(x: real, y: real, p: real, q: real)
    requires -p <= x <= p && -q <= y <= q
    ensures -(p * q) <= x * y <= p * q
  {
    var ax, ay := Abs(x), Abs(y);
    assert ax * ay <= p * ay <= p * q;
    assert x * y == ax * ay || x * y == -(ax * ay);
  }

  lemma {:induction false} NormDrift(u: seq<real>, r: seq<real>)
    requires |u| == |r| && forall i :: 0 <= i < |u| ==> -HALF_STEP <= r[i] - u[i] <= HALF_STEP
    ensures SumSq(r) - SumSq(u) <= HALF_STEP * (8.0 * SumSq(u) + |u| as real * (0.125 + HALF_STEP))
    ensures SumSq(u) - SumSq(r) <= HALF_STEP * (8.0 * SumSq(u) + |u| as real * (0.125 + HALF_STEP))
  {
    if u != [] {
      SquareDrift(u[0], r[0]);
      NormDrift(u[1..], r[1..]);
    }
  }

  /** Exact normalisation gives norm one. */
  lemma {:induction false} UnitBeforeRounding(v: seq<real>, norm: real, u: seq<real>)
    requires norm > 0.0 && |u| == |v| && forall i :: 0 <= i < |v| ==> u[i] == v[i] / norm
    ensures Times(SumSq(u), Sq(norm)) == SumSq(v)
  {
    if v != [] {
      UnitBeforeRounding(v[1..], norm, u[1..]);
      SquareOfQuotient(v[0], norm);
      Distribute(u[0] * u[0], SumSq(u[1..]), Sq(norm));
    }
  }

  lemma SquareOfQuotient(x: real, n: real)
    requires n > 0.0
    ensures Times((x / n) * (x / n), Sq(n)) == x * x
  {
    var q := x / n;
    assert q * n == x;
    assert q * q * (n * n) == (q * n) * (q * n);
  }

  lemma Distribute(a: real, b: real, c: real)
    ensures Times(a + b, c) == Times(a, c) + Times(b, c)
  {
  }

  const TOLERANCE := 0.00001

  lemma UnitLength(v: seq<real>, norm: real, u: seq<real>)
    requires norm > 0.0 && Sq(norm) == SumSq(v)
    requires |u| == |v| && forall i :: 0 <= i < |v| ==> u[i] == v[i] / norm
    ensures SumSq(u) == 1.0
  {
    UnitBeforeRounding(v, norm, u);
    SquarePositive(norm);
    UnitRatio(SumSq(u), Sq(norm), SumSq(v));
  }

  lemma UnitRatio(a: real, b: real, c: real)
    requires Times(a, b) == c && b == c && b > 0.0
    ensures a == 1.0
  {
    assert a == c / b == 1.0 by { assert a * b == c; }
  }

  lemma UnitDrift(u: seq<real>, r: seq<real>)
    requires |u| == |r| == DIMENSION && SumSq(u) == 1.0
    requires forall i :: 0 <= i < |u| ==> -HALF_STEP <= r[i] - u[i] <= HALF_STEP
    ensures 1.0 - TOLERANCE <= SumSq(r) <= 1.0 + TOLERANCE
  {
    NormDrift(u, r);
    assert |u| as real == 64.0;
  }

  /** A rounded embedding has squared norm within the tolerance of one. */
  lemma RoundedNormIsNearOne(v: seq<real>, norm: real)
    requires |v| == DIMENSION && norm > 0.0 && Sq(norm) == SumSq(v)
    ensures 1.0 - TOLERANCE <= SumSq(Normalised(v, norm)) <= 1.0 + TOLERANCE
  {
    var u := seq(|v|, i requires 0 <= i < |v| => v[i] / norm);
    var r := Normalised(v, norm);
    UnitLength(v, norm, u);
    forall i | 0 <= i < |v| ensures -HALF_STEP <= r[i] - u[i] <= HALF_STEP {
      RoundIsClose(u[i]);
    }
    UnitDrift(u, r);
  }

  lemma {:induction false} ConstantSumSq(v: seq<real>)
    requires forall i :: 0 <= i < |v| ==> v[i] == 0.125
    ensures SumSq(v) == |v| as real * 0.015625
  {
    if v != [] { ConstantSumSq(v[1..]); }
  }

  function FromEighths(raw: seq<int>): (v: seq<real>)
    ensures |v| == |raw| && forall i :: 0 <= i < |raw| ==> v[i] == raw[i] as real / 8.0
  {
    seq(|raw|, i requires 0 <= i < |raw| => raw[i] as real / 8.0)
  }

  lemma {:induction false} ExactSumSq(raw: seq<int>)
    ensures (forall i :: 0 <= i < |raw| ==> raw[i] == 0) ==> SumSq(FromEighths(raw)) == 0.0
    ensures (exists i :: 0 <= i < |raw| && raw[i] != 0) ==> SumSq(FromEighths(raw)) >= 0.015625
    ensures SumSq(FromEighths(raw)) >= 0.0
  {
    if raw != [] {
      ExactSumSq(raw[1..]);
      assert FromEighths(raw)[1..] == FromEighths(raw[1..]);
      var n := raw[0];
      IntegerSquare(n);
      if i :| 0 <= i < |raw| && raw[i] != 0 && i > 0 { assert raw[1..][i - 1] != 0; }
    }
  }

  lemma IntegerSquare(n: int)
    ensures (n as real / 8.0) * (n as real / 8.0) >= if n == 0 then 0.0 else 0.015625
  {
    var x := n as real / 8.0;
    if n > 0 { assert x >= 0.125; } else if n < 0 { assert -x >= 0.125; assert x * x == (-x) * (-x); }
  }

  /** The norm test takes the fallback exactly for an accumulator that is zero throughout. */
  lemma FallbackExactlyWhenZero(raw: seq<int>, norm: real)
    requires norm >= 0.0 && Sq(norm) == SumSq(FromEighths(raw))
    ensures norm > 0.000000000001 <==> exists i :: 0 <= i < |raw| && raw[i] != 0
  {
    ExactSumSq(raw);
    SmallSquare(norm);
    if norm > 0.0 { SquarePositive(norm); }
  }

  lemma SquarePositive(x: real)
    requires x > 0.0
    ensures Sq(x) > 0.0
  {
    PositiveProduct(x, x);
    assert Sq(x) == Times(x, x);
  }

  lemma PositiveProduct(x: real, y: real)
    requires x > 0.0 && y > 0.0
    ensures Times(x, y) > 0.0
  {
  }

  lemma SmallSquare(x: real)
    requires x >= 0.0
    ensures x <= 0.000000000001 ==> Sq(x) < 0.015625
  {
    if x <= 0.000000000001 { ProductBound(x, x, 0.000000000001, 1.0); }
  }

  /** Every embedding, the fallback included, is near unit length. */
  lemma EmbeddingIsNearUnit(v: seq<real>, norm: real)
    requires |v| == DIMENSION && norm >= 0.0 && Sq(norm) == SumSq(v)
    ensures |Finish(v, norm)| == DIMENSION && 1.0 - TOLERANCE <= SumSq(Finish(v, norm)) <= 1.0 + TOLERANCE
  {
    if norm > 0.000000000001 {
      RoundedNormIsNearOne(v, norm);
    } else {
      ConstantSumSq(Uniform());
    }
  }

  function Products(a: seq<real>, b: seq<real>): (p: seq<real>)
    requires |a| == |b|
    ensures |p| == |a| && forall i :: 0 <= i < |a| ==> p[i] == Times(a[i], b[i])
  {
    seq(|a|, i requires 0 <= i < |a| => Times(a[i], b[i]))
  }

  /** The dot product is the sum of the products, entry by entry. */
  lemma {:induction false} DotIsSumOfProducts(a: seq<real>, b: seq<real>)
    requires |a| == |b|
    ensures Dot(a, b) == Sum(Products(a, b))
  {
    if a != [] {
      DotIsSumOfProducts(a[1..], b[1..]);
      var p, rest := Products(a, b), Products(a[1..], b[1..]);
      forall i | 0 <= i < |rest| ensures p[1..][i] == rest[i] { assert p[1..][i] == p[i + 1]; }
      assert p[1..] == rest;
    }
  }

  lemma {:induction false} SquaresAreDot(a: seq<real>)
    ensures SumSq(a) == Dot(a, a)
  {
    if a != [] { SquaresAreDot(a[1..]); }
  }

  /** Twice a dot product is at most the two squared norms. */
  lemma {:induction false} DotBound(a: seq<real>, b: seq<real>)
    requires |a| == |b|
    ensures 2.0 * Dot(a, b) <= SumSq(a) + SumSq(b)
  {
    if a != [] {
      DotBound(a[1..], b[1..]);
      var x, y := a[0], b[0];
      assert (x - y) * (x - y) >= 0.0;
      assert (x - y) * (x - y) == x * x - 2.0 * (x * y) + y * y;
    }
  }

  /** The similarity clamp at one absorbs no more than the rounding. */
  lemma DotOfEmbeddings(v: seq<real>, norm: real, w: seq<real>, norm': real)
    requires |v| == DIMENSION && norm >= 0.0 && Sq(norm) == SumSq(v)
    requires |w| == DIMENSION && norm' >= 0.0 && Sq(norm') == SumSq(w)
    ensures |Finish(v, norm)| == |Finish(w, norm')| && Dot(Finish(v, norm), Finish(w, norm')) <= 1.0 + TOLERANCE
  {
    EmbeddingIsNearUnit(v, norm);
    EmbeddingIsNearUnit(w, norm');
    DotBound(Finish(v, norm), Finish(w, norm'));
  }
}
