/** The audit's error concentration: the share of the total held by the largest records. */
module Concentration {
  import opened Text
  import opened Sums
  import Numerals

  function Insert(x: real, s: seq<real>): (r: seq<real>)
    ensures multiset(r) == multiset(s) + multiset{x}
  {
    if s == [] || x >= s[0] then [x] + s
    else
      assert s == [s[0]] + s[1..];
      [s[0]] + Insert(x, s[1..])
  }

  /** np.sort(values)[::-1]. */
  function Descending(s: seq<real>): (r: seq<real>)
    ensures multiset(r) == multiset(s)
  {
    if s == [] then []
    else
      assert s == [s[0]] + s[1..];
      Insert(s[0], Descending(s[1..]))
  }

  ghost predicate IsDescending(s: seq<real>) {
    forall i, j :: 0 <= i < j < |s| ==> s[i] >= s[j]
  }

  lemma {:induction false} InsertKeepsOrder(x: real, s: seq<real>)
    requires IsDescending(s)
    ensures IsDescending(Insert(x, s))
    ensures Insert(x, s)[0] == if s == [] || x >= s[0] then x else s[0]
  {
    if s != [] && x < s[0] {
      InsertKeepsOrder(x, s[1..]);
      var r := Insert(x, s);
      forall j | 0 < j < |r| ensures r[0] >= r[j] {
        assert r[1..][0] >= r[1..][j - 1];
      }
    }
  }

  lemma {:induction false} DescendingIsSorted(s: seq<real>)
    ensures IsDescending(Descending(s)) && |Descending(s)| == |s|
  {
    if s != [] {
      DescendingIsSorted(s[1..]);
      InsertKeepsOrder(s[0], Descending(s[1..]));
      SameSize(Descending(s), s);
    }
  }

  lemma SameSize(a: seq<real>, b: seq<real>)
    requires multiset(a) == multiset(b)
    ensures |a| == |b|
  {
    assert |a| == |multiset(a)| && |b| == |multiset(b)|;
  }

  function Top(values: seq<real>, k: nat): (r: seq<real>) {
    if k <= |Descending(values)| then Descending(values)[..k] else Descending(values)
  }

  /** The fractions reported, one line each. */
  const FRACTIONS: seq<real> := [0.01, 0.05, 0.1]

  /** fraction * count as the floating-point unit computes it. */
  type Product = (real, nat) -> real

  /** int(np.ceil(product)). */
  function Ceiling(x: real): int { -(-x).Floor }

  function Selected(product: real, count: nat): nat {
    if count == 0 then 0
    else
      var k := if Ceiling(product) < 1 then 1 else Ceiling(product);
      if k < count then k else count
  }

  datatype Line = Line(recordCount: nat, fraction: Option<real>)

  function LineFor(values: seq<real>, product: real): Line {
    var k := Selected(product, |values|);
    Line(k, if k > 0 && Sum(values) > 0.0 then Some(Share(values, k)) else None)
  }

  function Share(values: seq<real>, k: nat): real
    requires Sum(values) > 0.0
  {
    Numerals.Over(Sum(Top(values, k)), Sum(values))
  }

  function Ratio(k: nat, n: nat): real
    requires n > 0
  {
    k as real / n as real
  }

  function Lines(values: seq<real>, product: Product): (lines: seq<Line>)
    ensures |lines| == |FRACTIONS|
  {
    seq(|FRACTIONS|, i requires 0 <= i < |FRACTIONS| => LineFor(values, product(FRACTIONS[i], |values|)))
  }

  /** The line for the first k of the ordered records. */
  function HeadLine(ordered: seq<real>, total: real, k: nat): Line
    requires k <= |ordered|
  {
    Line(k, if k > 0 && total > 0.0 then Some(Numerals.Over(Sum(ordered[..k]), total)) else None)
  }

  lemma LineOfHead(values: seq<real>, product: real)
    ensures Selected(product, |values|) <= |Descending(values)|
    ensures HeadLine(Descending(values), Sum(values), Selected(product, |values|)) == LineFor(values, product)
  {
    DescendingIsSorted(values);
  }

  /** _concentration; None is its error for a negative value. */
  method Concentrate(values: seq<real>, product: Product) returns (lines: Option<seq<Line>>)
    ensures lines == if NonNegative(values) then Some(Lines(values, product)) else None
  {
    if exists i :: 0 <= i < |values| && values[i] < 0.0 { return None; }
    var count, total, ordered := |values|, Sum(values), Descending(values);
    ghost var expected := Lines(values, product);
    var result: seq<Line> := [];
    for i := 0 to |FRACTIONS|
      invariant result == expected[..i]
    {
      LineAt(values, product, i);
      result := result + [HeadLine(ordered, total, Selected(product(FRACTIONS[i], count), count))];
    }
    assert expected[..|FRACTIONS|] == expected;
    return Some(result);
  }

  lemma LineAt(values: seq<real>, product: Product, i: nat)
    requires i < |FRACTIONS|
    ensures var k := Selected(product(FRACTIONS[i], |values|), |values|);
      k <= |Descending(values)| && Lines(values, product)[i] == HeadLine(Descending(values), Sum(values), k)
  {
    LineOfHead(values, product(FRACTIONS[i], |values|));
  }

  // ----- The largest k are the best k -----

  lemma {:induction false} SumRemove(t: seq<real>, i: nat)
    requires i < |t|
    ensures Sum(t) == t[i] + Sum(t[..i] + t[i + 1..])
    ensures multiset(t[..i] + t[i + 1..]) == multiset(t) - multiset{t[i]}
  {
    assert t == t[..i] + ([t[i]] + t[i + 1..]);
    SumConcat(t[..i], [t[i]] + t[i + 1..]);
    SumConcat([t[i]], t[i + 1..]);
    SumConcat(t[..i], t[i + 1..]);
    assert Sum([t[i]]) == t[i];
  }

  /** No selection from a descending sequence beats its head of the same length. */
  lemma {:induction false} HeadBeatsSelection(s: seq<real>, t: seq<real>)
    requires IsDescending(s) && multiset(t) <= multiset(s) && |t| <= |s|
    ensures Sum(t) <= Sum(s[..|t|])
    decreases |s|
  {
    if t != [] {
      var x, rest := s[0], s[1..];
      if x in t {
        var i :| 0 <= i < |t| && t[i] == x;
        SumRemove(t, i);
        var t' := t[..i] + t[i + 1..];
        WithoutHead(t, t', s);
        HeadBeatsSelection(rest, t');
        assert s[..|t|][1..] == rest[..|t'|];
      } else {
        NotTheHead(t, s);
        SelectionFits(t, rest);
        HeadBeatsSelection(rest, t);
        HeadShift(s, |t|);
      }
    }
  }

  lemma WithoutHead(t: seq<real>, t': seq<real>, s: seq<real>)
    requires s != [] && multiset(t) <= multiset(s) && s[0] in multiset(t) && multiset(t') == multiset(t) - multiset{s[0]}
    ensures multiset(t') <= multiset(s[1..]) && |t'| + 1 == |t|
  {
    assert s == [s[0]] + s[1..];
    assert multiset(t) == multiset(t') + multiset{s[0]};
    assert |multiset(t)| == |t| && |multiset(t')| == |t'|;
  }

  lemma NotTheHead(t: seq<real>, s: seq<real>)
    requires s != [] && multiset(t) <= multiset(s) && s[0] !in multiset(t)
    ensures multiset(t) <= multiset(s[1..])
  {
    assert s == [s[0]] + s[1..];
  }

  lemma SelectionFits(t: seq<real>, s: seq<real>)
    requires multiset(t) <= multiset(s)
    ensures |t| <= |s|
  {
    assert multiset(s) == multiset(t) + (multiset(s) - multiset(t));
    assert |multiset(t)| == |t| && |multiset(s)| == |s|;
  }

  lemma HeadShift(s: seq<real>, k: nat)
    requires IsDescending(s) && 0 < k < |s|
    ensures Sum(s[1..][..k]) <= Sum(s[..k])
  {
    var mid := s[1..k];
    assert s[1..][..k] == mid + [s[k]];
    assert s[..k] == [s[0]] + mid;
    SumConcat(mid, [s[k]]);
    SumConcat([s[0]], mid);
    assert Sum([s[k]]) == s[k] && Sum([s[0]]) == s[0];
  }

  /** The top-k sum is the maximum over all selections of k records, and is itself one. */
  lemma TopIsMaximal(values: seq<real>, chosen: seq<real>)
    requires multiset(chosen) <= multiset(values)
    ensures Sum(chosen) <= Sum(Top(values, |chosen|))
    ensures |Top(values, |chosen|)| == |chosen| && multiset(Top(values, |chosen|)) <= multiset(values)
  {
    DescendingIsSorted(values);
    SelectionFits(chosen, values);
    HeadBeatsSelection(Descending(values), chosen);
    HeadIsSelection(Descending(values), |chosen|);
  }

  lemma HeadIsSelection(s: seq<real>, k: nat)
    requires k <= |s|
    ensures multiset(s[..k]) <= multiset(s)
  {
    assert s == s[..k] + s[k..];
  }

  // ----- Bounds and monotonicity -----

  lemma OneMore(n: nat, m: real)
    ensures Times((n + 1) as real, m) == m + Times(n as real, m)
  {
  }

  lemma {:induction false} SumAtLeast(s: seq<real>, m: real)
    requires forall i :: 0 <= i < |s| ==> s[i] >= m
    ensures Sum(s) >= Times(|s| as real, m)
  {
    if s != [] {
      SumAtLeast(s[1..], m);
      OneMore(|s[1..]|, m);
    }
  }

  lemma {:induction false} SumAtMost(s: seq<real>, m: real)
    requires forall i :: 0 <= i < |s| ==> s[i] <= m
    ensures Sum(s) <= Times(|s| as real, m)
  {
    if s != [] {
      SumAtMost(s[1..], m);
      OneMore(|s[1..]|, m);
    }
  }

  lemma SameSum(a: seq<real>, b: seq<real>)
    requires multiset(a) == multiset(b)
    ensures Sum(a) == Sum(b)
    decreases |a|
  {
    SameSize(a, b);
    if a != [] {
      assert a[0] in multiset(b);
      var i :| 0 <= i < |b| && b[i] == a[0];
      SumRemove(b, i);
      WithoutFirst(a);
      SameSum(a[1..], b[..i] + b[i + 1..]);
    }
  }

  lemma Cross(n: real, k: real, m: real, a: real, b: real)
    requires a >= Times(k, m) && b <= Times(n - k, m) && 0.0 <= k <= n
    ensures Times(k, a + b) <= Times(n, a)
  {
    var d := n - k;
    assert k * b <= k * (d * m) by { Scale(k, b, d * m); }
    assert d * a >= d * (k * m) by { Scale(d, k * m, a); }
    assert k * (d * m) == d * (k * m);
    assert n * a == k * a + d * a;
  }

  lemma Scale(c: real, x: real, y: real)
    requires c >= 0.0 && x <= y
    ensures c * x <= c * y
  {
  }

  lemma DescendingNonNegative(values: seq<real>)
    requires NonNegative(values)
    ensures NonNegative(Descending(values))
  {
    var s := Descending(values);
    forall i | 0 <= i < |s| ensures s[i] >= 0.0 {
      assert s[i] in multiset(s) && s[i] in multiset(values);
    }
  }

  lemma HeadAgainstTotal(s: seq<real>, k: nat)
    requires IsDescending(s) && NonNegative(s) && 0 < k <= |s|
    ensures Times(k as real, Sum(s)) <= Times(|s| as real, Sum(s[..k])) && Sum(s[..k]) <= Sum(s)
  {
    HeadsGrow(s, k, |s|);
    assert s[..|s|] == s;
    HeadInProportion(s, k);
  }

  lemma HeadInProportion(s: seq<real>, k: nat)
    requires IsDescending(s) && 0 < k <= |s|
    ensures Times(k as real, Sum(s)) <= Times(|s| as real, Sum(s[..k]))
  {
    SumAtCut(s, k);
    HeadAgainstTail(s[..k], s[k..], s[k - 1], |s|, Sum(s));
  }

  lemma SumAtCut(s: seq<real>, k: nat)
    requires k <= |s|
    ensures Sum(s) == Sum(s[..k]) + Sum(s[k..])
  {
    assert s == s[..k] + s[k..];
    SumConcat(s[..k], s[k..]);
  }

  lemma HeadsGrow(s: seq<real>, j: nat, k: nat)
    requires NonNegative(s) && j <= k <= |s|
    ensures Sum(s[..j]) <= Sum(s[..k])
  {
    assert s[..k] == s[..j] + s[j..k];
    SumConcat(s[..j], s[j..k]);
    SumNonNegative(s[j..k]);
  }

  lemma HeadAgainstTail(head: seq<real>, tail: seq<real>, m: real, n: nat, total: real)
    requires forall i :: 0 <= i < |head| ==> head[i] >= m
    requires forall i :: 0 <= i < |tail| ==> tail[i] <= m
    requires n == |head| + |tail| && total == Sum(head) + Sum(tail)
    ensures Times(|head| as real, total) <= Times(n as real, Sum(head))
  {
    SumAtLeast(head, m);
    SumAtMost(tail, m);
    assert |tail| as real == n as real - |head| as real;
    Cross(n as real, |head| as real, m, Sum(head), Sum(tail));
  }

  lemma TopAgainstTotal(values: seq<real>, k: nat)
    requires NonNegative(values) && 0 < k <= |values|
    ensures Times(k as real, Sum(values)) <= Times(|values| as real, Sum(Top(values, k)))
    ensures Sum(Top(values, k)) <= Sum(values)
  {
    DescendingIsSorted(values);
    DescendingNonNegative(values);
    SameSum(Descending(values), values);
    HeadAgainstTotal(Descending(values), k);
  }

  /** The largest k records hold at least their proportional share and at most everything. */
  lemma TopShareBounds(values: seq<real>, k: nat)
    requires NonNegative(values) && 0 < k <= |values| && Sum(values) > 0.0
    ensures Ratio(k, |values|) <= Share(values, k) <= 1.0
  {
    TopAgainstTotal(values, k);
    ShareBounds(k as real, |values| as real, Sum(Top(values, k)), Sum(values));
  }

  lemma ShareBounds(k: real, n: real, part: real, total: real)
    requires n > 0.0 && total > 0.0 && Times(k, total) <= Times(n, part) && part <= total
    ensures k / n <= part / total <= 1.0
  {
    var q := part / total;
    assert part == q * total;
    var p := k / n;
    assert k == p * n;
  }

  /** More records hold no less. */
  lemma TopIsMonotone(values: seq<real>, j: nat, k: nat)
    requires NonNegative(values) && j <= k
    ensures Sum(Top(values, j)) <= Sum(Top(values, k))
  {
    var s := Descending(values);
    DescendingNonNegative(values);
    assert s[..|s|] == s;
    HeadsGrow(s, if j <= |s| then j else |s|, if k <= |s| then k else |s|);
  }

  lemma SelectedIsMonotone(p: real, q: real, count: nat)
    requires p <= q
    ensures Selected(p, count) <= Selected(q, count) <= count
    ensures count > 0 ==> Selected(p, count) > 0
  {
    assert Ceiling(p) <= Ceiling(q);
  }

  lemma SharesAreMonotone(values: seq<real>, j: nat, k: nat)
    requires NonNegative(values) && Sum(values) > 0.0 && 0 < j <= k <= |values|
    ensures Ratio(j, |values|) <= Share(values, j) <= Share(values, k) <= 1.0
  {
    TopShareBounds(values, j);
    TopShareBounds(values, k);
    TopIsMonotone(values, j, k);
    Numerals.OverMonotone(Sum(Top(values, j)), Sum(Top(values, k)), Sum(values));
  }

  lemma LinesGrow(values: seq<real>, p: real, q: real)
    requires NonNegative(values) && p <= q
    ensures var a, b := LineFor(values, p), LineFor(values, q);
      && a.recordCount <= b.recordCount <= |values|
      && (a.fraction.Some? <==> Sum(values) > 0.0) && (b.fraction.Some? <==> Sum(values) > 0.0)
      && (Sum(values) > 0.0 ==>
          values != [] && Ratio(a.recordCount, |values|) <= a.fraction.value <= b.fraction.value <= 1.0)
  {
    SelectedIsMonotone(p, q, |values|);
    if Sum(values) > 0.0 {
      assert values != [];
      SharesAreMonotone(values, Selected(p, |values|), Selected(q, |values|));
    }
  }

  /** Across the reported fractions, however the products are rounded as long as rounding is monotone: a larger
      fraction selects no fewer records and reports no smaller share; every share lies between the
      proportional one and one, and is reported exactly when the total is positive. */
  lemma ConcentrationIsMonotone(values: seq<real>, product: Product, i: nat, j: nat)
    requires NonNegative(values) && i <= j < |FRACTIONS|
    requires product(FRACTIONS[i], |values|) <= product(FRACTIONS[j], |values|)
    ensures var a, b := Lines(values, product)[i], Lines(values, product)[j];
      && a.recordCount <= b.recordCount <= |values|
      && (a.fraction.Some? <==> Sum(values) > 0.0) && (b.fraction.Some? <==> Sum(values) > 0.0)
      && (Sum(values) > 0.0 ==>
          values != [] && Ratio(a.recordCount, |values|) <= a.fraction.value <= b.fraction.value <= 1.0)
  {
    LinesGrow(values, product(FRACTIONS[i], |values|), product(FRACTIONS[j], |values|));
  }

  /** How many records a fraction selects: the product rounded up, but at least one and at most all. */
  lemma SelectedIs(product: real, count: nat)
    ensures var k := Selected(product, count);
      && (count == 0 ==> k == 0)
      && (count > 0 ==>
          && 1 <= k <= count
          && (k < count ==> product <= k as real)
          && (k > 1 ==> (k - 1) as real < product))
  {
  }

  /** What a line says: its share times the total is the sum of its records, which are as many of the values and no
      choice of as many has a larger sum; no share when the total is not positive. */
  lemma LineIs(values: seq<real>, product: real) returns (best: seq<real>)
    requires NonNegative(values)
    ensures var line := LineFor(values, product);
      && line.recordCount == Selected(product, |values|) == |best| && multiset(best) <= multiset(values)
      && (line.fraction.Some? <==> Sum(values) > 0.0)
      && (line.fraction.Some? ==> Times(line.fraction.value, Sum(values)) == Sum(best))
    ensures forall chosen :: multiset(chosen) <= multiset(values) && |chosen| == |best| ==> Sum(chosen) <= Sum(best)
  {
    var k := Selected(product, |values|);
    best := Top(values, k);
    DescendingIsSorted(values);
    SelectedIs(product, |values|);
    HeadIsSelection(Descending(values), k);
    forall chosen | multiset(chosen) <= multiset(values) && |chosen| == k ensures Sum(chosen) <= Sum(best) {
      TopIsMaximal(values, chosen);
    }
    if Sum(values) > 0.0 { OverTimes(Sum(best), Sum(values)); }
  }

  lemma OverTimes(a: real, b: real)
    requires b > 0.0
    ensures Times(Numerals.Over(a, b), b) == a
  {
  }
}
