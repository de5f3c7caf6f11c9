/** Vector retrieval: clamped cosine similarity, stable ranking by distance and the top results. */
module Ranking {
  import opened Text
  import opened Sums
  import opened Numerals
  import opened Embedding

  function Similarity(dot: real): (s: real)
    ensures 0.0 <= s <= 1.0
  {
    var capped := if dot < 1.0 then dot else 1.0;
    if capped > 0.0 then capped else 0.0
  }

  function Distance(sim: real): real { if 1.0 - sim > 0.0 then 1.0 - sim else 0.0 }

  datatype Candidate = Candidate(similarity: real, distance: real, row: nat)

  datatype Hit = Hit(row: nat, similarity: real, distance: real, rank: nat)

  /** The candidate of one stored vector. */
  function CandidateFor(query: seq<real>, store: seq<seq<real>>, row: nat): Candidate
    requires row < |store| && |store[row]| == |query|
  {
    var sim := Similarity(Dot(query, store[row]));
    Candidate(sim, Distance(sim), row)
  }

  /** Closer first, and earlier row first among equals. */
  predicate Precedes(a: Candidate, b: Candidate) {
    a.distance < b.distance || (a.distance == b.distance && a.row < b.row)
  }

  ghost predicate Ranked(c: seq<Candidate>) {
    forall i, j :: 0 <= i < j < |c| ==> Precedes(c[i], c[j])
  }

  ghost predicate InRowOrder(c: seq<Candidate>) {
    forall i, j :: 0 <= i < j < |c| ==> c[i].row < c[j].row
  }

  /** candidates.sort by distance, which keeps row order among equals. */
  method StableSort(candidates: seq<Candidate>) returns (sorted: seq<Candidate>)
    requires InRowOrder(candidates)
    ensures Ranked(sorted) && multiset(sorted) == multiset(candidates)
  {
    sorted := [];
    for i := 0 to |candidates|
      invariant Ranked(sorted) && multiset(sorted) == multiset(candidates[..i])
    {
      EarlierRows(candidates, i, sorted);
      assert candidates[..i + 1] == candidates[..i] + [candidates[i]];
      sorted := Place(sorted, candidates[i]);
    }
    assert candidates[..|candidates|] == candidates;
  }

  /** Put a candidate of a later row behind all that are no farther. */
  method Place(sorted: seq<Candidate>, x: Candidate) returns (placed: seq<Candidate>)
    requires Ranked(sorted) && forall k :: 0 <= k < |sorted| ==> sorted[k].row < x.row
    ensures Ranked(placed) && multiset(placed) == multiset(sorted) + multiset{x}
  {
    var p: nat := |sorted|;
    while p > 0 && sorted[p - 1].distance > x.distance
      invariant p <= |sorted| && forall k :: p <= k < |sorted| ==> Precedes(x, sorted[k])
    {
      p := p - 1;
    }
    Splice(sorted, p, x);
    placed := sorted[..p] + [x] + sorted[p..];
  }

  lemma EarlierRows(candidates: seq<Candidate>, i: nat, sorted: seq<Candidate>)
    requires InRowOrder(candidates) && i < |candidates| && multiset(sorted) == multiset(candidates[..i])
    ensures forall k :: 0 <= k < |sorted| ==> sorted[k].row < candidates[i].row
  {
    forall k | 0 <= k < |sorted| ensures sorted[k].row < candidates[i].row {
      assert sorted[k] in multiset(candidates[..i]);
      var j :| 0 <= j < i && candidates[..i][j] == sorted[k];
      assert candidates[j] == sorted[k];
    }
  }

  lemma Splice(sorted: seq<Candidate>, p: nat, x: Candidate)
    requires Ranked(sorted) && p <= |sorted|
    requires forall k :: p <= k < |sorted| ==> Precedes(x, sorted[k])
    requires p > 0 ==> sorted[p - 1].distance <= x.distance
    requires forall k :: 0 <= k < |sorted| ==> sorted[k].row < x.row
    ensures Ranked(sorted[..p] + [x] + sorted[p..])
    ensures multiset(sorted[..p] + [x] + sorted[p..]) == multiset(sorted) + multiset{x}
  {
    SpliceBag(sorted, p, x);
    forall k | 0 <= k < p ensures Precedes(sorted[k], x) {
      if k < p - 1 { assert Precedes(sorted[k], sorted[p - 1]); }
    }
    SpliceOrder(sorted, p, x);
  }

  lemma SpliceBag(sorted: seq<Candidate>, p: nat, x: Candidate)
    requires p <= |sorted|
    ensures multiset(sorted[..p] + [x] + sorted[p..]) == multiset(sorted) + multiset{x}
  {
    assert sorted == sorted[..p] + sorted[p..];
  }

  lemma SpliceOrder(sorted: seq<Candidate>, p: nat, x: Candidate)
    requires Ranked(sorted) && p <= |sorted|
    requires forall k :: p <= k < |sorted| ==> Precedes(x, sorted[k])
    requires forall k :: 0 <= k < p ==> Precedes(sorted[k], x)
    ensures Ranked(sorted[..p] + [x] + sorted[p..])
  {
    var r := sorted[..p] + [x] + sorted[p..];
    forall i, j | 0 <= i < j < |r| ensures Precedes(r[i], r[j]) {
      if i < p { assert r[i] == sorted[i]; } else if i > p { assert r[i] == sorted[i - 1]; }
      if j < p { assert r[j] == sorted[j]; } else if j > p { assert r[j] == sorted[j - 1]; }
    }
  }

  /** How many elements candidates[:topK] has, negative topK included. */
  function SliceLength(topK: int, n: nat): (m: nat)
    ensures m <= n
  {
    if topK >= 0 then (if topK < n then topK else n) else (if n + topK > 0 then n + topK else 0)
  }

  /** What a query promises about its store. */
  ghost predicate TopResults(query: seq<real>, store: seq<seq<real>>, topK: int, hits: seq<Hit>)
    requires forall i :: 0 <= i < |store| ==> |store[i]| == |query|
  {
    && |hits| == SliceLength(topK, |store|)
    && (forall i :: 0 <= i < |hits| ==>
        && hits[i].rank == i + 1 && hits[i].row < |store|
        && hits[i].similarity == Round(CandidateFor(query, store, hits[i].row).similarity, 4)
        && hits[i].distance == Round(CandidateFor(query, store, hits[i].row).distance, 4))
    && (forall i, j :: 0 <= i < j < |hits| ==>
        Precedes(CandidateFor(query, store, hits[i].row), CandidateFor(query, store, hits[j].row)))
    && (forall i, row :: 0 <= i < |hits| && 0 <= row < |store| && Omitted(hits, row) ==>
        Precedes(CandidateFor(query, store, hits[i].row), CandidateFor(query, store, row)))
  }

  ghost predicate Omitted(hits: seq<Hit>, row: nat) {
    forall k :: 0 <= k < |hits| ==> hits[k].row != row
  }

  method Candidates(query: seq<real>, store: seq<seq<real>>) returns (candidates: seq<Candidate>)
    requires forall i :: 0 <= i < |store| ==> |store[i]| == |query|
    ensures |candidates| == |store| && forall k :: 0 <= k < |store| ==> candidates[k] == CandidateFor(query, store, k)
  {
    candidates := [];
    for i := 0 to |store|
      invariant |candidates| == i && forall k :: 0 <= k < i ==> candidates[k] == CandidateFor(query, store, k)
    {
      candidates := candidates + [CandidateFor(query, store, i)];
    }
  }

  function HitFor(c: Candidate, rank: nat): Hit { Hit(c.row, Round(c.similarity, 4), Round(c.distance, 4), rank) }

  /** The loop over the first m candidates. */
  method Report(sorted: seq<Candidate>, m: nat) returns (hits: seq<Hit>)
    requires m <= |sorted|
    ensures |hits| == m && forall k :: 0 <= k < m ==> hits[k] == HitFor(sorted[k], k + 1)
  {
    hits := [];
    for rank := 0 to m
      invariant |hits| == rank && forall k :: 0 <= k < rank ==> hits[k] == HitFor(sorted[k], k + 1)
    {
      hits := hits + [HitFor(sorted[rank], rank + 1)];
    }
  }

  /** query_semantic_rag; None is the error of zip(strict=True) on a vector of another length. */
  method Query(query: seq<real>, store: seq<seq<real>>, topK: int) returns (hits: Option<seq<Hit>>)
    ensures hits.Some? <==> forall i :: 0 <= i < |store| ==> |store[i]| == |query|
    ensures hits.Some? ==> TopResults(query, store, topK, hits.value)
  {
    if exists i :: 0 <= i < |store| && |store[i]| != |query| { return None; }
    var candidates := Candidates(query, store);
    var sorted := StableSort(candidates);
    SortedRows(query, store, candidates, sorted);
    var results := Report(sorted, SliceLength(topK, |store|));
    FirstAreTop(query, store, topK, sorted, results);
    return Some(results);
  }

  lemma FirstAreTop(query: seq<real>, store: seq<seq<real>>, topK: int, sorted: seq<Candidate>, hits: seq<Hit>)
    requires forall i :: 0 <= i < |store| ==> |store[i]| == |query|
    requires |sorted| == |store| && Ranked(sorted)
    requires forall k :: 0 <= k < |sorted| ==> sorted[k].row < |store| && sorted[k] == CandidateFor(query, store, sorted[k].row)
    requires forall row :: 0 <= row < |store| ==> CandidateFor(query, store, row) in sorted
    requires |hits| == SliceLength(topK, |store|) && forall k :: 0 <= k < |hits| ==> hits[k] == HitFor(sorted[k], k + 1)
    ensures TopResults(query, store, topK, hits)
  {
    forall i, row | 0 <= i < |hits| && 0 <= row < |store| && Omitted(hits, row)
      ensures Precedes(CandidateFor(query, store, hits[i].row), CandidateFor(query, store, row)) {
      var j :| 0 <= j < |sorted| && sorted[j] == CandidateFor(query, store, row);
      assert j >= |hits|;
    }
  }

  lemma SortedRows(query: seq<real>, store: seq<seq<real>>, candidates: seq<Candidate>, sorted: seq<Candidate>)
    requires forall i :: 0 <= i < |store| ==> |store[i]| == |query|
    requires |candidates| == |store| && forall k :: 0 <= k < |store| ==> candidates[k] == CandidateFor(query, store, k)
    requires multiset(sorted) == multiset(candidates)
    ensures |sorted| == |store|
    ensures forall k :: 0 <= k < |sorted| ==> sorted[k].row < |store| && sorted[k] == CandidateFor(query, store, sorted[k].row)
    ensures forall row :: 0 <= row < |store| ==> CandidateFor(query, store, row) in sorted
  {
    assert |sorted| == |multiset(sorted)| == |multiset(candidates)| == |candidates|;
    forall k | 0 <= k < |sorted|
      ensures sorted[k].row < |store| && sorted[k] == CandidateFor(query, store, sorted[k].row) {
      assert sorted[k] in multiset(candidates);
      var j :| 0 <= j < |candidates| && candidates[j] == sorted[k];
    }
    forall row | 0 <= row < |store| ensures CandidateFor(query, store, row) in sorted {
      assert candidates[row] in multiset(sorted);
    }
  }

  /** The reported similarities stay in [0, 1] and never increase down the ranking; distances never decrease. */
  lemma ReportedSimilarities(query: seq<real>, store: seq<seq<real>>, topK: int, hits: seq<Hit>, i: nat, j: nat)
    requires forall i :: 0 <= i < |store| ==> |store[i]| == |query|
    requires TopResults(query, store, topK, hits) && i <= j < |hits|
    ensures 0.0 <= hits[j].similarity <= hits[i].similarity <= 1.0
    ensures 0.0 <= hits[i].distance <= hits[j].distance <= 1.0
  {
    var a, b := CandidateFor(query, store, hits[i].row), CandidateFor(query, store, hits[j].row);
    assert b.similarity <= a.similarity && a.distance <= b.distance;
    RoundMonotone(b.similarity, a.similarity, 4);
    RoundMonotone(a.distance, b.distance, 4);
    RoundMonotone(0.0, b.similarity, 4);
    RoundMonotone(a.similarity, 1.0, 4);
    RoundMonotone(0.0, a.distance, 4);
    RoundMonotone(b.distance, 1.0, 4);
    RoundOfInteger(0, 4);
    RoundOfInteger(1, 4);
  }

  /** What a query returns, said of the vectors: every returned row's dot product with the query, clamped to [0, 1],
      is at least that of every row after it and of every row left out, and equal ones keep row order. */
  lemma ClosestFirst(query: seq<real>, store: seq<seq<real>>, topK: int, hits: seq<Hit>, i: nat, row: nat)
    requires forall r :: 0 <= r < |store| ==> |store[r]| == |query|
    requires TopResults(query, store, topK, hits) && i < |hits| && row < |store|
    requires Omitted(hits, row) || exists j :: i < j < |hits| && hits[j].row == row
    ensures hits[i].row < |store|
    ensures var a, b := Sum(Products(query, store[hits[i].row])), Sum(Products(query, store[row]));
      && (b > 0.0 ==> a >= b || a >= 1.0)
      && ((a == b || (a <= 0.0 && b <= 0.0) || (a >= 1.0 && b >= 1.0)) ==> hits[i].row < row)
  {
    DotIsSumOfProducts(query, store[hits[i].row]);
    DotIsSumOfProducts(query, store[row]);
    assert Precedes(CandidateFor(query, store, hits[i].row), CandidateFor(query, store, row));
  }

  /** What a query reports of a row: the dot product rounded to four places when it lies in [0, 1], 0 below and 1
      above, and the rounded distance from 1. */
  lemma ReportedFromDot(query: seq<real>, store: seq<seq<real>>, topK: int, hits: seq<Hit>, i: nat)
    requires forall r :: 0 <= r < |store| ==> |store[r]| == |query|
    requires TopResults(query, store, topK, hits) && i < |hits|
    ensures hits[i].row < |store| && hits[i].rank == i + 1
    ensures var d := Sum(Products(query, store[hits[i].row]));
      && (d <= 0.0 ==> hits[i].similarity == 0.0 && hits[i].distance == 1.0)
      && (d >= 1.0 ==> hits[i].similarity == 1.0 && hits[i].distance == 0.0)
      && (0.0 <= d <= 1.0 ==> hits[i].similarity == Round(d, 4) && hits[i].distance == Round(1.0 - d, 4))
  {
    DotIsSumOfProducts(query, store[hits[i].row]);
    RoundOfInteger(0, 4);
    RoundOfInteger(1, 4);
  }
}
