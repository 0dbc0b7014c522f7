/** The ranking metrics of the knowledge evaluation, over exact numbers. The gain discount is
    any positive strictly decreasing function of the position; the program's is
    1/log2(position + 2). */
module RankingMetrics {
  import opened Ledger
  import opened Finite

  type Path = string

  datatype Case = Case(expected: seq<Path>, fusion: seq<Path>)

  datatype Metrics = Metrics(recallAt1: real, recallAt10: real, mrr: real, ndcg: real, ndcgs: seq<real>)

  const DEPTH: nat := 10

  ghost predicate Discount(d: nat -> real)
  {
    (forall i :: d(i) > 0.0) && forall i, j :: i < j ==> d(i) > d(j)
  }

  // ---------------------------------------------------------------- one case

  function Relevance(c: Case): (r: seq<bool>)
    ensures |r| == |c.fusion|
  {
    seq(|c.fusion|, i requires 0 <= i < |c.fusion| => c.fusion[i] in c.expected)
  }

  /** The 1-based rank of the first relevant path, or 0. */
  function FirstRank(rel: seq<bool>): (rank: nat)
    ensures rank <= |rel|
    ensures rank > 0 ==> rel[rank - 1]
    ensures forall i :: 0 <= i < (if rank == 0 then |rel| else rank - 1) ==> !rel[i]
  {
    if rel == [] then 0
    else
      var before := FirstRank(rel[..|rel| - 1]);
      if before > 0 then before else if rel[|rel| - 1] then |rel| else 0
  }

  predicate HitAt(rel: seq<bool>, k: nat)
  {
    exists i :: 0 <= i < |rel| && i < k && rel[i]
  }

  function Reciprocal(rank: nat): real
  {
    if rank == 0 then 0.0 else 1.0 / rank as real
  }

  /** A positive rank times its reciprocal is one. */
  lemma ReciprocalMeans(rank: nat)
    ensures rank > 0 ==> rank as real * Reciprocal(rank) == 1.0
    ensures rank == 0 ==> Reciprocal(rank) == 0.0
  {
  }

  function Count(rel: seq<bool>): (n: nat)
    ensures n <= |rel|
  {
    if rel == [] then 0 else Count(rel[..|rel| - 1]) + if rel[|rel| - 1] then 1 else 0
  }

  function Dcg(d: nat -> real, rel: seq<bool>): real
  {
    if rel == [] then 0.0
    else Dcg(d, rel[..|rel| - 1]) + if rel[|rel| - 1] then d(|rel| - 1) else 0.0
  }

  /** The gain of no relevant path is nothing, and a relevant path at one place adds the discount
      of that place, whatever the others are. */
  lemma {:induction false} DcgMeans(d: nat -> real, rel: seq<bool>, i: nat)
    ensures (forall j :: 0 <= j < |rel| ==> !rel[j]) ==> Dcg(d, rel) == 0.0 && Count(rel) == 0
    ensures i < |rel| ==>
      && Dcg(d, rel[i := true]) == Dcg(d, rel[i := false]) + d(i)
      && Count(rel[i := true]) == Count(rel[i := false]) + 1
  {
    if rel != [] {
      var n := |rel| - 1;
      DcgMeans(d, rel[..n], i);
      if i < n {
        assert rel[i := true][..n] == rel[..n][i := true] && rel[i := false][..n] == rel[..n][i := false];
      } else if i == n {
        assert rel[i := true][..n] == rel[..n] && rel[i := false][..n] == rel[..n];
      }
    }
  }

  function Ideal(d: nat -> real, n: nat): real
  {
    if n == 0 then 0.0 else Ideal(d, n - 1) + d(n - 1)
  }

  function IdealCount(rel: seq<bool>): nat
  {
    var n := if Count(rel) > 1 then Count(rel) else 1;
    if n < DEPTH then n else DEPTH
  }

  function Ndcg(d: nat -> real, rel: seq<bool>): real
  {
    var ideal := Ideal(d, IdealCount(rel));
    if ideal != 0.0 then Dcg(d, rel) / ideal else 0.0
  }

  /** nDCG is the gain over the gain of as many leading relevant paths, at least one and at most
      ten. */
  lemma NdcgMeans(d: nat -> real, rel: seq<bool>)
    requires Discount(d)
    ensures var n := if Count(rel) == 0 then 1 else if Count(rel) > 10 then 10 else Count(rel);
      Dcg(d, AllRelevant(n)) > 0.0 && Ndcg(d, rel) == Dcg(d, rel) / Dcg(d, AllRelevant(n))
  {
    NdcgQuotient(d, rel);
    AllRelevantGain(d, IdealCount(rel));
  }

  lemma NdcgQuotient(d: nat -> real, rel: seq<bool>)
    requires Discount(d)
    ensures Ideal(d, IdealCount(rel)) > 0.0 && Ndcg(d, rel) == Dcg(d, rel) / Ideal(d, IdealCount(rel))
    ensures IdealCount(rel) == if Count(rel) == 0 then 1 else if Count(rel) > 10 then 10 else Count(rel)
  {
    IdealGrows(d, 0, IdealCount(rel));
  }

  /** The relevant paths come first. */
  predicate RelevantPrefix(rel: seq<bool>)
  {
    forall i, j :: 0 <= i < j < |rel| && rel[j] ==> rel[i]
  }

  lemma {:induction false} IdealGrows(d: nat -> real, m: nat, n: nat)
    requires Discount(d) && m < n
    ensures 0.0 <= Ideal(d, m) < Ideal(d, n)
  {
    if m < n - 1 {
      IdealGrows(d, m, n - 1);
    } else if m > 0 {
      IdealGrows(d, m - 1, m);
    }
  }

  predicate AllTrue(rel: seq<bool>)
  {
    forall i :: 0 <= i < |rel| ==> rel[i]
  }

  lemma {:induction false} FullCount(rel: seq<bool>)
    ensures Count(rel) == |rel| <==> AllTrue(rel)
  {
    if rel != [] {
      FullCount(rel[..|rel| - 1]);
    }
  }

  /** A gain never beats the ideal order of as many relevant paths, and reaches it only when
      they come first. */
  lemma {:induction false} DcgIdeal(d: nat -> real, rel: seq<bool>)
    requires Discount(d)
    ensures 0.0 <= Dcg(d, rel) <= Ideal(d, Count(rel))
    ensures Dcg(d, rel) == Ideal(d, Count(rel)) <==> RelevantPrefix(rel)
  {
    if rel != [] {
      var before, last := rel[..|rel| - 1], rel[|rel| - 1];
      DcgIdeal(d, before);
      PrefixStep(rel);
      if last {
        FullCount(before);
        var m := Count(before);
        if m < |rel| - 1 {
          assert d(m) > d(|rel| - 1);
        }
        assert Ideal(d, m + 1) == Ideal(d, m) + d(m);
      }
    }
  }

  lemma PrefixStep(rel: seq<bool>)
    requires rel != []
    ensures RelevantPrefix(rel) <==>
      RelevantPrefix(rel[..|rel| - 1]) && (rel[|rel| - 1] ==> AllTrue(rel[..|rel| - 1]))
  {
    var before := rel[..|rel| - 1];
    assert forall i :: 0 <= i < |before| ==> before[i] == rel[i];
  }

  /** nDCG lies between 0 and 1 and is 1 exactly when the relevant paths form a non-empty
      prefix. */
  lemma NdcgRange(d: nat -> real, rel: seq<bool>)
    requires Discount(d) && |rel| <= DEPTH
    ensures 0.0 <= Ndcg(d, rel) <= 1.0
    ensures Ndcg(d, rel) == 1.0 <==> RelevantPrefix(rel) && Count(rel) > 0
  {
    DcgIdeal(d, rel);
    IdealGrows(d, 0, IdealCount(rel));
    var g, ideal := Dcg(d, rel), Ideal(d, IdealCount(rel));
    Quotient(g, ideal);
  }

  lemma Quotient(g: real, ideal: real)
    requires 0.0 <= g <= ideal && ideal > 0.0
    ensures 0.0 <= g / ideal <= 1.0
    ensures g / ideal == 1.0 <==> g == ideal
  {
  }

  function AllRelevant(n: nat): seq<bool>
  {
    seq(n, _ => true)
  }

  lemma {:induction false} AllRelevantGain(d: nat -> real, n: nat)
    ensures Count(AllRelevant(n)) == n && Dcg(d, AllRelevant(n)) == Ideal(d, n)
  {
    if n > 0 {
      AllRelevantGain(d, n - 1);
      assert AllRelevant(n)[..n - 1] == AllRelevant(n - 1);
    }
  }

  /** The limit of ten results is what keeps nDCG below 1: with one more it can exceed it. */
  lemma NdcgNeedsLimit(d: nat -> real, n: nat)
    requires Discount(d)
    ensures n <= DEPTH <==> forall rel :: |rel| <= n ==> Ndcg(d, rel) <= 1.0
  {
    if n <= DEPTH {
      forall rel | |rel| <= n
        ensures Ndcg(d, rel) <= 1.0
      {
        NdcgRange(d, rel);
      }
    } else {
      AllRelevantGain(d, n);
      IdealGrows(d, DEPTH, n);
      IdealGrows(d, 0, DEPTH);
      Exceeds(Ideal(d, n), Ideal(d, DEPTH));
      assert Ndcg(d, AllRelevant(n)) > 1.0;
    }
  }

  lemma Exceeds(g: real, ideal: real)
    requires g > ideal > 0.0
    ensures g / ideal > 1.0
  {
  }

  // ---------------------------------------------------------------- all cases

  function Sum(xs: seq<real>): real
  {
    if xs == [] then 0.0 else Sum(xs[..|xs| - 1]) + xs[|xs| - 1]
  }

  function Mean(xs: seq<real>): real
    requires xs != []
  {
    Sum(xs) / |xs| as real
  }

  /** A sum of zeros is zero, and changing one summand changes the sum by as much. */
  lemma {:induction false} SumMeans(xs: seq<real>, i: nat, x: real)
    ensures (forall j :: 0 <= j < |xs| ==> xs[j] == 0.0) ==> Sum(xs) == 0.0
    ensures i < |xs| ==> Sum(xs[i := x]) == Sum(xs) - xs[i] + x
    ensures xs != [] ==> Mean(xs) * |xs| as real == Sum(xs)
  {
    if xs != [] {
      var n := |xs| - 1;
      SumMeans(xs[..n], i, x);
      if i < n {
        assert xs[i := x][..n] == xs[..n][i := x];
      } else if i == n {
        assert xs[i := x][..n] == xs[..n];
      }
    }
  }

  lemma {:induction false} SumMonotone(xs: seq<real>, ys: seq<real>)
    requires |xs| == |ys| && forall i :: 0 <= i < |xs| ==> xs[i] <= ys[i]
    ensures Sum(xs) <= Sum(ys)
  {
    if xs != [] {
      SumMonotone(xs[..|xs| - 1], ys[..|ys| - 1]);
    }
  }

  lemma {:induction false} SumConstant(xs: seq<real>, c: real)
    requires forall i :: 0 <= i < |xs| ==> xs[i] == c
    ensures Sum(xs) == c * |xs| as real
  {
    if xs != [] {
      SumConstant(xs[..|xs| - 1], c);
    }
  }

  lemma Divide(a: real, b: real, n: real)
    requires a <= b && n > 0.0
    ensures a / n <= b / n
  {
    assert b / n - a / n == (b - a) / n;
  }

  lemma MeanMonotone(xs: seq<real>, ys: seq<real>)
    requires xs != [] && |xs| == |ys| && forall i :: 0 <= i < |xs| ==> xs[i] <= ys[i]
    ensures Mean(xs) <= Mean(ys)
  {
    SumMonotone(xs, ys);
    Divide(Sum(xs), Sum(ys), |xs| as real);
  }

  lemma MeanConstant(xs: seq<real>, c: real)
    requires xs != [] && forall i :: 0 <= i < |xs| ==> xs[i] == c
    ensures Mean(xs) == c
  {
    SumConstant(xs, c);
  }

  function Answerable(cases: seq<Case>): seq<Case>
  {
    if cases == [] then []
    else Answerable(cases[..|cases| - 1]) + if cases[|cases| - 1].expected != [] then [cases[|cases| - 1]] else []
  }

  /** Exactly the cases with expected paths, as often as they occur and in order. */
  lemma {:induction false} AnswerableExact(cases: seq<Case>, c: Case)
    ensures Subsequence(Answerable(cases), cases)
    ensures multiset(Answerable(cases))[c] == if c.expected != [] then multiset(cases)[c] else 0
  {
    if cases == [] {
      assert Picks(Answerable(cases), cases, []);
    } else {
      var init, last := cases[..|cases| - 1], cases[|cases| - 1];
      AnswerableExact(init, c);
      assert cases == init + [last];
      SubsequenceNext(Answerable(init), init, last);
      assert Answerable(init) + [] == Answerable(init);
      hide Subsequence;
    }
  }

  function Hits(cases: seq<Case>, k: nat): seq<real>
  {
    seq(|cases|, i requires 0 <= i < |cases| => if HitAt(Relevance(cases[i]), k) then 1.0 else 0.0)
  }

  function Ranks(cases: seq<Case>): seq<real>
  {
    seq(|cases|, i requires 0 <= i < |cases| => Reciprocal(FirstRank(Relevance(cases[i]))))
  }

  function Gains(d: nat -> real, cases: seq<Case>): seq<real>
  {
    seq(|cases|, i requires 0 <= i < |cases| => Ndcg(d, Relevance(cases[i])))
  }

  /** The share of cases with a hit among the first k. */
  method Recall(cases: seq<Case>, k: nat) returns (r: real)
    requires cases != []
    ensures r == Mean(Hits(cases, k))
  {
    var hits := 0.0;
    for i := 0 to |cases|
      invariant hits == Sum(Hits(cases, k)[..i])
    {
      var rel := Relevance(cases[i]);
      assert Hits(cases, k)[..i + 1][..i] == Hits(cases, k)[..i];
      if HitAt(rel, k) {
        hits := hits + 1.0;
      }
    }
    assert Hits(cases, k)[..|cases|] == Hits(cases, k);
    r := hits / |cases| as real;
  }

  /** Without an answerable case the first division fails. */
  method Evaluate(cases: seq<Case>, d: nat -> real) returns (r: Reply<Metrics>)
    ensures r.Ok? <==> Answerable(cases) != []
    ensures r.Ok? ==>
      var a := Answerable(cases);
      r.value == Metrics(Mean(Hits(a, 1)), Mean(Hits(a, 10)), Mean(Ranks(a)), Mean(Gains(d, a)), Gains(d, a))
  {
    hide Ndcg, FirstRank, Reciprocal, Mean, Relevance, HitAt;
    var answerable := [];
    for i := 0 to |cases|
      invariant answerable == Answerable(cases[..i])
    {
      assert cases[..i + 1][..i] == cases[..i];
      if cases[i].expected != [] {
        answerable := answerable + [cases[i]];
      }
    }
    assert cases[..|cases|] == cases;
    if answerable == [] {
      return Raised;
    }
    var ranks, gains := [], [];
    for i := 0 to |answerable|
      invariant ranks == Ranks(answerable)[..i]
      invariant gains == Gains(d, answerable)[..i]
    {
      var rel := Relevance(answerable[i]);
      ranks := ranks + [Reciprocal(FirstRank(rel))];
      gains := gains + [Ndcg(d, rel)];
    }
    assert ranks == Ranks(answerable) && gains == Gains(d, answerable);
    var at1 := Recall(answerable, 1);
    var at10 := Recall(answerable, 10);
    r := Ok(Metrics(at1, at10, Mean(ranks), Mean(gains), gains));
  }

  lemma CaseOrder(rel: seq<bool>)
    requires |rel| <= DEPTH
    ensures HitAt(rel, 1) ==> Reciprocal(FirstRank(rel)) == 1.0
    ensures 0.0 <= Reciprocal(FirstRank(rel)) <= 1.0
    ensures !HitAt(rel, 10) ==> Reciprocal(FirstRank(rel)) == 0.0
  {
    var rank := FirstRank(rel);
    if rank > 0 {
      assert rank as real >= 1.0;
      Quotient(1.0, rank as real);
      assert rel[rank - 1];
    }
  }

  /** recall@1 <= MRR <= recall@10, all between 0 and 1, and so is the mean nDCG. */
  lemma MetricsOrdered(cases: seq<Case>, d: nat -> real)
    requires cases != [] && Discount(d) && forall c :: c in cases ==> |c.fusion| <= DEPTH
    ensures 0.0 <= Mean(Hits(cases, 1)) <= Mean(Ranks(cases)) <= Mean(Hits(cases, 10)) <= 1.0
    ensures 0.0 <= Mean(Gains(d, cases)) <= 1.0
  {
    var n := |cases|;
    var zeros, ones := seq(n, _ => 0.0), seq(n, _ => 1.0);
    MeanConstant(zeros, 0.0);
    MeanConstant(ones, 1.0);
    forall i | 0 <= i < n
      ensures Hits(cases, 1)[i] <= Ranks(cases)[i] <= Hits(cases, 10)[i] && 0.0 <= Gains(d, cases)[i] <= 1.0
    {
      assert cases[i] in cases;
      CaseOrder(Relevance(cases[i]));
      NdcgRange(d, Relevance(cases[i]));
    }
    MeanMonotone(zeros, Hits(cases, 1));
    MeanMonotone(Hits(cases, 1), Ranks(cases));
    MeanMonotone(Ranks(cases), Hits(cases, 10));
    MeanMonotone(Hits(cases, 10), ones);
    MeanMonotone(zeros, Gains(d, cases));
    MeanMonotone(Gains(d, cases), ones);
  }
}
