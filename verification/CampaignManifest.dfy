/** The provider calls of a campaign manifest: one health call and the repetitions per model. */
module CampaignManifest {
  import opened Decimals
  import opened Ledger
  import opened Finite
  import opened CampaignRows
  import opened CampaignScript

  function KindName(kind: Kind): string
  {
    if kind == Health then "health" else "benchmark"
  }

  const FIXTURE_TAG := 12

  function CallId(kind: Kind, model: string, fixture: string, repetition: nat): string
  {
    KindName(kind) + "-" + model + "-" + fixture + "-" + Decimal(repetition)
  }

  /** Two numerals behind equal text of the form `...-numeral` are the same length: the
      shorter one's dash would sit inside the longer one. */
  lemma SuffixesAlign(a: string, x: string, b: string, y: string)
    requires a + "-" + x == b + "-" + y
    requires (forall c :: c in x ==> IsDigit(c)) && (forall c :: c in y ==> IsDigit(c))
    ensures a == b && x == y
  {
    var s := a + "-" + x;
    NoDashAfter(a, x);
    NoDashAfter(b, y);
    assert s[|a|] == '-' && s[|b|] == '-';
    assert a == s[..|a|] && b == s[..|b|];
    assert x == s[|a| + 1..] && y == s[|b| + 1..];
  }

  lemma NoDashAfter(a: string, x: string)
    requires forall c :: c in x ==> IsDigit(c)
    ensures forall i :: |a| < i < |a + "-" + x| ==> (a + "-" + x)[i] != '-'
  {
    forall i | |a| < i < |a + "-" + x|
      ensures (a + "-" + x)[i] != '-'
    {
      assert (a + "-" + x)[i] == x[i - |a| - 1];
      assert x[i - |a| - 1] in x;
    }
  }

  /** A call id determines its kind, model and repetition. */
  lemma CallIdInjective(k: Kind, m: string, f: string, r: nat, k': Kind, m': string, f': string, r': nat)
    requires |f| == |f'| == FIXTURE_TAG
    requires CallId(k, m, f, r) == CallId(k', m', f', r')
    ensures k == k' && m == m' && r == r'
  {
    var head, head' := KindName(k) + "-" + m + "-" + f, KindName(k') + "-" + m' + "-" + f';
    DecimalRoundTrip(r);
    DecimalRoundTrip(r');
    SuffixesAlign(head, Decimal(r), head', Decimal(r'));
    assert head[0] == KindName(k)[0] && head'[0] == KindName(k')[0];
    var n := |KindName(k)| + 1;
    assert m == head[n..|head| - FIXTURE_TAG - 1];
    assert m' == head'[n..|head| - FIXTURE_TAG - 1];
  }

  /** The calls of one model: health first, then the repetitions 1..n. */
  function ModelCalls(m: string, fixture: string, repetitions: nat): seq<Call>
  {
    if repetitions == 0 then [Call(CallId(Health, m, fixture, 0), m, Health)]
    else ModelCalls(m, fixture, repetitions - 1)
         + [Call(CallId(Benchmark, m, fixture, repetitions), m, Benchmark)]
  }

  function ManifestCalls(models: seq<string>, fixture: string -> string, repetitions: nat): seq<Call>
  {
    if models == [] then []
    else
      var m := models[|models| - 1];
      ManifestCalls(models[..|models| - 1], fixture, repetitions) + ModelCalls(m, fixture(m), repetitions)
  }

  lemma {:induction false} ModelCallsShape(m: string, fixture: string, repetitions: nat)
    ensures var calls := ModelCalls(m, fixture, repetitions);
            && |calls| == repetitions + 1
            && forall i :: 0 <= i < |calls| ==>
                 var kind := if i == 0 then Health else Benchmark;
                 calls[i] == Call(CallId(kind, m, fixture, i), m, kind)
  {
    if repetitions > 0 {
      ModelCallsShape(m, fixture, repetitions - 1);
    }
  }

  /** The call's id is the one its kind, model and a repetition spell; health is repetition 0. */
  ghost predicate Named(c: Call, fixture: string -> string, repetition: nat)
  {
    && c.id == CallId(c.kind, c.model, fixture(c.model), repetition)
    && (c.kind == Health <==> repetition == 0)
  }

  ghost predicate HasName(c: Call, fixture: string -> string)
  {
    exists i: nat :: Named(c, fixture, i)
  }

  ghost predicate HasHealth(calls: seq<Call>, m: string)
  {
    exists h :: h in calls && h.model == m && h.kind == Health
  }

  lemma NamedOnce(c: Call, d: Call, fixture: string -> string, i: nat, j: nat)
    requires Named(c, fixture, i) && Named(d, fixture, j)
    requires |fixture(c.model)| == |fixture(d.model)| == FIXTURE_TAG
    ensures c.id == d.id ==> c == d
    ensures c.kind == Health == d.kind && c.model == d.model ==> c == d
    ensures c == d ==> i == j
  {
    if c.id == d.id {
      CallIdInjective(c.kind, c.model, fixture(c.model), i, d.kind, d.model, fixture(d.model), j);
    }
  }

  lemma ModelCallsDistinct(m: string, fixture: string -> string, repetitions: nat)
    requires |fixture(m)| == FIXTURE_TAG
    ensures Distinct(ModelCalls(m, fixture(m), repetitions))
    ensures forall c :: c in ModelCalls(m, fixture(m), repetitions) ==> c.model == m && HasName(c, fixture)
    ensures HasHealth(ModelCalls(m, fixture(m), repetitions), m)
  {
    var calls := ModelCalls(m, fixture(m), repetitions);
    ModelCallsShape(m, fixture(m), repetitions);
    assert calls[0] in calls;
    forall i, j | 0 <= i < j < |calls|
      ensures calls[i] != calls[j]
    {
      assert Named(calls[i], fixture, i) && Named(calls[j], fixture, j);
      NamedOnce(calls[i], calls[j], fixture, i, j);
    }
    forall c | c in calls
      ensures c.model == m && HasName(c, fixture)
    {
      var i :| 0 <= i < |calls| && calls[i] == c;
      assert Named(c, fixture, i);
    }
  }

  lemma {:induction false} ManifestCallsShape(models: seq<string>, fixture: string -> string, repetitions: nat)
    requires Distinct(models) && forall m :: m in models ==> |fixture(m)| == FIXTURE_TAG
    ensures var calls := ManifestCalls(models, fixture, repetitions);
            && Distinct(calls)
            && (forall c :: c in calls ==> c.model in models && HasName(c, fixture))
            && (forall m :: m in models ==> HasHealth(calls, m))
  {
    hide ModelCalls, HasName, HasHealth;
    if models != [] {
      var init, last := models[..|models| - 1], models[|models| - 1];
      assert models == init + [last] && last !in init;
      ManifestCallsShape(init, fixture, repetitions);
      ModelCallsDistinct(last, fixture, repetitions);
      BlockAppended(init, last, ManifestCalls(init, fixture, repetitions), ModelCalls(last, fixture(last), repetitions), fixture);
    }
  }

  lemma {:induction false} ManifestCallsCount(models: seq<string>, fixture: string -> string, repetitions: nat)
    ensures |ManifestCalls(models, fixture, repetitions)| == |models| * (repetitions + 1)
  {
    hide ModelCalls;
    if models != [] {
      var init, last := models[..|models| - 1], models[|models| - 1];
      ManifestCallsCount(init, fixture, repetitions);
      ModelCallsShape(last, fixture(last), repetitions);
      OneMoreBlock(|init|, repetitions + 1);
    }
  }

  lemma OneMoreBlock(n: nat, size: nat)
    ensures (n + 1) * size == n * size + size
  {
  }

  lemma BlockAppended(init: seq<string>, last: string, before: seq<Call>, own: seq<Call>, fixture: string -> string)
    requires last !in init && Distinct(before) && Distinct(own)
    requires forall c :: c in before ==> c.model in init && HasName(c, fixture)
    requires forall c :: c in own ==> c.model == last && HasName(c, fixture)
    requires (forall m :: m in init ==> HasHealth(before, m)) && HasHealth(own, last)
    ensures Distinct(before + own)
    ensures forall c :: c in before + own ==> c.model in init + [last] && HasName(c, fixture)
    ensures forall m :: m in init + [last] ==> HasHealth(before + own, m)
  {
    hide HasName;
    DistinctUnion(before, own);
    forall m | m in init + [last]
      ensures HasHealth(before + own, m)
    {
      var h: Call :| h in (if m == last then own else before) && h.model == m && h.kind == Health;
      assert h in before + own;
    }
  }

  /** The manifest of distinct models is a plan the member loop can rely on, and it holds
      one health call and the repetitions for each of them. */
  lemma ManifestPlanOk(models: seq<string>, fixture: string -> string, repetitions: nat)
    requires |models| >= 1 && Distinct(models) && forall m :: m in models ==> |fixture(m)| == FIXTURE_TAG
    ensures PlanOk(Plan(models, ManifestCalls(models, fixture, repetitions), map[], None))
    ensures |ManifestCalls(models, fixture, repetitions)| == |models| * (repetitions + 1)
  {
    hide ManifestCalls, CallId, Named, HasName;
    var plan := Plan(models, ManifestCalls(models, fixture, repetitions), map[], None);
    ManifestCallsShape(models, fixture, repetitions);
    ManifestCallsCount(models, fixture, repetitions);
    forall c, d | c in plan.calls && d in plan.calls
      ensures c.id == d.id ==> c == d
      ensures c.kind == Health == d.kind && c.model == d.model ==> c == d
    {
      NamesUnique(c, d, fixture);
    }
    forall c | c in plan.calls
      ensures c.id != ORCHESTRATION && c.id != FINALIZE && !(MEMBER_PREFIX <= c.id)
    {
      NameUnreserved(c, fixture);
    }
    assert forall m :: m in models ==> HasHealth(plan.calls, m);
  }

  lemma NamesUnique(c: Call, d: Call, fixture: string -> string)
    requires HasName(c, fixture) && HasName(d, fixture)
    requires |fixture(c.model)| == |fixture(d.model)| == FIXTURE_TAG
    ensures c.id == d.id ==> c == d
    ensures c.kind == Health == d.kind && c.model == d.model ==> c == d
  {
    var i: nat :| Named(c, fixture, i);
    var j: nat :| Named(d, fixture, j);
    NamedOnce(c, d, fixture, i, j);
  }

  lemma NameUnreserved(c: Call, fixture: string -> string)
    requires HasName(c, fixture)
    ensures c.id != ORCHESTRATION && c.id != FINALIZE && !(MEMBER_PREFIX <= c.id)
  {
    var i: nat :| Named(c, fixture, i);
    CallIdInitial(c.kind, c.model, fixture(c.model), i);
  }

  lemma CallIdInitial(kind: Kind, model: string, fixture: string, repetition: nat)
    ensures var id := CallId(kind, model, fixture, repetition);
            id != [] && (id[0] == 'h' || id[0] == 'b')
  {
  }

  // ---------------------------------------------------------------- the order of the calls

  lemma {:induction false} OfKindSum(a: seq<Call>, b: seq<Call>, m: string, kind: Kind)
    ensures OfKind(a + b, m, kind) == OfKind(a, m, kind) + OfKind(b, m, kind)
  {
    if b == [] {
      assert a + b == a;
    } else {
      var init, last := b[..|b| - 1], b[|b| - 1];
      OfKindSum(a, init, m, kind);
      assert (a + b)[..|a + b| - 1] == a + init;
    }
  }

  /** The benchmark calls of a model, by repetition. */
  function Trials(m: string, fixture: string, repetitions: nat): seq<Call>
  {
    seq(repetitions, i requires 0 <= i < repetitions => Call(CallId(Benchmark, m, fixture, i + 1), m, Benchmark))
  }

  lemma OfKindNext(calls: seq<Call>, last: Call, m: string, kind: Kind)
    ensures OfKind([], m, kind) == []
    ensures OfKind(calls + [last], m, kind) == OfKind(calls, m, kind) + if last.model == m && last.kind == kind then [last] else []
  {
    assert (calls + [last])[..|calls|] == calls;
  }

  lemma {:induction false} OfOneModel(m: string, fixture: string, repetitions: nat, x: string)
    ensures var calls := ModelCalls(m, fixture, repetitions);
      && OfKind(calls, x, Health) == (if x == m then [Call(CallId(Health, m, fixture, 0), m, Health)] else [])
      && OfKind(calls, x, Benchmark) == (if x == m then Trials(m, fixture, repetitions) else [])
  {
    hide CallId, OfKind;
    var init, last;
    if repetitions == 0 {
      init, last := [], Call(CallId(Health, m, fixture, 0), m, Health);
      assert init + [last] == [last];
    } else {
      init := ModelCalls(m, fixture, repetitions - 1);
      last := Call(CallId(Benchmark, m, fixture, repetitions), m, Benchmark);
      OfOneModel(m, fixture, repetitions - 1, x);
      TrialsNext(m, fixture, repetitions);
      hide Trials;
    }
    OfKindNext(init, last, x, Health);
    OfKindNext(init, last, x, Benchmark);
  }

  lemma TrialsNext(m: string, fixture: string, repetitions: nat)
    requires repetitions > 0
    ensures Trials(m, fixture, repetitions) ==
      Trials(m, fixture, repetitions - 1) + [Call(CallId(Benchmark, m, fixture, repetitions), m, Benchmark)]
  {
    hide CallId;
  }

  /** A model's calls in the manifest: its health call, and its benchmark calls by repetition,
      which is the order in which a member runs them. */
  lemma {:induction false} ManifestInOrder(models: seq<string>, fixture: string -> string, repetitions: nat, m: string)
    requires Distinct(models) && m in models
    ensures var calls := ManifestCalls(models, fixture, repetitions);
      && OfKind(calls, m, Health) == [Call(CallId(Health, m, fixture(m), 0), m, Health)]
      && OfKind(calls, m, Benchmark) == Trials(m, fixture(m), repetitions)
  {
    hide CallId, OfKind, ModelCalls, Trials;
    var init, last := models[..|models| - 1], models[|models| - 1];
    assert models == init + [last] && last !in init;
    var own := ModelCalls(last, fixture(last), repetitions);
    OfOneModel(last, fixture(last), repetitions, m);
    OfKindSum(ManifestCalls(init, fixture, repetitions), own, m, Health);
    OfKindSum(ManifestCalls(init, fixture, repetitions), own, m, Benchmark);
    if m == last {
      NotAmong(init, fixture, repetitions, m);
    } else {
      ManifestInOrder(init, fixture, repetitions, m);
    }
  }

  lemma {:induction false} NotAmong(models: seq<string>, fixture: string -> string, repetitions: nat, m: string)
    requires m !in models
    ensures OfKind(ManifestCalls(models, fixture, repetitions), m, Health) == []
    ensures OfKind(ManifestCalls(models, fixture, repetitions), m, Benchmark) == []
  {
    if models != [] {
      var init, last := models[..|models| - 1], models[|models| - 1];
      NotAmong(init, fixture, repetitions, m);
      OfOneModel(last, fixture(last), repetitions, m);
      hide ModelCalls;
      OfKindSum(ManifestCalls(init, fixture, repetitions), ModelCalls(last, fixture(last), repetitions), m, Health);
      OfKindSum(ManifestCalls(init, fixture, repetitions), ModelCalls(last, fixture(last), repetitions), m, Benchmark);
    }
  }
}
