/** Continuing a sealed campaign: which parent results are adopted, which health effect is
    recovered, which calls are still to be made, and why no call is ever made twice. */
module CampaignContinuation {
  import opened Ledger
  import opened Finite
  import opened CampaignRows
  import opened CampaignScript
  import opened CampaignMembers
  import opened CampaignCommand

  /** The reviewed manifest: the eligible models in order and every provider call. */
  datatype Manifest = Manifest(eligible: seq<string>, calls: seq<Call>)
  {
    function FirstPlan(): Plan
    {
      Plan(eligible, calls, map[], None)
    }
  }

  const CUMULATIVE_BUDGET := 102
  const CONTINUATION_BUDGET := 54

  /** A result the parent can hand over: its own, passed or failed. */
  predicate Adoptable(results: map<string, Result>, m: string)
  {
    m in results && results[m].status != MemberRecovery
  }

  /** The results of one model that the parent hands over, health check first. */
  function Handed(rows: Rows, m: string): seq<Verdict>
  {
    (if Adoptable(rows.health, m) then [Verdict(Health, rows.HealthIs(m, MemberPassed))] else [])
    + (if Adoptable(rows.benchmark, m) then [Verdict(Benchmark, rows.BenchmarkIs(m, MemberPassed))] else [])
  }

  /** The terminal models of the parent with their verdicts, and the calls those represent. */
  datatype Represented = Represented(adopted: map<string, seq<Verdict>>, calls: set<string>)

  /** Every model hands over either nothing or a terminal set of results. */
  predicate Terminates(models: seq<string>, rows: Rows)
  {
    forall m :: m in models && Handed(rows, m) != [] ==> Terminal(Handed(rows, m))
  }

  function AdoptedFrom(models: seq<string>, rows: Rows): map<string, seq<Verdict>>
  {
    map m | m in models && Handed(rows, m) != [] :: Handed(rows, m)
  }

  /** A failed model stands for its health call, a benchmarked one for all its calls. */
  function CallsFor(calls: seq<Call>, adopted: map<string, seq<Verdict>>): set<string>
  {
    set c | c in calls && c.model in adopted && (c.kind == Health || |adopted[c.model]| > 1) :: c.id
  }

  function RepresentedBy(manifest: Manifest, models: seq<string>, rows: Rows): Represented
  {
    var adopted := AdoptedFrom(models, rows);
    Represented(adopted, CallsFor(manifest.calls, adopted))
  }

  function CallsOf(calls: seq<Call>, models: set<string>): seq<Call>
  {
    if calls == [] then []
    else
      var last := calls[|calls| - 1];
      CallsOf(calls[..|calls| - 1], models) + if last.model in models then [last] else []
  }

  lemma {:induction false} CallsOfExact(calls: seq<Call>, models: set<string>)
    ensures forall c :: c in CallsOf(calls, models) <==> c in calls && c.model in models
    ensures Distinct(calls) ==> Distinct(CallsOf(calls, models))
    ensures Subsequence(CallsOf(calls, models), calls)
  {
    if calls == [] {
      assert Picks(CallsOf(calls, models), calls, []);
    } else {
      var init := calls[..|calls| - 1];
      CallsOfExact(init, models);
      assert calls == init + [calls[|calls| - 1]];
      SubsequenceNext(CallsOf(init, models), init, calls[|calls| - 1]);
      assert CallsOf(init, models) + [] == CallsOf(init, models);
    }
  }

  /** One more model's results, as they change what is represented. */
  lemma RepresentedStep(manifest: Manifest, models: seq<string>, rows: Rows, m: string)
    requires m !in models
    ensures var (rep, next) := (RepresentedBy(manifest, models, rows), RepresentedBy(manifest, models + [m], rows));
      var handed := Handed(rows, m);
      && next.adopted == (if handed == [] then rep.adopted else rep.adopted[m := handed])
      && next.calls == if handed == [] then rep.calls else rep.calls + HandedCalls(manifest.calls, m, handed)
  {
    var handed := Handed(rows, m);
    hide Handed;
    assert m !in AdoptedFrom(models, rows);
    assert AdoptedFrom(models + [m], rows)
        == if handed == [] then AdoptedFrom(models, rows) else AdoptedFrom(models, rows)[m := handed];
  }

  function HandedCalls(calls: seq<Call>, m: string, handed: seq<Verdict>): set<string>
  {
    set c | c in calls && c.model == m && (c.kind == Health || |handed| > 1) :: c.id
  }

  lemma HealthCallOnly(calls: seq<Call>, m: string, h: Call, handed: seq<Verdict>)
    requires OneHealthCall(calls, m) && h in calls && h.model == m && h.kind == Health && |handed| == 1
    ensures HandedCalls(calls, m, handed) == {h.id}
  {
  }

  lemma AllOwnCalls(calls: seq<Call>, m: string, handed: seq<Verdict>)
    requires |handed| > 1
    ensures HandedCalls(calls, m, handed) == set c | c in CallsOf(calls, {m}) :: c.id
  {
    CallsOfExact(calls, {m});
    hide CallsOf;
  }

  lemma HandedCases(rows: Rows, m: string)
    ensures var (health, benchmark) := (Adoptable(rows.health, m), Adoptable(rows.benchmark, m));
      && (!health && !benchmark ==> Handed(rows, m) == [])
      && (Terminal(Handed(rows, m)) <==>
            if health && rows.health[m].status == MemberFailed then !benchmark else health && benchmark)
      && (health && !benchmark ==> Handed(rows, m) == [Verdict(Health, rows.health[m].status == MemberPassed)])
      && (health && benchmark ==> Handed(rows, m) == [Verdict(Health, rows.health[m].status == MemberPassed),
                                                      Verdict(Benchmark, rows.benchmark[m].status == MemberPassed)])
      && (!health && benchmark ==> Handed(rows, m) != [])
  {
    var handed := Handed(rows, m);
    if |handed| == 1 {
      assert handed == [handed[0]];
    }
  }

  /** One model's results: none, a failed health check, or a passed one with a benchmark. */
  method RepresentModel(manifest: Manifest, rows: Rows, models: seq<string>, rep: Represented, m: string)
    returns (r: Reply<Represented>)
    requires OneHealthCall(manifest.calls, m) && m !in models
    requires rep == RepresentedBy(manifest, models, rows)
    ensures r.Ok? <==> Handed(rows, m) == [] || Terminal(Handed(rows, m))
    ensures r.Ok? ==> r.value == RepresentedBy(manifest, models + [m], rows)
  {
    var hasHealth, hasBenchmark := Adoptable(rows.health, m), Adoptable(rows.benchmark, m);
    RepresentedStep(manifest, models, rows, m);
    HandedCases(rows, m);
    hide RepresentedBy, OneHealthCall, CallsOf, HandedCalls, Handed, Terminal;
    if !hasHealth {
      return if hasBenchmark then Raised else Ok(rep);
    }
    if rows.health[m].status == MemberFailed {
      if hasBenchmark {
        return Raised;
      }
      var h := HealthCall(manifest.calls, m);
      HealthCallOnly(manifest.calls, m, h, Handed(rows, m));
      return Ok(Represented(rep.adopted[m := [Verdict(Health, false)]], rep.calls + {h.id}));
    }
    if !hasBenchmark {
      return Raised;
    }
    var own := CallsOf(manifest.calls, {m});
    AllOwnCalls(manifest.calls, m, Handed(rows, m));
    var passed := rows.benchmark[m].status == MemberPassed;
    r := Ok(Represented(
      rep.adopted[m := [Verdict(Health, true), Verdict(Benchmark, passed)]], rep.calls + set c | c in own :: c.id));
  }

  lemma FirstHealth(manifest: Manifest)
    requires PlanOk(manifest.FirstPlan())
    ensures forall m :: m in manifest.eligible ==> OneHealthCall(manifest.calls, m)
  {
    hide OneHealthCall;
    forall m | m in manifest.eligible
      ensures OneHealthCall(manifest.calls, m)
    {
      assert manifest.FirstPlan().Live(m);
    }
  }

  /** Reading the parent's results. They are accepted exactly when every model with a result is
      terminal, and then each is adopted with its own rows' verdicts. */
  method Represent(manifest: Manifest, rows: Rows) returns (r: Reply<Represented>)
    requires PlanOk(manifest.FirstPlan())
    ensures r.Ok? <==> Terminates(manifest.eligible, rows)
    ensures r.Ok? ==> r.value == RepresentedBy(manifest, manifest.eligible, rows)
  {
    var rep := Represented(map[], {});
    FirstHealth(manifest);
    assert Distinct(manifest.eligible);
    assert rep == RepresentedBy(manifest, manifest.eligible[..0], rows);
    hide PlanOk, RepresentedBy, Handed, Terminal, OneHealthCall;
    var i := 0;
    while i < |manifest.eligible|
      invariant 0 <= i <= |manifest.eligible|
      invariant Terminates(manifest.eligible[..i], rows)
      invariant rep == RepresentedBy(manifest, manifest.eligible[..i], rows)
    {
      assert manifest.eligible[i] in manifest.eligible;
      assert manifest.eligible[..i + 1] == manifest.eligible[..i] + [manifest.eligible[i]];
      var next := RepresentModel(manifest, rows, manifest.eligible[..i], rep, manifest.eligible[i]);
      if next.Raised? {
        return Raised;
      }
      rep := next.value;
      i := i + 1;
    }
    assert manifest.eligible[..i] == manifest.eligible;
    r := Ok(rep);
  }

  lemma RepresentedTerminal(manifest: Manifest, rows: Rows)
    requires Terminates(manifest.eligible, rows)
    ensures RepresentedOk(manifest, RepresentedBy(manifest, manifest.eligible, rows))
  {
    hide Handed, Terminal;
  }

  /** What the plan of the continuation rests on. */
  ghost predicate RepresentedOk(manifest: Manifest, rep: Represented)
  {
    && (forall m :: m in rep.adopted ==> m in manifest.eligible && Terminal(rep.adopted[m]))
    && (forall id :: id in rep.calls ==>
          exists c :: c in manifest.calls && c.id == id && c.model in rep.adopted)
  }

  /** An adopted model ends in the continuation as it stands in the parent's rows. */
  lemma AdoptedVerdict(models: seq<string>, rows: Rows, plan: Plan, v: Verdicts, m: string)
    requires Terminates(models, rows) && plan.adopted == AdoptedFrom(models, rows) && m in plan.adopted
    ensures Passes(plan, v, m) <==> m in PassedRows(models, rows)
    ensures !Passes(plan, v, m) <==> m in FailedRows(models, rows)
  {
    hide HealthApproved, Good;
    assert Terminal(Handed(rows, m));
  }

  /** Claim `i` is a provider call with a receipt. */
  predicate Receipted(db: Db<Op, Rows>, i: nat)
  {
    i < |db.claims| && db.claims[i].Provider? && i in db.receipts
  }

  function ReceiptedIds(db: Db<Op, Rows>, n: nat): set<string>
    requires n <= |db.claims|
  {
    set i: nat | i < n && Receipted(db, i) :: db.claims[i].call.id
  }

  /** Every provider receipt among the first `n` claims carries evidence under a
      recovery-required job, and no call occurs twice. */
  predicate Evidenced(db: Db<Op, Rows>, n: nat)
    requires n <= |db.claims|
  {
    && (forall i: nat :: i < n && Receipted(db, i) ==> db.job == RecoveryRequired && db.receipts[i] == Completed)
    && (forall i: nat, j: nat :: i < j < n && Receipted(db, i) && Receipted(db, j) ==>
          db.claims[i].call.id != db.claims[j].call.id)
  }

  /** The provider calls the parent attempted: each needs a terminal receipt with evidence,
      that is a completed one, under a recovery-required job. */
  method AttemptedCalls(db: Db<Op, Rows>) returns (r: Reply<set<string>>)
    ensures r.Ok? <==> Evidenced(db, |db.claims|)
    ensures r.Ok? ==> r.value == ReceiptedIds(db, |db.claims|)
  {
    var attempted := {};
    var i := 0;
    while i < |db.claims|
      invariant 0 <= i <= |db.claims|
      invariant Evidenced(db, i) && attempted == ReceiptedIds(db, i)
    {
      if db.claims[i].Provider? && i in db.receipts {
        assert Receipted(db, i);
        var id := db.claims[i].call.id;
        if id in attempted || db.job != RecoveryRequired || db.receipts[i] != Completed {
          return Raised;
        }
        attempted := attempted + {id};
      }
      i := i + 1;
    }
    r := Ok(attempted);
  }

  lemma ReceiptedAttempted(db: Db<Op, Rows>)
    ensures ReceiptedIds(db, |db.claims|) <= Attempted(db.claims)
  {
    forall id | id in ReceiptedIds(db, |db.claims|)
      ensures id in Attempted(db.claims)
    {
      AttemptedFrom(db.claims, id);
    }
  }

  method FindCall(calls: seq<Call>, id: string) returns (found: Option<Call>)
    ensures found.Some? ==> found.value in calls && found.value.id == id
    ensures found.None? ==> forall c :: c in calls ==> c.id != id
  {
    var i := 0;
    while i < |calls|
      invariant 0 <= i <= |calls|
      invariant forall j :: 0 <= j < i ==> calls[j].id != id
    {
      if calls[i].id == id {
        return Some(calls[i]);
      }
      i := i + 1;
    }
    found := None;
  }

  /** What a continuation plan owes its parent: it makes only manifest calls, none of which
      the parent attempted, and it adopts or recovers every other model. */
  ghost predicate Continues(manifest: Manifest, parent: Db<Op, Rows>, plan: Plan)
  {
    && PlanOk(plan)
    && plan.members == manifest.eligible
    && plan.adopted == AdoptedFrom(manifest.eligible, parent.rows) && Terminates(manifest.eligible, parent.rows)
    && (forall c :: c in plan.calls ==> c in manifest.calls && c.id !in Attempted(parent.claims))
    && Attempted(parent.claims) <= manifest.FirstPlan().CallIds()
    && |plan.calls| <= CONTINUATION_BUDGET
    && |Attempted(parent.claims)| + |plan.calls| <= CUMULATIVE_BUDGET
  }

  /** Everything attempted belongs to a terminal model or to the recovered one, so a call of
      an active model was never attempted. */
  lemma ActiveNeverAttempted(manifest: Manifest, rep: Represented, attempted: set<string>, repair: Call, active: set<string>)
    requires IdsUnique(manifest.calls) && RepresentedOk(manifest, rep)
    requires repair in manifest.calls && attempted <= rep.calls + {repair.id}
    requires active !! rep.adopted.Keys && repair.model !in active
    ensures forall c :: c in manifest.calls && c.model in active ==> c.id !in attempted
    ensures attempted <= set c | c in manifest.calls :: c.id
  {
  }

  lemma DisjointIdsFit(calls: seq<Call>, attempted: set<string>, active: seq<Call>)
    requires IdsUnique(calls) && Distinct(active)
    requires attempted <= set c | c in calls :: c.id
    requires forall c :: c in active ==> c in calls && c.id !in attempted
    ensures |attempted| + |active| <= |calls|
  {
    var ids := set c | c in active :: c.id;
    ActiveIds(calls, active);
    assert attempted !! ids;
    SubsetCardinality(attempted + ids, set c | c in calls :: c.id);
    assert |attempted + ids| == |attempted| + |ids|;
    CallIdsBounded(calls);
  }

  lemma {:induction false} ActiveIds(calls: seq<Call>, active: seq<Call>)
    requires IdsUnique(calls) && Distinct(active) && forall c :: c in active ==> c in calls
    ensures |set c | c in active :: c.id| == |active|
  {
    if active != [] {
      var init, last := active[..|active| - 1], active[|active| - 1];
      assert active == init + [last];
      assert last !in init;
      assert forall c :: c in init ==> c.id != last.id;
      ActiveIds(calls, init);
      hide IdsUnique, Distinct;
      LastId(init, last);
    }
  }

  lemma LastId(init: seq<Call>, last: Call)
    requires forall c :: c in init ==> c.id != last.id
    ensures |set c | c in init + [last] :: c.id| == |set c | c in init :: c.id| + 1
  {
    var ids := set c | c in init :: c.id;
    assert last.id !in ids;
    assert (set c | c in init + [last] :: c.id) == ids + {last.id};
  }

  lemma FilteredUnique(calls: seq<Call>, models: set<string>)
    requires IdsUnique(calls)
    ensures IdsUnique(CallsOf(calls, models))
  {
    CallsOfExact(calls, models);
  }

  lemma FilteredHealth(calls: seq<Call>, models: set<string>, m: string)
    requires OneHealthCall(calls, m) && m in models
    ensures OneHealthCall(CallsOf(calls, models), m)
  {
    CallsOfExact(calls, models);
    var h :| h in calls && h.model == m && h.kind == Health;
    assert h in CallsOf(calls, models);
  }

  function ActiveModels(manifest: Manifest, rep: Represented, repair: Call): set<string>
  {
    (set m | m in manifest.eligible) - rep.adopted.Keys - {repair.model}
  }

  function NextPlan(manifest: Manifest, rep: Represented, repair: Call): Plan
  {
    Plan(manifest.eligible, CallsOf(manifest.calls, ActiveModels(manifest, rep, repair)), rep.adopted, Some(repair.model))
  }

  /** The plan keeps exactly the active models live. */
  lemma NextPlanOk(manifest: Manifest, rep: Represented, repair: Call)
    requires PlanOk(manifest.FirstPlan()) && RepresentedOk(manifest, rep)
    ensures PlanOk(NextPlan(manifest, rep, repair))
  {
    hide IdsUnique, OneHealthCall, CallsOf;
    var active := ActiveModels(manifest, rep, repair);
    var plan := NextPlan(manifest, rep, repair);
    CallsOfExact(manifest.calls, active);
    FilteredUnique(manifest.calls, active);
    forall m | plan.Live(m)
      ensures OneHealthCall(plan.calls, m)
    {
      assert manifest.FirstPlan().Live(m);
      FilteredHealth(manifest.calls, active, m);
    }
  }

  /** Both halves of the no-repeat argument for the next plan. */
  lemma NextPlanContinues(manifest: Manifest, rep: Represented, repair: Call, parent: Db<Op, Rows>)
    requires PlanOk(manifest.FirstPlan()) && |manifest.calls| <= CUMULATIVE_BUDGET
    requires Terminates(manifest.eligible, parent.rows) && rep == RepresentedBy(manifest, manifest.eligible, parent.rows)
    requires repair in manifest.calls && Attempted(parent.claims) <= rep.calls + {repair.id}
    ensures var plan := NextPlan(manifest, rep, repair);
            && (forall c :: c in plan.calls ==> c.id !in Attempted(parent.claims))
            && |Attempted(parent.claims)| + |plan.calls| <= CUMULATIVE_BUDGET
            && (|plan.calls| <= CONTINUATION_BUDGET ==> Continues(manifest, parent, plan))
  {
    hide Attempted, CallsOf, RepresentedOk, Terminates, AdoptedFrom, CallsFor;
    RepresentedTerminal(manifest, parent.rows);
    var active := ActiveModels(manifest, rep, repair);
    var plan := NextPlan(manifest, rep, repair);
    NextPlanOk(manifest, rep, repair);
    CallsOfExact(manifest.calls, active);
    ActiveNeverAttempted(manifest, rep, Attempted(parent.claims), repair, active);
    CallsDistinct(manifest.calls);
    hide PlanOk, IdsUnique;
    DisjointIdsFit(manifest.calls, Attempted(parent.claims), plan.calls);
  }

  /** When a parent can be continued around its one unprojected health call: it was sealed
      with a recovery outcome, its results are terminal, each of its attempts has a receipt
      with evidence, and besides the represented calls it attempted exactly that one. */
  ghost predicate Continuable(manifest: Manifest, parent: Db<Op, Rows>, bindingsMatch: bool, repair: Call)
  {
    var rep := RepresentedBy(manifest, manifest.eligible, parent.rows);
    && bindingsMatch && parent.rows.outcome.Some? && parent.rows.outcome.value.status == OutcomeRecovery
    && Terminates(manifest.eligible, parent.rows)
    && Evidenced(parent, |parent.claims|)
    && ReceiptedIds(parent, |parent.claims|) == Attempted(parent.claims)
    && repair in manifest.calls && repair.kind == Health && repair.model !in rep.adopted
    && Attempted(parent.claims) - rep.calls == {repair.id}
    && |NextPlan(manifest, rep, repair).calls| <= CONTINUATION_BUDGET
  }

  function PlanAround(manifest: Manifest, parent: Db<Op, Rows>, repair: Call): Plan
  {
    NextPlan(manifest, RepresentedBy(manifest, manifest.eligible, parent.rows), repair)
  }

  /** The continuation check. Its last two guards, an active call already attempted and a
      cumulative total above the budget, can never fire for a manifest of at most that many
      calls. */
  method ContinuationPlan(manifest: Manifest, parent: Db<Op, Rows>, bindingsMatch: bool) returns (r: Reply<Plan>)
    requires PlanOk(manifest.FirstPlan()) && |manifest.calls| <= CUMULATIVE_BUDGET
    requires parent.rows.outcome.Some? ==> parent.rows.outcome.value.provider == |Attempted(parent.claims)|
    ensures r.Ok? ==> Continues(manifest, parent, r.value)
    ensures r.Ok? <==> exists repair :: Continuable(manifest, parent, bindingsMatch, repair)
    ensures r.Ok? ==> exists repair ::
      Continuable(manifest, parent, bindingsMatch, repair) && r.value == PlanAround(manifest, parent, repair)
  {
    hide PlanOk, RepresentedBy, Terminates, Evidenced, ReceiptedIds, Attempted, Continues, NextPlan;
    if parent.rows.outcome.None? || parent.rows.outcome.value.status != OutcomeRecovery || !bindingsMatch {
      return Raised;
    }
    var represented := Represent(manifest, parent.rows);
    if represented.Raised? {
      return Raised;
    }
    var rep := represented.value;
    var attempts := AttemptedCalls(parent);
    ReceiptedAttempted(parent);
    if attempts.Raised? || |attempts.value| != parent.rows.outcome.value.provider {
      return Raised;
    }
    var attempted := attempts.value;
    SameCardinality(attempted, Attempted(parent.claims));
    var extra := attempted - rep.calls;
    if |extra| != 1 {
      return Raised;
    }
    var repairId :| repairId in extra;
    Singleton(extra, repairId);
    UniqueCall(manifest, repairId);
    var repair := FindCall(manifest.calls, repairId);
    if repair.None? || repair.value.kind != Health || repair.value.model in rep.adopted {
      return Raised;
    }
    var plan := NextPlan(manifest, rep, repair.value);
    NextPlanContinues(manifest, rep, repair.value, parent);
    if exists c :: c in plan.calls && c.id in attempted {
      assert false;
    }
    if |attempted| + |plan.calls| > CUMULATIVE_BUDGET {
      assert false;
    }
    if |plan.calls| > CONTINUATION_BUDGET {
      return Raised;
    }
    assert Continuable(manifest, parent, bindingsMatch, repair.value);
    r := Ok(plan);
  }

  lemma UniqueCall(manifest: Manifest, id: string)
    requires PlanOk(manifest.FirstPlan())
    ensures forall c, d :: c in manifest.calls && d in manifest.calls && c.id == id == d.id ==> c == d
  {
  }

  lemma Singleton<T>(s: set<T>, x: T)
    requires |s| == 1 && x in s
    ensures s == {x}
  {
    assert |s - {x}| == 0;
  }

  /** Over a parent run and its continuation no provider call goes out twice, and together
      they stay within the cumulative budget. */
  lemma NoCallTwice(manifest: Manifest, v: Verdicts, parent: Db<Op, Rows>, wire: seq<Op>,
                    plan: Plan, v': Verdicts, wire': seq<Op>)
    requires PlanOk(manifest.FirstPlan()) && |manifest.calls| <= CUMULATIVE_BUDGET
    requires Distinct(wire) && WireOk(manifest.FirstPlan(), v, wire) && forall op :: op in wire ==> op in parent.claims
    requires Continues(manifest, parent, plan)
    requires Distinct(wire') && WireOk(plan, v', wire')
    ensures Distinct(wire + wire') && |wire + wire'| <= CUMULATIVE_BUDGET
    ensures forall op :: op in wire + wire' ==> op.Provider? && op.call in manifest.calls
    ensures forall op :: op in wire' ==> op.call.model !in plan.adopted && plan.recovered != Some(op.call.model)
  {
    hide PlanOk, Attempted;
    WireMembers(manifest.FirstPlan(), v, wire);
    WireMembers(plan, v', wire');
    ContinuationLive(manifest, parent, plan);
    hide WireOk;
    forall op | op in wire
      ensures op !in wire'
    {
      AttemptedFrom(parent.claims, op.call.id);
    }
    DistinctUnion(wire, wire');
    WireBounded(manifest.calls, wire + wire');
  }

  lemma ContinuationLive(manifest: Manifest, parent: Db<Op, Rows>, plan: Plan)
    requires Continues(manifest, parent, plan)
    ensures forall c :: c in plan.calls ==> c.model !in plan.adopted && plan.recovered != Some(c.model)
  {
  }

  /** A ledger in which only the outcome has been claimed. */
  ghost predicate Begun(ledger: CampaignLedger)
    reads ledger
  {
    ledger.Valid() && ledger.db == Db([OutcomeLedger], map[], Running, NoRows) && ledger.wire == []
  }

  /** A first run and, exactly if the continuation check accepts what it left, its one
      continuation; each ends as the command ends. Whatever raised in either, no provider call
      goes out twice; models the continuation adopts or recovers make no call in it; and if it
      is published, every adopted model is qualified exactly as its rows of the first run stood. */
  method RunWithContinuation(manifest: Manifest, bindingsMatch: bool, v: Verdicts, v': Verdicts,
                             first: CampaignLedger, second: CampaignLedger)
    returns (exit: Exit, loc: Locals, next: Reply<Plan>, end: Option<(Exit, Locals)>)
    requires PlanOk(manifest.FirstPlan()) && |manifest.calls| <= CUMULATIVE_BUDGET
    requires first != second && Begun(first) && Begun(second)
    modifies first, second
    ensures Ended(first, manifest.FirstPlan(), v, old(first.clock), exit, loc)
    ensures next.Ok? <==> exists repair :: Continuable(manifest, first.db, bindingsMatch, repair)
    ensures next.Ok? ==> Continues(manifest, first.db, next.value)
    ensures next.Ok? ==> exists repair ::
      Continuable(manifest, first.db, bindingsMatch, repair) && next.value == PlanAround(manifest, first.db, repair)
    ensures end.Some? <==> next.Ok?
    ensures end.Some? ==> Ended(second, next.value, v', old(second.clock), end.value.0, end.value.1)
    ensures end.None? ==> Begun(second) && second.clock == old(second.clock)
    ensures Distinct(first.wire + second.wire) && |first.wire + second.wire| <= CUMULATIVE_BUDGET
    ensures forall op :: op in first.wire + second.wire ==> op.Provider? && op.call in manifest.calls
    ensures next.Ok? ==> forall op :: op in second.wire ==>
      op.call.model !in next.value.adopted && next.value.recovered != Some(op.call.model)
    ensures end.Some? && end.value.0 == Returned ==> ByVerdict(next.value, v', second.db.rows.qualifications)
    ensures next.Ok? ==> forall m :: m in next.value.adopted ==>
      && (Passes(next.value, v', m) <==> m in PassedRows(manifest.eligible, first.db.rows))
      && (!Passes(next.value, v', m) <==> m in FailedRows(manifest.eligible, first.db.rows))
  {
    hide *;
    BegunMeans(first);
    BegunMeans(second);
    exit, loc := Run(first, manifest.FirstPlan(), v);
    EndedMeans(first, manifest.FirstPlan(), v, old(first.clock), exit, loc);
    FirstWire(manifest, v, first.wire);
    next := ContinuationPlan(manifest, first.db, bindingsMatch);
    if next.Raised? {
      assert first.wire + [] == first.wire;
      end := None;
      return;
    }
    ContinuesAdopted(manifest, first.db, next.value, v');
    ContinuesPlanOk(manifest, first.db, next.value);
    var exit', loc' := Run(second, next.value, v');
    EndedMeans(second, next.value, v', old(second.clock), exit', loc');
    NoCallTwice(manifest, v, first.db, first.wire, next.value, v', second.wire);
    end := Some((exit', loc'));
  }

  lemma BegunMeans(ledger: CampaignLedger)
    requires Begun(ledger)
    ensures ledger.Valid() && ledger.db == Db([OutcomeLedger], map[], Running, NoRows) && ledger.wire == []
  {
  }

  /** What the continuation needs of a run that has ended. */
  lemma EndedMeans(ledger: CampaignLedger, plan: Plan, v: Verdicts, start: nat, exit: Exit, loc: Locals)
    requires Ended(ledger, plan, v, start, exit, loc)
    ensures Distinct(ledger.wire) && WireOk(plan, v, ledger.wire)
    ensures forall op :: op in ledger.wire ==> op in ledger.db.claims
    ensures ledger.db.rows.outcome.Some? ==> ledger.db.rows.outcome.value.provider == |Attempted(ledger.db.claims)|
    ensures exit == Returned ==> ByVerdict(plan, v, ledger.db.rows.qualifications)
  {
    hide LoopScript, LoopCalls, Transmitted, Accounted, WireOk, ClaimsInPlan, ByVerdict, Judged, CheckpointOf, OutcomeAccepted, Attempted;
    OutcomeCountsAttempts(plan, v, ledger.db, loc);
  }

  lemma FirstWire(manifest: Manifest, v: Verdicts, wire: seq<Op>)
    requires Distinct(wire) && WireOk(manifest.FirstPlan(), v, wire)
    ensures |wire| <= |manifest.calls| && forall op :: op in wire ==> op.Provider? && op.call in manifest.calls
  {
    WireMembers(manifest.FirstPlan(), v, wire);
    WireBounded(manifest.calls, wire);
  }

  lemma ContinuesAdopted(manifest: Manifest, parent: Db<Op, Rows>, plan: Plan, v: Verdicts)
    requires Continues(manifest, parent, plan)
    ensures forall m :: m in plan.adopted ==>
      && (Passes(plan, v, m) <==> m in PassedRows(manifest.eligible, parent.rows))
      && (!Passes(plan, v, m) <==> m in FailedRows(manifest.eligible, parent.rows))
  {
    hide PlanOk, Attempted, Passes, PassedRows, FailedRows, AdoptedFrom, Terminates;
    forall m | m in plan.adopted
      ensures Passes(plan, v, m) <==> m in PassedRows(manifest.eligible, parent.rows)
      ensures !Passes(plan, v, m) <==> m in FailedRows(manifest.eligible, parent.rows)
    {
      AdoptedVerdict(manifest.eligible, parent.rows, plan, v, m);
    }
  }

  lemma WireMembers(plan: Plan, v: Verdicts, wire: seq<Op>)
    requires WireOk(plan, v, wire)
    ensures forall op :: op in wire ==> op.Provider? && op.call in plan.calls
  {
  }

  lemma ContinuesPlanOk(manifest: Manifest, parent: Db<Op, Rows>, plan: Plan)
    requires Continues(manifest, parent, plan)
    ensures PlanOk(plan)
  {
  }
}
