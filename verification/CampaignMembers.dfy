/** The member loop of the campaign command: adopted, recovered and live members, under
    every fault schedule of the ledger. */
module CampaignMembers {
  import opened Ledger
  import opened Finite
  import opened Scripts
  import opened CampaignRows
  import opened CampaignScript

  type CampaignLedger = EffectLedger<Op, Rows>

  /** The command's local state. */
  datatype Locals = Locals(
    passed: set<string>,
    failed: set<string>,
    digests: map<string, Evidence>,
    evidence: map<string, Evidence>,
    current: Option<string>,
    planStored: bool)

  // ---------------------------------------------------------------- the calls of a member

  /** The member's health call, the first one in the list. */
  method HealthCall(calls: seq<Call>, m: string) returns (h: Call)
    requires OneHealthCall(calls, m)
    ensures h in calls && h.model == m && h.kind == Health
  {
    var i := 0;
    while calls[i].model != m || calls[i].kind != Health
      invariant 0 <= i < |calls|
      invariant forall j :: 0 <= j < i ==> calls[j].model != m || calls[j].kind != Health
      decreases |calls| - i
    {
      if i + 1 == |calls| {
        assert false;
      }
      i := i + 1;
    }
    h := calls[i];
  }

  // ---------------------------------------------------------------- the transport log

  /** A benchmark call on the wire follows an approved health call of the same model. */
  ghost predicate Backed(v: Verdicts, wire: seq<Op>, c: Call)
  {
    c.kind == Benchmark ==>
      exists j :: 0 <= j < |wire| && wire[j].Provider? && wire[j].call.kind == Health
                  && wire[j].call.model == c.model && v.approved(wire[j].call)
  }

  ghost predicate WireOk(plan: Plan, v: Verdicts, wire: seq<Op>)
  {
    forall i :: 0 <= i < |wire| ==>
      wire[i].Provider? && wire[i].call in plan.calls && Backed(v, wire[..i], wire[i].call)
  }

  lemma WireExtended(plan: Plan, v: Verdicts, wire: seq<Op>, c: Call)
    requires WireOk(plan, v, wire) && c in plan.calls && Backed(v, wire, c)
    ensures WireOk(plan, v, wire + [Provider(c)])
  {
    var grown := wire + [Provider(c)];
    forall i | 0 <= i < |grown|
      ensures grown[i].Provider? && grown[i].call in plan.calls && Backed(v, grown[..i], grown[i].call)
    {
      assert grown[..i] == wire[..i];
      if i == |wire| {
        assert wire[..i] == wire;
      }
    }
  }

  // ---------------------------------------------------------------- states of the member loop

  /** What every statement of the member loop keeps. */
  ghost predicate Base(plan: Plan, v: Verdicts, db: Db<Op, Rows>, wire: seq<Op>)
  {
    && db.job == Running
    && |db.claims| >= 1 && db.claims[0] == OutcomeLedger && 0 !in db.receipts
    && db.rows.outcome == None && db.rows.qualifications == [] && db.rows.checkpoint == None
    && LoopRows(db.rows)
    && ClaimsInPlan(plan, db.claims)
    && WireOk(plan, v, wire)
  }

  /** What holds wherever an exception leaves the loop while member `m` is being processed:
      the local verdicts are disjoint and, except perhaps for `m`, match the durable rows. */
  ghost predicate Interrupted(plan: Plan, v: Verdicts, db: Db<Op, Rows>, wire: seq<Op>, loc: Locals, m: string)
  {
    && Base(plan, v, db, wire)
    && m in plan.members
    && loc.passed !! loc.failed
    && (forall x :: x in loc.passed + loc.failed ==> x in plan.members)
    && loc.passed - {m} == PassedRows(plan.members, db.rows) - {m}
    && loc.failed - {m} == FailedRows(plan.members, db.rows) - {m}
    && ProviderSum(plan.members, db.rows) <= |Attempted(db.claims)|
    && TestedSum(plan.members, db.rows) <= |AttemptedBenchmarks(db.claims)|
  }

  /** The verdicts of `done`, in the locals and in the rows alike. */
  ghost predicate Decided(plan: Plan, rows: Rows, loc: Locals, done: set<string>)
  {
    && (forall x :: x in done ==> x in plan.members)
    && loc.passed !! loc.failed && loc.passed + loc.failed == done
    && PassedRows(plan.members, rows) == loc.passed
    && FailedRows(plan.members, rows) == loc.failed
    && RecoveryRows(plan.members, rows) == {}
    && TerminalRows(plan.members, rows) == done
    && done <= loc.digests.Keys
    && (forall c :: c in plan.calls && c.model in done ==> c.id in loc.evidence)
  }

  /** The verdicts are the ones the plan and the evaluators call for, and so is what will be
      said of every member and call. */
  ghost predicate Judged(plan: Plan, v: Verdicts, loc: Locals, done: set<string>)
  {
    && (forall x :: x in done ==> (x in loc.passed <==> Passes(plan, v, x)))
    && Evident(plan, v, loc, done)
  }

  ghost predicate Evident(plan: Plan, v: Verdicts, loc: Locals, done: set<string>)
  {
    && (forall x :: x in done ==> x in loc.digests && loc.digests[x] == MemberResult(x, StageOf(plan, v, x)))
    && (forall x :: x in done ==> Known(plan, v, loc, x))
  }

  /** The evidence of every call of the member. */
  ghost predicate Known(plan: Plan, v: Verdicts, loc: Locals, m: string)
  {
    forall c :: c in plan.calls && c.model == m ==> c.id in loc.evidence && loc.evidence[c.id] == EvidenceOf(plan, v, c)
  }

  /** The evidence of other members' calls stays. */
  ghost predicate Extends(plan: Plan, loc: Locals, next: Locals, m: string)
  {
    forall c :: c in plan.calls && c.model != m && c.id in loc.evidence ==>
      c.id in next.evidence && next.evidence[c.id] == loc.evidence[c.id]
  }

  lemma ExtendsBy(plan: Plan, loc: Locals, next: Locals, m: string, c: Call, e: Evidence)
    requires IdsUnique(plan.calls) && c in plan.calls && c.model == m
    requires next.evidence == loc.evidence[c.id := e]
    ensures Extends(plan, loc, next, m) && loc.evidence.Keys <= next.evidence.Keys
  {
  }

  lemma ExtendsSame(plan: Plan, loc: Locals, next: Locals, m: string)
    requires next.evidence == loc.evidence
    ensures Extends(plan, loc, next, m)
  {
  }

  lemma EvidentKept(plan: Plan, v: Verdicts, loc: Locals, next: Locals, done: set<string>, m: string)
    requires Evident(plan, v, loc, done) && m !in done && Extends(plan, loc, next, m)
    requires forall x :: x in done ==> x in next.digests && next.digests[x] == loc.digests[x]
    ensures Evident(plan, v, next, done)
  {
    hide EvidenceOf, StageOf;
  }

  /** The interrupted member stands locally where its durable rows put it. */
  predicate Consistent(plan: Plan, rows: Rows, loc: Locals, m: string)
  {
    && (m in loc.passed <==> m in PassedRows(plan.members, rows))
    && (m in loc.failed <==> m in FailedRows(plan.members, rows))
  }

  /** Claims and rows belong to `models`; the claims without a receipt are exactly `open`. */
  ghost predicate Owned(db: Db<Op, Rows>, models: set<string>, open: set<nat>)
  {
    && (forall op :: op in db.claims && op != OutcomeLedger ==> op.Model() in models)
    && db.rows.health.Keys <= models && db.rows.benchmark.Keys <= models
    && (forall i :: 0 <= i < |db.claims| ==> (i in db.receipts <==> i !in open))
  }

  /** Calls claimed and calls accounted for in the rows differ by what is in flight. */
  ghost predicate Counted(plan: Plan, db: Db<Op, Rows>, provider: nat, tested: nat)
  {
    && |Attempted(db.claims)| == ProviderSum(plan.members, db.rows) + provider
    && |AttemptedBenchmarks(db.claims)| == TestedSum(plan.members, db.rows) + tested
  }

  /** Between two members. */
  ghost predicate Between(plan: Plan, v: Verdicts, db: Db<Op, Rows>, wire: seq<Op>, loc: Locals, done: set<string>)
  {
    && Base(plan, v, db, wire)
    && Decided(plan, db.rows, loc, done) && Judged(plan, v, loc, done)
    && Owned(db, done, {0})
    && Counted(plan, db, 0, 0)
  }

  datatype Phase = Unstarted | HealthPassed

  predicate InPhase(rows: Rows, m: string, phase: Phase)
  {
    && m !in rows.benchmark
    && if phase == Unstarted then m !in rows.health else rows.HealthIs(m, MemberPassed)
  }

  /** Inside member `m`, whose ledger claim `k` is open. */
  ghost predicate Within(plan: Plan, v: Verdicts, db: Db<Op, Rows>, wire: seq<Op>, loc: Locals,
                         done: set<string>, m: string, k: nat, phase: Phase)
  {
    && Base(plan, v, db, wire)
    && Decided(plan, db.rows, loc, done) && Judged(plan, v, loc, done)
    && Distinct(plan.members) && m in plan.members && m !in done
    && 0 < k < |db.claims| && db.claims[k] == MemberLedger(m)
    && Owned(db, done + {m}, {0, k})
    && InPhase(db.rows, m, phase)
  }

  /** Member `m` is decided and accounted for; only its ledger claim `k` is still open. */
  ghost predicate Closing(plan: Plan, v: Verdicts, db: Db<Op, Rows>, wire: seq<Op>, loc: Locals,
                          done: set<string>, m: string, k: nat)
  {
    && Base(plan, v, db, wire)
    && m in plan.members && m !in done
    && Decided(plan, db.rows, loc, done + {m}) && Judged(plan, v, loc, done + {m})
    && 0 < k < |db.claims| && db.claims[k] == MemberLedger(m)
    && Owned(db, done + {m}, {0, k})
    && Counted(plan, db, 0, 0)
  }

  // ---------------------------------------------------------------- writing a member result

  function Standing(passed: bool): Status
  {
    if passed then MemberPassed else MemberFailed
  }

  function WithResult(db: Db<Op, Rows>, m: string, stage: Kind, result: Result): Db<Op, Rows>
  {
    db.(rows := db.rows.With(m, stage, result))
  }

  /** The result rows of a decided member. An adopted one repeats the parent's results and a
      recovered one is a failed health check, both without a call; a live one accounts for its
      health call and, only if that was approved, for its benchmark calls. */
  ghost predicate Recorded(plan: Plan, v: Verdicts, rows: Rows, m: string)
  {
    if m in plan.adopted then
      var results := plan.adopted[m];
      && (forall i :: 0 <= i < |results| ==> HasResult(rows, m, results[i].stage, Result(Standing(results[i].passed), 0, 0)))
      && (m in rows.benchmark <==> exists i :: 0 <= i < |results| && results[i].stage == Benchmark)
    else if plan.recovered == Some(m) then HasResult(rows, m, Health, Result(MemberFailed, 0, 0)) && m !in rows.benchmark
    else
      var trials := |BenchmarksOf(plan.calls, m)|;
      && HasResult(rows, m, Health, Result(Standing(HealthApproved(plan, v, m)), 0, 1))
      && (m in rows.benchmark <==> HealthApproved(plan, v, m))
      && (m in rows.benchmark ==> rows.benchmark[m] == Result(Standing(Good(plan, v, m)), trials, trials))
  }

  predicate HasResult(rows: Rows, m: string, stage: Kind, result: Result)
  {
    var results := if stage == Health then rows.health else rows.benchmark;
    m in results && results[m] == result
  }

  /** The result rows of other members stay. */
  ghost predicate Elsewhere(before: Rows, after: Rows, m: string)
  {
    forall x :: x != m ==>
      && (x in after.health <==> x in before.health) && (x in after.benchmark <==> x in before.benchmark)
      && (x in before.health ==> after.health[x] == before.health[x])
      && (x in before.benchmark ==> after.benchmark[x] == before.benchmark[x])
  }

  lemma RecordedElsewhere(plan: Plan, v: Verdicts, before: Rows, after: Rows, m: string, x: string)
    requires Recorded(plan, v, before, x) && Elsewhere(before, after, m) && x != m
    ensures Recorded(plan, v, after, x)
  {
    hide BenchmarksOf, HealthApproved, Good;
  }

  lemma RecordedLive(plan: Plan, v: Verdicts, before: Rows, after: Rows, m: string)
    requires plan.Live(m) && m !in before.benchmark
    requires var trials := |BenchmarksOf(plan.calls, m)|;
      after == if HealthApproved(plan, v, m)
        then before.With(m, Health, Result(MemberPassed, 0, 1)).With(m, Benchmark, Result(Standing(Good(plan, v, m)), trials, trials))
        else before.With(m, Health, Result(MemberFailed, 0, 1))
    ensures Recorded(plan, v, after, m) && Elsewhere(before, after, m)
  {
    hide BenchmarksOf, HealthApproved, Good;
  }

  lemma RecordedRecovered(plan: Plan, v: Verdicts, before: Rows, after: Rows, m: string)
    requires m !in plan.adopted && plan.recovered == Some(m) && m !in before.benchmark
    requires after == before.With(m, Health, Result(MemberFailed, 0, 0))
    ensures Recorded(plan, v, after, m) && Elsewhere(before, after, m)
  {
  }

  lemma RecordedAdopted(plan: Plan, v: Verdicts, before: Rows, after: Rows, m: string)
    requires m in plan.adopted && Terminal(plan.adopted[m]) && m !in before.benchmark
    requires after == AdoptedRows(before, m, plan.adopted[m])
    ensures Recorded(plan, v, after, m) && Elsewhere(before, after, m)
  {
    TerminalRowsAre(before, m, plan.adopted[m]);
    hide AdoptedRows;
  }

  lemma TerminalRowsAre(rows: Rows, m: string, results: seq<Verdict>)
    requires Terminal(results)
    ensures |results| == 1 || |results| == 2
    ensures var first := rows.With(m, Health, Result(Standing(results[0].passed), 0, 0));
      AdoptedRows(rows, m, results) ==
        if |results| == 1 then first else first.With(m, Benchmark, Result(Standing(results[1].passed), 0, 0))
  {
    AdoptedNext(rows, m, results[..0], results[0]);
    assert results[..0] == [] && [] + [results[0]] == results[..1];
    if |results| == 2 {
      AdoptedNext(rows, m, results[..1], results[1]);
      assert results[..1] + [results[1]] == results;
    } else {
      assert results[..1] == results;
    }
    hide AdoptedRows;
  }

  function AdoptedRows(rows: Rows, m: string, results: seq<Verdict>): Rows
  {
    if results == [] then rows
    else
      var last := results[|results| - 1];
      AdoptedRows(rows, m, results[..|results| - 1]).With(m, last.stage, AdoptedResult(last))
  }

  lemma WithResultRows(db: Db<Op, Rows>, m: string, stage: Kind, result: Result)
    ensures WithResult(db, m, stage, result).rows == db.rows.With(m, stage, result)
  {
  }

  lemma AdoptedNext(rows: Rows, m: string, results: seq<Verdict>, last: Verdict)
    ensures AdoptedRows(rows, m, []) == rows
    ensures AdoptedRows(rows, m, results + [last]) == AdoptedRows(rows, m, results).With(m, last.stage, AdoptedResult(last))
  {
    assert (results + [last])[..|results|] == results;
  }

  lemma WithinInterrupted(plan: Plan, v: Verdicts, db: Db<Op, Rows>, wire: seq<Op>, loc: Locals,
                          done: set<string>, m: string, k: nat, phase: Phase, provider: nat, tested: nat)
    requires Within(plan, v, db, wire, loc, done, m, k, phase) && Counted(plan, db, provider, tested)
    ensures Interrupted(plan, v, db, wire, loc, m)
  {
  }

  /** The rest of a member's verdict: it is in the locals, in the digests, and each of its
      calls has evidence. */
  ghost predicate Settles(plan: Plan, v: Verdicts, loc: Locals, next: Locals, m: string, passed: bool)
  {
    && next.passed == loc.passed + (if passed then {m} else {})
    && next.failed == loc.failed + (if passed then {} else {m})
    && next.digests == loc.digests[m := MemberResult(m, StageOf(plan, v, m))]
    && loc.evidence.Keys <= next.evidence.Keys
    && Known(plan, v, next, m) && Extends(plan, loc, next, m)
  }

  lemma SettlesJudged(plan: Plan, v: Verdicts, loc: Locals, next: Locals, done: set<string>, m: string, passed: bool)
    requires Judged(plan, v, loc, done) && m !in done && Settles(plan, v, loc, next, m, passed) && passed == Passes(plan, v, m)
    requires m !in loc.passed
    ensures Judged(plan, v, next, done + {m})
  {
    hide Passes, StageOf, EvidenceOf;
    EvidentKept(plan, v, loc, next, done, m);
  }

  lemma SettlesKeys(plan: Plan, v: Verdicts, loc: Locals, next: Locals, m: string, passed: bool)
    requires Settles(plan, v, loc, next, m, passed)
    ensures next.passed == loc.passed + (if passed then {m} else {}) && next.failed == loc.failed + (if passed then {} else {m})
    ensures loc.digests.Keys + {m} <= next.digests.Keys && loc.evidence.Keys <= next.evidence.Keys
    ensures forall c :: c in plan.calls && c.model == m ==> c.id in next.evidence
  {
    hide StageOf, EvidenceOf;
  }

  lemma BaseKept(plan: Plan, v: Verdicts, db: Db<Op, Rows>, wire: seq<Op>, m: string, stage: Kind, result: Result)
    requires Base(plan, v, db, wire) && result.status != MemberRecovery && (stage == Benchmark ==> m in db.rows.health)
    ensures Base(plan, v, WithResult(db, m, stage, result), wire)
  {
  }

  lemma OwnedKept(db: Db<Op, Rows>, models: set<string>, open: set<nat>, m: string, stage: Kind, result: Result)
    requires Owned(db, models, open) && m in models
    ensures Owned(WithResult(db, m, stage, result), models, open)
  {
  }

  lemma CountedDown(plan: Plan, db: Db<Op, Rows>, m: string, stage: Kind, result: Result, provider: nat, tested: nat)
    requires Distinct(plan.members) && m in plan.members
    requires if stage == Health then m !in db.rows.health else m !in db.rows.benchmark
    requires Counted(plan, db, provider + result.provider, tested + result.tested)
    ensures Counted(plan, WithResult(db, m, stage, result), provider, tested)
  {
    SumsGrow(plan.members, db.rows, m, stage, result);
  }

  lemma FailedHealthDecided(plan: Plan, v: Verdicts, rows: Rows, loc: Locals, next: Locals, done: set<string>, m: string, provider: nat)
    requires Decided(plan, rows, loc, done) && m in plan.members && m !in done && InPhase(rows, m, Unstarted)
    requires Settles(plan, v, loc, next, m, false)
    ensures Decided(plan, rows.With(m, Health, Result(MemberFailed, 0, provider)), next, done + {m})
  {
    SettlesKeys(plan, v, loc, next, m, false);
    hide Settles;
    var grown := rows.With(m, Health, Result(MemberFailed, 0, provider));
    FailedViews(plan.members, rows, m, provider);
    hide PassedRows, FailedRows, RecoveryRows, TerminalRows;
  }

  /** What a failed health check of a member without a row changes in the views. */
  lemma FailedViews(members: seq<string>, rows: Rows, m: string, provider: nat)
    requires m in members && InPhase(rows, m, Unstarted)
    ensures var grown := rows.With(m, Health, Result(MemberFailed, 0, provider));
      && PassedRows(members, grown) == PassedRows(members, rows)
      && FailedRows(members, grown) == FailedRows(members, rows) + {m}
      && RecoveryRows(members, grown) == RecoveryRows(members, rows)
      && TerminalRows(members, grown) == TerminalRows(members, rows) + {m}
  {
  }

  lemma BenchmarkDecided(plan: Plan, v: Verdicts, rows: Rows, loc: Locals, next: Locals, done: set<string>, m: string,
                         passed: bool, trials: nat)
    requires Decided(plan, rows, loc, done) && m in plan.members && m !in done && InPhase(rows, m, HealthPassed)
    requires Settles(plan, v, loc, next, m, passed)
    ensures Decided(plan, rows.With(m, Benchmark, Result(Standing(passed), trials, trials)), next, done + {m})
  {
    SettlesKeys(plan, v, loc, next, m, passed);
    hide Settles;
    var grown := rows.With(m, Benchmark, Result(Standing(passed), trials, trials));
    BenchmarkViews(plan.members, rows, m, passed, trials);
    hide PassedRows, FailedRows, RecoveryRows, TerminalRows;
  }

  /** What a first benchmark result of a member with a passed health check changes in the views. */
  lemma BenchmarkViews(members: seq<string>, rows: Rows, m: string, passed: bool, trials: nat)
    requires m in members && InPhase(rows, m, HealthPassed)
    ensures var grown := rows.With(m, Benchmark, Result(Standing(passed), trials, trials));
      && PassedRows(members, grown) == PassedRows(members, rows) + (if passed then {m} else {})
      && FailedRows(members, grown) == FailedRows(members, rows) + (if passed then {} else {m})
      && RecoveryRows(members, grown) == RecoveryRows(members, rows)
      && TerminalRows(members, grown) == TerminalRows(members, rows) + {m}
  {
  }

  lemma PassedHealthUndecided(plan: Plan, rows: Rows, loc: Locals, done: set<string>, m: string, provider: nat)
    requires Decided(plan, rows, loc, done) && m in plan.members && m !in done && InPhase(rows, m, Unstarted)
    ensures Decided(plan, rows.With(m, Health, Result(MemberPassed, 0, provider)), loc, done)
  {
  }

  lemma ViewsElsewhere(members: seq<string>, rows: Rows, m: string, stage: Kind, result: Result)
    ensures PassedRows(members, rows.With(m, stage, result)) - {m} == PassedRows(members, rows) - {m}
    ensures FailedRows(members, rows.With(m, stage, result)) - {m} == FailedRows(members, rows) - {m}
  {
  }

  /** A result of the current member disturbs nothing but that member's standing. */
  lemma ResultInterrupted(plan: Plan, v: Verdicts, db: Db<Op, Rows>, wire: seq<Op>, loc: Locals,
                          done: set<string>, m: string, k: nat, phase: Phase,
                          provider: nat, tested: nat, stage: Kind, result: Result)
    requires Within(plan, v, db, wire, loc, done, m, k, phase)
    requires Counted(plan, db, provider + result.provider, tested + result.tested)
    requires stage == (if phase == Unstarted then Health else Benchmark) && result.status != MemberRecovery
    ensures Interrupted(plan, v, WithResult(db, m, stage, result), wire, loc, m)
  {
    BaseKept(plan, v, db, wire, m, stage, result);
    CountedDown(plan, db, m, stage, result, provider, tested);
    ViewsElsewhere(plan.members, db.rows, m, stage, result);
  }

  /** A failed health check decides the member. */
  lemma HealthFailureDecides(plan: Plan, v: Verdicts, db: Db<Op, Rows>, wire: seq<Op>, loc: Locals, next: Locals,
                             done: set<string>, m: string, k: nat, provider: nat)
    requires Within(plan, v, db, wire, loc, done, m, k, Unstarted) && Counted(plan, db, provider, 0)
    requires Settles(plan, v, loc, next, m, false) && !Passes(plan, v, m)
    ensures Closing(plan, v, WithResult(db, m, Health, Result(MemberFailed, 0, provider)), wire, next, done, m, k)
  {
    var result := Result(MemberFailed, 0, provider);
    BaseKept(plan, v, db, wire, m, Health, result);
    OwnedKept(db, done + {m}, {0, k}, m, Health, result);
    CountedDown(plan, db, m, Health, result, 0, 0);
    OutsideVerdicts(plan, v, db, wire, loc, done, m, k, Unstarted);
    SettlesJudged(plan, v, loc, next, done, m, false);
    hide Judged, Settles, Passes;
    FailedHealthDecided(plan, v, db.rows, loc, next, done, m, provider);
  }

  /** A benchmark result decides the member. */
  lemma BenchmarkDecides(plan: Plan, v: Verdicts, db: Db<Op, Rows>, wire: seq<Op>, loc: Locals, next: Locals,
                         done: set<string>, m: string, k: nat, passed: bool, trials: nat)
    requires Within(plan, v, db, wire, loc, done, m, k, HealthPassed) && Counted(plan, db, trials, trials)
    requires Settles(plan, v, loc, next, m, passed) && passed == Passes(plan, v, m)
    ensures Closing(plan, v, WithResult(db, m, Benchmark, Result(Standing(passed), trials, trials)), wire, next, done, m, k)
  {
    var result := Result(Standing(passed), trials, trials);
    BaseKept(plan, v, db, wire, m, Benchmark, result);
    OwnedKept(db, done + {m}, {0, k}, m, Benchmark, result);
    CountedDown(plan, db, m, Benchmark, result, 0, 0);
    OutsideVerdicts(plan, v, db, wire, loc, done, m, k, HealthPassed);
    SettlesJudged(plan, v, loc, next, done, m, passed);
    hide Judged, Settles, Passes;
    BenchmarkDecided(plan, v, db.rows, loc, next, done, m, passed, trials);
  }

  /** A passed health check leaves the member undecided. */
  lemma HealthPassContinues(plan: Plan, v: Verdicts, db: Db<Op, Rows>, wire: seq<Op>, loc: Locals,
                            done: set<string>, m: string, k: nat, provider: nat)
    requires Within(plan, v, db, wire, loc, done, m, k, Unstarted) && Counted(plan, db, provider, 0)
    ensures Within(plan, v, WithResult(db, m, Health, Result(MemberPassed, 0, provider)), wire, loc, done, m, k, HealthPassed)
    ensures Counted(plan, WithResult(db, m, Health, Result(MemberPassed, 0, provider)), 0, 0)
  {
    var result := Result(MemberPassed, 0, provider);
    BaseKept(plan, v, db, wire, m, Health, result);
    OwnedKept(db, done + {m}, {0, k}, m, Health, result);
    CountedDown(plan, db, m, Health, result, 0, 0);
    PassedHealthUndecided(plan, db.rows, loc, done, m, provider);
  }

  // ---------------------------------------------------------------- memory against rows

  /** Before its verdict a member stands nowhere, in memory and in the rows. */
  lemma WithinConsistent(plan: Plan, v: Verdicts, db: Db<Op, Rows>, wire: seq<Op>, loc: Locals,
                         done: set<string>, m: string, k: nat, phase: Phase)
    requires Within(plan, v, db, wire, loc, done, m, k, phase)
    ensures Consistent(plan, db.rows, loc, m)
  {
    hide Base, Owned, Judged, PassedRows, FailedRows, RecoveryRows, TerminalRows;
  }

  /** A durable row that memory does not know of yet parts them, unless it is a passed health
      check: failed health rows of live, adopted and recovered members and adopted benchmark
      rows alike. */
  lemma WrittenButUnjudged(plan: Plan, v: Verdicts, db: Db<Op, Rows>, wire: seq<Op>, loc: Locals,
                 done: set<string>, m: string, k: nat, phase: Phase, stage: Kind, passed: bool, tested: nat, provider: nat)
    requires Within(plan, v, db, wire, loc, done, m, k, phase)
    requires stage == if phase == Unstarted then Health else Benchmark
    ensures Consistent(plan, WithResult(db, m, stage, Result(Standing(passed), tested, provider)).rows, loc, m)
      <==> stage == Health && passed
  {
    hide Base, Owned, Judged;
  }

  /** So does a verdict that memory knows before the row is there. */
  lemma JudgedButUnwritten(plan: Plan, v: Verdicts, db: Db<Op, Rows>, wire: seq<Op>, loc: Locals,
                    done: set<string>, m: string, k: nat, good: bool, trials: nat)
    requires Within(plan, v, db, wire, loc, done, m, k, HealthPassed)
    ensures !Consistent(plan, db.rows, Judge(loc, m, good), m)
    ensures Consistent(plan, WithResult(db, m, Benchmark, Result(Standing(good), trials, trials)).rows, Judge(loc, m, good), m)
  {
    hide Base, Owned, Judged;
  }

  lemma FailureNoted(plan: Plan, v: Verdicts, db: Db<Op, Rows>, wire: seq<Op>, loc: Locals,
                     done: set<string>, m: string, k: nat, provider: nat)
    requires Within(plan, v, db, wire, loc, done, m, k, Unstarted)
    ensures Consistent(plan, WithResult(db, m, Health, Result(MemberFailed, 0, provider)).rows, Judge(loc, m, false), m)
  {
    hide Base, Owned, Judged;
  }

  lemma ClosingConsistent(plan: Plan, v: Verdicts, db: Db<Op, Rows>, wire: seq<Op>, loc: Locals,
                          done: set<string>, m: string, k: nat)
    requires Closing(plan, v, db, wire, loc, done, m, k)
    ensures Consistent(plan, db.rows, loc, m)
  {
    hide Base, Owned, Judged, PassedRows, FailedRows, RecoveryRows, TerminalRows;
  }

  /** The local verdict of a benchmarked member. */
  function Judge(loc: Locals, m: string, good: bool): Locals
  {
    if good then loc.(passed := loc.passed + {m}) else loc.(failed := loc.failed + {m})
  }

  lemma ConsistentSame(plan: Plan, rows: Rows, loc: Locals, next: Locals, m: string)
    requires Consistent(plan, rows, loc, m) && next.passed == loc.passed && next.failed == loc.failed
    ensures Consistent(plan, rows, next, m)
  {
  }

  // ---------------------------------------------------------------- adopted and recovered members

  /** The stage of the member has a different result already. */
  predicate Drifts(rows: Rows, m: string, stage: Kind, result: Result)
  {
    var results := if stage == Health then rows.health else rows.benchmark;
    m in results && results[m] != result
  }

  /** Writing one member result. A replay of the same result changes nothing; a different one
      for the same stage raises. */
  method Record(ledger: CampaignLedger, m: string, stage: Kind, result: Result) returns (raised: bool)
    requires ledger.Valid()
    modifies ledger`db, ledger`clock
    ensures ledger.Valid()
    ensures ledger.clock == old(ledger.clock) + 1
    ensures raised <==> ledger.faults(old(ledger.clock)) != NoFault || Drifts(old(ledger.db.rows), m, stage, result)
    ensures ledger.db == if ledger.faults(old(ledger.clock)) == Before || Drifts(old(ledger.db.rows), m, stage, result)
                         then old(ledger.db) else WithResult(old(ledger.db), m, stage, result)
    ensures ledger.db == old(ledger.db).(rows := ledger.db.rows)
    ensures (if stage == Health then m !in old(ledger.db.rows.health) else m !in old(ledger.db.rows.benchmark)) ==>
      !Drifts(old(ledger.db.rows), m, stage, result)
  {
    var results := if stage == Health then ledger.db.rows.health else ledger.db.rows.benchmark;
    if m in results && results[m] != result {
      raised := ledger.Step();
      raised := true;
    } else if m in results {
      assert results[m := result] == results;
      raised := ledger.Step();
    } else {
      raised := ledger.Write(ledger.db.rows.With(m, stage, result));
    }
  }

  lemma ReceiptCloses(plan: Plan, v: Verdicts, db: Db<Op, Rows>, wire: seq<Op>, loc: Locals,
                      done: set<string>, m: string, k: nat)
    requires Closing(plan, v, db, wire, loc, done, m, k)
    ensures Between(plan, v, db.Settle(k, Completed), wire, loc, done + {m})
    ensures Interrupted(plan, v, db.Settle(k, Completed), wire, loc, m)
    ensures Interrupted(plan, v, db, wire, loc, m)
    ensures 0 < k < |db.claims| && k !in db.receipts
  {
    hide PassedRows, FailedRows, RecoveryRows, TerminalRows, Judged;
  }

  method CloseMember(ledger: CampaignLedger, plan: Plan, v: Verdicts, loc: Locals,
                     ghost done: set<string>, m: string, k: nat) returns (raised: bool)
    requires ledger.Valid()
    requires Closing(plan, v, ledger.db, ledger.wire, loc, done, m, k)
    modifies ledger
    ensures ledger.Valid() && ledger.clock > old(ledger.clock) && ledger.wire == old(ledger.wire)
    ensures !raised ==> Between(plan, v, ledger.db, ledger.wire, loc, done + {m})
    ensures raised ==> Interrupted(plan, v, ledger.db, ledger.wire, loc, m)
                       && ledger.Faulted(old(ledger.clock), ledger.clock)
    ensures ledger.db.claims == old(ledger.db.claims) && ledger.db.rows == old(ledger.db.rows)
    ensures ledger.Took(old(ledger.clock), 1, raised) && Consistent(plan, ledger.db.rows, loc, m)
  {
    hide Closing, Interrupted, Between, Consistent;
    ClosingConsistent(plan, v, ledger.db, ledger.wire, loc, done, m, k);
    ReceiptCloses(plan, v, ledger.db, ledger.wire, loc, done, m, k);
    raised := ledger.RecordReceipt(k, Completed);
  }

  /** The member's row of the verdict's stage says the verdict. */
  predicate StandsAs(rows: Rows, m: string, verdict: Verdict)
  {
    if verdict.stage == Health then rows.HealthIs(m, Standing(verdict.passed))
    else rows.BenchmarkIs(m, Standing(verdict.passed))
  }

  /** What the command notes after an adopted row. */
  function Noted(loc: Locals, m: string, verdict: Verdict): Locals
  {
    if !verdict.passed then loc.(failed := loc.failed + {m})
    else if verdict.stage == Benchmark then loc.(passed := loc.passed + {m})
    else loc
  }

  function AdoptedResult(verdict: Verdict): Result
  {
    Result(Standing(verdict.passed), 0, 0)
  }

  function AdoptPhase(i: nat): Phase
  {
    if i == 0 then Unstarted else HealthPassed
  }

  /** Where an adoption stands before result `i`. */
  ghost predicate Adopting(plan: Plan, v: Verdicts, db: Db<Op, Rows>, wire: seq<Op>, loc: Locals,
                           done: set<string>, m: string, k: nat, i: nat)
  {
    && m in plan.adopted && Terminal(plan.adopted[m]) && i < |plan.adopted[m]|
    && (forall c :: c in plan.calls ==> c.model != m)
    && Within(plan, v, db, wire, loc, done, m, k, AdoptPhase(i))
    && Counted(plan, db, 0, 0)
  }

  /** An adopted row breaks nothing, and parts memory from the rows unless it is a passed
      health check. */
  lemma AdoptInterrupted(plan: Plan, v: Verdicts, db: Db<Op, Rows>, wire: seq<Op>, loc: Locals,
                         done: set<string>, m: string, k: nat, i: nat)
    requires Adopting(plan, v, db, wire, loc, done, m, k, i)
    ensures var verdict := plan.adopted[m][i];
      var row := WithResult(db, m, verdict.stage, AdoptedResult(verdict));
      && Interrupted(plan, v, db, wire, loc, m) && Consistent(plan, db.rows, loc, m)
      && Interrupted(plan, v, row, wire, loc, m)
      && (Consistent(plan, row.rows, loc, m) <==> verdict.stage == Health && verdict.passed)
  {
    var verdict := plan.adopted[m][i];
    WithinConsistent(plan, v, db, wire, loc, done, m, k, AdoptPhase(i));
    WrittenButUnjudged(plan, v, db, wire, loc, done, m, k, AdoptPhase(i), verdict.stage, verdict.passed, 0, 0);
    hide Within, Counted, Interrupted, Consistent;
    WithinInterrupted(plan, v, db, wire, loc, done, m, k, AdoptPhase(i), 0, 0);
    ResultInterrupted(plan, v, db, wire, loc, done, m, k, AdoptPhase(i), 0, 0, verdict.stage, Result(Standing(verdict.passed), 0, 0));
  }

  lemma AdoptFresh(plan: Plan, v: Verdicts, db: Db<Op, Rows>, wire: seq<Op>, loc: Locals,
                   done: set<string>, m: string, k: nat, i: nat)
    requires Adopting(plan, v, db, wire, loc, done, m, k, i)
    ensures var verdict := plan.adopted[m][i];
      && (if verdict.stage == Health then m !in db.rows.health else m !in db.rows.benchmark)
      && StandsAs(WithResult(db, m, verdict.stage, AdoptedResult(verdict)).rows, m, verdict)
  {
    hide Base, Decided, Judged, Owned, Counted;
  }

  lemma AdoptContinues(plan: Plan, v: Verdicts, db: Db<Op, Rows>, wire: seq<Op>, loc: Locals,
                       done: set<string>, m: string, k: nat, i: nat)
    requires Adopting(plan, v, db, wire, loc, done, m, k, i) && i + 1 < |plan.adopted[m]|
    ensures var verdict := plan.adopted[m][i];
      var row := WithResult(db, m, verdict.stage, AdoptedResult(verdict));
      Noted(loc, m, verdict) == loc && Adopting(plan, v, row, wire, loc, done, m, k, i + 1)
  {
    hide Within, Counted;
    HealthPassContinues(plan, v, db, wire, loc, done, m, k, 0);
  }

  function Digested(loc: Locals, m: string, stage: Kind): Locals
  {
    loc.(digests := loc.digests[m := MemberResult(m, stage)])
  }

  lemma AdoptSettles(plan: Plan, v: Verdicts, loc: Locals, m: string, verdict: Verdict)
    requires forall c :: c in plan.calls ==> c.model != m
    requires verdict.stage == Benchmark || !verdict.passed
    requires verdict.stage == StageOf(plan, v, m)
    ensures Settles(plan, v, loc, Digested(Noted(loc, m, verdict), m, verdict.stage), m, verdict.passed)
  {
    hide StageOf;
  }

  /** The last adopted result decides its member. */
  lemma AdoptFacts(plan: Plan, v: Verdicts, db: Db<Op, Rows>, wire: seq<Op>, loc: Locals,
                   done: set<string>, m: string, k: nat, i: nat)
    requires Adopting(plan, v, db, wire, loc, done, m, k, i) && i + 1 == |plan.adopted[m]|
    ensures var verdict := plan.adopted[m][i];
      && verdict.passed == Passes(plan, v, m)
      && Settles(plan, v, loc, Digested(Noted(loc, m, verdict), m, verdict.stage), m, verdict.passed)
      && Within(plan, v, db, wire, loc, done, m, k, AdoptPhase(i)) && Counted(plan, db, 0, 0)
      && (if i == 0 then verdict == Verdict(Health, false) else verdict == Verdict(Benchmark, verdict.passed))
  {
    hide Within, Counted, Settles, Noted, Digested, HealthApproved, Good;
    AdoptSettles(plan, v, loc, m, plan.adopted[m][i]);
  }

  lemma AdoptDecides(plan: Plan, v: Verdicts, db: Db<Op, Rows>, wire: seq<Op>, loc: Locals,
                     done: set<string>, m: string, k: nat, i: nat)
    requires Adopting(plan, v, db, wire, loc, done, m, k, i) && i + 1 == |plan.adopted[m]|
    ensures var verdict := plan.adopted[m][i];
      (verdict.stage == Benchmark || !verdict.passed) &&
      Closing(plan, v, WithResult(db, m, verdict.stage, AdoptedResult(verdict)), wire,
              Digested(Noted(loc, m, verdict), m, verdict.stage), done, m, k)
  {
    AdoptFacts(plan, v, db, wire, loc, done, m, k, i);
    hide Within, Counted, Closing, Settles, Noted, Digested, Passes, Adopting, WithResult;
    var verdict := plan.adopted[m][i];
    var next := Digested(Noted(loc, m, verdict), m, verdict.stage);
    if i == 0 {
      HealthFailureDecides(plan, v, db, wire, loc, next, done, m, k, 0);
    } else {
      BenchmarkDecides(plan, v, db, wire, loc, next, done, m, k, verdict.passed, 0);
    }
  }

  lemma NotedVerdict(loc: Locals, m: string, verdict: Verdict)
    requires m !in loc.passed && m !in loc.failed && (verdict.stage == Benchmark || !verdict.passed)
    ensures var next := Digested(Noted(loc, m, verdict), m, verdict.stage);
      && next.current == loc.current
      && (m in next.passed <==> verdict.passed) && (m in next.failed <==> !verdict.passed)
      && m in next.digests && next.digests[m] == MemberResult(m, verdict.stage)
  {
  }

  lemma OutsideVerdicts(plan: Plan, v: Verdicts, db: Db<Op, Rows>, wire: seq<Op>, loc: Locals,
                        done: set<string>, m: string, k: nat, phase: Phase)
    requires Within(plan, v, db, wire, loc, done, m, k, phase)
    ensures m !in loc.passed && m !in loc.failed
  {
    hide Base, Owned, Judged, PassedRows, FailedRows, RecoveryRows, TerminalRows;
  }

  /** A continuation adopts the parent's terminal results of a member: a failed health
      check, or a passed one and its benchmark. No claim, no call; the parent's last verdict
      ends up in the rows, the local sets and the digest. */
  method AdoptMember(ledger: CampaignLedger, plan: Plan, v: Verdicts, loc0: Locals,
                     ghost done: set<string>, m: string, k: nat) returns (loc: Locals, raised: bool)
    requires ledger.Valid() && m in plan.adopted && Terminal(plan.adopted[m])
    requires forall c :: c in plan.calls ==> c.model != m
    requires Within(plan, v, ledger.db, ledger.wire, loc0, done, m, k, Unstarted)
    requires Counted(plan, ledger.db, 0, 0)
    modifies ledger
    ensures loc.current == loc0.current
    ensures ledger.Valid() && ledger.clock > old(ledger.clock)
    ensures ledger.wire == old(ledger.wire) && ledger.db.claims == old(ledger.db.claims)
    ensures !raised ==> Between(plan, v, ledger.db, ledger.wire, loc, done + {m})
    ensures !raised ==>
      var last := plan.adopted[m][|plan.adopted[m]| - 1];
      && StandsAs(ledger.db.rows, m, last)
      && (m in loc.passed <==> last.passed) && (m in loc.failed <==> !last.passed)
      && m in loc.digests && loc.digests[m] == MemberResult(m, last.stage)
    ensures !raised ==> ledger.db.rows == AdoptedRows(old(ledger.db.rows), m, plan.adopted[m])
    ensures raised ==> Interrupted(plan, v, ledger.db, ledger.wire, loc, m)
                       && ledger.Faulted(old(ledger.clock), ledger.clock)
    ensures Along(ledger, AdoptScript(plan.adopted[m]), old(ledger.clock), raised, Consistent(plan, ledger.db.rows, loc, m))
  {
    hide *;
    AdoptStart(plan, v, ledger.db, ledger.wire, loc0, done, m, k);
    OutsideVerdicts(plan, v, ledger.db, ledger.wire, loc0, done, m, k, Unstarted);
    var results := plan.adopted[m];
    loc := loc0;
    ghost var start := ledger.clock;
    CleanEmpty(ledger.faults, start);
    var i := 0;
    AdoptedNext(ledger.db.rows, m, [], results[0]);
    assert results[..0] == [];
    while i + 1 < |results|
      invariant 0 <= i < |results| && ledger.Valid() && ledger.wire == old(ledger.wire)
      invariant ledger.clock == start + i && Clean(ledger.faults, start, start + i)
      invariant ledger.db.claims == old(ledger.db.claims) && loc == loc0
      invariant Adopting(plan, v, ledger.db, ledger.wire, loc, done, m, k, i)
      invariant ledger.db.rows == AdoptedRows(old(ledger.db.rows), m, results[..i])
    {
      AdoptFresh(plan, v, ledger.db, ledger.wire, loc, done, m, k, i);
      AdoptInterrupted(plan, v, ledger.db, ledger.wire, loc, done, m, k, i);
      AdoptContinues(plan, v, ledger.db, ledger.wire, loc, done, m, k, i);
      ghost var db := ledger.db;
      raised := Record(ledger, m, results[i].stage, AdoptedResult(results[i]));
      if raised {
        AdoptSites(results, i, ledger.faults(start + i), Consistent(plan, ledger.db.rows, loc, m));
        AlongFault(ledger, AdoptScript(results), start, i, Consistent(plan, ledger.db.rows, loc, m));
        return;
      }
      CleanNext(ledger.faults, start, start + i);
      WithResultRows(db, m, results[i].stage, AdoptedResult(results[i]));
      AdoptedNext(old(ledger.db.rows), m, results[..i], results[i]);
      assert results[..i] + [results[i]] == results[..i + 1];
      loc := Noted(loc, m, results[i]);
      i := i + 1;
    }
    AdoptedNext(old(ledger.db.rows), m, results[..i], results[i]);
    assert results[..i] + [results[i]] == results;
    loc, raised := AdoptLast(ledger, plan, v, loc0, done, m, k, i, start);
  }

  lemma AdoptStart(plan: Plan, v: Verdicts, db: Db<Op, Rows>, wire: seq<Op>, loc: Locals,
                   done: set<string>, m: string, k: nat)
    requires m in plan.adopted && Terminal(plan.adopted[m])
    requires forall c :: c in plan.calls ==> c.model != m
    requires Within(plan, v, db, wire, loc, done, m, k, Unstarted) && Counted(plan, db, 0, 0)
    ensures plan.adopted[m] != [] && Adopting(plan, v, db, wire, loc, done, m, k, 0)
  {
    hide Within, Counted;
  }

  /** The last adopted result decides the member. */
  method AdoptLast(ledger: CampaignLedger, plan: Plan, v: Verdicts, loc0: Locals,
                   ghost done: set<string>, m: string, k: nat, i: nat, ghost start: nat) returns (loc: Locals, raised: bool)
    requires ledger.Valid() && m in plan.adopted && Adopting(plan, v, ledger.db, ledger.wire, loc0, done, m, k, i)
    requires i + 1 == |plan.adopted[m]| && m !in loc0.passed && m !in loc0.failed
    requires ledger.clock == start + i && Clean(ledger.faults, start, ledger.clock)
    modifies ledger
    ensures loc.current == loc0.current
    ensures ledger.Valid() && ledger.clock > old(ledger.clock)
    ensures ledger.wire == old(ledger.wire) && ledger.db.claims == old(ledger.db.claims)
    ensures !raised ==> Between(plan, v, ledger.db, ledger.wire, loc, done + {m})
    ensures !raised ==>
      var last := plan.adopted[m][i];
      && StandsAs(ledger.db.rows, m, last)
      && (m in loc.passed <==> last.passed) && (m in loc.failed <==> !last.passed)
      && m in loc.digests && loc.digests[m] == MemberResult(m, last.stage)
      && ledger.db.rows == old(ledger.db.rows).With(m, last.stage, AdoptedResult(last))
    ensures raised ==> Interrupted(plan, v, ledger.db, ledger.wire, loc, m)
                       && ledger.Faulted(start, ledger.clock)
    ensures Along(ledger, AdoptScript(plan.adopted[m]), start, raised, Consistent(plan, ledger.db.rows, loc, m))
  {
    hide *;
    var results := plan.adopted[m];
    loc := loc0;
    AdoptFresh(plan, v, ledger.db, ledger.wire, loc, done, m, k, i);
    AdoptInterrupted(plan, v, ledger.db, ledger.wire, loc, done, m, k, i);
    AdoptDecides(plan, v, ledger.db, ledger.wire, loc, done, m, k, i);
    NotedVerdict(loc, m, results[i]);
    WithResultRows(ledger.db, m, results[i].stage, AdoptedResult(results[i]));
    raised := Record(ledger, m, results[i].stage, AdoptedResult(results[i]));
    if raised {
      AdoptSites(results, i, ledger.faults(start + i), Consistent(plan, ledger.db.rows, loc, m));
      AlongFault(ledger, AdoptScript(results), start, i, Consistent(plan, ledger.db.rows, loc, m));
      return;
    }
    CleanNext(ledger.faults, start, start + i);
    loc := Digested(Noted(loc, m, results[i]), m, results[i].stage);
    raised := CloseMember(ledger, plan, v, loc, done, m, k);
    AdoptCloses(results);
    AlongLast(ledger, AdoptScript(results), start, raised, Consistent(plan, ledger.db.rows, loc, m));
  }

  lemma AdoptSites(results: seq<Verdict>, i: nat, fault: Fault, consistent: bool)
    requires i < |results| && fault != NoFault
    requires fault == Before ==> consistent
    requires fault == After ==> (consistent <==> results[i].stage == Health && results[i].passed)
    ensures consistent <==> !Critical(AdoptScript(results)[i], fault)
  {
  }

  lemma AdoptCloses(results: seq<Verdict>)
    ensures AdoptScript(results)[|results|] == Plain
  {
  }

  /** What recovering a member relies on and what its row will leave behind. */
  lemma RecoverReady(plan: Plan, v: Verdicts, db: Db<Op, Rows>, wire: seq<Op>, loc: Locals, next: Locals,
                     done: set<string>, m: string, k: nat)
    requires forall c :: c in plan.calls ==> c.model != m
    requires m !in plan.adopted && plan.recovered == Some(m)
    requires Within(plan, v, db, wire, loc, done, m, k, Unstarted) && Counted(plan, db, 0, 0)
    requires next == loc.(failed := loc.failed + {m}, digests := loc.digests[m := MemberResult(m, Health)])
    ensures m !in db.rows.health
    ensures var row := WithResult(db, m, Health, Result(MemberFailed, 0, 0));
      && Interrupted(plan, v, db, wire, loc, m) && Consistent(plan, db.rows, loc, m)
      && Interrupted(plan, v, row, wire, loc, m) && !Consistent(plan, row.rows, loc, m)
      && Closing(plan, v, row, wire, next, done, m, k)
  {
    WithinConsistent(plan, v, db, wire, loc, done, m, k, Unstarted);
    WrittenButUnjudged(plan, v, db, wire, loc, done, m, k, Unstarted, Health, false, 0, 0);
    hide Base, Decided, Judged, Owned, Counted, Interrupted, Closing, Consistent;
    WithinInterrupted(plan, v, db, wire, loc, done, m, k, Unstarted, 0, 0);
    ResultInterrupted(plan, v, db, wire, loc, done, m, k, Unstarted, 0, 0, Health, Result(MemberFailed, 0, 0));
    RecoverSettles(plan, v, loc, next, m);
    HealthFailureDecides(plan, v, db, wire, loc, next, done, m, k, 0);
  }

  lemma RecoverSettles(plan: Plan, v: Verdicts, loc: Locals, next: Locals, m: string)
    requires forall c :: c in plan.calls ==> c.model != m
    requires m !in plan.adopted && plan.recovered == Some(m)
    requires next == loc.(failed := loc.failed + {m}, digests := loc.digests[m := MemberResult(m, Health)])
    ensures Settles(plan, v, loc, next, m, false) && !Passes(plan, v, m)
  {
  }

  /** A continuation projects the parent's one unprojected health effect as a failure. */
  method RecoverMember(ledger: CampaignLedger, plan: Plan, v: Verdicts, loc0: Locals,
                       ghost done: set<string>, m: string, k: nat) returns (loc: Locals, raised: bool)
    requires ledger.Valid()
    requires forall c :: c in plan.calls ==> c.model != m
    requires m !in plan.adopted && plan.recovered == Some(m)
    requires Within(plan, v, ledger.db, ledger.wire, loc0, done, m, k, Unstarted)
    requires Counted(plan, ledger.db, 0, 0)
    modifies ledger
    ensures loc.current == loc0.current
    ensures ledger.Valid() && ledger.clock > old(ledger.clock)
    ensures ledger.wire == old(ledger.wire) && ledger.db.claims == old(ledger.db.claims)
    ensures !raised ==> Between(plan, v, ledger.db, ledger.wire, loc, done + {m})
    ensures !raised ==> m in loc.failed && ledger.db.rows == old(ledger.db.rows).With(m, Health, Result(MemberFailed, 0, 0))
    ensures raised ==> Interrupted(plan, v, ledger.db, ledger.wire, loc, m)
                       && ledger.Faulted(old(ledger.clock), ledger.clock)
    ensures Along(ledger, [NotedAfter, Plain], old(ledger.clock), raised, Consistent(plan, ledger.db.rows, loc, m))
  {
    hide Within, Counted, Interrupted, Between, Closing, Consistent;
    loc := loc0;
    var next := loc.(failed := loc.failed + {m}, digests := loc.digests[m := MemberResult(m, Health)]);
    ghost var start := ledger.clock;
    RecoverReady(plan, v, ledger.db, ledger.wire, loc, next, done, m, k);
    raised := Record(ledger, m, Health, Result(MemberFailed, 0, 0));
    if raised {
      LosesAt(ledger.faults, [NotedAfter, Plain], start, 0);
      return;
    }
    loc := next;
    raised := CloseMember(ledger, plan, v, loc, done, m, k);
    if raised {
      LosesAt(ledger.faults, [NotedAfter, Plain], start, 1);
    }
  }

  // ---------------------------------------------------------------- a live member

  /** Claims, receipts and wire may grow on the way to an exception; the verdicts stay. */
  lemma InterruptedLater(plan: Plan, v: Verdicts, db: Db<Op, Rows>, wire: seq<Op>, loc: Locals, m: string,
                         later: Db<Op, Rows>, laterWire: seq<Op>, more: seq<Op>)
    requires Interrupted(plan, v, db, wire, loc, m)
    requires later.claims == db.claims + more && ClaimsInPlan(plan, more)
    requires later.job == Running && later.rows == db.rows && 0 !in later.receipts
    requires WireOk(plan, v, laterWire)
    ensures Interrupted(plan, v, later, laterWire, loc, m)
  {
    AttemptedMonotone(db.claims, more);
    hide Attempted, AttemptedBenchmarks, ProviderSum, TestedSum, PassedRows, FailedRows, WireOk;
  }

  lemma InterruptedStanding(plan: Plan, v: Verdicts, db: Db<Op, Rows>, wire: seq<Op>, loc: Locals, next: Locals, m: string)
    requires Interrupted(plan, v, db, wire, loc, m)
    requires next.passed !! next.failed
    requires next.passed - {m} == loc.passed - {m} && next.failed - {m} == loc.failed - {m}
    ensures Interrupted(plan, v, db, wire, next, m)
  {
    forall x | x in next.passed + next.failed
      ensures x in plan.members
    {
      if x != m {
        assert x in next.passed - {m} || x in next.failed - {m};
      }
    }
    hide Base, ProviderSum, TestedSum;
  }

  /** The calls of `m` outside `ran` have claimed nothing yet. */
  ghost predicate Unclaimed(claims: seq<Op>, m: string, ran: set<Call>)
  {
    forall c: Call :: c.model == m && c !in ran ==>
      Provider(c) !in claims && Tested(c) !in claims && Verifier(c) !in claims
  }

  /** A health call of `m` went out and was approved. */
  ghost predicate Approved(v: Verdicts, wire: seq<Op>, m: string)
  {
    exists j :: 0 <= j < |wire| && wire[j].Provider? && wire[j].call.kind == Health
                && wire[j].call.model == m && v.approved(wire[j].call)
  }

  /** A claim of the current member together with its completed receipt. */
  lemma ClaimSettled(plan: Plan, v: Verdicts, db: Db<Op, Rows>, wire: seq<Op>, loc: Locals,
                     done: set<string>, m: string, k: nat, phase: Phase, op: Op)
    requires db.WellFormed()
    requires Within(plan, v, db, wire, loc, done, m, k, phase)
    requires op != OutcomeLedger && op.Model() == m && op !in db.claims
    requires op.Provider? ==> op.call in plan.calls
    ensures Within(plan, v, db.Claim(op).Settle(|db.claims|, Completed), wire, loc, done, m, k, phase)
    ensures db.Claim(op).Settle(|db.claims|, Completed).WellFormed()
  {
    hide Decided, WireOk;
  }

  lemma WithinRewired(plan: Plan, v: Verdicts, db: Db<Op, Rows>, wire: seq<Op>, later: seq<Op>, loc: Locals, next: Locals,
                      done: set<string>, m: string, k: nat, phase: Phase)
    requires Within(plan, v, db, wire, loc, done, m, k, phase)
    requires WireOk(plan, v, later)
    requires next == loc.(evidence := next.evidence) && loc.evidence.Keys <= next.evidence.Keys && Extends(plan, loc, next, m)
    ensures Within(plan, v, db, later, next, done, m, k, phase)
  {
    EvidentKept(plan, v, loc, next, done, m);
    hide Evident, WireOk, PassedRows, FailedRows, RecoveryRows, TerminalRows;
  }

  /** One provider call of the current member, health or benchmark. */
  method CallProvider(ledger: CampaignLedger, plan: Plan, v: Verdicts, loc: Locals, m: string, c: Call)
    returns (raised: bool)
    requires ledger.Valid() && c in plan.calls && Backed(v, ledger.wire, c)
    requires Interrupted(plan, v, ledger.db, ledger.wire, loc, m)
    modifies ledger
    ensures ledger.Valid() && ledger.clock > old(ledger.clock)
    ensures Interrupted(plan, v, ledger.db, ledger.wire, loc, m)
    ensures raised && Provider(c) !in old(ledger.db.claims) ==> ledger.Faulted(old(ledger.clock), ledger.clock)
    ensures Provider(c) !in old(ledger.db.claims) ==> ledger.Took(old(ledger.clock), 5, raised)
    ensures Transmitted(old(ledger.wire), ledger.wire, [Provider(c)], raised)
    ensures ledger.db.rows == old(ledger.db.rows)
    ensures !raised ==>
      && Provider(c) !in old(ledger.db.claims)
      && ledger.db == old(ledger.db).Claim(Provider(c)).Settle(|old(ledger.db.claims)|, Completed)
      && ledger.wire == old(ledger.wire) + [Provider(c)]
  {
    ghost var db := ledger.db;
    ghost var wire := ledger.wire;
    WireExtended(plan, v, wire, c);
    var reply := ledger.Invoke(Provider(c));
    raised := reply.Raised?;
    ghost var more := ledger.db.claims[|db.claims|..];
    assert ledger.db.claims == db.claims + more;
    assert more == [] || more == [Provider(c)];
    InterruptedLater(plan, v, db, wire, loc, m, ledger.db, ledger.wire, more);
  }

  /** A claim of the current member that is not a provider call. */
  method ClaimOwn(ledger: CampaignLedger, plan: Plan, v: Verdicts, loc: Locals, m: string, op: Op)
    returns (r: Reply<nat>)
    requires ledger.Valid() && !op.Provider? && Interrupted(plan, v, ledger.db, ledger.wire, loc, m)
    modifies ledger
    ensures ledger.Valid() && ledger.clock > old(ledger.clock) && ledger.wire == old(ledger.wire)
    ensures Interrupted(plan, v, ledger.db, ledger.wire, loc, m)
    ensures r.Raised? && op !in old(ledger.db.claims) ==> ledger.Faulted(old(ledger.clock), ledger.clock)
    ensures op !in old(ledger.db.claims) ==> ledger.Took(old(ledger.clock), 1, r.Raised?)
    ensures ledger.db.rows == old(ledger.db.rows)
    ensures r.Ok? ==> r.value == |old(ledger.db.claims)| && op !in old(ledger.db.claims)
                      && ledger.db == old(ledger.db).Claim(op)
  {
    ghost var db := ledger.db;
    r := ledger.ClaimEffect(op);
    ghost var more := ledger.db.claims[|db.claims|..];
    assert ledger.db.claims == db.claims + more && (more == [] || more == [op]);
    InterruptedLater(plan, v, db, ledger.wire, loc, m, ledger.db, ledger.wire, more);
  }

  /** A completed receipt for one of the current member's claims. */
  method SettleOwn(ledger: CampaignLedger, plan: Plan, v: Verdicts, loc: Locals, m: string, claim: nat)
    returns (raised: bool)
    requires ledger.Valid() && Interrupted(plan, v, ledger.db, ledger.wire, loc, m)
    requires 0 < claim < |ledger.db.claims| && claim !in ledger.db.receipts
    modifies ledger
    ensures ledger.Valid() && ledger.clock > old(ledger.clock) && ledger.wire == old(ledger.wire)
    ensures Interrupted(plan, v, ledger.db, ledger.wire, loc, m)
    ensures raised ==> ledger.Faulted(old(ledger.clock), ledger.clock)
    ensures ledger.Took(old(ledger.clock), 1, raised) && ledger.db.rows == old(ledger.db.rows)
    ensures !raised ==> ledger.db == old(ledger.db).Settle(claim, Completed)
  {
    ghost var db := ledger.db;
    raised := ledger.RecordReceipt(claim, Completed);
    assert ledger.db.claims == db.claims + [];
    InterruptedLater(plan, v, db, ledger.wire, loc, m, ledger.db, ledger.wire, []);
  }

  /** The second half of a trial: tested receipt, verifier claim and receipt, trial row. */
  method FinishTrial(ledger: CampaignLedger, plan: Plan, v: Verdicts, loc: Locals, m: string, c: Call, tested: nat)
    returns (raised: bool)
    requires ledger.Valid() && Interrupted(plan, v, ledger.db, ledger.wire, loc, m)
    requires 0 < tested < |ledger.db.claims| && tested !in ledger.db.receipts
    requires Verifier(c) !in ledger.db.claims
    modifies ledger
    ensures ledger.Valid() && ledger.clock > old(ledger.clock) && ledger.wire == old(ledger.wire)
    ensures Interrupted(plan, v, ledger.db, ledger.wire, loc, m)
    ensures raised ==> ledger.Faulted(old(ledger.clock), ledger.clock)
    ensures ledger.Took(old(ledger.clock), 4, raised) && ledger.db.rows == old(ledger.db.rows)
    ensures !raised ==>
      ledger.db == old(ledger.db).Settle(tested, Completed).Claim(Verifier(c)).Settle(|old(ledger.db.claims)|, Completed)
  {
    hide Interrupted;
    raised := SettleOwn(ledger, plan, v, loc, m, tested);
    if raised {
      return;
    }
    var verifier := ClaimOwn(ledger, plan, v, loc, m, Verifier(c));
    if verifier.Raised? {
      return true;
    }
    raised := SettleOwn(ledger, plan, v, loc, m, verifier.value);
    if raised {
      return;
    }
    raised := ledger.Step();
  }

  /** What a whole trial leaves in the ledger. */
  function AfterTrial(db: Db<Op, Rows>, c: Call): Db<Op, Rows>
  {
    var a := |db.claims|;
    db.(claims := db.claims + [Tested(c), Provider(c), Verifier(c)],
        receipts := db.receipts[a + 1 := Completed][a := Completed][a + 2 := Completed])
  }

  lemma TrialCounted(plan: Plan, db: Db<Op, Rows>, c: Call, n: nat)
    requires IdsUnique(plan.calls) && ClaimsInPlan(plan, db.claims)
    requires c in plan.calls && c.kind == Benchmark && Provider(c) !in db.claims
    requires Counted(plan, db, n, n)
    ensures Counted(plan, AfterTrial(db, c), n + 1, n + 1)
  {
    hide IdsUnique, Attempted, AttemptedBenchmarks, ProviderSum, TestedSum;
    var started := db.claims + [Tested(c)];
    var called := started + [Provider(c)];
    AttemptedKept(db.claims, Tested(c));
    AttemptedGrows(plan, started, c);
    AttemptedKept(called, Verifier(c));
    assert AfterTrial(db, c).claims == called + [Verifier(c)];
  }

  lemma TrialUnclaimed(claims: seq<Op>, m: string, c: Call, ran: set<Call>)
    requires Unclaimed(claims, m, ran)
    ensures Unclaimed(claims + [Tested(c), Provider(c), Verifier(c)], m, ran + {c})
  {
  }

  lemma TrialWithin(plan: Plan, v: Verdicts, db: Db<Op, Rows>, wire: seq<Op>, later: seq<Op>, loc: Locals, next: Locals,
                    done: set<string>, m: string, k: nat, c: Call)
    requires db.WellFormed() && Within(plan, v, db, wire, loc, done, m, k, HealthPassed)
    requires c in plan.calls && c.model == m
    requires Tested(c) !in db.claims && Provider(c) !in db.claims && Verifier(c) !in db.claims
    requires WireOk(plan, v, later)
    requires next == loc.(evidence := next.evidence) && loc.evidence.Keys <= next.evidence.Keys && Extends(plan, loc, next, m)
    ensures Within(plan, v, AfterTrial(db, c), later, next, done, m, k, HealthPassed)
  {
    hide Within, WireOk;
    var a := |db.claims|;
    var first := db.Claim(Tested(c)).Settle(a, Completed);
    var second := first.Claim(Provider(c)).Settle(a + 1, Completed);
    var third := second.Claim(Verifier(c)).Settle(a + 2, Completed);
    ClaimSettled(plan, v, db, wire, loc, done, m, k, HealthPassed, Tested(c));
    ClaimSettled(plan, v, first, wire, loc, done, m, k, HealthPassed, Provider(c));
    ClaimSettled(plan, v, second, wire, loc, done, m, k, HealthPassed, Verifier(c));
    assert third.claims == AfterTrial(db, c).claims;
    assert third.receipts == AfterTrial(db, c).receipts;
    WithinRewired(plan, v, third, wire, later, loc, next, done, m, k, HealthPassed);
  }

  /** Everything a trial relies on and everything it will leave behind. */
  lemma TrialReady(plan: Plan, v: Verdicts, db: Db<Op, Rows>, wire: seq<Op>, loc: Locals, next: Locals,
                   done: set<string>, m: string, k: nat, c: Call, ran: set<Call>, n: nat)
    requires db.WellFormed() && IdsUnique(plan.calls)
    requires Within(plan, v, db, wire, loc, done, m, k, HealthPassed)
    requires c in plan.calls && c.model == m && c.kind == Benchmark && c !in ran
    requires Counted(plan, db, n, n) && Unclaimed(db.claims, m, ran) && Approved(v, wire, m)
    requires next == loc.(evidence := loc.evidence[c.id := ReceiptEvidence(c.id)])
    ensures Interrupted(plan, v, db, wire, loc, m)
    ensures |db.claims| > 0 && loc.passed !! loc.failed
    ensures (forall i :: i in db.receipts ==> i < |db.claims|)
    ensures Tested(c) !in db.claims && Provider(c) !in db.claims && Verifier(c) !in db.claims
    ensures Backed(v, wire, c) && Approved(v, wire + [Provider(c)], m)
    ensures Within(plan, v, AfterTrial(db, c), wire + [Provider(c)], next, done, m, k, HealthPassed)
    ensures Counted(plan, AfterTrial(db, c), n + 1, n + 1)
    ensures Unclaimed(AfterTrial(db, c).claims, m, ran + {c})
    ensures Extends(plan, loc, next, m)
  {
    ExtendsBy(plan, loc, next, m, c, ReceiptEvidence(c.id));
    hide Decided, Owned, Counted, Interrupted, IdsUnique, WireOk, Extends, Judged;
    WithinInterrupted(plan, v, db, wire, loc, done, m, k, HealthPassed, n, n);
    TrialCounted(plan, db, c, n);
    WireExtended(plan, v, wire, c);
    TrialUnclaimed(db.claims, m, c, ran);
    TrialWithin(plan, v, db, wire, wire + [Provider(c)], loc, next, done, m, k, c);
    var j :| 0 <= j < |wire| && wire[j].Provider? && wire[j].call.kind == Health
             && wire[j].call.model == m && v.approved(wire[j].call);
    assert (wire + [Provider(c)])[j] == wire[j];
    assert loc.passed !! loc.failed by {
      VerdictsDisjoint(plan, db.rows, loc, done);
    }
  }

  lemma VerdictsDisjoint(plan: Plan, rows: Rows, loc: Locals, done: set<string>)
    requires Decided(plan, rows, loc, done)
    ensures loc.passed !! loc.failed
  {
  }

  /** One benchmark trial: tested claim, provider call, tested receipt, verifier claim and
      receipt, trial row. */
  method RunTrial(ledger: CampaignLedger, plan: Plan, v: Verdicts, loc0: Locals,
                  ghost done: set<string>, m: string, k: nat, c: Call, ghost ran: set<Call>, ghost n: nat)
    returns (loc: Locals, raised: bool)
    requires ledger.Valid() && IdsUnique(plan.calls)
    requires c in plan.calls && c.model == m && c.kind == Benchmark && c !in ran
    requires Within(plan, v, ledger.db, ledger.wire, loc0, done, m, k, HealthPassed)
    requires Counted(plan, ledger.db, n, n) && Unclaimed(ledger.db.claims, m, ran)
    requires Approved(v, ledger.wire, m)
    modifies ledger
    ensures loc == loc0 || loc == loc0.(evidence := loc0.evidence[c.id := ReceiptEvidence(c.id)])
    ensures ledger.Valid() && ledger.clock > old(ledger.clock)
    ensures raised ==> Interrupted(plan, v, ledger.db, ledger.wire, loc, m)
                       && ledger.Faulted(old(ledger.clock), ledger.clock)
    ensures !raised ==>
      && loc == loc0.(evidence := loc0.evidence[c.id := ReceiptEvidence(c.id)])
      && Within(plan, v, ledger.db, ledger.wire, loc, done, m, k, HealthPassed)
      && Counted(plan, ledger.db, n + 1, n + 1) && Unclaimed(ledger.db.claims, m, ran + {c})
      && Approved(v, ledger.wire, m)
      && ledger.db == AfterTrial(old(ledger.db), c) && ledger.wire == old(ledger.wire) + [Provider(c)]
    ensures Transmitted(old(ledger.wire), ledger.wire, [Provider(c)], raised)
    ensures ledger.Took(old(ledger.clock), 11, raised)
    ensures raised ==> Consistent(plan, ledger.db.rows, loc, m)
  {
    hide Interrupted, Within, Counted, IdsUnique, Backed, Approved, Unclaimed, Consistent, PassedRows, FailedRows;
    loc := loc0;
    WithinConsistent(plan, v, ledger.db, ledger.wire, loc0, done, m, k, HealthPassed);
    ghost var db := ledger.db;
    TrialReady(plan, v, db, ledger.wire, loc0, loc0.(evidence := loc0.evidence[c.id := ReceiptEvidence(c.id)]),
               done, m, k, c, ran, n);
    var tested := ClaimOwn(ledger, plan, v, loc, m, Tested(c));
    if tested.Raised? {
      return loc, true;
    }
    raised := CallProvider(ledger, plan, v, loc, m, c);
    if raised {
      return;
    }
    raised := ledger.Step();
    if raised {
      return;
    }
    loc := loc.(evidence := loc.evidence[c.id := ReceiptEvidence(c.id)]);
    InterruptedStanding(plan, v, ledger.db, ledger.wire, loc0, loc, m);
    ConsistentSame(plan, db.rows, loc0, loc, m);
    raised := FinishTrial(ledger, plan, v, loc, m, c, tested.value);
    assert !raised ==> ledger.db.claims == AfterTrial(db, c).claims;
    assert !raised ==> ledger.db.receipts == AfterTrial(db, c).receipts;
  }

  /** Every claimed provider call has been sent. */
  ghost predicate AllSent(claims: seq<Op>, wire: seq<Op>)
  {
    forall op :: op in claims && op.Provider? ==> op in wire
  }

  lemma SentWith(claims: seq<Op>, wire: seq<Op>, more: seq<Op>, c: Call)
    requires AllSent(claims, wire) && forall op :: op in more && op.Provider? ==> op == Provider(c)
    ensures AllSent(claims + more, wire + [Provider(c)])
  {
  }

  /** The receipt evidence of these calls is known. */
  ghost predicate Received(loc: Locals, ran: set<Call>)
  {
    forall c :: c in ran ==> c.id in loc.evidence && loc.evidence[c.id] == ReceiptEvidence(c.id)
  }

  lemma ReceivedNext(loc: Locals, ran: set<Call>, c: Call)
    requires Received(loc, ran)
    ensures Received(loc.(evidence := loc.evidence[c.id := ReceiptEvidence(c.id)]), ran + {c})
  {
  }

  lemma ReceivedFirst(loc: Locals, h: Call)
    ensures Received(loc.(evidence := loc.evidence[h.id := ReceiptEvidence(h.id)]), {h})
  {
  }

  lemma ReceivedStill(loc: Locals, next: Locals, ran: set<Call>)
    requires Received(loc, ran) && next.evidence == loc.evidence
    ensures Received(next, ran)
  {
  }

  /** The trials of a member, one after the other. */
  method RunTrials(ledger: CampaignLedger, plan: Plan, v: Verdicts, loc0: Locals,
                   ghost done: set<string>, m: string, k: nat, benchmarks: seq<Call>, ghost h: Call)
    returns (loc: Locals, raised: bool)
    requires ledger.Valid() && IdsUnique(plan.calls) && h.kind == Health && Received(loc0, {h})
    requires Distinct(benchmarks) && forall c :: c in benchmarks ==> c in plan.calls && c.model == m && c.kind == Benchmark
    requires Within(plan, v, ledger.db, ledger.wire, loc0, done, m, k, HealthPassed)
    requires Counted(plan, ledger.db, 0, 0) && Unclaimed(ledger.db.claims, m, {h})
    requires Approved(v, ledger.wire, m)
    modifies ledger
    ensures loc == loc0.(evidence := loc.evidence) && loc0.evidence.Keys <= loc.evidence.Keys
    ensures ledger.Valid() && ledger.clock >= old(ledger.clock)
    ensures !raised ==>
      && Within(plan, v, ledger.db, ledger.wire, loc, done, m, k, HealthPassed)
      && Counted(plan, ledger.db, |benchmarks|, |benchmarks|)
      && Received(loc, {h} + set j | 0 <= j < |benchmarks| :: benchmarks[j])
      && ledger.db.rows == old(ledger.db.rows)
    ensures !raised && AllSent(old(ledger.db.claims), old(ledger.wire)) ==> AllSent(ledger.db.claims, ledger.wire)
    ensures raised ==> Interrupted(plan, v, ledger.db, ledger.wire, loc, m)
                       && Consistent(plan, ledger.db.rows, loc, m)
                       && ledger.Faulted(old(ledger.clock), ledger.clock)
    ensures Transmitted(old(ledger.wire), ledger.wire, Sent(benchmarks), raised)
    ensures ledger.Took(old(ledger.clock), 11 * |benchmarks|, raised)
  {
    hide *;
    loc := loc0;
    ghost var start := ledger.clock;
    var i := 0;
    ghost var ran := {h};
    CleanEmpty(ledger.faults, start);
    SentNone(benchmarks);
    TransmittedNone(ledger.wire, []);
    while i < |benchmarks|
      invariant 0 <= i <= |benchmarks|
      invariant ran == {h} + set j | 0 <= j < i :: benchmarks[j]
      invariant ledger.Valid() && ledger.clock == start + 11 * i && Clean(ledger.faults, start, start + 11 * i)
      invariant Transmitted(old(ledger.wire), ledger.wire, Sent(benchmarks[..i]), false)
      invariant Within(plan, v, ledger.db, ledger.wire, loc, done, m, k, HealthPassed)
      invariant Counted(plan, ledger.db, i, i) && Unclaimed(ledger.db.claims, m, ran)
      invariant Approved(v, ledger.wire, m) && ledger.db.rows == old(ledger.db.rows)
      invariant loc == loc0.(evidence := loc.evidence)
      invariant Received(loc, ran)
      invariant AllSent(old(ledger.db.claims), old(ledger.wire)) ==> AllSent(ledger.db.claims, ledger.wire)
      invariant loc0.evidence.Keys <= loc.evidence.Keys
    {
      NotRunYet(benchmarks, i, h);
      ghost var sent := ledger.wire;
      ghost var before := loc;
      ghost var db := ledger.db;
      loc, raised := RunTrial(ledger, plan, v, loc, done, m, k, benchmarks[i], ran, i);
      if raised {
        TookPart(ledger, start, 11 * i, 11, 11 * |benchmarks|);
        SentPart(benchmarks, i);
        TransmittedThen(old(ledger.wire), sent, ledger.wire, Sent(benchmarks[..i]), [Provider(benchmarks[i])], true);
        TransmittedPart(old(ledger.wire), ledger.wire, Sent(benchmarks[..i + 1]), Sent(benchmarks[i + 1..]));
        FaultedLater(ledger, start, start + 11 * i);
        return;
      }
      CleanOn(ledger, start, start + 11 * i, 11);
      SentPart(benchmarks, i);
      TransmittedThen(old(ledger.wire), sent, ledger.wire, Sent(benchmarks[..i]), [Provider(benchmarks[i])], false);
      TrialSent(db, sent, benchmarks[i]);
      ReceivedNext(before, ran, benchmarks[i]);
      ran := ran + {benchmarks[i]};
      i := i + 1;
    }
    assert benchmarks[..i] == benchmarks;
    TookAll(ledger, start, 11 * i);
    raised := false;
  }

  lemma TrialSent(db: Db<Op, Rows>, wire: seq<Op>, c: Call)
    ensures AfterTrial(db, c).rows == db.rows
    ensures AllSent(db.claims, wire) ==> AllSent(AfterTrial(db, c).claims, wire + [Provider(c)])
  {
    if AllSent(db.claims, wire) {
      SentWith(db.claims, wire, [Tested(c), Provider(c), Verifier(c)], c);
    }
  }

  /** All trials of a member whose health check passed, then its benchmark result. */
  method RunBenchmark(ledger: CampaignLedger, plan: Plan, v: Verdicts, loc0: Locals,
                      ghost done: set<string>, m: string, k: nat, ghost h: Call)
    returns (loc: Locals, raised: bool)
    requires ledger.Valid() && IdsUnique(plan.calls) && OneHealthCall(plan.calls, m)
    requires plan.Live(m) && HealthApproved(plan, v, m)
    requires h in plan.calls && h.model == m && h.kind == Health && Received(loc0, {h})
    requires Within(plan, v, ledger.db, ledger.wire, loc0, done, m, k, HealthPassed)
    requires Counted(plan, ledger.db, 0, 0) && Unclaimed(ledger.db.claims, m, {h})
    requires Approved(v, ledger.wire, m)
    modifies ledger
    ensures loc.current == loc0.current
    ensures ledger.Valid() && ledger.clock > old(ledger.clock)
    ensures !raised ==> Between(plan, v, ledger.db, ledger.wire, loc, done + {m})
    ensures Transmitted(old(ledger.wire), ledger.wire, Sent(BenchmarksOf(plan.calls, m)), raised)
    ensures !raised && AllSent(old(ledger.db.claims), old(ledger.wire)) ==> AllSent(ledger.db.claims, ledger.wire)
    ensures !raised ==>
      var trials := |BenchmarksOf(plan.calls, m)|;
      ledger.db.rows == old(ledger.db.rows).With(m, Benchmark, Result(Standing(Good(plan, v, m)), trials, trials))
    ensures raised ==> Interrupted(plan, v, ledger.db, ledger.wire, loc, m)
                       && ledger.Faulted(old(ledger.clock), ledger.clock)
    ensures Along(ledger, BenchmarkScript(plan, v, m), old(ledger.clock), raised, Consistent(plan, ledger.db.rows, loc, m))
  {
    hide *;
    loc := loc0;
    ghost var start := ledger.clock;
    ghost var script := BenchmarkScript(plan, v, m);
    WithinInterrupted(plan, v, ledger.db, ledger.wire, loc, done, m, k, HealthPassed, 0, 0);
    WithinConsistent(plan, v, ledger.db, ledger.wire, loc, done, m, k, HealthPassed);
    CleanEmpty(ledger.faults, start);
    BenchmarkSites(plan, v, m);
    raised := ledger.Step();
    TransmittedNone(ledger.wire, Sent(BenchmarksOf(plan.calls, m)));
    if raised {
      AlongFault(ledger, script, start, 0, Consistent(plan, ledger.db.rows, loc, m));
      return;
    }
    CleanNext(ledger.faults, start, start);
    loc := loc.(planStored := true);
    ExtendsSame(plan, loc0, loc, m);
    ReceivedStill(loc0, loc, {h});
    WithinLocals(plan, v, ledger.db, ledger.wire, loc0, loc, done, m, k, HealthPassed);
    var benchmarks := BenchmarksOf(plan.calls, m);
    BenchmarksOfExact(plan.calls, m);
    CallsDistinct(plan.calls);
    ghost var ran := {h} + set j | 0 <= j < |benchmarks| :: benchmarks[j];
    loc, raised := RunTrials(ledger, plan, v, loc, done, m, k, benchmarks, h);
    if raised {
      AlongPlain(ledger, script, start, 1, 11 * |benchmarks|, Consistent(plan, ledger.db.rows, loc, m));
      FaultedLater(ledger, start, start + 1);
      return;
    }
    CleanOn(ledger, start, start + 1, 11 * |benchmarks|);
    AllRan(plan, v, m, h, loc, ran);
    var good := (forall c :: c in benchmarks ==> v.valid(c)) && v.stable(m);
    GoodPasses(plan, v, m, good);
    loc, raised := PublishBenchmark(ledger, plan, v, loc, done, m, k, good, |benchmarks|);
    TransmittedAll(old(ledger.wire), ledger.wire, Sent(benchmarks), raised);
    AlongAfter(ledger, Plains(1 + 11 * |benchmarks|), VerdictScript(good), start, raised,
               Consistent(plan, ledger.db.rows, loc, m));
    if raised {
      FaultedLater(ledger, start, start + 1 + 11 * |benchmarks|);
    }
  }

  lemma TransmittedAll(before: seq<Op>, wire: seq<Op>, calls: seq<Op>, raised: bool)
    requires Transmitted(before, wire, calls, false)
    ensures Transmitted(before, wire, calls, raised)
  {
  }

  lemma BenchmarkSites(plan: Plan, v: Verdicts, m: string)
    ensures var script := BenchmarkScript(plan, v, m);
      var trials := 1 + 11 * |BenchmarksOf(plan.calls, m)|;
      && |script| >= trials + 2 && (forall j :: 0 <= j < trials ==> script[j] == Plain)
      && script == Plains(trials) + VerdictScript(Good(plan, v, m))
      && !Critical(Plain, Before) && !Critical(Plain, After)
  {
  }

  lemma SentNone(calls: seq<Call>)
    ensures Sent(calls[..0]) == []
  {
  }

  lemma SentPart(calls: seq<Call>, i: nat)
    requires i < |calls|
    ensures Sent(calls[..i + 1]) == Sent(calls[..i]) + [Provider(calls[i])]
    ensures Sent(calls) == Sent(calls[..i + 1]) + Sent(calls[i + 1..])
  {
  }

  lemma NotRunYet(benchmarks: seq<Call>, i: nat, h: Call)
    requires i < |benchmarks| && Distinct(benchmarks) && h.kind == Health && benchmarks[i].kind == Benchmark
    ensures benchmarks[i] !in {h} + set j | 0 <= j < i :: benchmarks[j]
  {
  }

  lemma AllRan(plan: Plan, v: Verdicts, m: string, h: Call, loc: Locals, ran: set<Call>)
    requires OneHealthCall(plan.calls, m) && h in plan.calls && h.model == m && h.kind == Health
    requires HealthApproved(plan, v, m) && Received(loc, ran)
    requires h in ran && forall c :: c in BenchmarksOf(plan.calls, m) ==> c in ran
    ensures Known(plan, v, loc, m)
  {
    BenchmarksOfExact(plan.calls, m);
    hide BenchmarksOf, HealthApproved;
  }

  lemma GoodPasses(plan: Plan, v: Verdicts, m: string, good: bool)
    requires plan.Live(m) && HealthApproved(plan, v, m)
    requires good <==> (forall c :: c in BenchmarksOf(plan.calls, m) ==> v.valid(c)) && v.stable(m)
    ensures good == Good(plan, v, m) == Passes(plan, v, m) && StageOf(plan, v, m) == Benchmark
  {
    BenchmarksOfExact(plan.calls, m);
    hide HealthApproved, BenchmarksOf;
  }

  lemma CallsDistinct(calls: seq<Call>)
    requires IdsUnique(calls)
    ensures Distinct(calls)
  {
  }

  lemma WithinLocals(plan: Plan, v: Verdicts, db: Db<Op, Rows>, wire: seq<Op>, loc: Locals, next: Locals,
                     done: set<string>, m: string, k: nat, phase: Phase)
    requires Within(plan, v, db, wire, loc, done, m, k, phase)
    requires next == loc.(evidence := next.evidence, current := next.current, planStored := next.planStored)
    requires loc.evidence.Keys <= next.evidence.Keys && Extends(plan, loc, next, m)
    ensures Within(plan, v, db, wire, next, done, m, k, phase)
  {
    EvidentKept(plan, v, loc, next, done, m);
    hide Evident, Base, PassedRows, FailedRows, RecoveryRows, TerminalRows;
  }

  lemma VerdictReady(plan: Plan, v: Verdicts, db: Db<Op, Rows>, wire: seq<Op>, loc: Locals,
                     done: set<string>, m: string, k: nat, good: bool, trials: nat)
    requires Within(plan, v, db, wire, loc, done, m, k, HealthPassed) && Counted(plan, db, trials, trials)
    requires Known(plan, v, loc, m) && StageOf(plan, v, m) == Benchmark
    requires good == Passes(plan, v, m)
    ensures m !in db.rows.benchmark
    ensures Interrupted(plan, v, db, wire, loc, m) && Consistent(plan, db.rows, loc, m)
    ensures Interrupted(plan, v, db, wire, Judge(loc, m, good), m) && !Consistent(plan, db.rows, Judge(loc, m, good), m)
    ensures var row := WithResult(db, m, Benchmark, Result(Standing(good), trials, trials));
            var next := Judge(loc, m, good);
            && Interrupted(plan, v, row, wire, next, m) && Consistent(plan, row.rows, next, m)
            && Closing(plan, v, row, wire, next.(digests := next.digests[m := MemberResult(m, Benchmark)]), done, m, k)
  {
    WithinVerdicts(plan, v, db, wire, loc, done, m, k);
    hide Within, Counted, Interrupted, Closing, Consistent, Passes, Judge, WithResult, Decided;
    JudgeDisjoint(plan, db.rows, loc, done, m, good);
    WithinInterrupted(plan, v, db, wire, loc, done, m, k, HealthPassed, trials, trials);
    WithinConsistent(plan, v, db, wire, loc, done, m, k, HealthPassed);
    JudgedButUnwritten(plan, v, db, wire, loc, done, m, k, good, trials);
    VerdictCloses(plan, v, db, wire, loc, Judge(loc, m, good), done, m, k, good, trials);
  }

  lemma WithinVerdicts(plan: Plan, v: Verdicts, db: Db<Op, Rows>, wire: seq<Op>, loc: Locals,
                       done: set<string>, m: string, k: nat)
    requires Within(plan, v, db, wire, loc, done, m, k, HealthPassed)
    ensures Decided(plan, db.rows, loc, done) && m !in done && m !in db.rows.benchmark
  {
    hide Base, Decided, Owned, Judged;
  }

  lemma VerdictCloses(plan: Plan, v: Verdicts, db: Db<Op, Rows>, wire: seq<Op>, loc: Locals, next: Locals,
                      done: set<string>, m: string, k: nat, good: bool, trials: nat)
    requires Within(plan, v, db, wire, loc, done, m, k, HealthPassed) && Counted(plan, db, trials, trials)
    requires Known(plan, v, loc, m) && StageOf(plan, v, m) == Benchmark
    requires good == Passes(plan, v, m)
    requires next == loc.(passed := loc.passed + (if good then {m} else {}), failed := loc.failed + (if good then {} else {m}))
    requires next.passed !! next.failed
    requires next.passed - {m} == loc.passed - {m} && next.failed - {m} == loc.failed - {m}
    ensures Interrupted(plan, v, db, wire, next, m)
    ensures var row := WithResult(db, m, Benchmark, Result(Standing(good), trials, trials));
            && Interrupted(plan, v, row, wire, next, m)
            && Closing(plan, v, row, wire, next.(digests := next.digests[m := MemberResult(m, Benchmark)]), done, m, k)
  {
    VerdictSettles(plan, v, loc, next, m, good);
    hide Within, Counted, Interrupted, Closing, Passes, WithResult, Standing, Settles, Known, StageOf;
    var result := Result(Standing(good), trials, trials);
    WithinInterrupted(plan, v, db, wire, loc, done, m, k, HealthPassed, trials, trials);
    InterruptedStanding(plan, v, db, wire, loc, next, m);
    ResultInterrupted(plan, v, db, wire, loc, done, m, k, HealthPassed, 0, 0, Benchmark, result);
    InterruptedStanding(plan, v, WithResult(db, m, Benchmark, result), wire, loc, next, m);
    BenchmarkDecides(plan, v, db, wire, loc, next.(digests := next.digests[m := MemberResult(m, Benchmark)]),
                     done, m, k, good, trials);
  }

  lemma VerdictSettles(plan: Plan, v: Verdicts, loc: Locals, next: Locals, m: string, good: bool)
    requires Known(plan, v, loc, m) && StageOf(plan, v, m) == Benchmark
    requires next == loc.(passed := loc.passed + (if good then {m} else {}), failed := loc.failed + (if good then {} else {m}))
    ensures Settles(plan, v, loc, next.(digests := next.digests[m := MemberResult(m, Benchmark)]), m, good)
  {
    hide StageOf, EvidenceOf;
  }

  lemma JudgeDisjoint(plan: Plan, rows: Rows, loc: Locals, done: set<string>, m: string, good: bool)
    requires Decided(plan, rows, loc, done) && m !in done
    ensures var next := Judge(loc, m, good);
            && next.passed !! next.failed
            && next.passed - {m} == loc.passed - {m} && next.failed - {m} == loc.failed - {m}
            && next == loc.(passed := loc.passed + (if good then {m} else {}),
                            failed := loc.failed + (if good then {} else {m}))
  {
  }

  /** The benchmark verdict: decided locally, then written, then receipted. */
  method PublishBenchmark(ledger: CampaignLedger, plan: Plan, v: Verdicts, loc0: Locals,
                          ghost done: set<string>, m: string, k: nat, good: bool, trials: nat)
    returns (loc: Locals, raised: bool)
    requires ledger.Valid() && good == Passes(plan, v, m)
    requires Within(plan, v, ledger.db, ledger.wire, loc0, done, m, k, HealthPassed)
    requires Counted(plan, ledger.db, trials, trials)
    requires Known(plan, v, loc0, m) && StageOf(plan, v, m) == Benchmark
    modifies ledger
    ensures loc.current == loc0.current
    ensures ledger.Valid() && ledger.clock > old(ledger.clock) && ledger.wire == old(ledger.wire)
    ensures ledger.db.claims == old(ledger.db.claims)
    ensures !raised ==> Between(plan, v, ledger.db, ledger.wire, loc, done + {m})
    ensures !raised ==> ledger.db.rows == old(ledger.db.rows).With(m, Benchmark, Result(Standing(good), trials, trials))
    ensures raised ==> Interrupted(plan, v, ledger.db, ledger.wire, loc, m)
                       && ledger.Faulted(old(ledger.clock), ledger.clock)
    ensures Along(ledger, VerdictScript(good), old(ledger.clock), raised, Consistent(plan, ledger.db.rows, loc, m))
  {
    hide *;
    loc := loc0;
    ghost var start := ledger.clock;
    VerdictReady(plan, v, ledger.db, ledger.wire, loc, done, m, k, good, trials);
    WithResultRows(ledger.db, m, Benchmark, Result(Standing(good), trials, trials));
    VerdictSites(good);
    CleanEmpty(ledger.faults, start);
    if good {
      raised := ledger.Step();
      if raised {
        AlongFault(ledger, VerdictScript(good), start, 0, Consistent(plan, ledger.db.rows, loc, m));
        return;
      }
      CleanNext(ledger.faults, start, start);
    }
    JudgeCurrent(loc, m, good);
    loc := Judge(loc, m, good);
    raised := Record(ledger, m, Benchmark, Result(Standing(good), trials, trials));
    ghost var at := |VerdictScript(good)| - 2;
    if raised {
      CriticalBefore(ledger.faults(start + at));
      AlongFault(ledger, VerdictScript(good), start, at, Consistent(plan, ledger.db.rows, loc, m));
      return;
    }
    CleanNext(ledger.faults, start, start + at);
    loc := loc.(digests := loc.digests[m := MemberResult(m, Benchmark)]);
    raised := CloseMember(ledger, plan, v, loc, done, m, k);
    AlongLast(ledger, VerdictScript(good), start, raised, Consistent(plan, ledger.db.rows, loc, m));
  }

  lemma VerdictSites(good: bool)
    ensures var script := VerdictScript(good);
      && |script| == (if good then 3 else 2) && script[|script| - 2] == NotedBefore && script[|script| - 1] == Plain
      && (good ==> script[0] == Plain)
    ensures !Critical(Plain, Before) && !Critical(Plain, After)
  {
  }

  lemma CriticalBefore(fault: Fault)
    ensures Critical(NotedBefore, fault) <==> fault == Before
    ensures Critical(NotedAfter, fault) <==> fault == After
    ensures !Critical(Plain, fault)
  {
  }

  lemma JudgeCurrent(loc: Locals, m: string, good: bool)
    ensures var next := Judge(loc, m, good);
      next.current == loc.current && next.evidence == loc.evidence && next.digests == loc.digests
    ensures !good ==> m in Judge(loc, m, good).failed
  {
  }

  /** A failed health check: the member's benchmark calls are revoked and marked not run. */
  method FailHealth(ledger: CampaignLedger, plan: Plan, v: Verdicts, loc0: Locals,
                    ghost done: set<string>, m: string, k: nat, ghost h: Call)
    returns (loc: Locals, raised: bool)
    requires ledger.Valid() && IdsUnique(plan.calls) && OneHealthCall(plan.calls, m) && plan.Live(m) && !HealthApproved(plan, v, m)
    requires h in plan.calls && h.model == m && h.kind == Health && Received(loc0, {h})
    requires Within(plan, v, ledger.db, ledger.wire, loc0, done, m, k, Unstarted)
    requires Counted(plan, ledger.db, 1, 0)
    modifies ledger
    ensures loc.current == loc0.current
    ensures ledger.Valid() && ledger.clock > old(ledger.clock)
    ensures ledger.wire == old(ledger.wire) && ledger.db.claims == old(ledger.db.claims)
    ensures !raised ==> Between(plan, v, ledger.db, ledger.wire, loc, done + {m})
    ensures !raised ==> m in loc.failed && loc.evidence == loc0.evidence + NotRun(BenchmarksOf(plan.calls, m))
    ensures !raised ==> ledger.db.rows == old(ledger.db.rows).With(m, Health, Result(MemberFailed, 0, 1))
    ensures raised ==> Interrupted(plan, v, ledger.db, ledger.wire, loc, m)
                       && ledger.Faulted(old(ledger.clock), ledger.clock)
    ensures Along(ledger, FailScript(plan, m), old(ledger.clock), raised, Consistent(plan, ledger.db.rows, loc, m))
  {
    hide *;
    loc := loc0;
    ghost var db := ledger.db;
    ghost var wire := ledger.wire;
    ghost var start := ledger.clock;
    ghost var script := FailScript(plan, m);
    FailSites(plan, m);
    CleanEmpty(ledger.faults, start);
    FailureReady(plan, v, db, wire, loc, done, m, k);
    WithResultRows(db, m, Health, Result(MemberFailed, 0, 1));
    raised := Record(ledger, m, Health, Result(MemberFailed, 0, 1));
    if raised {
      CriticalBefore(ledger.faults(start));
      AlongFault(ledger, script, start, 0, Consistent(plan, ledger.db.rows, loc, m));
      return;
    }
    CleanNext(ledger.faults, start, start);
    JudgeCurrent(loc, m, false);
    loc := Judge(loc, m, false);
    ghost var judged := loc;
    loc, raised := MarkNotRun(ledger, plan, v, loc, m);
    ConsistentSame(plan, ledger.db.rows, judged, loc, m);
    if raised {
      AlongPlain(ledger, script, start, 1, |script| - 2, Consistent(plan, ledger.db.rows, loc, m));
      FaultedLater(ledger, start, start + 1);
      return;
    }
    CleanOn(ledger, start, start + 1, |script| - 2);
    loc := loc.(digests := loc.digests[m := MemberResult(m, Health)]);
    FailureCloses(plan, v, db, wire, loc0, loc, done, m, k, h);
    raised := CloseMember(ledger, plan, v, loc, done, m, k);
    AlongLast(ledger, script, start, raised, Consistent(plan, ledger.db.rows, loc, m));
  }

  lemma FailSites(plan: Plan, m: string)
    ensures var script := FailScript(plan, m);
      && |script| == |BenchmarksOf(plan.calls, m)| + 3
      && script[0] == NotedAfter && forall j :: 1 <= j < |script| ==> script[j] == Plain
  {
  }

  lemma FailureReady(plan: Plan, v: Verdicts, db: Db<Op, Rows>, wire: seq<Op>, loc: Locals,
                     done: set<string>, m: string, k: nat)
    requires Within(plan, v, db, wire, loc, done, m, k, Unstarted) && Counted(plan, db, 1, 0)
    ensures m !in db.rows.health
    ensures Interrupted(plan, v, db, wire, loc, m) && Consistent(plan, db.rows, loc, m)
    ensures var row := WithResult(db, m, Health, Result(MemberFailed, 0, 1));
            && Interrupted(plan, v, row, wire, loc, m) && !Consistent(plan, row.rows, loc, m)
            && Interrupted(plan, v, row, wire, Judge(loc, m, false), m)
            && Consistent(plan, row.rows, Judge(loc, m, false), m)
  {
    WithinDecided(plan, v, db, wire, loc, done, m, k);
    hide Within, Counted, Interrupted, Consistent, Judge, WithResult, Decided;
    var result := Result(MemberFailed, 0, 1);
    JudgeDisjoint(plan, db.rows, loc, done, m, false);
    WithinInterrupted(plan, v, db, wire, loc, done, m, k, Unstarted, 1, 0);
    WithinConsistent(plan, v, db, wire, loc, done, m, k, Unstarted);
    WrittenButUnjudged(plan, v, db, wire, loc, done, m, k, Unstarted, Health, false, 0, 1);
    FailureNoted(plan, v, db, wire, loc, done, m, k, 1);
    ResultInterrupted(plan, v, db, wire, loc, done, m, k, Unstarted, 0, 0, Health, result);
    InterruptedStanding(plan, v, WithResult(db, m, Health, result), wire, loc, Judge(loc, m, false), m);
  }

  lemma WithinDecided(plan: Plan, v: Verdicts, db: Db<Op, Rows>, wire: seq<Op>, loc: Locals,
                      done: set<string>, m: string, k: nat)
    requires Within(plan, v, db, wire, loc, done, m, k, Unstarted)
    ensures Decided(plan, db.rows, loc, done) && m !in done && m !in db.rows.health
  {
    hide Base, Decided, Owned, Judged;
  }

  lemma FailureCloses(plan: Plan, v: Verdicts, db: Db<Op, Rows>, wire: seq<Op>, loc: Locals, next: Locals,
                      done: set<string>, m: string, k: nat, h: Call)
    requires IdsUnique(plan.calls) && OneHealthCall(plan.calls, m) && plan.Live(m) && !HealthApproved(plan, v, m)
    requires h in plan.calls && h.model == m && h.kind == Health && Received(loc, {h})
    requires Within(plan, v, db, wire, loc, done, m, k, Unstarted) && Counted(plan, db, 1, 0)
    requires next == Judge(loc, m, false).(evidence := next.evidence, digests := loc.digests[m := MemberResult(m, Health)])
    requires next.evidence == loc.evidence + NotRun(BenchmarksOf(plan.calls, m))
    ensures m in next.failed
    ensures Closing(plan, v, WithResult(db, m, Health, Result(MemberFailed, 0, 1)), wire, next, done, m, k)
  {
    UnapprovedFails(plan, v, m);
    FailureSettles(plan, v, loc, next, m, h);
    hide Within, Counted, Closing, Passes, OneHealthCall, IdsUnique, NotRun, WithResult, BenchmarksOf, Settles, HealthApproved;
    HealthFailureDecides(plan, v, db, wire, loc, next, done, m, k, 1);
  }

  lemma UnapprovedFails(plan: Plan, v: Verdicts, m: string)
    requires plan.Live(m) && !HealthApproved(plan, v, m)
    ensures !Passes(plan, v, m) && StageOf(plan, v, m) == Health
  {
  }

  /** The health call has its receipt and every benchmark call is marked as not run. */
  lemma FailureSettles(plan: Plan, v: Verdicts, loc: Locals, next: Locals, m: string, h: Call)
    requires IdsUnique(plan.calls) && OneHealthCall(plan.calls, m)
    requires !HealthApproved(plan, v, m) && StageOf(plan, v, m) == Health
    requires h in plan.calls && h.model == m && h.kind == Health && Received(loc, {h})
    requires next == Judge(loc, m, false).(evidence := next.evidence, digests := loc.digests[m := MemberResult(m, Health)])
    requires next.evidence == loc.evidence + NotRun(BenchmarksOf(plan.calls, m))
    ensures Settles(plan, v, loc, next, m, false)
  {
    NotRunCalls(plan, m);
    hide BenchmarksOf, HealthApproved, StageOf, IdsUnique, NotRun;
    forall c | c in plan.calls && c.model == m
      ensures c.id in next.evidence && next.evidence[c.id] == EvidenceOf(plan, v, c)
    {
      if c.kind == Health {
        assert c == h;
      }
    }
    assert Known(plan, v, next, m);
    hide Known, OneHealthCall;
  }

  lemma NotRunCalls(plan: Plan, m: string)
    requires IdsUnique(plan.calls)
    ensures var evidence := NotRun(BenchmarksOf(plan.calls, m));
      forall c :: c in plan.calls ==>
        && (c.id in evidence <==> c.model == m && c.kind == Benchmark)
        && (c.id in evidence ==> evidence[c.id] == NotRunHealthFailed(c.id))
  {
    BenchmarksOfExact(plan.calls, m);
    hide BenchmarksOf;
    var ids := NotRunIds(BenchmarksOf(plan.calls, m));
    assert forall c :: c in plan.calls ==> (c.id in ids <==> c.model == m && c.kind == Benchmark);
    hide NotRunIds, IdsUnique;
  }

  /** The evidence that benchmark calls were not made. */
  function NotRun(benchmarks: seq<Call>): map<string, Evidence>
  {
    map id | id in NotRunIds(benchmarks) :: NotRunHealthFailed(id)
  }

  function NotRunIds(benchmarks: seq<Call>): set<string>
  {
    set c | c in benchmarks :: c.id
  }

  lemma NotRunNone(evidence: map<string, Evidence>, benchmarks: seq<Call>)
    ensures evidence + NotRun(benchmarks[..0]) == evidence
  {
  }

  lemma NotRunNext(evidence: map<string, Evidence>, benchmarks: seq<Call>, i: nat)
    requires i < |benchmarks|
    ensures evidence + NotRun(benchmarks[..i + 1])
         == (evidence + NotRun(benchmarks[..i]))[benchmarks[i].id := NotRunHealthFailed(benchmarks[i].id)]
  {
    assert benchmarks[..i + 1] == benchmarks[..i] + [benchmarks[i]];
    assert NotRunIds(benchmarks[..i + 1]) == NotRunIds(benchmarks[..i]) + {benchmarks[i].id};
  }

  lemma NotRunGrows(evidence: map<string, Evidence>, benchmarks: seq<Call>)
    ensures evidence.Keys <= (evidence + NotRun(benchmarks)).Keys
  {
  }

  method MarkNotRun(ledger: CampaignLedger, plan: Plan, v: Verdicts, loc0: Locals, m: string)
    returns (loc: Locals, raised: bool)
    requires Interrupted(plan, v, ledger.db, ledger.wire, loc0, m)
    modifies ledger`clock
    ensures ledger.clock > old(ledger.clock)
    ensures loc == loc0.(evidence := loc.evidence) && loc0.evidence.Keys <= loc.evidence.Keys
    ensures Interrupted(plan, v, ledger.db, ledger.wire, loc, m)
    ensures raised ==> ledger.Faulted(old(ledger.clock), ledger.clock)
    ensures ledger.Took(old(ledger.clock), |BenchmarksOf(plan.calls, m)| + 1, raised)
    ensures !raised ==> loc.evidence == loc0.evidence + NotRun(BenchmarksOf(plan.calls, m))
  {
    hide *;
    loc := loc0;
    ghost var start := ledger.clock;
    var benchmarks := BenchmarksOf(plan.calls, m);
    CleanEmpty(ledger.faults, start);
    NotRunNone(loc0.evidence, benchmarks);
    var i := 0;
    while i < |benchmarks|
      invariant 0 <= i <= |benchmarks| && ledger.clock == start + i && Clean(ledger.faults, start, start + i)
      invariant loc == loc0.(evidence := loc0.evidence + NotRun(benchmarks[..i]))
    {
      raised := ledger.Step();
      if raised {
        SameVerdicts(plan, v, ledger.db, ledger.wire, loc0, loc, m);
        NotRunGrows(loc0.evidence, benchmarks[..i]);
        TookFault(ledger, start, i, |benchmarks| + 1);
        return;
      }
      NotRunNext(loc0.evidence, benchmarks, i);
      CleanNext(ledger.faults, start, start + i);
      loc := loc.(evidence := loc.evidence[benchmarks[i].id := NotRunHealthFailed(benchmarks[i].id)]);
      i := i + 1;
    }
    assert benchmarks[..i] == benchmarks;
    NotRunGrows(loc0.evidence, benchmarks);
    SameVerdicts(plan, v, ledger.db, ledger.wire, loc0, loc, m);
    raised := ledger.Step();
    if raised {
      TookFault(ledger, start, i, i + 1);
    } else {
      CleanNext(ledger.faults, start, start + i);
      TookAll(ledger, start, i + 1);
    }
  }

  lemma SameVerdicts(plan: Plan, v: Verdicts, db: Db<Op, Rows>, wire: seq<Op>, loc: Locals, next: Locals, m: string)
    requires Interrupted(plan, v, db, wire, loc, m) && next.passed == loc.passed && next.failed == loc.failed
    ensures Interrupted(plan, v, db, wire, next, m)
  {
    hide Base, PassedRows, FailedRows, ProviderSum, TestedSum, Attempted, AttemptedBenchmarks;
  }

  lemma HealthReady(plan: Plan, v: Verdicts, db: Db<Op, Rows>, wire: seq<Op>, loc: Locals, next: Locals,
                    done: set<string>, m: string, k: nat, h: Call)
    requires db.WellFormed() && IdsUnique(plan.calls)
    requires Within(plan, v, db, wire, loc, done, m, k, Unstarted)
    requires h in plan.calls && h.model == m && h.kind == Health
    requires Counted(plan, db, 0, 0) && Unclaimed(db.claims, m, {})
    requires next == loc.(evidence := loc.evidence[h.id := ReceiptEvidence(h.id)])
    ensures Interrupted(plan, v, db, wire, loc, m)
    ensures Provider(h) !in db.claims && Backed(v, wire, h)
    ensures var called := db.Claim(Provider(h)).Settle(|db.claims|, Completed);
            && Within(plan, v, called, wire + [Provider(h)], next, done, m, k, Unstarted)
            && Counted(plan, called, 1, 0) && Unclaimed(called.claims, m, {h})
    ensures v.approved(h) ==> Approved(v, wire + [Provider(h)], m)
  {
    hide Decided, Judged, Owned, Interrupted, WireOk, IdsUnique, Attempted, AttemptedBenchmarks, ProviderSum, TestedSum;
    var called := db.Claim(Provider(h)).Settle(|db.claims|, Completed);
    WithinInterrupted(plan, v, db, wire, loc, done, m, k, Unstarted, 0, 0);
    WireExtended(plan, v, wire, h);
    ClaimSettled(plan, v, db, wire, loc, done, m, k, Unstarted, Provider(h));
    ExtendsBy(plan, loc, next, m, h, ReceiptEvidence(h.id));
    WithinRewired(plan, v, called, wire, wire + [Provider(h)], loc, next, done, m, k, Unstarted);
    AttemptedGrows(plan, db.claims, h);
    assert (wire + [Provider(h)])[|wire|] == Provider(h);
  }

  lemma HealthDecides(plan: Plan, v: Verdicts, m: string, h: Call)
    requires OneHealthCall(plan.calls, m) && h in plan.calls && h.model == m && h.kind == Health
    ensures HealthApproved(plan, v, m) <==> v.approved(h)
    ensures plan.Live(m) && !v.approved(h) ==> !Passes(plan, v, m)
  {
    hide Good;
  }

  /** A member with live calls: the health check, and the benchmark only if it is approved. */
  method LiveMember(ledger: CampaignLedger, plan: Plan, v: Verdicts, loc0: Locals,
                    ghost done: set<string>, m: string, k: nat) returns (loc: Locals, raised: bool)
    requires ledger.Valid() && IdsUnique(plan.calls) && OneHealthCall(plan.calls, m) && plan.Live(m)
    requires Within(plan, v, ledger.db, ledger.wire, loc0, done, m, k, Unstarted)
    requires Counted(plan, ledger.db, 0, 0) && Unclaimed(ledger.db.claims, m, {})
    modifies ledger
    ensures loc.current == loc0.current
    ensures ledger.Valid() && ledger.clock > old(ledger.clock)
    ensures !raised ==> Between(plan, v, ledger.db, ledger.wire, loc, done + {m})
    ensures Transmitted(old(ledger.wire), ledger.wire, MemberCalls(plan, v, m), raised)
    ensures !raised && AllSent(old(ledger.db.claims), old(ledger.wire)) ==> AllSent(ledger.db.claims, ledger.wire)
    ensures !raised ==> Recorded(plan, v, ledger.db.rows, m) && Elsewhere(old(ledger.db.rows), ledger.db.rows, m)
    ensures raised ==> Interrupted(plan, v, ledger.db, ledger.wire, loc, m)
                       && ledger.Faulted(old(ledger.clock), ledger.clock)
    ensures Along(ledger, LiveScript(plan, v, m), old(ledger.clock), raised, Consistent(plan, ledger.db.rows, loc, m))
  {
    hide *;
    loc := loc0;
    ghost var start := ledger.clock;
    ghost var script := LiveScript(plan, v, m);
    CleanEmpty(ledger.faults, start);
    var h := HealthCall(plan.calls, m);
    HealthDecides(plan, v, m, h);
    LiveSites(plan, v, m);
    NoBenchmarkYet(plan, v, ledger.db, ledger.wire, loc, done, m, k);
    LiveCalls(plan, v, m, h);
    ghost var rest := if v.approved(h) then Sent(BenchmarksOf(plan.calls, m)) else [];
    var next := loc.(evidence := loc.evidence[h.id := ReceiptEvidence(h.id)]);
    WithinConsistent(plan, v, ledger.db, ledger.wire, loc, done, m, k, Unstarted);
    LedgerWellFormed(ledger);
    HealthReady(plan, v, ledger.db, ledger.wire, loc, next, done, m, k, h);
    raised := CallProvider(ledger, plan, v, loc, m, h);
    TransmittedPart(old(ledger.wire), ledger.wire, [Provider(h)], rest);
    if raised {
      AlongPlain(ledger, script, start, 0, 5, Consistent(plan, ledger.db.rows, loc, m));
      return;
    }
    CleanOn(ledger, start, start, 5);
    raised := ledger.Step();
    if raised {
      AlongFault(ledger, script, start, 5, Consistent(plan, ledger.db.rows, loc, m));
      return;
    }
    CleanNext(ledger.faults, start, start + 5);
    HealthSent(old(ledger.db), old(ledger.wire), h);
    ReceivedFirst(loc, h);
    loc := next;
    if !v.approved(h) {
      loc, raised := FailHealth(ledger, plan, v, loc, done, m, k, h);
      AlongAfter(ledger, Plains(6), FailScript(plan, m), start, raised, Consistent(plan, ledger.db.rows, loc, m));
      if raised {
        FaultedLater(ledger, start, start + 6);
      }
      TransmittedFirst(old(ledger.wire), ledger.wire, [Provider(h)], raised);
      if !raised {
        RecordedLive(plan, v, old(ledger.db.rows), ledger.db.rows, m);
      }
      return;
    }
    raised := PassHealth(ledger, plan, v, loc, done, m, k);
    if raised {
      AlongFault(ledger, script, start, 6, Consistent(plan, ledger.db.rows, loc, m));
      return;
    }
    CleanNext(ledger.faults, start, start + 6);
    ghost var sent := ledger.wire;
    loc, raised := RunBenchmark(ledger, plan, v, loc, done, m, k, h);
    TransmittedThen(old(ledger.wire), sent, ledger.wire, [Provider(h)], rest, raised);
    AlongAfter(ledger, Plains(7), BenchmarkScript(plan, v, m), start, raised, Consistent(plan, ledger.db.rows, loc, m));
    if raised {
      FaultedLater(ledger, start, start + 7);
    } else {
      RecordedLive(plan, v, old(ledger.db.rows), ledger.db.rows, m);
    }
  }

  lemma NoBenchmarkYet(plan: Plan, v: Verdicts, db: Db<Op, Rows>, wire: seq<Op>, loc: Locals,
                       done: set<string>, m: string, k: nat)
    requires Within(plan, v, db, wire, loc, done, m, k, Unstarted)
    ensures m !in db.rows.benchmark
  {
    hide Base, Decided, Owned, Judged;
  }

  lemma HealthSent(db: Db<Op, Rows>, wire: seq<Op>, h: Call)
    ensures AllSent(db.claims, wire) ==>
      AllSent(db.Claim(Provider(h)).Settle(|db.claims|, Completed).claims, wire + [Provider(h)])
  {
    if AllSent(db.claims, wire) {
      SentWith(db.claims, wire, [Provider(h)], h);
    }
  }

  lemma TransmittedFirst(before: seq<Op>, wire: seq<Op>, calls: seq<Op>, raised: bool)
    requires Transmitted(before, wire, calls, false)
    ensures Transmitted(before, wire, calls + [], raised)
  {
    assert calls + [] == calls;
  }

  /** The calls of a live member, once its one health call is known. */
  lemma LiveCalls(plan: Plan, v: Verdicts, m: string, h: Call)
    requires plan.Live(m) && IdsUnique(plan.calls) && OneHealthCall(plan.calls, m)
    requires h in plan.calls && h.model == m && h.kind == Health
    ensures MemberCalls(plan, v, m) == [Provider(h)] + if v.approved(h) then Sent(BenchmarksOf(plan.calls, m)) else []
  {
    OneOfKind(plan.calls, m, h);
    HealthDecides(plan, v, m, h);
    hide BenchmarksOf, OfKind, HealthApproved;
    assert Sent([h]) == [Provider(h)];
  }

  lemma OneOfKind(calls: seq<Call>, m: string, h: Call)
    requires IdsUnique(calls) && OneHealthCall(calls, m) && h in calls && h.model == m && h.kind == Health
    ensures OfKind(calls, m, Health) == [h]
  {
    OfKindExact(calls, m, Health);
    var all := OfKind(calls, m, Health);
    assert h in all && (|all| > 1 ==> all[0] != all[1]);
    hide OfKind;
    forall i | 0 <= i < |all|
      ensures all[i] == h
    {
      assert all[i] in all;
    }
  }

  lemma LiveSites(plan: Plan, v: Verdicts, m: string)
    ensures var script := LiveScript(plan, v, m);
      && |script| >= 6 && (forall j :: 0 <= j < 6 ==> script[j] == Plain)
      && (!HealthApproved(plan, v, m) ==> script == Plains(6) + FailScript(plan, m))
      && (HealthApproved(plan, v, m) ==> |script| > 6 && script[6] == Plain
                                         && script == Plains(7) + BenchmarkScript(plan, v, m))
    ensures !Critical(Plain, Before) && !Critical(Plain, After)
  {
    hide HealthApproved, FailScript, BenchmarkScript;
    if HealthApproved(plan, v, m) {
      assert Plains(6) + Plains(1) == Plains(7);
    }
  }

  method PassHealth(ledger: CampaignLedger, plan: Plan, v: Verdicts, loc: Locals,
                    ghost done: set<string>, m: string, k: nat) returns (raised: bool)
    requires ledger.Valid()
    requires Within(plan, v, ledger.db, ledger.wire, loc, done, m, k, Unstarted)
    requires Counted(plan, ledger.db, 1, 0)
    modifies ledger
    ensures ledger.Valid() && ledger.clock == old(ledger.clock) + 1
    ensures ledger.wire == old(ledger.wire) && ledger.db.claims == old(ledger.db.claims)
    ensures !raised ==> Within(plan, v, ledger.db, ledger.wire, loc, done, m, k, HealthPassed)
                        && Counted(plan, ledger.db, 0, 0)
                        && ledger.db.rows == old(ledger.db.rows).With(m, Health, Result(MemberPassed, 0, 1))
    ensures raised ==> Interrupted(plan, v, ledger.db, ledger.wire, loc, m)
                       && Consistent(plan, ledger.db.rows, loc, m)
    ensures raised <==> ledger.faults(old(ledger.clock)) != NoFault
  {
    hide Interrupted, Counted, Base, Decided, Owned, Judged, Consistent, WithResult, Within;
    PassReady(plan, v, ledger.db, ledger.wire, loc, done, m, k);
    WithResultRows(ledger.db, m, Health, Result(MemberPassed, 0, 1));
    raised := Record(ledger, m, Health, Result(MemberPassed, 0, 1));
  }

  lemma PassReady(plan: Plan, v: Verdicts, db: Db<Op, Rows>, wire: seq<Op>, loc: Locals,
                  done: set<string>, m: string, k: nat)
    requires Within(plan, v, db, wire, loc, done, m, k, Unstarted) && Counted(plan, db, 1, 0)
    ensures m !in db.rows.health
    ensures Interrupted(plan, v, db, wire, loc, m) && Consistent(plan, db.rows, loc, m)
    ensures var row := WithResult(db, m, Health, Result(MemberPassed, 0, 1));
            && Interrupted(plan, v, row, wire, loc, m) && Consistent(plan, row.rows, loc, m)
            && Within(plan, v, row, wire, loc, done, m, k, HealthPassed) && Counted(plan, row, 0, 0)
  {
    WithinDecided(plan, v, db, wire, loc, done, m, k);
    hide Within, Counted, Interrupted, Consistent, WithResult, Decided;
    WithinInterrupted(plan, v, db, wire, loc, done, m, k, Unstarted, 1, 0);
    WithinConsistent(plan, v, db, wire, loc, done, m, k, Unstarted);
    WrittenButUnjudged(plan, v, db, wire, loc, done, m, k, Unstarted, Health, true, 0, 1);
    ResultInterrupted(plan, v, db, wire, loc, done, m, k, Unstarted, 0, 0, Health, Result(MemberPassed, 0, 1));
    HealthPassContinues(plan, v, db, wire, loc, done, m, k, 1);
  }

  lemma MemberReady(plan: Plan, v: Verdicts, db: Db<Op, Rows>, wire: seq<Op>, loc: Locals, next: Locals,
                    done: set<string>, m: string)
    requires db.WellFormed() && Between(plan, v, db, wire, loc, done)
    requires Distinct(plan.members) && m in plan.members && m !in done
    requires next == loc.(current := Some(m), planStored := false)
    ensures Interrupted(plan, v, db, wire, next, m) && Consistent(plan, db.rows, next, m)
    ensures MemberLedger(m) !in db.claims
    ensures var withClaim := db.Claim(MemberLedger(m));
            && withClaim.rows == db.rows
            && Within(plan, v, withClaim, wire, next, done, m, |db.claims|, Unstarted)
            && Counted(plan, withClaim, 0, 0) && Unclaimed(withClaim.claims, m, {})
            && Interrupted(plan, v, withClaim, wire, next, m)
  {
    assert MemberLedger(m).Model() == m;
    BetweenInterrupted(plan, v, db, wire, loc, next, done, m);
    MemberWithin(plan, v, db, wire, loc, next, done, m);
    MemberUnclaimed(db, done, m);
    AttemptedKept(db.claims, MemberLedger(m));
    hide Attempted, AttemptedBenchmarks, ProviderSum, TestedSum, Decided, Base, Within, Interrupted, Consistent;
    WithinConsistent(plan, v, db.Claim(MemberLedger(m)), wire, next, done, m, |db.claims|, Unstarted);
    WithinInterrupted(plan, v, db.Claim(MemberLedger(m)), wire, next, done, m, |db.claims|, Unstarted, 0, 0);
  }

  lemma BetweenInterrupted(plan: Plan, v: Verdicts, db: Db<Op, Rows>, wire: seq<Op>, loc: Locals, next: Locals,
                           done: set<string>, m: string)
    requires Between(plan, v, db, wire, loc, done) && m in plan.members
    requires next.passed == loc.passed && next.failed == loc.failed
    ensures Interrupted(plan, v, db, wire, next, m)
  {
    hide Base, PassedRows, FailedRows, RecoveryRows, TerminalRows, ProviderSum, TestedSum, Attempted, AttemptedBenchmarks;
  }

  lemma MemberWithin(plan: Plan, v: Verdicts, db: Db<Op, Rows>, wire: seq<Op>, loc: Locals, next: Locals,
                     done: set<string>, m: string)
    requires db.WellFormed() && Between(plan, v, db, wire, loc, done)
    requires Distinct(plan.members) && m in plan.members && m !in done
    requires next == loc.(current := Some(m), planStored := false)
    ensures Within(plan, v, db.Claim(MemberLedger(m)), wire, next, done, m, |db.claims|, Unstarted)
  {
    hide Counted, PassedRows, FailedRows, RecoveryRows, TerminalRows, WireOk;
  }

  lemma MemberUnclaimed(db: Db<Op, Rows>, done: set<string>, m: string)
    requires Owned(db, done, {0}) && m !in done
    ensures Unclaimed(db.claims + [MemberLedger(m)], m, {})
  {
  }

  /** One pass of the member loop. */
  method RunMember(ledger: CampaignLedger, plan: Plan, v: Verdicts, loc0: Locals, ghost done: set<string>, m: string)
    returns (loc: Locals, raised: bool)
    requires ledger.Valid() && PlanOk(plan) && m in plan.members && m !in done
    requires Between(plan, v, ledger.db, ledger.wire, loc0, done)
    modifies ledger
    ensures loc.current == Some(m)
    ensures ledger.Valid() && ledger.clock > old(ledger.clock)
    ensures !raised ==> Between(plan, v, ledger.db, ledger.wire, loc, done + {m})
    ensures !raised && AllSent(old(ledger.db.claims), old(ledger.wire)) ==> AllSent(ledger.db.claims, ledger.wire)
    ensures !raised ==> Recorded(plan, v, ledger.db.rows, m) && Elsewhere(old(ledger.db.rows), ledger.db.rows, m)
    ensures raised ==> Interrupted(plan, v, ledger.db, ledger.wire, loc, m)
                       && ledger.Faulted(old(ledger.clock), ledger.clock)
    ensures Transmitted(old(ledger.wire), ledger.wire, MemberCalls(plan, v, m), raised)
    ensures Along(ledger, MemberScript(plan, v, m), old(ledger.clock), raised, Consistent(plan, ledger.db.rows, loc, m))
  {
    hide *;
    loc := loc0.(current := Some(m), planStored := false);
    ghost var start := ledger.clock;
    CleanEmpty(ledger.faults, start);
    MemberSites(plan, v, m);
    TransmittedNone(ledger.wire, MemberCalls(plan, v, m));
    MemberFacts(plan, v, m);
    LedgerWellFormed(ledger);
    MemberReady(plan, v, ledger.db, ledger.wire, loc0, loc, done, m);
    var claim := ledger.ClaimEffect(MemberLedger(m));
    if claim.Raised? {
      AlongFault(ledger, MemberScript(plan, v, m), start, 0, Consistent(plan, ledger.db.rows, loc, m));
      return loc, true;
    }
    LedgerSent(old(ledger.db), old(ledger.wire), m);
    CleanNext(ledger.faults, start, start);
    raised := ledger.Step();
    if raised {
      AlongFault(ledger, MemberScript(plan, v, m), start, 1, Consistent(plan, ledger.db.rows, loc, m));
      return;
    }
    CleanNext(ledger.faults, start, start + 1);
    ghost var rest;
    NoBenchmarkYet(plan, v, ledger.db, ledger.wire, loc, done, m, claim.value);
    if m in plan.adopted {
      loc, raised := AdoptMember(ledger, plan, v, loc, done, m, claim.value);
      rest := AdoptScript(plan.adopted[m]);
      if !raised {
        RecordedAdopted(plan, v, old(ledger.db.rows), ledger.db.rows, m);
      }
    } else if plan.recovered == Some(m) {
      loc, raised := RecoverMember(ledger, plan, v, loc, done, m, claim.value);
      rest := [NotedAfter, Plain];
      if !raised {
        RecordedRecovered(plan, v, old(ledger.db.rows), ledger.db.rows, m);
      }
    } else {
      loc, raised := LiveMember(ledger, plan, v, loc, done, m, claim.value);
      rest := LiveScript(plan, v, m);
    }
    if !plan.Live(m) {
      TransmittedAll(old(ledger.wire), ledger.wire, [], raised);
    }
    AlongAfter(ledger, Plains(2), rest, start, raised, Consistent(plan, ledger.db.rows, loc, m));
    if raised {
      FaultedLater(ledger, start, start + 2);
    }
  }

  lemma LedgerSent(db: Db<Op, Rows>, wire: seq<Op>, m: string)
    ensures AllSent(db.claims, wire) ==> AllSent(db.Claim(MemberLedger(m)).claims, wire)
  {
  }

  lemma MemberSites(plan: Plan, v: Verdicts, m: string)
    ensures var script := MemberScript(plan, v, m);
      && |script| >= 2 && script[0] == Plain && script[1] == Plain
      && script == Plains(2) + (if m in plan.adopted then AdoptScript(plan.adopted[m])
                                else if plan.recovered == Some(m) then [NotedAfter, Plain]
                                else LiveScript(plan, v, m))
    ensures !Critical(Plain, Before) && !Critical(Plain, After)
  {
    hide AdoptScript, LiveScript;
  }

  lemma MemberFacts(plan: Plan, v: Verdicts, m: string)
    requires PlanOk(plan) && m in plan.members
    ensures Distinct(plan.members) && IdsUnique(plan.calls)
    ensures m in plan.adopted ==> Terminal(plan.adopted[m])
    ensures !plan.Live(m) ==> forall c :: c in plan.calls ==> c.model != m
    ensures plan.Live(m) ==> OneHealthCall(plan.calls, m)
    ensures !plan.Live(m) ==> MemberCalls(plan, v, m) == []
    ensures plan.Live(m) <==> m !in plan.adopted && plan.recovered != Some(m)
  {
    hide IdsUnique, OneHealthCall, Terminal;
  }

  lemma LedgerWellFormed(ledger: CampaignLedger)
    requires ledger.Valid()
    ensures ledger.db.WellFormed()
  {
  }
}
