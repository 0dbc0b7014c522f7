/** The campaign command from the `try` on: the member loop, the publish transaction and the
    recovery handler, under every fault schedule of the ledger. */
module CampaignCommand {
  import opened Ledger
  import opened Finite
  import opened Scripts
  import opened CampaignRows
  import opened CampaignScript
  import opened CampaignMembers

  // ---------------------------------------------------------------- the plan's steps

  function CallSteps(calls: seq<Call>): seq<string>
  {
    seq(|calls|, i requires 0 <= i < |calls| => calls[i].id)
  }

  function MemberSteps(members: seq<string>): seq<string>
  {
    seq(|members|, i requires 0 <= i < |members| => MEMBER_PREFIX + members[i])
  }

  /** The step ids of the task plan: orchestration, active calls, members, finalization. */
  function Steps(plan: Plan): seq<string>
  {
    [ORCHESTRATION] + CallSteps(plan.calls) + MemberSteps(plan.members) + [FINALIZE]
  }

  /** The result the checkpoint needs for one step id, if the command has it. */
  function StepResult(loc: Locals, step: string): Option<Evidence>
  {
    if step == ORCHESTRATION || step == FINALIZE then Some(OutcomeDigest)
    else if MEMBER_PREFIX <= step then
      var m := step[|MEMBER_PREFIX|..];
      if m in loc.digests then Some(loc.digests[m]) else None
    else if step in loc.evidence then Some(loc.evidence[step]) else None
  }

  /** A complete checkpoint: one entry per step, each the result of its own step. */
  ghost predicate CheckpointOf(plan: Plan, loc: Locals, entries: seq<(string, Evidence)>)
  {
    && |entries| == |Steps(plan)|
    && forall i :: 0 <= i < |entries| ==>
         entries[i].0 == Steps(plan)[i] && StepResult(loc, entries[i].0) == Some(entries[i].1)
  }

  /** Once every member is decided no step lacks a result, benchmark calls never run included. */
  lemma EveryStepHasResult(plan: Plan, rows: Rows, loc: Locals, step: string)
    requires PlanOk(plan) && Decided(plan, rows, loc, set m | m in plan.members)
    requires step in Steps(plan)
    ensures StepResult(loc, step).Some?
  {
    hide PassedRows, FailedRows, RecoveryRows, TerminalRows;
    if step in MemberSteps(plan.members) {
      var i :| 0 <= i < |plan.members| && step == MEMBER_PREFIX + plan.members[i];
      assert step[|MEMBER_PREFIX|..] == plan.members[i];
    } else if step in CallSteps(plan.calls) {
      var i :| 0 <= i < |plan.calls| && step == plan.calls[i].id;
      assert plan.calls[i] in plan.calls;
    }
  }

  /** No step id occurs twice, so the checkpoint is a function of the step. */
  lemma StepsDistinct(plan: Plan)
    requires PlanOk(plan)
    ensures Distinct(Steps(plan))
  {
    var calls, members := CallSteps(plan.calls), MemberSteps(plan.members);
    assert Distinct(calls) by {
      forall i, j | 0 <= i < j < |calls| ensures calls[i] != calls[j] {
        assert plan.calls[i] in plan.calls && plan.calls[j] in plan.calls;
      }
    }
    assert Distinct(members) by {
      forall i, j | 0 <= i < j < |members| ensures members[i] != members[j] {
        assert members[i][|MEMBER_PREFIX|..] == plan.members[i];
        assert members[j][|MEMBER_PREFIX|..] == plan.members[j];
      }
    }
    assert forall i :: 0 <= i < |members| ==> MEMBER_PREFIX <= members[i];
    assert forall i :: 0 <= i < |calls| ==> plan.calls[i] in plan.calls;
    assert !(MEMBER_PREFIX <= ORCHESTRATION) by { assert MEMBER_PREFIX[0] != ORCHESTRATION[0]; }
    assert !(MEMBER_PREFIX <= FINALIZE) by { assert MEMBER_PREFIX[0] != FINALIZE[0]; }
    assert ORCHESTRATION != FINALIZE by { assert ORCHESTRATION[0] != FINALIZE[0]; }
  }

  /** Collecting the step results; a missing one raises. */
  method StepResults(plan: Plan, loc: Locals) returns (r: Reply<seq<(string, Evidence)>>)
    ensures r.Ok? ==> CheckpointOf(plan, loc, r.value)
    ensures r.Ok? <==> forall step :: step in Steps(plan) ==> StepResult(loc, step).Some?
  {
    var steps := Steps(plan);
    var entries: seq<(string, Evidence)> := [];
    for i := 0 to |steps|
      invariant |entries| == i
      invariant forall j :: 0 <= j < i ==>
        entries[j].0 == steps[j] && StepResult(loc, steps[j]) == Some(entries[j].1)
    {
      var result := StepResult(loc, steps[i]);
      if result.None? {
        assert steps[i] in steps;
        return Raised;
      }
      entries := entries + [(steps[i], result.value)];
    }
    r := Ok(entries);
  }

  // ---------------------------------------------------------------- the member loop

  lemma PlanMembers(plan: Plan)
    requires PlanOk(plan)
    ensures |plan.members| >= 1 && Distinct(plan.members)
  {
  }

  method RunMembers(ledger: CampaignLedger, plan: Plan, v: Verdicts, loc0: Locals)
    returns (loc: Locals, raised: bool, m: string)
    requires ledger.Valid() && PlanOk(plan)
    requires Between(plan, v, ledger.db, ledger.wire, loc0, {})
    modifies ledger
    ensures ledger.Valid() && ledger.clock >= old(ledger.clock)
    ensures m in plan.members && loc.current == Some(m)
    ensures !raised ==> Between(plan, v, ledger.db, ledger.wire, loc, set x | x in plan.members)
    ensures !raised && AllSent(old(ledger.db.claims), old(ledger.wire)) ==> AllSent(ledger.db.claims, ledger.wire)
    ensures !raised ==> AllRecorded(plan, v, ledger.db.rows, plan.members)
    ensures raised ==> ledger.Faulted(old(ledger.clock), ledger.clock)
    ensures Interrupted(plan, v, ledger.db, ledger.wire, loc, m)
    ensures Transmitted(old(ledger.wire), ledger.wire, LoopCalls(plan, v, plan.members), raised)
    ensures Along(ledger, LoopScript(plan, v, plan.members), old(ledger.clock), raised,
                  Consistent(plan, ledger.db.rows, loc, m))
  {
    hide *;
    PlanMembers(plan);
    loc := loc0;
    raised := false;
    ghost var start := ledger.clock;
    ghost var ran := 0;
    ghost var done: set<string> := {};
    LoopScriptEmpty(plan, v);
    RecordedNone(plan, v, ledger.db.rows);
    TransmittedNone(ledger.wire, []);
    CleanEmpty(ledger.faults, start);
    var i := 0;
    m := plan.members[0];
    BetweenInterrupted(plan, v, ledger.db, ledger.wire, loc, loc, {}, m);
    while i < |plan.members|
      invariant 0 <= i <= |plan.members|
      invariant done == set j | 0 <= j < i :: plan.members[j]
      invariant ledger.Valid() && ran == |LoopScript(plan, v, plan.members[..i])|
      invariant ledger.clock == start + ran && Clean(ledger.faults, start, start + ran)
      invariant Between(plan, v, ledger.db, ledger.wire, loc, done)
      invariant Transmitted(old(ledger.wire), ledger.wire, LoopCalls(plan, v, plan.members[..i]), false)
      invariant AllSent(old(ledger.db.claims), old(ledger.wire)) ==> AllSent(ledger.db.claims, ledger.wire)
      invariant i > 0 ==> m == plan.members[i - 1] && loc.current == Some(m)
      invariant AllRecorded(plan, v, ledger.db.rows, plan.members[..i])
    {
      m := plan.members[i];
      MemberFresh(plan.members, i);
      ghost var at := ledger.clock;
      ghost var sent := ledger.wire;
      ghost var rows := ledger.db.rows;
      loc, raised := RunMember(ledger, plan, v, loc, done, m);
      TransmittedThen(old(ledger.wire), sent, ledger.wire, LoopCalls(plan, v, plan.members[..i]), MemberCalls(plan, v, m), raised);
      AlongAfter(ledger, LoopScript(plan, v, plan.members[..i]), MemberScript(plan, v, m), start, raised,
                 Consistent(plan, ledger.db.rows, loc, m));
      LoopScriptStep(plan, v, i);
      if raised {
        TransmittedLoop(plan, v, i + 1, old(ledger.wire), ledger.wire);
        AlongPrefix(ledger, plan, v, i + 1, start, Consistent(plan, ledger.db.rows, loc, m));
        FaultedLater(ledger, start, at);
        return;
      }
      AlongClean(ledger, LoopScript(plan, v, plan.members[..i + 1]), start, Consistent(plan, ledger.db.rows, loc, m));
      ran := |LoopScript(plan, v, plan.members[..i + 1])|;
      RecordedNext(plan, v, rows, ledger.db.rows, i);
      done := done + {m};
      i := i + 1;
    }
    assert plan.members[..i] == plan.members;
    assert done == set x | x in plan.members;
    BetweenInterrupted(plan, v, ledger.db, ledger.wire, loc, loc, done, m);
    AlongWhole(ledger, LoopScript(plan, v, plan.members), start, Consistent(plan, ledger.db.rows, loc, m));
  }

  /** The result rows of these members. */
  ghost predicate AllRecorded(plan: Plan, v: Verdicts, rows: Rows, members: seq<string>)
  {
    forall x :: x in members ==> Recorded(plan, v, rows, x)
  }

  lemma RecordedNone(plan: Plan, v: Verdicts, rows: Rows)
    ensures AllRecorded(plan, v, rows, plan.members[..0])
  {
  }

  lemma RecordedNext(plan: Plan, v: Verdicts, before: Rows, after: Rows, i: nat)
    requires Distinct(plan.members) && i < |plan.members| && AllRecorded(plan, v, before, plan.members[..i])
    requires Recorded(plan, v, after, plan.members[i]) && Elsewhere(before, after, plan.members[i])
    ensures AllRecorded(plan, v, after, plan.members[..i + 1])
  {
    hide Recorded, Elsewhere;
    forall x | x in plan.members[..i + 1]
      ensures Recorded(plan, v, after, x)
    {
      if x != plan.members[i] {
        assert x in plan.members[..i];
        RecordedElsewhere(plan, v, before, after, plan.members[i], x);
      }
    }
  }

  lemma RecordedLater(plan: Plan, v: Verdicts, rows: Rows, later: Rows)
    requires AllRecorded(plan, v, rows, plan.members) && SameResults(rows, later)
    ensures AllRecorded(plan, v, later, plan.members)
  {
    hide BenchmarksOf, HealthApproved, Good;
  }

  ghost predicate SameResults(rows: Rows, later: Rows)
  {
    later.health == rows.health && later.benchmark == rows.benchmark
  }

  lemma MemberFresh(members: seq<string>, i: nat)
    requires Distinct(members) && i < |members|
    ensures members[i] in members && members[i] !in set j | 0 <= j < i :: members[j]
  {
  }

  lemma LoopScriptEmpty(plan: Plan, v: Verdicts)
    ensures LoopScript(plan, v, plan.members[..0]) == [] && LoopCalls(plan, v, plan.members[..0]) == []
  {
  }

  lemma {:induction false} LoopCallsPrefix(plan: Plan, v: Verdicts, i: nat)
    requires i <= |plan.members|
    ensures LoopCalls(plan, v, plan.members[..i]) <= LoopCalls(plan, v, plan.members)
    decreases |plan.members| - i
  {
    hide MemberCalls, MemberScript;
    if i == |plan.members| {
      assert plan.members[..i] == plan.members;
    } else {
      LoopScriptStep(plan, v, i);
      LoopCallsPrefix(plan, v, i + 1);
    }
  }

  lemma TransmittedLoop(plan: Plan, v: Verdicts, i: nat, before: seq<Op>, wire: seq<Op>)
    requires i <= |plan.members| && Transmitted(before, wire, LoopCalls(plan, v, plan.members[..i]), true)
    ensures Transmitted(before, wire, LoopCalls(plan, v, plan.members), true)
  {
    hide LoopCalls;
    LoopCallsPrefix(plan, v, i);
    var part, all := LoopCalls(plan, v, plan.members[..i]), LoopCalls(plan, v, plan.members);
    TransmittedPart(before, wire, part, all[|part|..]);
    assert part + all[|part|..] == all;
  }

  lemma LoopScriptStep(plan: Plan, v: Verdicts, i: nat)
    requires i < |plan.members|
    ensures LoopScript(plan, v, plan.members[..i + 1])
         == LoopScript(plan, v, plan.members[..i]) + MemberScript(plan, v, plan.members[i])
    ensures LoopCalls(plan, v, plan.members[..i + 1])
         == LoopCalls(plan, v, plan.members[..i]) + MemberCalls(plan, v, plan.members[i])
  {
    hide MemberScript, MemberCalls;
    assert plan.members[..i + 1][..i] == plan.members[..i];
  }

  lemma {:induction false} LoopScriptPrefix(plan: Plan, v: Verdicts, i: nat)
    requires i <= |plan.members|
    ensures LoopScript(plan, v, plan.members[..i]) <= LoopScript(plan, v, plan.members)
    decreases |plan.members| - i
  {
    hide MemberScript;
    if i == |plan.members| {
      assert plan.members[..i] == plan.members;
    } else {
      LoopScriptStep(plan, v, i);
      LoopScriptPrefix(plan, v, i + 1);
    }
  }

  /** What raised among the first members raised in the whole loop. */
  lemma AlongPrefix(ledger: CampaignLedger, plan: Plan, v: Verdicts, i: nat, from: nat, consistent: bool)
    requires i <= |plan.members|
    requires Along(ledger, LoopScript(plan, v, plan.members[..i]), from, true, consistent)
    ensures Along(ledger, LoopScript(plan, v, plan.members), from, true, consistent)
  {
    hide LoopScript;
    LoopScriptPrefix(plan, v, i);
    AlongMore(ledger, LoopScript(plan, v, plan.members[..i]), LoopScript(plan, v, plan.members), from, consistent);
  }

  // ---------------------------------------------------------------- publishing

  /** The outcome of a completed member loop. */
  function CompletedOutcome(loc: Locals, claims: seq<Op>): Outcome
  {
    Outcome(if loc.failed == {} then OutcomePassed else OutcomeFailed,
            |loc.passed|, |loc.failed|, 0, |AttemptedBenchmarks(claims)|, |Attempted(claims)|)
  }

  /** The database accepts that outcome: its counts are the members' own rows, and the
      provider calls claimed are exactly the calls the rows account for. */
  lemma CompletedOutcomeAccepted(plan: Plan, v: Verdicts, db: Db<Op, Rows>, wire: seq<Op>, loc: Locals)
    requires PlanOk(plan) && Between(plan, v, db, wire, loc, set m | m in plan.members)
    ensures OutcomeAccepted(plan, db.rows, CompletedOutcome(loc, db.claims))
  {
    hide Attempted, AttemptedBenchmarks, ProviderSum, TestedSum, PassedRows, FailedRows, RecoveryRows, TerminalRows, WireOk, Judged, Owned;
    AttemptedWithinBudget(plan, db.claims);
    DistinctCardinality(plan.members);
    assert plan.members[0] in loc.passed + loc.failed;
  }

  /** One qualification event per member, in order, with the member's own verdict. */
  ghost predicate Qualified(members: seq<string>, loc: Locals, events: seq<(string, bool)>)
  {
    && |events| == |members|
    && forall i :: 0 <= i < |events| ==> events[i] == (members[i], members[i] in loc.passed)
  }

  /** Every event carries the verdict the plan and the evaluators call for. */
  ghost predicate ByVerdict(plan: Plan, v: Verdicts, events: seq<(string, bool)>)
  {
    && |events| == |plan.members|
    && forall i :: 0 <= i < |events| ==> events[i] == (plan.members[i], Passes(plan, v, plan.members[i]))
  }

  lemma QualifiedByVerdict(plan: Plan, v: Verdicts, loc: Locals, events: seq<(string, bool)>)
    requires Judged(plan, v, loc, set m | m in plan.members) && Qualified(plan.members, loc, events)
    ensures ByVerdict(plan, v, events)
  {
    hide Passes;
    forall i | 0 <= i < |events|
      ensures events[i] == (plan.members[i], Passes(plan, v, plan.members[i]))
    {
      assert plan.members[i] in set m | m in plan.members;
    }
  }

  /** Everything a normal exit leaves behind. */
  ghost predicate Published(plan: Plan, v: Verdicts, db: Db<Op, Rows>, loc: Locals)
  {
    && db.job == Succeeded && db.Settled() && 0 in db.receipts && db.receipts[0] == Completed
    && loc.passed !! loc.failed && loc.passed + loc.failed == (set m | m in plan.members)
    && db.rows.outcome == Some(CompletedOutcome(loc, db.claims))
    && OutcomeAccepted(plan, db.rows, CompletedOutcome(loc, db.claims))
    && Judged(plan, v, loc, set m | m in plan.members) && ByVerdict(plan, v, db.rows.qualifications)
    && db.rows.checkpoint.Some? && CheckpointOf(plan, loc, db.rows.checkpoint.value)
  }

  // ---------------------------------------------------------------- what a published run says

  /** The checkpoint, entry by entry: orchestration, then for every plan call its receipt if it
      was transmitted and that it was not run otherwise, then for every member the result of its
      deciding stage, then finalization. The deciding stage is the last adopted one, the health
      check of a recovered or unapproved member, and the benchmark of any other. */
  ghost predicate CheckpointSays(plan: Plan, v: Verdicts, wire: seq<Op>, entries: seq<(string, Evidence)>)
  {
    var n, k := |plan.calls|, |plan.members|;
    && |entries| == n + k + 2
    && entries[0] == (ORCHESTRATION, OutcomeDigest) && entries[n + k + 1] == (FINALIZE, OutcomeDigest)
    && (forall i :: 0 <= i < n ==> CallSays(plan.calls[i], wire, entries[1 + i]))
    && (forall i :: 0 <= i < k ==> MemberSays(plan, v, plan.members[i], entries[1 + n + i]))
  }

  ghost predicate CallSays(c: Call, wire: seq<Op>, entry: (string, Evidence))
  {
    entry == (c.id, if Provider(c) in wire then ReceiptEvidence(c.id) else NotRunHealthFailed(c.id))
  }

  ghost predicate MemberSays(plan: Plan, v: Verdicts, m: string, entry: (string, Evidence))
  {
    var approved := exists h :: h in plan.calls && h.model == m && h.kind == Health && v.approved(h);
    entry == (MEMBER_PREFIX + m, MemberResult(m,
      if m in plan.adopted && plan.adopted[m] != [] then plan.adopted[m][|plan.adopted[m]| - 1].stage
      else if plan.recovered != Some(m) && approved then Benchmark else Health))
  }

  /** The qualifications, member by member: an adopted one by its last result, a recovered one
      not, a live one if its health check was approved, all its trials were valid and its
      repetitions stable. */
  ghost predicate QualificationsSay(plan: Plan, v: Verdicts, events: seq<(string, bool)>)
  {
    |events| == |plan.members| && forall i :: 0 <= i < |events| ==> QualificationSays(plan, v, plan.members[i], events[i])
  }

  ghost predicate QualificationSays(plan: Plan, v: Verdicts, m: string, event: (string, bool))
  {
    && event.0 == m
    && (event.1 <==>
          if m in plan.adopted then plan.adopted[m] != [] && plan.adopted[m][|plan.adopted[m]| - 1].passed
          else
            && plan.recovered != Some(m)
            && (exists h :: h in plan.calls && h.model == m && h.kind == Health && v.approved(h))
            && (forall c :: c in plan.calls && c.model == m && c.kind == Benchmark ==> v.valid(c)) && v.stable(m))
  }

  /** The outcome counts the members as they are qualified and the calls as they went out. */
  ghost predicate OutcomeSays(plan: Plan, wire: seq<Op>, events: seq<(string, bool)>, o: Outcome)
  {
    && o.passed == |set m | m in plan.members && (m, true) in events|
    && o.failed == |plan.members| - o.passed && o.recovery == 0
    && o.status == (if o.failed == 0 then OutcomePassed else OutcomeFailed)
    && o.provider == |wire| && o.tested == |set op | op in wire && op.Provider? && op.call.kind == Benchmark|
  }

  /** The result rows, member by member: an adopted one repeats the parent's results without a
      call; a recovered one is a failed health check without a call; a live one accounts for
      its health call and, only if that was approved, for all its benchmark calls. */
  ghost predicate ResultsSay(plan: Plan, v: Verdicts, rows: Rows)
  {
    forall m :: m in plan.members ==> ResultSays(plan, v, rows, m)
  }

  ghost predicate ResultSays(plan: Plan, v: Verdicts, rows: Rows, m: string)
  {
    var approved := exists h :: h in plan.calls && h.model == m && h.kind == Health && v.approved(h);
    var good := (forall c :: c in plan.calls && c.model == m && c.kind == Benchmark ==> v.valid(c)) && v.stable(m);
    var trials := |set c | c in plan.calls && c.model == m && c.kind == Benchmark|;
    m in rows.health &&
    if m in plan.adopted then
      && rows.health[m] == Result(if Verdict(Health, true) in plan.adopted[m] then MemberPassed else MemberFailed, 0, 0)
      && (m in rows.benchmark <==> Verdict(Benchmark, true) in plan.adopted[m] || Verdict(Benchmark, false) in plan.adopted[m])
      && (m in rows.benchmark ==>
            rows.benchmark[m] == Result(if Verdict(Benchmark, true) in plan.adopted[m] then MemberPassed else MemberFailed, 0, 0))
    else if plan.recovered == Some(m) then rows.health[m] == Result(MemberFailed, 0, 0) && m !in rows.benchmark
    else
      && rows.health[m] == Result(if approved then MemberPassed else MemberFailed, 0, 1)
      && (m in rows.benchmark <==> approved)
      && (m in rows.benchmark ==> rows.benchmark[m] == Result(if good then MemberPassed else MemberFailed, trials, trials))
  }

  lemma ResultsSaid(plan: Plan, v: Verdicts, rows: Rows)
    requires PlanOk(plan) && AllRecorded(plan, v, rows, plan.members)
    ensures ResultsSay(plan, v, rows)
  {
    hide Recorded, ResultSays;
    forall m | m in plan.members
      ensures ResultSays(plan, v, rows, m)
    {
      ResultSaid(plan, v, rows, m);
    }
  }

  lemma ResultSaid(plan: Plan, v: Verdicts, rows: Rows, m: string)
    requires m in plan.members && Distinct(plan.calls) && Recorded(plan, v, rows, m)
    requires m in plan.adopted ==> Terminal(plan.adopted[m])
    ensures ResultSays(plan, v, rows, m)
  {
    BenchmarksCounted(plan.calls, m);
    if m in plan.adopted {
      AdoptedSaid(plan, v, rows, m);
    }
    hide BenchmarksOf;
  }

  lemma AdoptedSaid(plan: Plan, v: Verdicts, rows: Rows, m: string)
    requires m in plan.adopted && Terminal(plan.adopted[m]) && Recorded(plan, v, rows, m)
    ensures ResultSays(plan, v, rows, m)
  {
    var results := plan.adopted[m];
    if |results| == 2 {
      assert results == [Verdict(Health, true), Verdict(Benchmark, results[1].passed)];
    }
    assert HasResult(rows, m, results[0].stage, Result(Standing(results[0].passed), 0, 0));
    hide BenchmarksOf, HealthApproved, Good;
  }

  lemma BenchmarksCounted(calls: seq<Call>, m: string)
    requires Distinct(calls)
    ensures |BenchmarksOf(calls, m)| == |set c | c in calls && c.model == m && c.kind == Benchmark|
  {
    BenchmarksOfExact(calls, m);
    hide BenchmarksOf;
    DistinctCardinality(BenchmarksOf(calls, m));
    assert (set c | c in BenchmarksOf(calls, m)) == set c | c in calls && c.model == m && c.kind == Benchmark;
  }

  ghost predicate Accounted(plan: Plan, v: Verdicts, wire: seq<Op>, rows: Rows)
  {
    && rows.checkpoint.Some? && CheckpointSays(plan, v, wire, rows.checkpoint.value)
    && ResultsSay(plan, v, rows) && QualificationsSay(plan, v, rows.qualifications)
    && rows.outcome.Some? && OutcomeSays(plan, wire, rows.qualifications, rows.outcome.value)
  }

  lemma SentExact(calls: seq<Call>, c: Call)
    ensures Provider(c) in Sent(calls) <==> c in calls
  {
    if c in calls {
      var i :| 0 <= i < |calls| && calls[i] == c;
      assert Sent(calls)[i] == Provider(c);
    }
  }

  /** Transmitted are exactly the health calls and, of approved members, the benchmark calls. */
  lemma MemberCallsExact(plan: Plan, v: Verdicts, m: string, c: Call)
    requires c in plan.calls
    ensures Provider(c) in MemberCalls(plan, v, m) <==>
      c.model == m && plan.Live(m) && (c.kind == Health || HealthApproved(plan, v, m))
  {
    OfKindExact(plan.calls, m, Health);
    OfKindExact(plan.calls, m, Benchmark);
    SentExact(OfKind(plan.calls, m, Health), c);
    SentExact(OfKind(plan.calls, m, Benchmark), c);
    hide Sent, OfKind, HealthApproved;
  }

  lemma {:induction false} LoopCallsExact(plan: Plan, v: Verdicts, members: seq<string>, c: Call)
    requires c in plan.calls
    ensures Provider(c) in LoopCalls(plan, v, members) <==>
      c.model in members && plan.Live(c.model) && (c.kind == Health || HealthApproved(plan, v, c.model))
  {
    hide MemberCalls, HealthApproved;
    if members != [] {
      var init, m := members[..|members| - 1], members[|members| - 1];
      assert members == init + [m];
      LoopCallsExact(plan, v, init, c);
      MemberCallsExact(plan, v, m, c);
    }
  }

  lemma CallsSaid(plan: Plan, v: Verdicts, wire: seq<Op>, loc: Locals, entries: seq<(string, Evidence)>, i: nat)
    requires PlanOk(plan) && CheckpointOf(plan, loc, entries) && i < |plan.calls|
    requires Judged(plan, v, loc, set m | m in plan.members) && wire == LoopCalls(plan, v, plan.members)
    ensures |entries| == |plan.calls| + |plan.members| + 2 && CallSays(plan.calls[i], wire, entries[1 + i])
  {
    var c := plan.calls[i];
    assert c in plan.calls && plan.Live(c.model);
    LoopCallsExact(plan, v, plan.members, c);
    assert Known(plan, v, loc, c.model);
    hide PlanOk, Judged, Known, LoopCalls, HealthApproved, Passes;
    assert Steps(plan)[1 + i] == c.id;
    CallStep(plan, c, loc);
  }

  lemma CallStep(plan: Plan, c: Call, loc: Locals)
    requires PlanOk(plan) && c in plan.calls
    ensures StepResult(loc, c.id) == if c.id in loc.evidence then Some(loc.evidence[c.id]) else None
  {
  }

  lemma MembersSaid(plan: Plan, v: Verdicts, loc: Locals, entries: seq<(string, Evidence)>, i: nat)
    requires CheckpointOf(plan, loc, entries) && i < |plan.members|
    requires Judged(plan, v, loc, set m | m in plan.members)
    ensures |entries| == |plan.calls| + |plan.members| + 2
    ensures MemberSays(plan, v, plan.members[i], entries[1 + |plan.calls| + i])
  {
    var m := plan.members[i];
    assert m in set x | x in plan.members;
    assert loc.digests[m] == MemberResult(m, StageOf(plan, v, m));
    hide Judged;
    assert Steps(plan)[1 + |plan.calls| + i] == MEMBER_PREFIX + m;
    MemberStep(m, loc);
  }

  lemma MemberStep(m: string, loc: Locals)
    ensures StepResult(loc, MEMBER_PREFIX + m) == if m in loc.digests then Some(loc.digests[m]) else None
  {
    var step := MEMBER_PREFIX + m;
    assert MEMBER_PREFIX[0] != ORCHESTRATION[0] && MEMBER_PREFIX[0] != FINALIZE[0];
    assert step[0] == MEMBER_PREFIX[0] && step[|MEMBER_PREFIX|..] == m;
  }

  lemma EdgesSaid(plan: Plan, loc: Locals, entries: seq<(string, Evidence)>)
    requires CheckpointOf(plan, loc, entries)
    ensures var last := |plan.calls| + |plan.members| + 1;
      |entries| == last + 1 && entries[0] == (ORCHESTRATION, OutcomeDigest) && entries[last] == (FINALIZE, OutcomeDigest)
  {
    var last := |plan.calls| + |plan.members| + 1;
    assert Steps(plan)[0] == ORCHESTRATION && Steps(plan)[last] == FINALIZE;
    hide Steps;
  }

  lemma CheckpointSaid(plan: Plan, v: Verdicts, wire: seq<Op>, loc: Locals, entries: seq<(string, Evidence)>)
    requires PlanOk(plan) && CheckpointOf(plan, loc, entries)
    requires Judged(plan, v, loc, set m | m in plan.members) && wire == LoopCalls(plan, v, plan.members)
    ensures CheckpointSays(plan, v, wire, entries)
  {
    hide PlanOk, Judged, LoopCalls, MemberSays, CallSays, CheckpointOf;
    var n, k := |plan.calls|, |plan.members|;
    EdgesSaid(plan, loc, entries);
    forall i | 0 <= i < n
      ensures CallSays(plan.calls[i], wire, entries[1 + i])
    {
      CallsSaid(plan, v, wire, loc, entries, i);
    }
    forall i | 0 <= i < k
      ensures MemberSays(plan, v, plan.members[i], entries[1 + n + i])
    {
      MembersSaid(plan, v, loc, entries, i);
    }
  }

  lemma QualificationsSaid(plan: Plan, v: Verdicts, events: seq<(string, bool)>)
    requires ByVerdict(plan, v, events)
    ensures QualificationsSay(plan, v, events)
  {
  }

  lemma PassedCounted(plan: Plan, v: Verdicts, loc: Locals, events: seq<(string, bool)>)
    requires Judged(plan, v, loc, set m | m in plan.members) && ByVerdict(plan, v, events) && Distinct(plan.members)
    requires loc.passed !! loc.failed && loc.passed + loc.failed == (set m | m in plan.members)
    ensures loc.passed == set m | m in plan.members && (m, true) in events
    ensures |loc.passed| + |loc.failed| == |plan.members| && (loc.failed == {} <==> |loc.failed| == 0)
  {
    hide Passes, Evident;
    DistinctCardinality(plan.members);
    assert |loc.passed + loc.failed| == |loc.passed| + |loc.failed|;
    forall m
      ensures m in loc.passed <==> m in plan.members && (m, true) in events
    {
      if m in loc.passed {
        assert m in loc.passed + loc.failed;
        var i :| 0 <= i < |plan.members| && plan.members[i] == m;
        assert events[i] == (m, true);
      }
      if m in plan.members && (m, true) in events {
        var i :| 0 <= i < |events| && events[i] == (m, true);
        assert Passes(plan, v, m) && m in set x | x in plan.members;
      }
    }
  }

  /** Provider claims that have all been sent are counted by the wire. */
  lemma SentCounted(plan: Plan, claims: seq<Op>, wire: seq<Op>)
    requires IdsUnique(plan.calls) && ClaimsInPlan(plan, claims) && AllSent(claims, wire)
    requires Distinct(wire) && forall op :: op in wire ==> op in claims && op.Provider?
    ensures |Attempted(claims)| == |wire|
    ensures |AttemptedBenchmarks(claims)| == |set op | op in wire && op.Provider? && op.call.kind == Benchmark|
  {
    var all, tested := set op | op in wire, set op | op in wire && op.Provider? && op.call.kind == Benchmark;
    DistinctCardinality(wire);
    forall id
      ensures id in Attempted(claims) <==> exists op :: op in all && op.call.id == id
      ensures id in AttemptedBenchmarks(claims) <==> exists op :: op in tested && op.call.id == id
    {
      AttemptedFrom(claims, id);
    }
    SameIds(plan, all, Attempted(claims));
    SameIds(plan, tested, AttemptedBenchmarks(claims));
  }

  lemma {:induction false} SameIds(plan: Plan, ops: set<Op>, ids: set<string>)
    requires IdsUnique(plan.calls) && forall op :: op in ops ==> op.Provider? && op.call in plan.calls
    requires forall id :: id in ids <==> exists op :: op in ops && op.call.id == id
    ensures |ids| == |ops|
    decreases |ops|
  {
    if ops == {} {
      assert ids == {};
    } else {
      var op :| op in ops;
      var fewer := ids - {op.call.id};
      forall id
        ensures id in fewer <==> exists x :: x in ops - {op} && x.call.id == id
      {
        if id in fewer {
          var x :| x in ops && x.call.id == id;
          assert x in ops - {op};
        }
      }
      SameIds(plan, ops - {op}, fewer);
      assert op.call.id in ids;
    }
  }

  /** A published run says what happened. */
  lemma PublishedAccounts(plan: Plan, v: Verdicts, db: Db<Op, Rows>, wire: seq<Op>, loc: Locals)
    requires PlanOk(plan) && Published(plan, v, db, loc) && ClaimsInPlan(plan, db.claims) && AllSent(db.claims, wire)
    requires Distinct(wire) && (forall op :: op in wire ==> op in db.claims) && WireOk(plan, v, wire)
    requires Transmitted([], wire, LoopCalls(plan, v, plan.members), false) && AllRecorded(plan, v, db.rows, plan.members)
    ensures Accounted(plan, v, wire, db.rows)
  {
    assert wire == LoopCalls(plan, v, plan.members);
    ResultsSaid(plan, v, db.rows);
    hide Judged, ByVerdict, CheckpointOf, LoopCalls, OutcomeAccepted, CheckpointSays, QualificationsSay, ResultsSay, AllRecorded;
    CheckpointSaid(plan, v, wire, loc, db.rows.checkpoint.value);
    QualificationsSaid(plan, v, db.rows.qualifications);
    PassedCounted(plan, v, loc, db.rows.qualifications);
    SentCounted(plan, db.claims, wire);
  }

  /** No terminal marker of success anywhere. */
  ghost predicate Unpublished(db: Db<Op, Rows>)
  {
    && db.job != Succeeded
    && (0 in db.receipts ==> db.receipts[0] == Failed)
    && db.rows.qualifications == [] && db.rows.checkpoint == None
    && (db.rows.outcome.Some? ==> db.rows.outcome.value.status == OutcomeRecovery)
  }

  /** The outcome row; a row the constructor or the trigger rejects raises. */
  method RecordOutcome(ledger: CampaignLedger, plan: Plan, o: Outcome) returns (raised: bool)
    requires ledger.Valid() && ledger.db.rows.outcome == None
    modifies ledger`db, ledger`clock
    ensures ledger.Valid() && ledger.clock == old(ledger.clock) + 1
    ensures raised <==> ledger.faults(old(ledger.clock)) != NoFault || !OutcomeAccepted(plan, old(ledger.db.rows), o)
    ensures !raised ==> ledger.db == old(ledger.db).(rows := old(ledger.db.rows).(outcome := Some(o)))
    ensures ledger.db.claims == old(ledger.db.claims)
  {
    if OutcomeAccepted(plan, ledger.db.rows, o) {
      raised := ledger.Write(ledger.db.rows.(outcome := Some(o)));
    } else {
      raised := ledger.Step();
      raised := true;
    }
  }

  /** One qualification event per member; an event whose aggregate and reason disagree raises. */
  method RecordQualifications(ledger: CampaignLedger, plan: Plan, loc: Locals) returns (raised: bool)
    requires ledger.Valid() && ledger.db.rows.qualifications == []
    requires loc.passed !! loc.failed && loc.passed + loc.failed == (set m | m in plan.members)
    modifies ledger`db, ledger`clock
    ensures ledger.Valid() && ledger.clock >= old(ledger.clock)
    ensures raised <==> ledger.Faulted(old(ledger.clock), ledger.clock)
    ensures ledger.db == old(ledger.db).(rows := old(ledger.db.rows).(qualifications := ledger.db.rows.qualifications))
    ensures !raised ==> Qualified(plan.members, loc, ledger.db.rows.qualifications)
  {
    var i := 0;
    raised := false;
    while i < |plan.members|
      invariant 0 <= i <= |plan.members| && ledger.Valid() && ledger.clock == old(ledger.clock) + i && !raised
      invariant !ledger.Faulted(old(ledger.clock), ledger.clock)
      invariant ledger.db == old(ledger.db).(rows := old(ledger.db.rows).(qualifications := ledger.db.rows.qualifications))
      invariant Qualified(plan.members[..i], loc, ledger.db.rows.qualifications)
    {
      var m := plan.members[i];
      var qualified := m in loc.passed;
      assert m in loc.passed + loc.failed;
      if qualified == (m in loc.failed) {
        assert false;
      }
      raised := ledger.Write(ledger.db.rows.(qualifications := ledger.db.rows.qualifications + [(m, qualified)]));
      if raised {
        return;
      }
      i := i + 1;
    }
    assert plan.members[..i] == plan.members;
  }

  /** The rows of the publish transaction. */
  method PublishRows(ledger: CampaignLedger, plan: Plan, loc: Locals) returns (raised: bool)
    requires ledger.Valid()
    requires ledger.db.rows.outcome == None && ledger.db.rows.qualifications == []
    requires OutcomeAccepted(plan, ledger.db.rows, CompletedOutcome(loc, ledger.db.claims))
    requires loc.passed !! loc.failed && loc.passed + loc.failed == (set m | m in plan.members)
    requires forall step :: step in Steps(plan) ==> StepResult(loc, step).Some?
    modifies ledger`db, ledger`clock
    ensures ledger.Valid() && ledger.clock >= old(ledger.clock)
    ensures raised <==> ledger.Faulted(old(ledger.clock), ledger.clock)
    ensures ledger.db.claims == old(ledger.db.claims)
    ensures !raised ==>
      && ledger.db == old(ledger.db).(rows := ledger.db.rows)
      && ledger.db.rows.health == old(ledger.db.rows.health) && ledger.db.rows.benchmark == old(ledger.db.rows.benchmark)
      && ledger.db.rows.outcome == Some(CompletedOutcome(loc, ledger.db.claims))
      && Qualified(plan.members, loc, ledger.db.rows.qualifications)
      && ledger.db.rows.checkpoint.Some? && CheckpointOf(plan, loc, ledger.db.rows.checkpoint.value)
  {
    hide Steps, StepResult, OutcomeAccepted, CompletedOutcome, CheckpointOf, Qualified;
    raised := RecordOutcome(ledger, plan, CompletedOutcome(loc, ledger.db.claims));
    if raised {
      return;
    }
    raised := RecordQualifications(ledger, plan, loc);
    if raised {
      return;
    }
    var entries := StepResults(plan, loc);
    raised := ledger.Write(ledger.db.rows.(checkpoint := Some(entries.value)));
  }

  /** The statements of the publish transaction. */
  method PublishBody(ledger: CampaignLedger, plan: Plan, v: Verdicts, loc: Locals) returns (raised: bool)
    requires ledger.Valid() && PlanOk(plan)
    requires Between(plan, v, ledger.db, ledger.wire, loc, set m | m in plan.members)
    modifies ledger`db, ledger`clock
    ensures ledger.Valid() && ledger.clock >= old(ledger.clock)
    ensures ledger.db.claims == old(ledger.db.claims)
    ensures raised <==> ledger.Faulted(old(ledger.clock), ledger.clock)
    ensures !raised ==> Published(plan, v, ledger.db, loc) && SameResults(old(ledger.db.rows), ledger.db.rows)
  {
    hide Between, PlanOk, Steps, StepResult, OutcomeAccepted, CompletedOutcome, CheckpointOf, Qualified, Judged, ByVerdict;
    PublishReady(plan, v, ledger.db, ledger.wire, loc);
    raised := PublishRows(ledger, plan, loc);
    if raised {
      return;
    }
    OutcomeReadsResults(plan, old(ledger.db.rows), ledger.db.rows, CompletedOutcome(loc, ledger.db.claims));
    QualifiedByVerdict(plan, v, loc, ledger.db.rows.qualifications);
    raised := ledger.RecordReceipt(0, Completed);
    if raised {
      return;
    }
    var closed := ledger.Finish(Succeeded);
    raised := closed.Raised? || !closed.value;
  }

  lemma OutcomeReadsResults(plan: Plan, rows: Rows, later: Rows, o: Outcome)
    requires rows.health == later.health && rows.benchmark == later.benchmark
    ensures OutcomeAccepted(plan, rows, o) <==> OutcomeAccepted(plan, later, o)
  {
    assert PassedRows(plan.members, rows) == PassedRows(plan.members, later);
    assert FailedRows(plan.members, rows) == FailedRows(plan.members, later);
    assert RecoveryRows(plan.members, rows) == RecoveryRows(plan.members, later);
    assert TerminalRows(plan.members, rows) == TerminalRows(plan.members, later);
    SumsUnchanged(plan.members, rows, later);
  }

  lemma PublishReady(plan: Plan, v: Verdicts, db: Db<Op, Rows>, wire: seq<Op>, loc: Locals)
    requires PlanOk(plan) && Between(plan, v, db, wire, loc, set m | m in plan.members)
    ensures OutcomeAccepted(plan, db.rows, CompletedOutcome(loc, db.claims))
    ensures loc.passed !! loc.failed && loc.passed + loc.failed == (set m | m in plan.members)
    ensures Judged(plan, v, loc, set m | m in plan.members)
    ensures forall step :: step in Steps(plan) ==> StepResult(loc, step).Some?
    ensures db.job == Running && 0 < |db.claims|
    ensures forall i :: 0 <= i < |db.claims| ==> (i in db.receipts <==> i != 0)
    ensures db.rows.outcome == None && db.rows.qualifications == [] && db.rows.checkpoint == None
  {
    hide PassedRows, FailedRows, RecoveryRows, TerminalRows, ProviderSum, TestedSum, Attempted, AttemptedBenchmarks,
      OutcomeAccepted, CompletedOutcome, Passes;
    CompletedOutcomeAccepted(plan, v, db, wire, loc);
    forall step | step in Steps(plan)
      ensures StepResult(loc, step).Some?
    {
      EveryStepHasResult(plan, db.rows, loc, step);
    }
  }

  /** Outcome, qualifications, checkpoint, receipt and job close are one publish boundary. */
  method Publish(ledger: CampaignLedger, plan: Plan, v: Verdicts, loc: Locals) returns (raised: bool)
    requires ledger.Valid() && PlanOk(plan)
    requires Between(plan, v, ledger.db, ledger.wire, loc, set m | m in plan.members)
    modifies ledger
    ensures ledger.Valid() && ledger.clock >= old(ledger.clock) && ledger.wire == old(ledger.wire)
    ensures ledger.db == old(ledger.db) || Published(plan, v, ledger.db, loc)
    ensures SameResults(old(ledger.db.rows), ledger.db.rows)
    ensures ledger.db.claims == old(ledger.db.claims)
    ensures !raised ==> Published(plan, v, ledger.db, loc)
    ensures raised <==> ledger.Faulted(old(ledger.clock), ledger.clock)
  {
    hide Between, PlanOk, Published;
    var saved := ledger.db;
    raised := PublishBody(ledger, plan, v, loc);
    if raised {
      ledger.Rollback(saved);
    } else {
      raised := ledger.Commit(saved);
    }
  }

  /** The publish transaction and the statement that commits the caller's own. */
  method PublishAndCommit(ledger: CampaignLedger, plan: Plan, v: Verdicts, loc: Locals) returns (raised: bool)
    requires ledger.Valid() && PlanOk(plan)
    requires Between(plan, v, ledger.db, ledger.wire, loc, set m | m in plan.members)
    modifies ledger
    ensures ledger.Valid() && ledger.clock >= old(ledger.clock) && ledger.wire == old(ledger.wire)
    ensures ledger.db == old(ledger.db) || Published(plan, v, ledger.db, loc)
    ensures SameResults(old(ledger.db.rows), ledger.db.rows)
    ensures ledger.db.claims == old(ledger.db.claims)
    ensures !raised ==> Published(plan, v, ledger.db, loc)
    ensures raised <==> ledger.Faulted(old(ledger.clock), ledger.clock)
  {
    hide Between, PlanOk, Published;
    raised := Publish(ledger, plan, v, loc);
    if !raised {
      raised := ledger.Step();
    }
  }

  // ---------------------------------------------------------------- the recovery handler

  /** Sealing: every pending claim gets a failure receipt and the job is recovery-required. */
  ghost predicate SealedFrom(before: Db<Op, Rows>, after: Db<Op, Rows>)
  {
    && before.job == Running && after.job == RecoveryRequired
    && after.claims == before.claims && after.rows == before.rows
    && after.Settled()
    && (forall i :: i in before.receipts ==> i in after.receipts && after.receipts[i] == before.receipts[i])
    && (forall i :: i in after.receipts && i !in before.receipts ==> after.receipts[i] == Failed)
  }

  /** The handler's first transaction. It commits on a running job, and raises only when the
      job is closed already or one of its own statements raised. */
  method Seal(ledger: CampaignLedger) returns (raised: bool)
    requires ledger.Valid()
    modifies ledger
    ensures ledger.Valid() && ledger.clock >= old(ledger.clock) && ledger.wire == old(ledger.wire)
    ensures ledger.db == old(ledger.db) || SealedFrom(old(ledger.db), ledger.db)
    ensures !raised ==> SealedFrom(old(ledger.db), ledger.db)
    ensures raised <==> ledger.Faulted(old(ledger.clock), ledger.clock) || old(ledger.db.job) != Running
  {
    var saved := ledger.db;
    raised := false;
    var i := 0;
    while i < |ledger.db.claims| && !raised
      invariant 0 <= i <= |saved.claims| && ledger.Valid() && ledger.wire == old(ledger.wire)
      invariant ledger.clock >= old(ledger.clock) && (raised <==> ledger.Faulted(old(ledger.clock), ledger.clock))
      invariant ledger.db == saved.(receipts := ledger.db.receipts)
      invariant forall j :: 0 <= j < i && !raised ==> j in ledger.db.receipts
      invariant forall j :: j in saved.receipts ==> j in ledger.db.receipts && ledger.db.receipts[j] == saved.receipts[j]
      invariant forall j :: j in ledger.db.receipts && j !in saved.receipts ==> ledger.db.receipts[j] == Failed
    {
      if i !in ledger.db.receipts {
        raised := ledger.RecordReceipt(i, Failed);
      }
      i := i + 1;
    }
    if !raised {
      var closed := ledger.Finish(RecoveryRequired);
      raised := closed.Raised? || !closed.value;
    }
    if raised {
      ledger.Rollback(saved);
    } else {
      raised := ledger.Commit(saved);
    }
  }

  /** What the interrupted member loop knows about its verdicts: `Interrupted` without the
      ledger part. */
  ghost predicate Standings(plan: Plan, claims: seq<Op>, rows: Rows, loc: Locals, m: string)
  {
    && ClaimsInPlan(plan, claims) && Distinct(plan.members)
    && m in plan.members && loc.passed !! loc.failed
    && (forall x :: x in loc.passed + loc.failed ==> x in plan.members)
    && loc.passed - {m} == PassedRows(plan.members, rows) - {m}
    && loc.failed - {m} == FailedRows(plan.members, rows) - {m}
    && ProviderSum(plan.members, rows) <= |Attempted(claims)|
    && TestedSum(plan.members, rows) <= |AttemptedBenchmarks(claims)|
  }

  function RecoveryCount(plan: Plan, loc: Locals): nat
  {
    var pending := |plan.members| - |loc.passed| - |loc.failed|;
    if pending < 1 then 1 else pending
  }

  function RecoveryOutcome(plan: Plan, loc: Locals, claims: seq<Op>): Outcome
  {
    Outcome(OutcomeRecovery, |loc.passed|, |loc.failed|, RecoveryCount(plan, loc),
            |AttemptedBenchmarks(claims)|, |Attempted(claims)|)
  }

  /** Of a run that was not published: with the recovery outcome every recovery row is there
      beside the rows of the member loop, without it none. */
  ghost predicate ProjectedAtMost(plan: Plan, db: Db<Op, Rows>, loc: Locals)
  {
    if db.rows.outcome.Some? then
      && db.rows.outcome == Some(RecoveryOutcome(plan, loc, db.claims))
      && exists before :: LoopRows(before) && Projected(plan.members, loc, before, db.rows)
    else LoopRows(db.rows)
  }

  /** Whatever way a run ended, its outcome row counts the provider calls it claimed. */
  lemma OutcomeCountsAttempts(plan: Plan, v: Verdicts, db: Db<Op, Rows>, loc: Locals)
    requires Published(plan, v, db, loc) || ProjectedAtMost(plan, db, loc)
    ensures db.rows.outcome.Some? ==> db.rows.outcome.value.provider == |Attempted(db.claims)|
  {
  }

  lemma OffByOneElement<T>(a: set<T>, b: set<T>, x: T)
    requires a - {x} == b - {x}
    ensures |a| == |b| <==> (x in a <==> x in b)
  {
    assert x in a ==> a == (a - {x}) + {x};
    assert x !in a ==> a == a - {x};
    assert x in b ==> b == (b - {x}) + {x};
    assert x !in b ==> b == b - {x};
  }

  /** The recovery outcome is accepted exactly when the interrupted member's local verdict
      and durable rows agree. */
  lemma RecoveryOutcomeAccepted(plan: Plan, claims: seq<Op>, rows: Rows, loc: Locals, m: string)
    requires Standings(plan, claims, rows, loc, m)
    ensures OutcomeAccepted(plan, rows, RecoveryOutcome(plan, loc, claims)) <==> Consistent(plan, rows, loc, m)
  {
    OffByOneElement(loc.passed, PassedRows(plan.members, rows), m);
    OffByOneElement(loc.failed, FailedRows(plan.members, rows), m);
    AttemptedWithinBudget(plan, claims);
    hide Attempted, AttemptedBenchmarks, ProviderSum, TestedSum, PassedRows, FailedRows;
  }

  /** The three counts cover the members: exactly when someone is undecided, else by one more. */
  lemma RecoveryCountsCover(plan: Plan, claims: seq<Op>, rows: Rows, loc: Locals, m: string)
    requires Standings(plan, claims, rows, loc, m)
    ensures var undecided := exists x :: x in plan.members && x !in loc.passed && x !in loc.failed;
            |loc.passed| + |loc.failed| + RecoveryCount(plan, loc)
            == if undecided then |plan.members| else |plan.members| + 1
  {
    hide PassedRows, FailedRows, ProviderSum, TestedSum, Attempted, AttemptedBenchmarks, ClaimsInPlan;
    DecidedCount(plan.members, loc.passed, loc.failed);
  }

  lemma DecidedCount(members: seq<string>, passed: set<string>, failed: set<string>)
    requires Distinct(members) && passed !! failed && forall x :: x in passed + failed ==> x in members
    ensures |passed| + |failed| <= |members|
    ensures |passed| + |failed| < |members| <==> exists x :: x in members && x !in passed && x !in failed
  {
    var all := set x | x in members;
    var decided := passed + failed;
    DistinctCardinality(members);
    assert |decided| == |passed| + |failed|;
    assert all == decided + (all - decided) && |all| == |decided| + |all - decided|;
    if x :| x in members && x !in passed && x !in failed {
      assert x in all - decided;
    } else {
      assert all - decided == {};
    }
  }

  /** Where the handler writes a recovery row for member `x`, if anywhere. */
  function RecoveryStage(rows: Rows, loc: Locals, x: string): Option<Kind>
  {
    if x in rows.benchmark || rows.HealthIs(x, MemberFailed) || rows.HealthIs(x, MemberRecovery) then None
    else if loc.current == Some(x) && loc.planStored && rows.HealthIs(x, MemberPassed) then Some(Benchmark)
    else if x !in rows.health then Some(Health)
    else None
  }

  lemma RecoveryRowNeutral(plan: Plan, rows: Rows, loc: Locals, x: string)
    requires Distinct(plan.members) && x in plan.members && RecoveryStage(rows, loc, x).Some?
    ensures var next := rows.With(x, RecoveryStage(rows, loc, x).value, Result(MemberRecovery, 0, 0));
            && PassedRows(plan.members, next) == PassedRows(plan.members, rows)
            && FailedRows(plan.members, next) == FailedRows(plan.members, rows)
            && ProviderSum(plan.members, next) == ProviderSum(plan.members, rows)
            && TestedSum(plan.members, next) == TestedSum(plan.members, rows)
  {
    SumsGrow(plan.members, rows, x, RecoveryStage(rows, loc, x).value, Result(MemberRecovery, 0, 0));
  }

  /** The recovery rows of these members: a health row for one without any row; a benchmark row
      for the current one, once its plan is stored and its health check passed; every other row
      is as it was. */
  ghost predicate Projected(members: seq<string>, loc: Locals, before: Rows, after: Rows)
  {
    HealthProjected(members, before, after.health) && BenchmarkProjected(members, loc, before, after.benchmark)
  }

  ghost predicate HealthProjected(members: seq<string>, before: Rows, health: map<string, Result>)
  {
    forall x :: var pending := x in members && x !in before.health && x !in before.benchmark;
      && (x in health <==> x in before.health || pending)
      && (x in health ==> health[x] == if pending then Result(MemberRecovery, 0, 0) else before.health[x])
  }

  ghost predicate BenchmarkProjected(members: seq<string>, loc: Locals, before: Rows, benchmark: map<string, Result>)
  {
    forall x :: var pending := x in members && loc.current == Some(x) && loc.planStored
                               && before.HealthIs(x, MemberPassed) && x !in before.benchmark;
      && (x in benchmark <==> x in before.benchmark || pending)
      && (x in benchmark ==> benchmark[x] == if pending then Result(MemberRecovery, 0, 0) else before.benchmark[x])
  }

  lemma ProjectedNone(loc: Locals, rows: Rows)
    ensures Projected([], loc, rows, rows)
  {
  }

  lemma ProjectedNext(members: seq<string>, m: string, loc: Locals, before: Rows, rows: Rows)
    requires Projected(members, loc, before, rows) && m !in members
    ensures var stage := RecoveryStage(rows, loc, m);
      Projected(members + [m], loc, before,
                if stage.Some? then rows.With(m, stage.value, Result(MemberRecovery, 0, 0)) else rows)
  {
    var stage := RecoveryStage(rows, loc, m);
    StageMeans(members, m, loc, before, rows);
    hide RecoveryStage, HealthProjected, BenchmarkProjected;
    HealthNext(members, m, before, rows.health);
    BenchmarkNext(members, m, loc, before, rows.benchmark);
  }

  lemma StageMeans(members: seq<string>, m: string, loc: Locals, before: Rows, rows: Rows)
    requires Projected(members, loc, before, rows) && m !in members
    ensures var stage := RecoveryStage(rows, loc, m);
      && (stage == Some(Health) <==> m !in before.health && m !in before.benchmark)
      && (stage == Some(Benchmark) <==>
            loc.current == Some(m) && loc.planStored && before.HealthIs(m, MemberPassed) && m !in before.benchmark)
  {
    assert m in rows.health <==> m in before.health;
    assert m in rows.benchmark <==> m in before.benchmark;
  }

  lemma HealthNext(members: seq<string>, m: string, before: Rows, health: map<string, Result>)
    requires HealthProjected(members, before, health) && m !in members
    ensures HealthProjected(members + [m], before,
              if m !in before.health && m !in before.benchmark then health[m := Result(MemberRecovery, 0, 0)] else health)
  {
    assert forall x :: x in members + [m] <==> x in members || x == m;
  }

  lemma BenchmarkNext(members: seq<string>, m: string, loc: Locals, before: Rows, benchmark: map<string, Result>)
    requires BenchmarkProjected(members, loc, before, benchmark) && m !in members
    ensures BenchmarkProjected(members + [m], loc, before,
              if loc.current == Some(m) && loc.planStored && before.HealthIs(m, MemberPassed) && m !in before.benchmark
              then benchmark[m := Result(MemberRecovery, 0, 0)] else benchmark)
  {
    assert forall x :: x in members + [m] <==> x in members || x == m;
  }

  /** The rows of the pending members, before the recovery outcome. */
  method ProjectMembers(ledger: CampaignLedger, plan: Plan, loc: Locals, ghost m: string) returns (raised: bool)
    requires ledger.Valid() && Standings(plan, ledger.db.claims, ledger.db.rows, loc, m)
    modifies ledger`db, ledger`clock
    ensures ledger.Valid() && ledger.clock >= old(ledger.clock)
    ensures raised ==> ledger.Faulted(old(ledger.clock), ledger.clock)
    ensures !raised ==> !ledger.Faulted(old(ledger.clock), ledger.clock)
    ensures ledger.db == old(ledger.db).(rows :=
      old(ledger.db.rows).(health := ledger.db.rows.health, benchmark := ledger.db.rows.benchmark))
    ensures !raised ==> Projected(plan.members, loc, old(ledger.db.rows), ledger.db.rows)
    ensures Standings(plan, ledger.db.claims, ledger.db.rows, loc, m)
    ensures Consistent(plan, ledger.db.rows, loc, m) <==> Consistent(plan, old(ledger.db.rows), loc, m)
  {
    hide PassedRows, FailedRows, ProviderSum, TestedSum, Attempted, AttemptedBenchmarks, ClaimsInPlan, RecoveryStage, Projected;
    ProjectedNone(loc, ledger.db.rows);
    var i := 0;
    raised := false;
    while i < |plan.members|
      invariant 0 <= i <= |plan.members| && ledger.Valid() && ledger.clock >= old(ledger.clock)
      invariant !ledger.Faulted(old(ledger.clock), ledger.clock) && !raised
      invariant ledger.db == old(ledger.db).(rows :=
        old(ledger.db.rows).(health := ledger.db.rows.health, benchmark := ledger.db.rows.benchmark))
      invariant Projected(plan.members[..i], loc, old(ledger.db.rows), ledger.db.rows)
      invariant Standings(plan, ledger.db.claims, ledger.db.rows, loc, m)
      invariant Consistent(plan, ledger.db.rows, loc, m) <==> Consistent(plan, old(ledger.db.rows), loc, m)
    {
      ProjectedNext(plan.members[..i], plan.members[i], loc, old(ledger.db.rows), ledger.db.rows);
      assert plan.members[..i + 1] == plan.members[..i] + [plan.members[i]];
      var stage := RecoveryStage(ledger.db.rows, loc, plan.members[i]);
      if stage.Some? {
        RecoveryRowNeutral(plan, ledger.db.rows, loc, plan.members[i]);
        raised := ledger.Write(ledger.db.rows.With(plan.members[i], stage.value, Result(MemberRecovery, 0, 0)));
        if raised {
          return;
        }
      }
      i := i + 1;
    }
    assert plan.members[..i] == plan.members;
  }

  /** The handler's second transaction, the best-effort projection. Without a further fault
      it goes through exactly when the interrupted member is consistent. */
  method ProjectRecovery(ledger: CampaignLedger, plan: Plan, loc: Locals, ghost m: string) returns (raised: bool)
    requires ledger.Valid() && Standings(plan, ledger.db.claims, ledger.db.rows, loc, m)
    requires ledger.db.rows.outcome == None
    modifies ledger
    ensures ledger.Valid() && ledger.clock >= old(ledger.clock) && ledger.wire == old(ledger.wire)
    ensures !raised ==> ledger.db != old(ledger.db) && Projected(plan.members, loc, old(ledger.db.rows), ledger.db.rows)
    ensures ledger.db == old(ledger.db) || (
      && Projected(plan.members, loc, old(ledger.db.rows), ledger.db.rows)
      && ledger.db == old(ledger.db).(rows := old(ledger.db.rows).(health := ledger.db.rows.health,
           benchmark := ledger.db.rows.benchmark, outcome := Some(RecoveryOutcome(plan, loc, ledger.db.claims)))))
    ensures raised <==> ledger.Faulted(old(ledger.clock), ledger.clock) || !Consistent(plan, old(ledger.db.rows), loc, m)
    ensures !raised ==> ledger.db.rows.outcome == Some(RecoveryOutcome(plan, loc, ledger.db.claims))
  {
    hide Standings, Consistent, OutcomeAccepted, RecoveryOutcome, Projected;
    var saved := ledger.db;
    raised := ProjectMembers(ledger, plan, loc, m);
    if !raised {
      RecoveryOutcomeAccepted(plan, ledger.db.claims, ledger.db.rows, loc, m);
      ghost var rows := ledger.db.rows;
      raised := RecordOutcome(ledger, plan, RecoveryOutcome(plan, loc, ledger.db.claims));
      ProjectedReads(plan.members, loc, saved.rows, rows, ledger.db.rows);
    }
    if raised {
      ledger.Rollback(saved);
    } else {
      raised := ledger.Commit(saved);
    }
  }

  lemma ProjectedReads(members: seq<string>, loc: Locals, before: Rows, rows: Rows, later: Rows)
    ensures rows.health == later.health && rows.benchmark == later.benchmark && Projected(members, loc, before, rows)
      ==> Projected(members, loc, before, later)
  {
  }

  // ---------------------------------------------------------------- the whole command

  datatype Exit = Returned | Sealed(projected: bool) | Unsealed

  const NoRows := Rows(map[], map[], None, [], None)
  const NoLocals := Locals({}, {}, map[], map[], None, false)

  lemma WireBounded(calls: seq<Call>, wire: seq<Op>)
    requires Distinct(wire) && forall op :: op in wire ==> op.Provider? && op.call in calls
    ensures |wire| <= |calls|
  {
    var sent := set op | op in wire;
    var possible := set c | c in calls :: Provider(c);
    DistinctCardinality(wire);
    assert sent <= possible;
    SubsetCardinality(sent, possible);
    ProvidersBounded(calls);
  }

  lemma {:induction false} ProvidersBounded(calls: seq<Call>)
    ensures |set c | c in calls :: Provider(c)| <= |calls|
  {
    if calls != [] {
      var init := calls[..|calls| - 1];
      var last := calls[|calls| - 1];
      ProvidersBounded(init);
      assert forall c :: c in calls <==> c in init || c == last;
      assert (set c | c in calls :: Provider(c)) == (set c | c in init :: Provider(c)) + {Provider(last)};
    }
  }

  lemma LoopStarts(plan: Plan, v: Verdicts)
    ensures Between(plan, v, Db([OutcomeLedger], map[], Running, NoRows), [], NoLocals, {})
    ensures AllSent([OutcomeLedger], [])
  {
    var db := Db([OutcomeLedger], map[], Running, NoRows);
    SumsEmpty(plan.members);
    assert Attempted(db.claims) == {} && AttemptedBenchmarks(db.claims) == {};
    assert PassedRows(plan.members, NoRows) == {} && FailedRows(plan.members, NoRows) == {};
    assert RecoveryRows(plan.members, NoRows) == {} && TerminalRows(plan.members, NoRows) == {};
  }

  lemma {:induction false} SumsEmpty(members: seq<string>)
    ensures ProviderSum(members, NoRows) == 0 && TestedSum(members, NoRows) == 0
  {
    if members != [] {
      SumsEmpty(members[..|members| - 1]);
    }
  }

  lemma InterruptedFacts(plan: Plan, v: Verdicts, db: Db<Op, Rows>, wire: seq<Op>, loc: Locals, m: string)
    requires PlanOk(plan) && Interrupted(plan, v, db, wire, loc, m)
    ensures Standings(plan, db.claims, db.rows, loc, m) && Unpublished(db)
    ensures db.job == Running && db.rows.outcome == None && WireOk(plan, v, wire) && LoopRows(db.rows)
    ensures 0 < |db.claims| && 0 !in db.receipts
  {
    hide PassedRows, FailedRows, ProviderSum, TestedSum, Attempted, AttemptedBenchmarks, WireOk;
  }

  /** How a run ends that began at statement `start` with nothing transmitted. Whatever raised
      and however often: success markers are all or nothing, and the transmissions are an
      initial part of the calls the plan and the evaluators call for, all of them when the run
      is published; and a published run says of every call and member what happened. */
  ghost predicate Ended(ledger: CampaignLedger, plan: Plan, v: Verdicts, start: nat, exit: Exit, loc: Locals)
    reads ledger
  {
    && ledger.Valid() && WireOk(plan, v, ledger.wire) && ClaimsInPlan(plan, ledger.db.claims)
    && (Published(plan, v, ledger.db, loc) || (Unpublished(ledger.db) && ProjectedAtMost(plan, ledger.db, loc)))
    && Transmitted([], ledger.wire, LoopCalls(plan, v, plan.members), !Published(plan, v, ledger.db, loc))
    && (Published(plan, v, ledger.db, loc) ==> Accounted(plan, v, ledger.wire, ledger.db.rows))
    && ExitMeans(ledger, plan, v, start, exit, loc)
  }

  /** What the exit says. The run returns normally exactly if nothing raised. A sealed run has
      settled every claim and closed the job as recovery-required. It stays unsealed only if it
      was published already or a second statement raised. The recovery outcome is written only
      if the first fault was not critical for the statement of the member loop it hit, and after
      a single fault exactly then. */
  ghost predicate ExitMeans(ledger: CampaignLedger, plan: Plan, v: Verdicts, start: nat, exit: Exit, loc: Locals)
    reads ledger
  {
    var loses := Loses(ledger.faults, LoopScript(plan, v, plan.members), start);
    var published := Published(plan, v, ledger.db, loc);
    && (exit == Returned <==> !ledger.Faulted(start, ledger.clock))
    && (exit == Returned ==> published)
    && (exit.Sealed? ==> Unpublished(ledger.db) && ledger.db.job == RecoveryRequired && ledger.db.Settled())
    && (exit == Sealed(true) ==> ledger.db.rows.outcome == Some(RecoveryOutcome(plan, loc, ledger.db.claims)) && !loses)
    && (exit == Unsealed ==> published || ledger.FaultedTwice(start, ledger.clock))
    && (ledger.Faulted(start, ledger.clock) && !ledger.FaultedTwice(start, ledger.clock) ==>
          exit == if published then Unsealed else Sealed(!loses))
  }

  /** The command, from the `try` on, with the outcome claim already written. */
  method Run(ledger: CampaignLedger, plan: Plan, v: Verdicts) returns (exit: Exit, loc: Locals)
    requires ledger.Valid() && PlanOk(plan)
    requires ledger.db == Db([OutcomeLedger], map[], Running, NoRows) && ledger.wire == []
    modifies ledger
    ensures Ended(ledger, plan, v, old(ledger.clock), exit, loc)
  {
    hide *;
    LoopStarts(plan, v);
    ghost var start := ledger.clock;
    ghost var calls := LoopCalls(plan, v, plan.members);
    var raised, m;
    loc, raised, m := RunMembers(ledger, plan, v, NoLocals);
    InterruptedFacts(plan, v, ledger.db, ledger.wire, loc, m);
    StandingClaims(plan, ledger.db.claims, ledger.db.rows, loc, m);
    NeverBoth(plan, v, ledger.db, loc);
    if raised {
      AlongRaised(ledger, LoopScript(plan, v, plan.members), start, Consistent(plan, ledger.db.rows, loc, m));
    } else {
      AlongClean(ledger, LoopScript(plan, v, plan.members), start, Consistent(plan, ledger.db.rows, loc, m));
      LosesNothing(ledger.faults, LoopScript(plan, v, plan.members), start);
      BetweenConsistent(plan, v, ledger.db, ledger.wire, loc, m);
      TransmittedAll([], ledger.wire, calls, true);
      ghost var at := ledger.clock;
      ghost var rows := ledger.db.rows;
      raised := PublishAndCommit(ledger, plan, v, loc);
      RecordedLater(plan, v, rows, ledger.db.rows);
      if !raised {
        FaultedSplit(ledger, start, at);
        LedgerWire(ledger);
        PublishedAccounts(plan, v, ledger.db, ledger.wire, loc);
        EndsPublished(ledger, plan, v, start, loc);
        return Returned, loc;
      }
      FaultedLater(ledger, start, at);
    }
    ghost var handled := ledger.clock;
    exit := Recover(ledger, plan, v, loc, m);
    SecondFault(ledger, start, handled);
    LedgerWire(ledger);
    if Published(plan, v, ledger.db, loc) {
      PublishedAccounts(plan, v, ledger.db, ledger.wire, loc);
    }
    EndsHandled(ledger, plan, v, start, exit, loc);
  }

  lemma LedgerWire(ledger: CampaignLedger)
    requires ledger.Valid()
    ensures Distinct(ledger.wire) && forall op :: op in ledger.wire ==> op in ledger.db.claims
  {
  }

  lemma EndsPublished(ledger: CampaignLedger, plan: Plan, v: Verdicts, start: nat, loc: Locals)
    requires ledger.Valid() && WireOk(plan, v, ledger.wire) && ClaimsInPlan(plan, ledger.db.claims)
    requires Published(plan, v, ledger.db, loc) && Transmitted([], ledger.wire, LoopCalls(plan, v, plan.members), false)
    requires !ledger.Faulted(start, ledger.clock) && Accounted(plan, v, ledger.wire, ledger.db.rows)
    ensures Ended(ledger, plan, v, start, Returned, loc)
  {
    hide WireOk, ClaimsInPlan, Published, Accounted, LoopCalls, Loses, LoopScript, Transmitted;
  }

  lemma EndsHandled(ledger: CampaignLedger, plan: Plan, v: Verdicts, start: nat, exit: Exit, loc: Locals)
    requires ledger.Valid() && WireOk(plan, v, ledger.wire) && ClaimsInPlan(plan, ledger.db.claims) && exit != Returned
    requires Published(plan, v, ledger.db, loc) || (Unpublished(ledger.db) && ProjectedAtMost(plan, ledger.db, loc))
    requires Transmitted([], ledger.wire, LoopCalls(plan, v, plan.members), !Published(plan, v, ledger.db, loc))
    requires ledger.Faulted(start, ledger.clock)
    requires Published(plan, v, ledger.db, loc) ==> Accounted(plan, v, ledger.wire, ledger.db.rows)
    requires exit.Sealed? ==> Unpublished(ledger.db) && ledger.db.job == RecoveryRequired && ledger.db.Settled()
    requires var loses := Loses(ledger.faults, LoopScript(plan, v, plan.members), start);
      && (exit == Sealed(true) ==> !loses && ledger.db.rows.outcome == Some(RecoveryOutcome(plan, loc, ledger.db.claims)))
      && (!ledger.FaultedTwice(start, ledger.clock) ==>
            exit == if Published(plan, v, ledger.db, loc) then Unsealed else Sealed(!loses))
    requires exit == Unsealed ==> Published(plan, v, ledger.db, loc) || ledger.FaultedTwice(start, ledger.clock)
    ensures Ended(ledger, plan, v, start, exit, loc)
  {
    hide WireOk, ClaimsInPlan, Published, Accounted, LoopCalls, Loses, LoopScript, Transmitted, Unpublished, ProjectedAtMost;
    hide RecoveryOutcome;
  }

  lemma StandingClaims(plan: Plan, claims: seq<Op>, rows: Rows, loc: Locals, m: string)
    requires Standings(plan, claims, rows, loc, m)
    ensures ClaimsInPlan(plan, claims)
  {
  }

  lemma BetweenConsistent(plan: Plan, v: Verdicts, db: Db<Op, Rows>, wire: seq<Op>, loc: Locals, m: string)
    requires Between(plan, v, db, wire, loc, set x | x in plan.members)
    ensures Consistent(plan, db.rows, loc, m)
  {
    hide PassedRows, FailedRows, Base, Owned, Counted, Judged, TerminalRows, RecoveryRows;
  }

  lemma PublishedNotRunning(plan: Plan, v: Verdicts, db: Db<Op, Rows>, loc: Locals)
    requires Published(plan, v, db, loc)
    ensures db.job == Succeeded
  {
  }

  /** The handler: seal, revoke, project. Without a fault of its own it seals exactly a job
      that is still running, and projects exactly a consistent member. */
  method Recover(ledger: CampaignLedger, plan: Plan, v: Verdicts, loc: Locals, ghost m: string) returns (exit: Exit)
    requires ledger.Valid()
    requires Published(plan, v, ledger.db, loc) || (
      && Unpublished(ledger.db) && ledger.db.rows.outcome == None && ledger.db.job == Running
      && 0 < |ledger.db.claims| && 0 !in ledger.db.receipts && LoopRows(ledger.db.rows)
      && Standings(plan, ledger.db.claims, ledger.db.rows, loc, m))
    modifies ledger
    ensures ledger.Valid() && ledger.clock >= old(ledger.clock) && ledger.wire == old(ledger.wire)
    ensures ledger.db.claims == old(ledger.db.claims)
    ensures exit != Returned
    ensures Published(plan, v, ledger.db, loc) <==> Published(plan, v, old(ledger.db), loc)
    ensures Published(plan, v, ledger.db, loc) ==> ledger.db.rows == old(ledger.db.rows)
    ensures Published(plan, v, ledger.db, loc) || (Unpublished(ledger.db) && ProjectedAtMost(plan, ledger.db, loc))
    ensures exit.Sealed? ==> Unpublished(ledger.db) && ledger.db.job == RecoveryRequired && ledger.db.Settled()
    ensures exit == Sealed(true) ==> ledger.db.rows.outcome == Some(RecoveryOutcome(plan, loc, ledger.db.claims))
                                     && Consistent(plan, old(ledger.db.rows), loc, m)
    ensures exit == Sealed(true) ==> Projected(plan.members, loc, old(ledger.db.rows), ledger.db.rows)
    ensures exit == Unsealed ==> ledger.Faulted(old(ledger.clock), ledger.clock) || Published(plan, v, ledger.db, loc)
    ensures !ledger.Faulted(old(ledger.clock), ledger.clock) ==>
      exit == if Published(plan, v, ledger.db, loc) then Unsealed
              else Sealed(Consistent(plan, old(ledger.db.rows), loc, m))
  {
    hide Published, Standings, Consistent, LoopRows, Projected;
    if Published(plan, v, ledger.db, loc) {
      PublishedNotRunning(plan, v, ledger.db, loc);
    }
    ghost var start := ledger.clock;
    var refused := Seal(ledger);
    NeverBoth(plan, v, ledger.db, loc);
    if refused {
      return Unsealed;
    }
    var unrevoked := ledger.Step();
    if unrevoked {
      return Sealed(false);
    }
    var unprojected := ProjectRecovery(ledger, plan, loc, m);
    NeverBoth(plan, v, ledger.db, loc);
    exit := Sealed(!unprojected);
  }

  lemma NeverBoth(plan: Plan, v: Verdicts, db: Db<Op, Rows>, loc: Locals)
    ensures db.job != Succeeded ==> !Published(plan, v, db, loc)
  {
  }
}
