/** The benchmark campaign: its plan, the rows it publishes, and the outcome row the
    database accepts. */
module CampaignRows {
  import opened Ledger
  import opened Finite

  datatype Kind = Health | Benchmark

  datatype Call = Call(id: string, model: string, kind: Kind)

  /** The effects a campaign job claims. */
  datatype Op =
    | OutcomeLedger
    | MemberLedger(member: string)
    | Provider(call: Call)
    | Tested(call: Call)
    | Verifier(call: Call)
  {
    function Model(): string
    {
      match this
      case OutcomeLedger => ""
      case MemberLedger(m) => m
      case Provider(c) => c.model
      case Tested(c) => c.model
      case Verifier(c) => c.model
    }
  }

  datatype Verdict = Verdict(stage: Kind, passed: bool)

  /** What a run executes: the eligible members in order, the active calls, and for a
      continuation the parent results it adopts and the health effect it recovers. */
  datatype Plan = Plan(
    members: seq<string>,
    calls: seq<Call>,
    adopted: map<string, seq<Verdict>>,
    recovered: Option<string>)
  {
    predicate Live(m: string)
    {
      m in members && m !in adopted && recovered != Some(m)
    }

    function BenchmarkCalls(): set<string>
    {
      set c | c in calls && c.kind == Benchmark :: c.id
    }

    function CallIds(): set<string>
    {
      set c | c in calls :: c.id
    }
  }

  const ORCHESTRATION := "opencode-aihub-campaign"
  const FINALIZE := "campaign-finalize"
  const MEMBER_PREFIX := "member-finalize-"

  /** Adopted results are terminal: a failed health check, or a passed one with a benchmark. */
  predicate Terminal(results: seq<Verdict>)
  {
    || results == [Verdict(Health, false)]
    || (|results| == 2 && results[0] == Verdict(Health, true) && results[1].stage == Benchmark)
  }

  ghost predicate IdsUnique(calls: seq<Call>)
  {
    && Distinct(calls)
    && (forall c, d :: c in calls && d in calls && c.id == d.id ==> c == d)
  }

  ghost predicate OneHealthCall(calls: seq<Call>, m: string)
  {
    && (exists h :: h in calls && h.model == m && h.kind == Health)
    && (forall c, d :: c in calls && d in calls && c.model == m == d.model && c.kind == Health == d.kind
          ==> c == d)
  }

  /** What the manifest and the continuation check guarantee of a plan. */
  ghost predicate PlanOk(plan: Plan)
  {
    && |plan.members| >= 1 && Distinct(plan.members)
    && IdsUnique(plan.calls)
    && (forall c :: c in plan.calls ==> plan.Live(c.model))
    && (forall m :: plan.Live(m) ==> OneHealthCall(plan.calls, m))
    && (forall m :: m in plan.adopted ==> Terminal(plan.adopted[m]))
    && (forall c :: c in plan.calls ==>
          c.id != ORCHESTRATION && c.id != FINALIZE && !(MEMBER_PREFIX <= c.id))
  }

  datatype Status = MemberPassed | MemberFailed | MemberRecovery

  datatype Result = Result(status: Status, tested: nat, provider: nat)

  datatype OutcomeStatus = OutcomePassed | OutcomeFailed | OutcomeRecovery

  datatype Outcome = Outcome(
    status: OutcomeStatus, passed: nat, failed: nat, recovery: nat, tested: nat, provider: nat)

  datatype Evidence =
    | ReceiptEvidence(callId: string)
    | NotRunHealthFailed(callId: string)
    | MemberResult(model: string, stage: Kind)
    | OutcomeDigest

  /** The campaign's rows; a member has at most one result per stage. */
  datatype Rows = Rows(
    health: map<string, Result>,
    benchmark: map<string, Result>,
    outcome: Option<Outcome>,
    qualifications: seq<(string, bool)>,
    checkpoint: Option<seq<(string, Evidence)>>)
  {
    function With(m: string, stage: Kind, result: Result): Rows
    {
      if stage == Health then this.(health := health[m := result])
      else this.(benchmark := benchmark[m := result])
    }

    predicate HealthIs(m: string, status: Status)
    {
      m in health && health[m].status == status
    }

    predicate BenchmarkIs(m: string, status: Status)
    {
      m in benchmark && benchmark[m].status == status
    }
  }

  /** The rows the member loop writes: nothing is in recovery, and no benchmark result stands
      without a health result. */
  ghost predicate LoopRows(rows: Rows)
  {
    && (forall x :: x in rows.health ==> rows.health[x].status != MemberRecovery)
    && (forall x :: x in rows.benchmark ==> rows.benchmark[x].status != MemberRecovery && x in rows.health)
  }

  function PassedRows(members: seq<string>, rows: Rows): set<string>
  {
    set m | m in members && rows.HealthIs(m, MemberPassed) && rows.BenchmarkIs(m, MemberPassed)
  }

  function FailedRows(members: seq<string>, rows: Rows): set<string>
  {
    set m | m in members && (rows.HealthIs(m, MemberFailed) || rows.BenchmarkIs(m, MemberFailed))
  }

  function RecoveryRows(members: seq<string>, rows: Rows): set<string>
  {
    set m | m in members && (rows.HealthIs(m, MemberRecovery) || rows.BenchmarkIs(m, MemberRecovery))
  }

  /** Members whose results are terminal in the rows. */
  function TerminalRows(members: seq<string>, rows: Rows): set<string>
  {
    set m | m in members && m in rows.health
            && (rows.health[m].status != MemberPassed || m in rows.benchmark)
  }

  function ProviderCost(rows: Rows, m: string): nat
  {
    (if m in rows.health then rows.health[m].provider else 0)
    + (if m in rows.benchmark then rows.benchmark[m].provider else 0)
  }

  function TestedCost(rows: Rows, m: string): nat
  {
    (if m in rows.health then rows.health[m].tested else 0)
    + (if m in rows.benchmark then rows.benchmark[m].tested else 0)
  }

  function ProviderSum(members: seq<string>, rows: Rows): nat
  {
    if members == [] then 0
    else ProviderSum(members[..|members| - 1], rows) + ProviderCost(rows, members[|members| - 1])
  }

  function TestedSum(members: seq<string>, rows: Rows): nat
  {
    if members == [] then 0
    else TestedSum(members[..|members| - 1], rows) + TestedCost(rows, members[|members| - 1])
  }

  lemma {:induction false} SumsUnchanged(members: seq<string>, rows: Rows, next: Rows)
    requires forall m :: m in members ==>
      ProviderCost(next, m) == ProviderCost(rows, m) && TestedCost(next, m) == TestedCost(rows, m)
    ensures ProviderSum(members, next) == ProviderSum(members, rows)
    ensures TestedSum(members, next) == TestedSum(members, rows)
  {
    if members != [] {
      SumsUnchanged(members[..|members| - 1], rows, next);
    }
  }

  /** A member's new result adds its own calls to the sums. */
  lemma {:induction false} SumsGrow(members: seq<string>, rows: Rows, m: string, stage: Kind, result: Result)
    requires Distinct(members) && m in members
    requires if stage == Health then m !in rows.health else m !in rows.benchmark
    ensures ProviderSum(members, rows.With(m, stage, result)) == ProviderSum(members, rows) + result.provider
    ensures TestedSum(members, rows.With(m, stage, result)) == TestedSum(members, rows) + result.tested
  {
    var init := members[..|members| - 1];
    if members[|members| - 1] == m {
      assert m !in init;
      SumsUnchanged(init, rows, rows.With(m, stage, result));
    } else {
      SumsGrow(init, rows, m, stage, result);
    }
  }

  /** The provider call ids a job has claimed. */
  function Attempted(claims: seq<Op>): set<string>
  {
    if claims == [] then {}
    else
      var last := claims[|claims| - 1];
      Attempted(claims[..|claims| - 1]) + if last.Provider? then {last.call.id} else {}
  }

  function AttemptedBenchmarks(claims: seq<Op>): set<string>
  {
    if claims == [] then {}
    else
      var last := claims[|claims| - 1];
      AttemptedBenchmarks(claims[..|claims| - 1])
      + if last.Provider? && last.call.kind == Benchmark then {last.call.id} else {}
  }

  /** The constructor checks of an outcome together with the trigger on its table. */
  predicate OutcomeAccepted(plan: Plan, rows: Rows, o: Outcome)
  {
    var passed := |PassedRows(plan.members, rows)|;
    var failed := |FailedRows(plan.members, rows)|;
    && o.tested <= o.provider
    && o.passed == passed && o.failed == failed
    && o.tested <= |plan.BenchmarkCalls()| && o.provider <= |plan.calls|
    && if o.status == OutcomeRecovery then
         && o.recovery >= 1 && o.recovery >= |plan.members| - passed - failed
         && o.tested >= TestedSum(plan.members, rows) && o.provider >= ProviderSum(plan.members, rows)
       else
         && (if o.status == OutcomePassed then o.passed >= 1 && o.failed == 0 else o.failed >= 1)
         && o.recovery == 0 == |RecoveryRows(plan.members, rows)|
         && |TerminalRows(plan.members, rows)| == |plan.members|
         && o.tested == TestedSum(plan.members, rows) && o.provider == ProviderSum(plan.members, rows)
  }

  ghost predicate ClaimsInPlan(plan: Plan, claims: seq<Op>)
  {
    forall op :: op in claims && op.Provider? ==> op.call in plan.calls
  }

  lemma {:induction false} AttemptedFrom(claims: seq<Op>, id: string)
    ensures id in Attempted(claims) <==> exists op :: op in claims && op.Provider? && op.call.id == id
    ensures id in AttemptedBenchmarks(claims) <==>
      exists op :: op in claims && op.Provider? && op.call.kind == Benchmark && op.call.id == id
  {
    if claims != [] {
      var init := claims[..|claims| - 1];
      var last := claims[|claims| - 1];
      AttemptedFrom(init, id);
      assert forall op :: op in claims <==> op in init || op == last;
    }
  }

  lemma AttemptedKept(claims: seq<Op>, op: Op)
    requires !op.Provider?
    ensures Attempted(claims + [op]) == Attempted(claims)
    ensures AttemptedBenchmarks(claims + [op]) == AttemptedBenchmarks(claims)
  {
    assert (claims + [op])[..|claims|] == claims;
  }

  lemma AttemptedGrows(plan: Plan, claims: seq<Op>, c: Call)
    requires IdsUnique(plan.calls) && ClaimsInPlan(plan, claims)
    requires c in plan.calls && Provider(c) !in claims
    ensures |Attempted(claims + [Provider(c)])| == |Attempted(claims)| + 1
    ensures |AttemptedBenchmarks(claims + [Provider(c)])|
         == |AttemptedBenchmarks(claims)| + if c.kind == Benchmark then 1 else 0
  {
    AttemptedFrom(claims, c.id);
    assert (claims + [Provider(c)])[..|claims|] == claims;
    assert c.id !in Attempted(claims) && c.id !in AttemptedBenchmarks(claims);
  }

  lemma {:induction false} AttemptedMonotone(claims: seq<Op>, more: seq<Op>)
    ensures |Attempted(claims)| <= |Attempted(claims + more)|
    ensures |AttemptedBenchmarks(claims)| <= |AttemptedBenchmarks(claims + more)|
  {
    if more == [] {
      assert claims + more == claims;
    } else {
      var init := more[..|more| - 1];
      AttemptedMonotone(claims, init);
      assert (claims + more)[..|claims + more| - 1] == claims + init;
      SubsetCardinality(Attempted(claims + init), Attempted(claims + more));
      SubsetCardinality(AttemptedBenchmarks(claims + init), AttemptedBenchmarks(claims + more));
    }
  }

  /** Every attempt is one of the plan's calls, so the budgets bound the counts. */
  lemma AttemptedWithinBudget(plan: Plan, claims: seq<Op>)
    requires ClaimsInPlan(plan, claims)
    ensures AttemptedBenchmarks(claims) <= Attempted(claims)
    ensures |AttemptedBenchmarks(claims)| <= |Attempted(claims)| <= |plan.calls|
    ensures |AttemptedBenchmarks(claims)| <= |plan.BenchmarkCalls()|
  {
    forall id
      ensures id in Attempted(claims) ==> id in plan.CallIds()
      ensures id in AttemptedBenchmarks(claims) ==> id in plan.BenchmarkCalls() && id in Attempted(claims)
    {
      AttemptedFrom(claims, id);
    }
    SubsetCardinality(Attempted(claims), plan.CallIds());
    SubsetCardinality(AttemptedBenchmarks(claims), plan.BenchmarkCalls());
    SubsetCardinality(AttemptedBenchmarks(claims), Attempted(claims));
    CallIdsBounded(plan.calls);
  }

  lemma {:induction false} CallIdsBounded(calls: seq<Call>)
    ensures |set c | c in calls :: c.id| <= |calls|
  {
    if calls != [] {
      var init := calls[..|calls| - 1];
      var last := calls[|calls| - 1];
      CallIdsBounded(init);
      assert forall c :: c in calls <==> c in init || c == last;
      assert (set c | c in calls :: c.id) == (set c | c in init :: c.id) + {last.id};
    }
  }
}
