/** What a campaign run is going to do, as far as it can be known before it starts: which
    members pass, and the statements of the member loop with the ones that touch a verdict. */
module CampaignScript {
  import opened Finite
  import opened Ledger
  import opened Scripts
  import opened CampaignRows

  /** What the evaluators say: a health response approved, a trial valid, repetitions stable. */
  datatype Verdicts = Verdicts(approved: Call -> bool, valid: Call -> bool, stable: string -> bool)

  // ---------------------------------------------------------------- who passes

  /** The member's calls of one kind, in order. */
  function OfKind(calls: seq<Call>, m: string, kind: Kind): seq<Call>
  {
    if calls == [] then []
    else
      var last := calls[|calls| - 1];
      OfKind(calls[..|calls| - 1], m, kind) + if last.model == m && last.kind == kind then [last] else []
  }

  function BenchmarksOf(calls: seq<Call>, m: string): seq<Call>
  {
    OfKind(calls, m, Benchmark)
  }

  /** Exactly those calls, in the order of the list. */
  lemma {:induction false} OfKindExact(calls: seq<Call>, m: string, kind: Kind)
    ensures forall c :: c in OfKind(calls, m, kind) <==> c in calls && c.model == m && c.kind == kind
    ensures Distinct(calls) ==> Distinct(OfKind(calls, m, kind))
    ensures Subsequence(OfKind(calls, m, kind), calls)
  {
    if calls == [] {
      assert Picks(OfKind(calls, m, kind), calls, []);
    } else {
      var init := calls[..|calls| - 1];
      OfKindExact(init, m, kind);
      assert calls == init + [calls[|calls| - 1]];
      SubsequenceNext(OfKind(init, m, kind), init, calls[|calls| - 1]);
      assert OfKind(init, m, kind) + [] == OfKind(init, m, kind);
    }
  }

  lemma BenchmarksOfExact(calls: seq<Call>, m: string)
    ensures forall c :: c in BenchmarksOf(calls, m) <==> c in calls && c.model == m && c.kind == Benchmark
    ensures Distinct(calls) ==> Distinct(BenchmarksOf(calls, m))
    ensures Subsequence(BenchmarksOf(calls, m), calls)
  {
    OfKindExact(calls, m, Benchmark);
  }

  predicate HealthApproved(plan: Plan, v: Verdicts, m: string)
  {
    exists h :: h in plan.calls && h.model == m && h.kind == Health && v.approved(h)
  }

  /** Every trial valid and the repetitions stable. */
  predicate Good(plan: Plan, v: Verdicts, m: string)
  {
    (forall c :: c in plan.calls && c.model == m && c.kind == Benchmark ==> v.valid(c)) && v.stable(m)
  }

  /** An adopted member passes with the parent's last result, a recovered one fails, a live
      one passes when its health check is approved and its benchmark is good. */
  predicate Passes(plan: Plan, v: Verdicts, m: string)
  {
    if m in plan.adopted then plan.adopted[m] != [] && plan.adopted[m][|plan.adopted[m]| - 1].passed
    else plan.recovered != Some(m) && HealthApproved(plan, v, m) && Good(plan, v, m)
  }

  /** The stage whose result decides the member: the last adopted one, the health check of a
      recovered or unapproved member, the benchmark of any other. */
  function StageOf(plan: Plan, v: Verdicts, m: string): Kind
  {
    if m in plan.adopted && plan.adopted[m] != [] then plan.adopted[m][|plan.adopted[m]| - 1].stage
    else if plan.recovered == Some(m) || !HealthApproved(plan, v, m) then Health
    else Benchmark
  }

  /** What is known of a plan call in the end: its receipt if it was made, else that its
      member's health check failed. */
  function EvidenceOf(plan: Plan, v: Verdicts, c: Call): Evidence
  {
    if c.kind == Health || HealthApproved(plan, v, c.model) then ReceiptEvidence(c.id) else NotRunHealthFailed(c.id)
  }

  // ---------------------------------------------------------------- the script

  /** A row whose verdict is noted in memory only afterwards: memory and rows part when the
      row is durable and the statement raises all the same. */
  const NotedAfter: Site := {After}

  /** A row whose verdict has been noted before: they part when the row is not written. */
  const NotedBefore: Site := {Before}

  /** The rows of an adopted member, then its receipt. A passed health row decides nothing. */
  function AdoptScript(results: seq<Verdict>): (s: seq<Site>)
    ensures |s| == |results| + 1
  {
    seq(|results|, i requires 0 <= i < |results| =>
          if results[i].stage == Health && results[i].passed then Plain else NotedAfter) + [Plain]
  }

  /** The failed health row, the revocations, the receipt. */
  function FailScript(plan: Plan, m: string): seq<Site>
  {
    [NotedAfter] + Plains(|BenchmarksOf(plan.calls, m)| + 2)
  }

  /** The member plan, eleven statements a trial, the aggregate of a good benchmark; then the
      benchmark row, whose verdict is already noted, and the receipt. */
  function BenchmarkScript(plan: Plan, v: Verdicts, m: string): seq<Site>
  {
    Plains(1 + 11 * |BenchmarksOf(plan.calls, m)|) + VerdictScript(Good(plan, v, m))
  }

  function VerdictScript(good: bool): seq<Site>
  {
    Plains(if good then 1 else 0) + [NotedBefore, Plain]
  }

  /** The health call and its evaluation, then one of two ends. */
  function LiveScript(plan: Plan, v: Verdicts, m: string): seq<Site>
  {
    Plains(6) + if HealthApproved(plan, v, m) then Plains(1) + BenchmarkScript(plan, v, m) else FailScript(plan, m)
  }

  function MemberScript(plan: Plan, v: Verdicts, m: string): seq<Site>
  {
    Plains(2) +
    if m in plan.adopted then AdoptScript(plan.adopted[m])
    else if plan.recovered == Some(m) then [NotedAfter, Plain]
    else LiveScript(plan, v, m)
  }

  function LoopScript(plan: Plan, v: Verdicts, members: seq<string>): seq<Site>
  {
    if members == [] then []
    else LoopScript(plan, v, members[..|members| - 1]) + MemberScript(plan, v, members[|members| - 1])
  }

  // ---------------------------------------------------------------- the transmissions

  /** The provider calls of a list, as the transport sees them. */
  function Sent(calls: seq<Call>): (s: seq<Op>)
  {
    seq(|calls|, i requires 0 <= i < |calls| => Provider(calls[i]))
  }

  /** A live member's health call, then its benchmark calls in order only if that is approved;
      nothing for an adopted or recovered member. */
  function MemberCalls(plan: Plan, v: Verdicts, m: string): seq<Op>
  {
    if plan.Live(m) then
      Sent(OfKind(plan.calls, m, Health)) + if HealthApproved(plan, v, m) then Sent(BenchmarksOf(plan.calls, m)) else []
    else []
  }

  function LoopCalls(plan: Plan, v: Verdicts, members: seq<string>): seq<Op>
  {
    if members == [] then []
    else LoopCalls(plan, v, members[..|members| - 1]) + MemberCalls(plan, v, members[|members| - 1])
  }

  /** Members one after the other. */
  lemma {:induction false} LoopCallsSplit(plan: Plan, v: Verdicts, a: seq<string>, b: seq<string>)
    ensures LoopCalls(plan, v, a + b) == LoopCalls(plan, v, a) + LoopCalls(plan, v, b)
  {
    hide MemberCalls;
    if b == [] {
      assert a + b == a;
    } else {
      var init := b[..|b| - 1];
      LoopCallsSplit(plan, v, a, init);
      assert (a + b)[..|a + b| - 1] == a + init;
    }
  }

  /** These calls went out in this order: all of them on a normal return, an initial part of
      them on an exception. */
  predicate Transmitted(before: seq<Op>, wire: seq<Op>, calls: seq<Op>, raised: bool)
  {
    if raised then before <= wire <= before + calls else wire == before + calls
  }

  lemma TransmittedNone(before: seq<Op>, calls: seq<Op>)
    ensures Transmitted(before, before, calls, true) && Transmitted(before, before, [], false)
  {
  }

  lemma TransmittedPart(before: seq<Op>, wire: seq<Op>, calls: seq<Op>, more: seq<Op>)
    requires Transmitted(before, wire, calls, true) || Transmitted(before, wire, calls, false)
    ensures Transmitted(before, wire, calls + more, true)
  {
    assert before + (calls + more) == before + calls + more;
  }

  lemma TransmittedThen(before: seq<Op>, middle: seq<Op>, wire: seq<Op>, calls: seq<Op>, more: seq<Op>, raised: bool)
    requires Transmitted(before, middle, calls, false) && Transmitted(middle, wire, more, raised)
    ensures Transmitted(before, wire, calls + more, raised)
  {
    assert before + (calls + more) == before + calls + more;
  }
}
