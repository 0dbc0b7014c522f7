/** The end of a capability run: the coordinator's finalization, and the sealer that closes
    whatever an exception leaves open. */
module CapabilitySeal {
  import opened Ledger
  import opened Finite
  import CapabilityEpisode
  import CapabilityCohort

  type EpisodeJob = CapabilityEpisode.EpisodeDb

  const FINALIZE := "capability-scorecard-finalize"

  type Checkpoint = Option<seq<(CapabilityCohort.Step, string)>>

  datatype Aggregate = Completed'(outcome: CapabilityCohort.Outcome) | Recovery(calls: nat)

  // ---------------------------------------------------------------- sealing one job

  /** Failure receipts for those of the first `n` claims that have none. */
  function Filled(receipts: map<nat, Receipt>, n: nat): (r: map<nat, Receipt>)
    ensures forall i :: i in r <==> 0 <= i < n || i in receipts
    ensures forall i :: i in r ==> r[i] == if i in receipts then receipts[i] else Failed
  {
    map i | i in UpTo(n) + receipts.Keys :: if i in receipts then receipts[i] else Failed
  }

  lemma FilledNext(receipts: map<nat, Receipt>, n: nat)
    ensures Filled(receipts, n + 1) == if n in receipts then Filled(receipts, n) else Filled(receipts, n)[n := Failed]
    ensures n in Filled(receipts, n) <==> n in receipts
    ensures Filled(receipts, 0) == receipts
  {
    hide Filled;
    var next := if n in receipts then Filled(receipts, n) else Filled(receipts, n)[n := Failed];
    assert Filled(receipts, n + 1).Keys == next.Keys;
    assert Filled(receipts, 0).Keys == receipts.Keys;
  }

  function SealedJob<Op, Rows>(db: Db<Op, Rows>): Db<Op, Rows>
  {
    if db.job == Running then db.(receipts := Filled(db.receipts, |db.claims|), job := RecoveryRequired) else db
  }

  lemma SealedIsSettled<Op, Rows>(db: Db<Op, Rows>)
    requires db.job == Running || db.Settled()
    ensures SealedJob(db).Settled() && SealedJob(db).job != Running
    ensures forall i :: i in db.receipts ==> i in SealedJob(db).receipts && SealedJob(db).receipts[i] == db.receipts[i]
    ensures forall i :: i in SealedJob(db).receipts && i !in db.receipts ==> i < |db.claims| && SealedJob(db).receipts[i] == Failed
    ensures SealedJob(db).claims == db.claims && SealedJob(db).rows == db.rows
    ensures if db.job == Running then SealedJob(db).job == RecoveryRequired else SealedJob(db) == db
  {
  }

  ghost predicate AllSucceeded(episodes: seq<EpisodeJob>)
  {
    forall i :: 0 <= i < |episodes| ==> episodes[i].job == Succeeded
  }

  function SealedAll(episodes: seq<EpisodeJob>): seq<EpisodeJob>
  {
    seq(|episodes|, i requires 0 <= i < |episodes| => SealedJob(episodes[i]))
  }

  /** The database takes a recovery aggregate only if a job that owns slots needs recovery;
      the coordinator owns none. */
  predicate RecoveryAccepted(episodes: seq<EpisodeJob>)
  {
    exists i :: 0 <= i < |episodes| && episodes[i].job == RecoveryRequired
  }

  lemma SealedAccepted(episodes: seq<EpisodeJob>)
    ensures RecoveryAccepted(SealedAll(episodes)) <==> !AllSucceeded(episodes)
  {
    if i :| 0 <= i < |episodes| && episodes[i].job != Succeeded {
      assert SealedAll(episodes)[i].job == RecoveryRequired;
    }
  }

  function CallCount(episodes: seq<EpisodeJob>): nat
  {
    if episodes == [] then 0
    else CallCount(episodes[..|episodes| - 1]) + |episodes[|episodes| - 1].rows.outcomes|
  }

  /** The jobs of the run: one per episode, and the coordinator's own, whose ledger also counts
      the statements of the sealer. Its row is the final checkpoint, once that is stored. */
  class CapabilityRun {
    const coordinator: EffectLedger<string, Checkpoint>
    var episodes: seq<EpisodeJob>
    var aggregate: Option<Aggregate>

    constructor (faults: nat -> Fault, episodes: seq<EpisodeJob>)
      ensures fresh(coordinator) && coordinator.faults == faults && coordinator.clock == 0
      ensures Idle() && this.episodes == episodes
    {
      coordinator := new EffectLedger<string, Checkpoint>(faults, None);
      this.episodes, aggregate := episodes, None;
    }

    /** Some statement from this one on raised. */
    ghost predicate Disturbed(from: nat)
      reads coordinator`clock
    {
      coordinator.Faulted(from, coordinator.clock)
    }

    /** The coordinator has not begun. */
    ghost predicate Idle()
      reads coordinator`db, coordinator`wire, this`aggregate
    {
      coordinator.db == Db([], map[], Running, None) && coordinator.wire == [] && aggregate == None
    }

    /** Its final checkpoint is stored and its job has succeeded. */
    ghost predicate Done()
      reads coordinator`db
    {
      coordinator.db.rows.Some? && coordinator.db == Db([FINALIZE], map[0 := Completed], Succeeded, coordinator.db.rows)
    }

    /** The final checkpoint says what the results and the rows of the episodes say. */
    ghost predicate Checkpointed(tasks: nat, models: nat, results: seq<CapabilityCohort.Result>, rows: CapabilityCohort.Rows,
                                 digest: string)
      reads coordinator`db
    {
      coordinator.db.rows.Some? && CapabilityCohort.StepsSay(tasks, models, results, rows, digest, coordinator.db.rows.value)
    }

    /** The aggregate of a published run counts every slot once, as called or as skipped, and
        every episode as passed or not. */
    ghost predicate Complete(slots: int, results: seq<CapabilityCohort.Result>, rows: CapabilityCohort.Rows)
      reads this`aggregate
    {
      aggregate.Some? && aggregate.value.Completed'? && CapabilityCohort.Counted(results, rows, slots, aggregate.value.outcome)
    }

    /** Receipts and job state of one job, statement by statement. */
    method CloseJob<Op, Rows>(db: Db<Op, Rows>) returns (closed: Db<Op, Rows>, raised: bool)
      modifies coordinator`clock
      ensures coordinator.clock >= old(coordinator.clock) && (raised <==> Disturbed(old(coordinator.clock)))
      ensures !raised ==> closed == SealedJob(db)
    {
      hide Filled;
      closed, raised := db, false;
      if db.job != Running {
        return;
      }
      var receipts := db.receipts;
      FilledNext(db.receipts, 0);
      for i := 0 to |db.claims|
        invariant !raised && coordinator.clock >= old(coordinator.clock) && !Disturbed(old(coordinator.clock))
        invariant receipts == Filled(db.receipts, i)
      {
        FilledNext(db.receipts, i);
        if i !in receipts {
          raised := coordinator.Step();
          if raised {
            return;
          }
          receipts := receipts[i := Failed];
        }
      }
      raised := coordinator.Step();
      closed := db.(receipts := receipts, job := RecoveryRequired);
    }

    method CloseEpisodes() returns (closed: seq<EpisodeJob>, raised: bool)
      modifies coordinator`clock
      ensures coordinator.clock >= old(coordinator.clock) && (raised <==> Disturbed(old(coordinator.clock)))
      ensures !raised ==> closed == SealedAll(episodes)
    {
      hide SealedJob;
      closed, raised := [], false;
      for i := 0 to |episodes|
        invariant !raised && coordinator.clock >= old(coordinator.clock) && !Disturbed(old(coordinator.clock))
        invariant closed == SealedAll(episodes)[..i]
      {
        var job;
        job, raised := CloseJob(episodes[i]);
        if raised {
          return;
        }
        closed := closed + [job];
      }
    }

    /** The sealer: one transaction over all open jobs and the recovery aggregate. It goes
        through exactly when nothing raises and some episode job did not succeed. */
    method SealRun() returns (raised: bool)
      modifies this`episodes, this`aggregate, coordinator
      ensures coordinator.clock >= old(coordinator.clock)
      ensures old(aggregate).Some? ==>
        !raised && episodes == old(episodes) && coordinator.db == old(coordinator.db) && aggregate == old(aggregate)
      ensures old(aggregate).None? ==> (raised <==> Disturbed(old(coordinator.clock)) || AllSucceeded(old(episodes)))
      ensures old(aggregate).None? && !raised ==>
        && episodes == SealedAll(old(episodes)) && coordinator.db == SealedJob(old(coordinator.db))
        && aggregate == Some(Recovery(CallCount(old(episodes))))
      ensures raised ==>
        || (episodes == old(episodes) && coordinator.db == old(coordinator.db) && aggregate == old(aggregate))
        || (!AllSucceeded(old(episodes)) && episodes == SealedAll(old(episodes))
            && coordinator.db == SealedJob(old(coordinator.db)) && aggregate == Some(Recovery(CallCount(old(episodes)))))
    {
      hide SealedJob, SealedAll, AllSucceeded, RecoveryAccepted, CallCount;
      raised := false;
      if aggregate.Some? {
        return;
      }
      var unrevoked := coordinator.Step();
      if unrevoked {
        return true;
      }
      SealedAccepted(episodes);
      var closed, failed := CloseEpisodes();
      if failed {
        return true;
      }
      var ended;
      ended, failed := CloseJob(coordinator.db);
      if failed || !RecoveryAccepted(closed) {
        return true;
      }
      var calls := CountCalls();
      var fault := coordinator.faults(coordinator.clock);
      coordinator.clock := coordinator.clock + 1;
      raised := fault != NoFault;
      if fault != Before {
        episodes, aggregate := closed, Some(Recovery(calls));
        coordinator.db := ended;
      }
    }

    method CountCalls() returns (calls: nat)
      ensures calls == CallCount(episodes)
    {
      calls := 0;
      for i := 0 to |episodes|
        invariant calls == CallCount(episodes[..i])
      {
        assert episodes[..i + 1][..i] == episodes[..i];
        calls := calls + |episodes[i].rows.outcomes|;
      }
      assert episodes[..|episodes|] == episodes;
    }

    /** The coordinator's finalization of a completed cohort, and the sealer when it fails.
        Episodes that all succeeded leave the sealer nothing it may seal: any exception on
        the way, and the refusal of a cohort with an episode that is neither passed nor
        contract-failed, leaves the coordinator's job running and its claim without receipt. */
    method FinishRun(tasks: nat, models: nat, results: seq<CapabilityCohort.Result>, rows: CapabilityCohort.Rows, digest: string)
        returns (published: bool)
      requires CapabilityCohort.Collected(results, CapabilityCohort.Keys(tasks, models))
      requires (forall r :: r in results ==> CapabilityCohort.Shaped(r)) && CapabilityCohort.Stored(rows, results)
      requires AllSucceeded(episodes) && Idle()
      modifies this`episodes, this`aggregate, coordinator
      ensures published ==> CapabilityCohort.NoneNeither(results) && !Disturbed(old(coordinator.clock))
      ensures CapabilityCohort.NoneNeither(results) && !Disturbed(old(coordinator.clock)) ==> published
      ensures episodes == old(episodes)
      ensures published ==> Done() && Complete(tasks * models * CapabilityCohort.TURNS, results, rows)
      ensures published ==> Checkpointed(tasks, models, results, rows, digest)
      ensures !published ==>
        || (coordinator.db.job == Running && coordinator.db.receipts == map[] && aggregate == None)
        || (Done() && aggregate.Some? && Disturbed(old(coordinator.clock)))
      ensures !published && !CapabilityCohort.NoneNeither(results) ==>
        coordinator.db.job == Running && coordinator.db.receipts == map[]
      ensures !published && !CapabilityCohort.NoneNeither(results) && !Disturbed(old(coordinator.clock)) ==>
        coordinator.db.claims == [FINALIZE] && 0 !in coordinator.db.receipts
    {
      hide CapabilityCohort.Collected, CapabilityCohort.Stored, CapabilityCohort.Shaped, CapabilityCohort.NoneNeither,
        SealedAll, AllSucceeded;
      published := TryFinalize(tasks, models, results, rows, digest);
      if !published {
        var unsealed := SealRun();
      }
    }

    method TryFinalize(tasks: nat, models: nat, results: seq<CapabilityCohort.Result>, rows: CapabilityCohort.Rows, digest: string)
        returns (published: bool)
      requires CapabilityCohort.Collected(results, CapabilityCohort.Keys(tasks, models))
      requires (forall r :: r in results ==> CapabilityCohort.Shaped(r)) && CapabilityCohort.Stored(rows, results)
      requires Idle()
      modifies this`aggregate, coordinator
      ensures coordinator.clock > old(coordinator.clock)
      ensures published <==> CapabilityCohort.NoneNeither(results) && !Disturbed(old(coordinator.clock))
      ensures coordinator.db.claims <= [FINALIZE]
      ensures published ==> Done() && Complete(tasks * models * CapabilityCohort.TURNS, results, rows)
      ensures published ==> Checkpointed(tasks, models, results, rows, digest)
      ensures !published ==>
        || (coordinator.db.job == Running && coordinator.db.receipts == map[] && aggregate == None)
        || (Done() && aggregate.Some?
            && CapabilityCohort.NoneNeither(results))
      ensures !Disturbed(old(coordinator.clock)) ==> coordinator.db.claims == [FINALIZE]
    {
      hide CapabilityCohort.Collected, CapabilityCohort.Stored, CapabilityCohort.Shaped, CapabilityCohort.NoneNeither,
        CapabilityCohort.PlanSteps, CapabilityCohort.Slots, CapabilityCohort.SlotResult, CapabilityCohort.StepsSay,
        CapabilityCohort.Counted;
      var begun := Begin();
      if !begun {
        return false;
      }
      var exit := CapabilityCohort.Finalize(tasks, models, results, rows, digest);
      published := Publish(exit);
    }

    /** The coordinator's claim and its one-shot authorization. */
    method Begin() returns (ok: bool)
      requires Idle()
      modifies coordinator
      ensures coordinator.clock > old(coordinator.clock) && (ok <==> !Disturbed(old(coordinator.clock)))
      ensures coordinator.db == Db([], map[], Running, None) || coordinator.db == Db([FINALIZE], map[], Running, None)
      ensures ok ==> coordinator.db == Db([FINALIZE], map[], Running, None)
    {
      var claim := coordinator.ClaimEffect(FINALIZE);
      if claim.Raised? {
        return false;
      }
      var unconsumed := coordinator.Step();
      ok := !unconsumed;
    }

    /** Receipt, checkpoint, job close, aggregate and scorecards in one transaction. */
    method Publish(exit: CapabilityCohort.Exit) returns (published: bool)
      requires coordinator.db == Db([FINALIZE], map[], Running, None) && aggregate == None
      modifies this`aggregate, coordinator
      ensures coordinator.clock > old(coordinator.clock)
      ensures published <==> exit.Published? && !Disturbed(old(coordinator.clock))
      ensures (coordinator.db == old(coordinator.db) && aggregate == None)
        || (exit.Published? && Done() && coordinator.db.rows == Some(exit.steps)
            && aggregate == Some(Completed'(exit.outcome)))
      ensures published ==> aggregate == Some(Completed'(exit.outcome)) && Done() && coordinator.db.rows == Some(exit.steps)
    {
      var unwritten := coordinator.Step();
      if unwritten || !exit.Published? {
        return false;
      }
      var fault := coordinator.faults(coordinator.clock);
      coordinator.clock := coordinator.clock + 1;
      if fault != Before {
        coordinator.db := coordinator.db.Settle(0, Completed).(rows := Some(exit.steps), job := Succeeded);
        aggregate := Some(Completed'(exit.outcome));
      }
      published := fault == NoFault;
    }
  }
}
