/** A routing mutation: claim, authority, one publish transaction, and a recovery handler. */
module RoutingMutation {
  import opened Ledger

  datatype Rows = Rows(mutated: bool, checkpoint: bool)

  type MutationLedger = EffectLedger<string, Rows>

  datatype Exit = Returned | Reraised | RecoveryRefused

  const NothingWritten := Rows(false, false)

  /** Every trace of success a reader can observe. */
  ghost predicate SuccessVisible(db: Db<string, Rows>)
  {
    && db.rows.mutated
    && db.rows.checkpoint
    && 0 in db.receipts && db.receipts[0] == Completed
    && db.job == Succeeded
  }

  /** No trace of success. */
  ghost predicate NoSuccess(db: Db<string, Rows>)
  {
    && db.rows == NothingWritten
    && (forall i :: i in db.receipts ==> db.receipts[i] == Failed)
    && db.job != Succeeded
  }

  /** The publish transaction: mutation rows, success receipt, checkpoint, job close. */
  method Publish(ledger: MutationLedger, claim: nat) returns (raised: bool)
    requires ledger.Valid() && ledger.wire == []
    requires |ledger.db.claims| == 1 && claim == 0
    requires ledger.db.receipts == map[] && ledger.db.job == Running && ledger.db.rows == NothingWritten
    modifies ledger
    ensures ledger.Valid() && ledger.wire == [] && ledger.clock >= old(ledger.clock)
    ensures ledger.db == old(ledger.db) || SuccessVisible(ledger.db)
    ensures ledger.db.claims == old(ledger.db.claims)
    ensures !raised ==> SuccessVisible(ledger.db)
    ensures raised <==> ledger.Faulted(old(ledger.clock), ledger.clock)
    ensures SuccessVisible(ledger.db) <==>
      !ledger.Faulted(old(ledger.clock), old(ledger.clock) + 4) && ledger.faults(old(ledger.clock) + 4) != Before
  {
    var saved := ledger.db;
    raised := ledger.Write(Rows(true, false));
    if !raised {
      raised := ledger.RecordReceipt(claim, Completed);
    }
    if !raised {
      raised := ledger.Write(Rows(true, true));
    }
    if !raised {
      var closed := ledger.Finish(Succeeded);
      raised := closed.Raised? || !closed.value;
    }
    if raised {
      ledger.Rollback(saved);
    } else {
      raised := ledger.Commit(saved);
    }
  }

  /** The recovery handler's transaction. `claim` is what the `try` block managed to bind. It
      raises only when the job is closed already or one of its own statements raised. */
  method Seal(ledger: MutationLedger, claim: Option<nat>) returns (raised: bool)
    requires ledger.Valid() && ledger.wire == []
    requires claim.Some? ==> claim.value < |ledger.db.claims|
    modifies ledger
    ensures ledger.Valid() && ledger.wire == [] && ledger.clock >= old(ledger.clock)
    ensures ledger.db.claims == old(ledger.db.claims)
    ensures raised <==> ledger.Faulted(old(ledger.clock), ledger.clock) || old(ledger.db.job) != Running
    ensures old(ledger.db.job) != Running ==> ledger.db == old(ledger.db)
    ensures raised ==> ledger.db == old(ledger.db) || ledger.db.job == RecoveryRequired
    ensures !raised ==>
      && ledger.db.job == RecoveryRequired && ledger.db.rows == old(ledger.db.rows)
      && ledger.db.receipts ==
           if claim.Some? && claim.value !in old(ledger.db.receipts)
           then old(ledger.db.receipts)[claim.value := Failed] else old(ledger.db.receipts)
    ensures ledger.db.job == RecoveryRequired && old(ledger.db.job) == Running ==>
      && ledger.db.rows == old(ledger.db.rows)
      && ledger.db.receipts ==
           if claim.Some? && claim.value !in old(ledger.db.receipts)
           then old(ledger.db.receipts)[claim.value := Failed] else old(ledger.db.receipts)
  {
    var saved := ledger.db;
    raised := false;
    if claim.Some? && claim.value !in ledger.db.receipts {
      raised := ledger.RecordReceipt(claim.value, Failed);
    }
    if !raised {
      var closed := ledger.Finish(RecoveryRequired);
      raised := closed.Raised? || !closed.value;
    }
    if raised {
      ledger.Rollback(saved);
    } else {
      raised := ledger.Commit(saved);
    }
  }

  /** The whole command from the acquired job on, for every fault schedule. The claim
      statement is numbered `old(ledger.clock)`; a fault `After` it leaves a durable claim
      that the `try` block never bound. */
  method RunDbMutation(ledger: MutationLedger, step: string) returns (exit: Exit)
    requires ledger.Valid() && ledger.wire == []
    requires ledger.db == Db([], map[], Running, NothingWritten)
    modifies ledger
    ensures ledger.Valid()
    // success is all or nothing, whatever raised
    ensures SuccessVisible(ledger.db) || NoSuccess(ledger.db)
    ensures exit == Returned ==> SuccessVisible(ledger.db) && ledger.db.Settled()
    ensures exit == Reraised ==> NoSuccess(ledger.db) && ledger.db.job == RecoveryRequired
    // the commit of the publish transaction is the seventh statement
    ensures SuccessVisible(ledger.db) <==>
      !ledger.Faulted(old(ledger.clock), old(ledger.clock) + 6) && ledger.faults(old(ledger.clock) + 6) != Before
    // a sealed job settles its claims exactly when the claim was not lost on the way back
    ensures exit == Reraised ==>
      (ledger.db.Settled() <==> ledger.faults(old(ledger.clock)) != After)
    ensures exit == Returned <==> !ledger.Faulted(old(ledger.clock), ledger.clock)
    // the handler fails to seal only a job that succeeded already, or by a second fault
    ensures exit == RecoveryRefused ==> SuccessVisible(ledger.db) || ledger.FaultedTwice(old(ledger.clock), ledger.clock)
    ensures ledger.Faulted(old(ledger.clock), ledger.clock) && !ledger.FaultedTwice(old(ledger.clock), ledger.clock) ==>
      exit == if SuccessVisible(ledger.db) then RecoveryRefused else Reraised
    ensures ledger.db.claims == (if ledger.faults(old(ledger.clock)) == Before then [] else [step])
  {
    var claim := None;
    var raised := true;
    var reply := ledger.ClaimEffect(step);
    if reply.Ok? {
      claim := Some(reply.value);
      raised := ledger.Step();
      if !raised {
        raised := Publish(ledger, reply.value);
      }
    }
    if !raised {
      return Returned;
    }
    var refused := Seal(ledger, claim);
    if refused {
      return RecoveryRefused;
    }
    if claim.None? {
      var unrevoked := ledger.Step();
    }
    exit := Reraised;
    assert ledger.db.claims == [step] ==> (ledger.db.Settled() <==> 0 in ledger.db.receipts);
  }

  /** A schedule with one exception. */
  function FaultAt(at: nat, fault: Fault): nat -> Fault
  {
    n => if n == at then fault else NoFault
  }

  /** A single exception that reaches the caller after the claim statement took effect: the
      job is sealed and re-raised with a claim that has no receipt. */
  method LostClaim(step: string) returns (exit: Exit, db: Db<string, Rows>)
    ensures exit == Reraised
    ensures db == Db([step], map[], RecoveryRequired, NothingWritten) && !db.Settled()
  {
    var ledger := new EffectLedger<string, Rows>(FaultAt(0, After), NothingWritten);
    exit := RunDbMutation(ledger, step);
    db := ledger.db;
    assert ledger.faults(0) == After;
    assert db.claims == [step] && 0 !in db.receipts;
  }
}
