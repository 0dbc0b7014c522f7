/** The runtime ledger of one job, as the execution host and its repositories keep it:
    effect claims, terminal receipts, the job state and the rows a command writes beside them.

    Every statement may raise. A fault fires either before the statement takes effect or
    after it (the row is durable but the caller only sees the exception). The fault schedule
    is an arbitrary function of the statement number, so a contract proved here holds for
    every exception point and for any number of exceptions. */
module Ledger {
  import opened Finite

  datatype Option<+T> = None | Some(value: T)

  /** What a call that may raise gives back. */
  datatype Reply<+T> = Raised | Ok(value: T)

  datatype Fault = NoFault | Before | After

  datatype JobState = Running | Succeeded | RecoveryRequired

  datatype Receipt = Completed | Failed

  /** The durable state of the job: claims in the order they were written, the receipt of
      each claim by its position, the job state, and the command's own rows. */
  datatype Db<Op, Rows> = Db(claims: seq<Op>, receipts: map<nat, Receipt>, job: JobState, rows: Rows)
  {
    /** No claim without a terminal receipt. */
    predicate Settled()
    {
      forall i :: 0 <= i < |claims| ==> i in receipts
    }

    /** What the unique constraints keep: one claim per effect, receipts only for claims. */
    ghost predicate WellFormed()
    {
      && Distinct(claims)
      && (forall i :: i in receipts ==> i < |claims|)
    }

    function Claim(op: Op): Db<Op, Rows>
    {
      this.(claims := claims + [op])
    }

    function Settle(claim: nat, receipt: Receipt): Db<Op, Rows>
    {
      this.(receipts := receipts[claim := receipt])
    }
  }

  class EffectLedger<Op(==, !new), Rows(!new)> {
    const faults: nat -> Fault
    var db: Db<Op, Rows>
    var wire: seq<Op>  // provider effects in the order they left the process; never rolled back
    var clock: nat     // statements executed so far

    constructor (faults: nat -> Fault, rows: Rows)
      ensures Valid()
      ensures this.faults == faults && clock == 0
      ensures db == Db([], map[], Running, rows) && wire == []
    {
      this.faults := faults;
      db := Db([], map[], Running, rows);
      wire := [];
      clock := 0;
    }

    /** No effect without a claim, and no effect twice. */
    ghost predicate Valid()
      reads this`db, this`wire
    {
      && db.WellFormed()
      && Distinct(wire)
      && (forall op :: op in wire ==> op in db.claims)
    }

    /** Some statement numbered in from..to raised. */
    ghost predicate Faulted(from: nat, to: nat)
    {
      exists k :: from <= k < to && faults(k) != NoFault
    }

    /** Two different statements numbered in from..to raised. */
    ghost predicate FaultedTwice(from: nat, to: nat)
    {
      exists i, j :: from <= i < j < to && faults(i) != NoFault && faults(j) != NoFault
    }

    /** A piece of `n` statements: on a normal return all of them ran and none raised, on an
        exception one of them raised. */
    ghost predicate Took(from: nat, n: nat, raised: bool)
      reads this`clock
    {
      if raised then Faulted(from, from + n) else clock == from + n && !Faulted(from, clock)
    }

    /** A provider call that starts at statement `from` and raises leaves a completed receipt
        behind: the receipt itself raised after it was stored, or the log statement after it. */
    ghost predicate CompletedAnyway(from: nat)
    {
      && !Faulted(from, from + 3)
      && (faults(from + 3) == After || (faults(from + 3) == NoFault && faults(from + 4) != NoFault))
    }

    /** A step outside the ledger that may raise. */
    method Step() returns (raised: bool)
      modifies this`clock
      ensures clock == old(clock) + 1
      ensures raised <==> faults(old(clock)) != NoFault
    {
      raised := faults(clock) != NoFault;
      clock := clock + 1;
    }

    /** A statement that replaces the command's rows. */
    method Write(rows: Rows) returns (raised: bool)
      modifies this`db, this`clock
      ensures clock == old(clock) + 1
      ensures raised <==> faults(old(clock)) != NoFault
      ensures db == if faults(old(clock)) == Before then old(db) else old(db).(rows := rows)
      ensures old(Valid()) ==> Valid()
    {
      var fault := faults(clock);
      clock := clock + 1;
      if fault != Before {
        db := db.(rows := rows);
      }
      raised := fault != NoFault;
    }

    /** A second claim of the same effect breaks the idempotency key and raises. */
    method ClaimEffect(op: Op) returns (r: Reply<nat>)
      requires Valid()
      modifies this`db, this`clock
      ensures Valid()
      ensures clock == old(clock) + 1
      ensures r.Ok? <==> faults(old(clock)) == NoFault && op !in old(db).claims
      ensures r.Ok? ==> r.value == |old(db).claims|
      ensures db == if faults(old(clock)) == Before || op in old(db).claims
                    then old(db) else old(db).Claim(op)
    {
      var fault := faults(clock);
      clock := clock + 1;
      if fault == Before || op in db.claims {
        return Raised;
      }
      r := if fault == NoFault then Ok(|db.claims|) else Raised;
      db := db.Claim(op);
    }

    /** A second receipt for the same claim breaks the unique constraint and raises. */
    method RecordReceipt(claim: nat, receipt: Receipt) returns (raised: bool)
      requires Valid() && claim < |db.claims|
      modifies this`db, this`clock
      ensures Valid()
      ensures clock == old(clock) + 1
      ensures raised <==> faults(old(clock)) != NoFault || claim in old(db).receipts
      ensures db == if faults(old(clock)) == Before || claim in old(db).receipts
                    then old(db) else old(db).Settle(claim, receipt)
    {
      var fault := faults(clock);
      clock := clock + 1;
      if fault == Before || claim in db.receipts {
        return true;
      }
      db := db.Settle(claim, receipt);
      raised := fault != NoFault;
    }

    /** Closing the job: a pending claim allows only a recovery-required close, and a job
        that is not running is refused with `false`. */
    method Finish(outcome: JobState) returns (r: Reply<bool>)
      requires Valid() && outcome != Running
      modifies this`db, this`clock
      ensures Valid()
      ensures clock == old(clock) + 1
      ensures r.Ok? <==> faults(old(clock)) == NoFault &&
                         (old(db).Settled() || outcome == RecoveryRequired)
      ensures r.Ok? ==> r.value == (old(db).job == Running)
      ensures db == if faults(old(clock)) == Before || old(db).job != Running ||
                       (!old(db).Settled() && outcome == Succeeded)
                    then old(db) else old(db).(job := outcome)
    {
      var fault := faults(clock);
      clock := clock + 1;
      if fault == Before || (!db.Settled() && outcome != RecoveryRequired) {
        return Raised;
      }
      var running := db.job == Running;
      if running {
        db := db.(job := outcome);
      }
      r := if fault == NoFault then Ok(running) else Raised;
    }

    /** Leaving a transaction block by an exception. */
    method Rollback(saved: Db<Op, Rows>)
      requires saved.WellFormed() && Valid() && forall op :: op in wire ==> op in saved.claims
      modifies this`db
      ensures Valid() && db == saved
    {
      db := saved;
    }

    /** Leaving a transaction block normally. */
    method Commit(saved: Db<Op, Rows>) returns (raised: bool)
      requires saved.WellFormed() && Valid() && forall op :: op in wire ==> op in saved.claims
      modifies this`db, this`clock
      ensures Valid()
      ensures clock == old(clock) + 1
      ensures raised <==> faults(old(clock)) != NoFault
      ensures db == if faults(old(clock)) == Before then saved else old(db)
    {
      var fault := faults(clock);
      clock := clock + 1;
      if fault == Before {
        db := saved;
      }
      raised := fault != NoFault;
    }

    /** The provider transport: reached only with a durable claim for exactly this effect. */
    method Transmit(op: Op) returns (raised: bool)
      requires Valid() && op in db.claims && op !in wire
      modifies this`wire, this`clock
      ensures Valid()
      ensures clock == old(clock) + 1
      ensures raised <==> faults(old(clock)) != NoFault
      ensures wire == if faults(old(clock)) == Before then old(wire) else old(wire) + [op]
    {
      var fault := faults(clock);
      clock := clock + 1;
      if fault != Before {
        wire := wire + [op];
      }
      raised := fault != NoFault;
    }

    /** One exact provider call: authority check, claim, transport, terminal receipt. The
        caller gets the claim back only when its completed receipt is durable; whatever
        raises on the way, the call is not repeated. */
    method Invoke(op: Op) returns (r: Reply<nat>)
      requires Valid()
      modifies this
      ensures Valid()
      ensures clock > old(clock)
      ensures r.Ok? <==> !Faulted(old(clock), clock) && op !in old(db).claims
      ensures op !in old(db).claims ==> Took(old(clock), 5, r.Raised?)
      ensures r.Ok? ==> r.value == |old(db).claims|
                        && db == old(db).Claim(op).Settle(r.value, Completed)
                        && wire == old(wire) + [op]
      ensures r.Raised? ==>
        && db.job == old(db).job && db.rows == old(db).rows
        && (db.claims == old(db).claims || db.claims == old(db).claims + [op])
        && (forall i :: i < |old(db).claims| ==> (i in db.receipts <==> i in old(db).receipts))
        && (forall i :: i in old(db).receipts ==> i in db.receipts && db.receipts[i] == old(db).receipts[i])
        && (wire == old(wire) || wire == old(wire) + [op])
        && (op in old(db).claims ==> db == old(db) && wire == old(wire))
        && (op !in old(db).claims ==>
              (CompletedAnyway(old(clock)) <==> |old(db).claims| in db.receipts && db.receipts[|old(db).claims|] == Completed))
    {
      var refused := Step();
      if refused || op in db.claims {
        return Raised;
      }
      var reply := ClaimEffect(op);
      if reply.Raised? {
        return Raised;
      }
      var claim := reply.value;
      var failed := Transmit(op);
      if failed {
        var ignored := RecordReceipt(claim, Failed);
        return Raised;
      }
      var unrecorded := RecordReceipt(claim, Completed);
      if unrecorded {
        return Raised;
      }
      var unlogged := Step();
      r := if unlogged then Raised else Ok(claim);
    }
  }
}
