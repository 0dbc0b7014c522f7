/** One live capability episode: up to eight chained provider turns, the ledger receipt, the
    terminal record, and the handler that seals whatever an exception leaves behind. */
module CapabilityEpisode {
  import opened Ledger
  import opened Scripts

  const TURNS: nat := 8

  datatype Op = Turn(turn: nat) | EpisodeLedger

  datatype Status = Passed | Failed' | Timeout | Unsafe | NotComparable

  /** What the provider and the evaluators answer: the response digest of each turn, whether
      it satisfies the turn contract, and the verdict on a complete episode. `strict` says
      whether the database refuses a completed outcome once the job needs recovery, and `recovery`
      is the digest the handler stores for a turn that did not complete. */
  datatype Episode = Episode(
    seed: string, respond: nat -> string, parses: nat -> bool, verdict: Status, strict: bool, recovery: string)

  datatype CallOutcome = CallOutcome(completed: bool, claim: nat)

  datatype Terminal = Terminal(contractFailed: bool, attempted: nat, skipped: seq<nat>)

  /** The rows of the episode, by turn; the slot is the key of each, so none occurs twice. */
  datatype Rows = Rows(
    continuity: map<nat, string>,        // turn -> prior response digest
    authorized: set<nat>,
    checkpoints: map<nat, string>,       // turn -> result digest
    outcomes: map<nat, CallOutcome>,
    episode: Option<Status>,
    terminal: Option<Terminal>)

  type EpisodeDb = Db<Op, Rows>
  type EpisodeLedgerRef = EffectLedger<Op, Rows>

  /** The command's local state: which continuity states and outcomes it has seen stored, and
      the response digest the next turn chains on. */
  datatype Locals = Locals(states: set<nat>, persisted: set<nat>, prior: string)

  const NoRows := Rows(map[], {}, map[], map[], None, None)

  // ---------------------------------------------------------------- states

  function Turns(n: nat): seq<Op>
  {
    seq(n, i requires 0 <= i < n => Turn(i + 1))
  }

  /** Turn t chains on the response of turn t-1, the first one on the seed. */
  function Prior(e: Episode, t: nat): string
  {
    if t <= 1 then e.seed else e.respond(t - 1)
  }

  ghost predicate Chained(e: Episode, rows: Rows)
  {
    forall t :: t in rows.continuity ==> t >= 1 && rows.continuity[t] == if t == 1 then e.seed else e.respond(t - 1)
  }

  /** Every recorded outcome is backed by its own claim, that claim's receipt and a turn
      checkpoint, and says what the receipt says; a completed one checkpoints the response, any
      other the recovery digest. */
  ghost predicate Backed(e: Episode, db: EpisodeDb)
  {
    && db.rows.outcomes.Keys == db.rows.checkpoints.Keys
    && forall t :: t in db.rows.outcomes ==>
         var o := db.rows.outcomes[t];
         && o.claim < |db.claims| && db.claims[o.claim] == Turn(t)
         && o.claim in db.receipts && (o.completed <==> db.receipts[o.claim] == Completed)
         && db.rows.checkpoints[t] == if o.completed then e.respond(t) else e.recovery
  }

  /** The first `n` turns are complete and nothing else has happened. */
  ghost predicate Complete(e: Episode, db: EpisodeDb, wire: seq<Op>, loc: Locals, n: nat)
  {
    && n <= TURNS
    && db.claims == Turns(n) && wire == Turns(n) && db.job == Running
    && (forall i: nat :: i in db.receipts <==> i < n)
    && (forall i: nat :: i < n ==> db.receipts[i] == Completed)
    && Chained(e, db.rows) && Backed(e, db)
    && (forall t: nat :: t in db.rows.continuity <==> 1 <= t <= n)
    && (forall t: nat :: t in db.rows.outcomes <==> 1 <= t <= n)
    && (forall t: nat :: t in db.rows.authorized <==> 1 <= t <= n)
    && (forall t: nat :: t in loc.persisted <==> 1 <= t <= n)
    && (forall t: nat :: 1 <= t <= n ==> t in loc.states)
    && loc.prior == Prior(e, n + 1)
    && db.rows.episode == None && db.rows.terminal == None
  }

  /** What the handler meets, wherever the exception came from. */
  ghost predicate Interrupted(e: Episode, db: EpisodeDb, wire: seq<Op>, loc: Locals)
  {
    && Chained(e, db.rows) && Backed(e, db)
    && loc.persisted <= db.rows.outcomes.Keys
    && (forall op :: op in db.claims && op.Turn? ==>
          1 <= op.turn <= TURNS && op.turn in loc.states && op.turn in db.rows.continuity)
    && (db.job == Succeeded ==> db.Settled() && TurnsAccounted(db))
    && db.job != RecoveryRequired
    && InOrder(wire)
  }

  /** Every claimed turn has its outcome. */
  ghost predicate TurnsAccounted(db: EpisodeDb)
  {
    forall op :: op in db.claims && op.Turn? ==> op.turn in db.rows.outcomes
  }

  /** The calls that left the process are turns 1, 2, ... in order. */
  ghost predicate InOrder(wire: seq<Op>)
  {
    wire == Turns(|wire|)
  }

  // ---------------------------------------------------------------- what defeats the handler

  /** A call outcome is durable although the command never learned so: the commit went
      through and still raised. */
  ghost predicate LostOutcome(db: EpisodeDb, loc: Locals)
  {
    exists op :: op in db.claims && op.Turn? && op.turn in db.rows.outcomes && op.turn !in loc.persisted
  }

  /** A claimed turn has a completed receipt, but its outcome never reached the command. */
  ghost predicate UnrecordedSuccess(db: EpisodeDb, loc: Locals)
  {
    exists i :: 0 <= i < |db.claims| && db.claims[i].Turn? && db.claims[i].turn !in loc.persisted
                && i in db.receipts && db.receipts[i] == Completed
  }

  /** What the handler cannot record. */
  ghost predicate Unrecordable(e: Episode, db: EpisodeDb, loc: Locals)
  {
    LostOutcome(db, loc) || (e.strict && UnrecordedSuccess(db, loc))
  }

  /** The handler cannot seal what it meets: the job has been closed already, or a turn cannot
      be recorded. */
  ghost predicate Blocked(e: Episode, db: EpisodeDb, loc: Locals)
  {
    db.job != Running || Unrecordable(e, db, loc)
  }

  /** As long as every claimed turn is recorded, nothing defeats the handler. */
  lemma CompleteUnblocked(e: Episode, db: EpisodeDb, wire: seq<Op>, loc: Locals, n: nat, later: EpisodeDb)
    requires Complete(e, db, wire, loc, n) && later.job == Running
    requires later.claims == db.claims || later.claims == db.claims + [EpisodeLedger]
    ensures !Blocked(e, later, loc)
  {
    hide Chained, Backed;
  }

  /** The statements of one turn, with the faults that defeat the handler: five prepare it,
      and the call's authority, claim and transport do no harm either. */
  function TurnScript(strict: bool): (s: seq<Site>)
    ensures |s| == 15
  {
    var unrecorded: Site := if strict then {Before, After} else {};
    Plains(10)
    + [if strict then {After} else {}]                 // the completed receipt
    + [unrecorded, unrecorded, unrecorded]             // the log, the evaluation, the outcome's rows
    + [if strict then {Before, After} else {After}]    // the commit of the outcome
  }

  lemma TurnSites(strict: bool)
    ensures var script := TurnScript(strict);
      var unrecorded: Site := if strict then {Before, After} else {};
      && (forall j :: 0 <= j < 10 ==> script[j] == Plain)
      && script[10] == (if strict then {After} else {}) && script[11] == unrecorded && script[12] == unrecorded
      && script[13] == unrecorded && script[14] == if strict then {Before, After} else {After}
  {
  }

  // ---------------------------------------------------------------- one turn

  /** A transaction that writes the rows once and commits. */
  method Store(ledger: EpisodeLedgerRef, rows: Rows) returns (raised: bool)
    requires ledger.Valid()
    modifies ledger
    ensures ledger.Valid() && ledger.clock > old(ledger.clock) && ledger.wire == old(ledger.wire)
    ensures ledger.db == old(ledger.db) || ledger.db == old(ledger.db).(rows := rows)
    ensures !raised ==> ledger.db == old(ledger.db).(rows := rows)
    ensures raised <==> ledger.Faulted(old(ledger.clock), ledger.clock)
    ensures ledger.Took(old(ledger.clock), 2, raised)
    ensures ledger.db == if ledger.faults(old(ledger.clock)) == NoFault && ledger.faults(old(ledger.clock) + 1) != Before
                         then old(ledger.db).(rows := rows) else old(ledger.db)
  {
    var saved := ledger.db;
    raised := ledger.Write(rows);
    if raised {
      ledger.Rollback(saved);
    } else {
      raised := ledger.Commit(saved);
    }
  }

  lemma CompleteInterrupted(e: Episode, db: EpisodeDb, wire: seq<Op>, loc: Locals, n: nat)
    requires Complete(e, db, wire, loc, n)
    ensures Interrupted(e, db, wire, loc)
  {
  }

  /** The rows once turn t is prepared: its chained continuity state and its authority. */
  function Prepared(rows: Rows, t: nat, prior: string): Rows
  {
    rows.(continuity := rows.continuity[t := prior], authorized := rows.authorized + {t})
  }

  /** The rows once turn t is recorded: checkpoint and call outcome together. */
  function Recorded(rows: Rows, t: nat, result: string, completed: bool, claim: nat): Rows
  {
    rows.(checkpoints := rows.checkpoints[t := result], outcomes := rows.outcomes[t := CallOutcome(completed, claim)])
  }

  lemma PreparedInterrupted(e: Episode, db: EpisodeDb, wire: seq<Op>, loc: Locals, t: nat, authorized: set<nat>)
    requires Interrupted(e, db, wire, loc) && t >= 1 && t !in db.rows.outcomes
    ensures Interrupted(e, db.(rows := db.rows.(continuity := db.rows.continuity[t := Prior(e, t)], authorized := authorized)), wire, loc)
  {
  }

  lemma PrepareReady(e: Episode, db: EpisodeDb, wire: seq<Op>, loc: Locals, t: nat)
    requires 1 <= t && Complete(e, db, wire, loc, t - 1)
    ensures Prior(e, t) == if t == 1 then e.seed else loc.prior
    ensures Interrupted(e, db, wire, loc)
    ensures Interrupted(e, db.(rows := db.rows.(continuity := db.rows.continuity[t := Prior(e, t)])), wire, loc)
    ensures Interrupted(e, db.(rows := Prepared(db.rows, t, Prior(e, t))), wire, loc)
  {
    hide Interrupted, Chained, Backed;
    CompleteInterrupted(e, db, wire, loc, t - 1);
    StoredInterrupted(e, db, wire, loc, t);
  }

  lemma StoredInterrupted(e: Episode, db: EpisodeDb, wire: seq<Op>, loc: Locals, t: nat)
    requires 1 <= t && Interrupted(e, db, wire, loc) && t !in db.rows.outcomes
    ensures Interrupted(e, db.(rows := db.rows.(continuity := db.rows.continuity[t := Prior(e, t)])), wire, loc)
    ensures Interrupted(e, db.(rows := Prepared(db.rows, t, Prior(e, t))), wire, loc)
  {
    hide Interrupted;
    PreparedInterrupted(e, db, wire, loc, t, db.rows.authorized);
    PreparedInterrupted(e, db, wire, loc, t, db.rows.authorized + {t});
  }

  /** Continuity state and authority, each in its own transaction, before any call. */
  method PrepareTurn(ledger: EpisodeLedgerRef, e: Episode, loc: Locals, t: nat) returns (raised: bool)
    requires ledger.Valid() && 1 <= t <= TURNS && Complete(e, ledger.db, ledger.wire, loc, t - 1)
    modifies ledger
    ensures ledger.Valid() && ledger.clock > old(ledger.clock) && ledger.wire == old(ledger.wire)
    ensures raised ==> ledger.Faulted(old(ledger.clock), ledger.clock) && Interrupted(e, ledger.db, ledger.wire, loc)
    ensures !raised ==> ledger.db == old(ledger.db).(rows := Prepared(old(ledger.db.rows), t, Prior(e, t)))
    ensures ledger.Took(old(ledger.clock), 7, raised)
    ensures ledger.db.claims == old(ledger.db.claims) && ledger.db.job == old(ledger.db.job)
  {
    hide Interrupted, Complete, Prior;
    PrepareReady(e, ledger.db, ledger.wire, loc, t);
    var prior := if t == 1 then e.seed else loc.prior;
    raised := ledger.Step();
    if raised {
      return;
    }
    raised := Store(ledger, ledger.db.rows.(continuity := ledger.db.rows.continuity[t := prior]));
    if raised {
      return;
    }
    raised := ledger.Step();
    if raised {
      return;
    }
    raised := Store(ledger, ledger.db.rows.(authorized := ledger.db.rows.authorized + {t}));
    if raised {
      return;
    }
    raised := ledger.Step();
  }

  /** Turn t claimed, called and receipted, its outcome not yet recorded. */
  ghost predicate Called(e: Episode, db: EpisodeDb, wire: seq<Op>, loc: Locals, t: nat, before: EpisodeDb)
  {
    && 1 <= t <= TURNS
    && Complete(e, before, Turns(t - 1), loc, t - 1)
    && db == before.(rows := Prepared(before.rows, t, Prior(e, t))).Claim(Turn(t)).Settle(t - 1, Completed)
    && wire == Turns(t)
  }

  /** An exception inside the provider call. */
  lemma CallInterrupted(e: Episode, before: EpisodeDb, db: EpisodeDb, wire: seq<Op>, loc: Locals, t: nat)
    requires 1 <= t <= TURNS && Complete(e, before, Turns(t - 1), loc, t - 1)
    requires db.job == Running && db.rows == Prepared(before.rows, t, Prior(e, t))
    requires db.claims == before.claims || db.claims == before.claims + [Turn(t)]
    requires forall i :: i in before.receipts ==> i in db.receipts && db.receipts[i] == before.receipts[i]
    requires wire == Turns(t - 1) || wire == Turns(t - 1) + [Turn(t)]
    ensures Interrupted(e, db, wire, loc.(states := loc.states + {t}))
  {
    hide Complete, Backed, Chained, TurnsAccounted;
    CompleteInterrupted(e, before, Turns(t - 1), loc, t - 1);
    assert Turns(t - 1) + [Turn(t)] == Turns(t);
    PreparedChained(e, before.rows, t);
    KeptBacked(e, before, db, t);
  }

  /** Later claims and receipts unback nothing. */
  lemma KeptBacked(e: Episode, before: EpisodeDb, db: EpisodeDb, t: nat)
    requires Backed(e, before) && db.rows == Prepared(before.rows, t, Prior(e, t))
    requires before.claims <= db.claims
    requires forall i :: i in before.receipts ==> i in db.receipts && db.receipts[i] == before.receipts[i]
    ensures Backed(e, db)
  {
  }

  lemma PreparedChained(e: Episode, rows: Rows, t: nat)
    requires Chained(e, rows) && t >= 1
    ensures Chained(e, Prepared(rows, t, Prior(e, t)))
  {
  }

  lemma RecordedChained(e: Episode, rows: Rows, t: nat, result: string, completed: bool, claim: nat)
    ensures Chained(e, rows) ==> Chained(e, Recorded(rows, t, result, completed, claim))
  {
  }

  /** A recorded turn is backed when its claim is receipted. */
  lemma RecordedBacked(e: Episode, db: EpisodeDb, t: nat, result: string, completed: bool, claim: nat)
    requires Backed(e, db) && claim < |db.claims| && db.claims[claim] == Turn(t)
    requires claim in db.receipts && (completed <==> db.receipts[claim] == Completed)
    requires result == if completed then e.respond(t) else e.recovery
    ensures Backed(e, db.(rows := Recorded(db.rows, t, result, completed, claim)))
  {
  }

  /** Claiming and settling a new claim unbacks nothing. */
  lemma ClaimBacked(e: Episode, db: EpisodeDb, op: Op, receipt: Receipt)
    requires Backed(e, db) && db.WellFormed()
    ensures Backed(e, db.Claim(op).Settle(|db.claims|, receipt))
  {
  }

  lemma CalledBacked(e: Episode, db: EpisodeDb, wire: seq<Op>, loc: Locals, t: nat, before: EpisodeDb)
    requires before.WellFormed() && Called(e, db, wire, loc, t, before)
    ensures Backed(e, db) && Chained(e, db.rows) && |before.claims| == t - 1 && db.claims[t - 1] == Turn(t)
    ensures Backed(e, db.(rows := Recorded(db.rows, t, e.respond(t), true, t - 1)))
    ensures Chained(e, Recorded(db.rows, t, e.respond(t), true, t - 1))
  {
    hide Backed, Chained;
    RecordedChained(e, db.rows, t, e.respond(t), true, t - 1);
    var prepared := before.(rows := Prepared(before.rows, t, Prior(e, t)));
    PreparedChained(e, before.rows, t);
    PreparedBacked(e, before, t, Prior(e, t));
    ClaimBacked(e, prepared, Turn(t), Completed);
    RecordedBacked(e, db, t, e.respond(t), true, t - 1);
  }

  lemma PreparedBacked(e: Episode, db: EpisodeDb, t: nat, prior: string)
    requires Backed(e, db)
    ensures Backed(e, db.(rows := Prepared(db.rows, t, prior)))
  {
  }

  lemma CalledInterrupted(e: Episode, db: EpisodeDb, wire: seq<Op>, loc: Locals, t: nat, before: EpisodeDb)
    requires before.WellFormed() && Called(e, db, wire, loc, t, before)
    ensures Interrupted(e, db, wire, loc.(states := loc.states + {t}))
    ensures Interrupted(e, db.(rows := Recorded(db.rows, t, e.respond(t), true, t - 1)), wire, loc.(states := loc.states + {t}))
  {
    hide Backed, Chained;
    CalledBacked(e, db, wire, loc, t, before);
    assert Turns(t - 1) + [Turn(t)] == Turns(t);
  }

  lemma RecordedComplete(e: Episode, db: EpisodeDb, wire: seq<Op>, loc: Locals, next: Locals, t: nat, before: EpisodeDb)
    requires before.WellFormed() && Called(e, db, wire, loc, t, before)
    requires next == Locals(loc.states + {t}, loc.persisted + {t}, e.respond(t))
    ensures Complete(e, db.(rows := Recorded(db.rows, t, e.respond(t), true, t - 1)), wire, next, t)
  {
    hide Backed, Chained;
    CalledBacked(e, db, wire, loc, t, before);
    assert db.claims == Turns(t);
  }

  lemma TurnsPrefixes(n: nat, m: nat)
    requires n <= m
    ensures Turns(n) <= Turns(m)
  {
  }

  lemma TurnReady(e: Episode, db: EpisodeDb, wire: seq<Op>, loc: Locals, t: nat)
    requires 1 <= t && Complete(e, db, wire, loc, t - 1)
    ensures wire == Turns(t - 1) && Turn(t) !in db.claims && |db.claims| == t - 1
    ensures Turns(t - 1) + [Turn(t)] == Turns(t)
    ensures db.job == Running
  {
  }

  lemma MakeCalled(e: Episode, before: EpisodeDb, db: EpisodeDb, wire: seq<Op>, loc: Locals, t: nat)
    requires 1 <= t <= TURNS && Complete(e, before, Turns(t - 1), loc, t - 1) && |before.claims| == t - 1
    requires db == before.(rows := Prepared(before.rows, t, Prior(e, t))).Claim(Turn(t)).Settle(|before.claims|, Completed)
    requires wire == Turns(t)
    ensures Called(e, db, wire, loc, t, before)
  {
  }

  /** The call claimed turn t or not; the handler is defeated exactly when, in a strict
      database, its completed receipt is durable. */
  lemma CallBlocked(e: Episode, before: EpisodeDb, db: EpisodeDb, wire: seq<Op>, loc: Locals, t: nat)
    requires before.WellFormed() && db.WellFormed() && 1 <= t && Complete(e, before, wire, loc, t - 1)
    requires db.job == Running && db.rows.outcomes == before.rows.outcomes
    requires db.claims == before.claims || db.claims == before.claims + [Turn(t)]
    ensures Blocked(e, db, loc.(states := loc.states + {t})) <==>
      e.strict && |before.claims| in db.receipts && db.receipts[|before.claims|] == Completed
  {
    hide Chained, Backed;
    if e.strict && |before.claims| in db.receipts && db.receipts[|before.claims|] == Completed {
      assert db.claims[|before.claims|] == Turn(t);
    }
  }

  /** After the receipt, and until its outcome is committed, only a strict database defeats
      the handler; a commit that raised all the same always does. */
  lemma CalledBlocked(e: Episode, db: EpisodeDb, wire: seq<Op>, loc: Locals, t: nat, before: EpisodeDb)
    requires before.WellFormed() && Called(e, db, wire, loc, t, before)
    ensures Blocked(e, db, loc.(states := loc.states + {t})) <==> e.strict
    ensures Blocked(e, db.(rows := Recorded(db.rows, t, e.respond(t), true, t - 1)), loc.(states := loc.states + {t}))
  {
    CompletedReceiptUnrecordable(e, db, wire, loc, t, before);
    LostCommit(e, db, wire, loc, t, before);
    hide Complete, UnrecordedSuccess, LostOutcome, Recorded;
  }

  /** An exception inside the call, as the turn's script judges it. */
  lemma AlongCall(ledger: EpisodeLedgerRef, strict: bool, from: nat, consistent: bool)
    requires Clean(ledger.faults, from, from + 7) && ledger.Took(from + 7, 5, true)
    requires consistent <==> !(strict && ledger.CompletedAnyway(from + 7))
    ensures Along(ledger, TurnScript(strict), from, true, consistent)
  {
    TurnSites(strict);
    var i := FirstFault(ledger.faults, from, 12);
    assert i >= 7 && ledger.faults(from + i) != NoFault;
    LosesAt(ledger.faults, TurnScript(strict), from, i);
    hide Loses, TurnScript;
    CallPosition(ledger, from, i);
  }

  lemma CallPosition(ledger: EpisodeLedgerRef, from: nat, i: nat)
    requires 7 <= i < 12 && Clean(ledger.faults, from, from + i) && ledger.faults(from + i) != NoFault
    ensures ledger.CompletedAnyway(from + 7) <==> i == 11 || (i == 10 && ledger.faults(from + 10) == After)
  {
    assert ledger.Faulted(from + 7, from + 10) <==> i < 10;
  }

  /** An exception while the outcome is stored. */
  lemma AlongStore(ledger: EpisodeLedgerRef, strict: bool, from: nat, stored: bool, consistent: bool)
    requires Clean(ledger.faults, from, from + 13) && ledger.Took(from + 13, 2, true)
    requires stored <==> ledger.faults(from + 13) == NoFault && ledger.faults(from + 14) != Before
    requires consistent <==> !stored && !strict
    ensures Along(ledger, TurnScript(strict), from, true, consistent)
  {
    TurnSites(strict);
    if ledger.faults(from + 13) != NoFault {
      LosesAt(ledger.faults, TurnScript(strict), from, 13);
    } else {
      LosesAt(ledger.faults, TurnScript(strict), from, 14);
    }
  }

  /** One whole turn. On an exception the handler can seal the episode exactly when the turn's
      script says so of the first fault. */
  method InvokeTurn(ledger: EpisodeLedgerRef, e: Episode, loc0: Locals, t: nat) returns (loc: Locals, raised: bool)
    requires ledger.Valid() && 1 <= t <= TURNS && Complete(e, ledger.db, ledger.wire, loc0, t - 1)
    modifies ledger
    ensures ledger.Valid() && ledger.clock > old(ledger.clock)
    ensures raised ==> ledger.Faulted(old(ledger.clock), ledger.clock) && Interrupted(e, ledger.db, ledger.wire, loc)
    ensures !raised ==> Complete(e, ledger.db, ledger.wire, loc, t)
    ensures ledger.wire <= Turns(t)
    ensures Along(ledger, TurnScript(e.strict), old(ledger.clock), raised, !Blocked(e, ledger.db, loc))
  {
    hide *;
    ghost var before := ledger.db;
    ghost var wire := ledger.wire;
    ghost var start := ledger.clock;
    CleanEmpty(ledger.faults, start);
    TurnSites(e.strict);
    TurnReady(e, before, ledger.wire, loc0, t);
    TurnsPrefixes(t - 1, t);
    LedgerWellFormed(ledger);
    loc := loc0;
    raised := PrepareTurn(ledger, e, loc, t);
    if raised {
      CompleteUnblocked(e, before, wire, loc0, t - 1, ledger.db);
      AlongPlain(ledger, TurnScript(e.strict), start, 0, 7, !Blocked(e, ledger.db, loc));
      return;
    }
    CleanOn(ledger, start, start, 7);
    loc := loc.(states := loc.states + {t});
    var reply := ledger.Invoke(Turn(t));
    if reply.Raised? {
      LedgerWellFormed(ledger);
      CallInterrupted(e, before, ledger.db, ledger.wire, loc0, t);
      PreparedOutcomes(before.rows, t, Prior(e, t));
      CallBlocked(e, before, ledger.db, wire, loc0, t);
      AlongCall(ledger, e.strict, start, !Blocked(e, ledger.db, loc));
      FaultedLater(ledger, start, start + 7);
      return loc, true;
    }
    CleanOn(ledger, start, start + 7, 5);
    MakeCalled(e, before, ledger.db, ledger.wire, loc0, t);
    loc, raised := StoreTurn(ledger, e, loc0, t, reply.value, before, start);
  }

  /** The second half of a turn: the evaluation, and checkpoint and outcome in one transaction. */
  method StoreTurn(ledger: EpisodeLedgerRef, e: Episode, loc0: Locals, t: nat, claim: nat,
                    ghost before: EpisodeDb, ghost start: nat) returns (loc: Locals, raised: bool)
    requires ledger.Valid() && before.WellFormed() && claim == t - 1
    requires Called(e, ledger.db, ledger.wire, loc0, t, before)
    requires ledger.clock == start + 12 && Clean(ledger.faults, start, start + 12)
    modifies ledger
    ensures ledger.Valid() && ledger.clock > old(ledger.clock)
    ensures raised ==> ledger.Faulted(start, ledger.clock) && Interrupted(e, ledger.db, ledger.wire, loc)
    ensures !raised ==> Complete(e, ledger.db, ledger.wire, loc, t)
    ensures ledger.wire == old(ledger.wire)
    ensures Along(ledger, TurnScript(e.strict), start, raised, !Blocked(e, ledger.db, loc))
  {
    hide *;
    TurnSites(e.strict);
    loc := loc0.(states := loc0.states + {t});
    CalledInterrupted(e, ledger.db, ledger.wire, loc0, t, before);
    CalledBlocked(e, ledger.db, ledger.wire, loc0, t, before);
    RecordedComplete(e, ledger.db, ledger.wire, loc0, Locals(loc.states, loc.persisted + {t}, e.respond(t)), t, before);
    raised := ledger.Step();
    if raised {
      UnrecordedCritical(e.strict, ledger.faults(start + 12));
      AlongFault(ledger, TurnScript(e.strict), start, 12, !Blocked(e, ledger.db, loc));
      return;
    }
    CleanNext(ledger.faults, start, start + 12);
    raised := Store(ledger, Recorded(ledger.db.rows, t, e.respond(t), true, claim));
    if raised {
      AlongStore(ledger, e.strict, start, ledger.faults(start + 13) == NoFault && ledger.faults(start + 14) != Before,
                 !Blocked(e, ledger.db, loc));
      FaultedLater(ledger, start, start + 13);
      return;
    }
    CleanOn(ledger, start, start + 13, 2);
    loc := Locals(loc.states, loc.persisted + {t}, e.respond(t));
    AlongWhole(ledger, TurnScript(e.strict), start, !Blocked(e, ledger.db, loc));
  }

  lemma LedgerWellFormed(ledger: EpisodeLedgerRef)
    requires ledger.Valid()
    ensures ledger.db.WellFormed()
  {
  }

  lemma PreparedOutcomes(rows: Rows, t: nat, prior: string)
    ensures Prepared(rows, t, prior).outcomes == rows.outcomes
  {
  }

  lemma UnrecordedCritical(strict: bool, fault: Fault)
    requires fault != NoFault
    ensures var unrecorded: Site := if strict then {Before, After} else {};
      Critical(unrecorded, fault) <==> strict
  {
  }

  // ---------------------------------------------------------------- the episode

  /** Turn n is where the episode stops: the first that breaks the contract, or the last. */
  predicate StopsAt(e: Episode, n: nat)
  {
    && 1 <= n <= TURNS
    && (forall t :: 1 <= t < n ==> e.parses(t))
    && (n < TURNS ==> !e.parses(n))
  }

  function StatusAt(e: Episode, n: nat): Status
  {
    if e.parses(n) then e.verdict else NotComparable
  }

  /** The turn at which an episode that has reached turn t stops. */
  function StopFrom(e: Episode, t: nat): (n: nat)
    requires t <= TURNS
    ensures t <= n <= TURNS
    decreases TURNS - t
  {
    if t == TURNS || !e.parses(t) then t else StopFrom(e, t + 1)
  }

  function Stop(e: Episode): nat
  {
    StopFrom(e, 1)
  }

  lemma {:induction false} StopFromStops(e: Episode, t: nat)
    requires 1 <= t <= TURNS && forall u :: 1 <= u < t ==> e.parses(u)
    ensures StopsAt(e, StopFrom(e, t))
    decreases TURNS - t
  {
    if t < TURNS && e.parses(t) {
      StopFromStops(e, t + 1);
    }
  }

  /** There is exactly one turn at which an episode stops. */
  lemma StopsOnce(e: Episode, n: nat)
    ensures StopsAt(e, n) <==> n == Stop(e)
  {
    StopFromStops(e, 1);
  }

  /** The first n turns; a turn that keeps the contract ends with one more statement. */
  function TurnsScript(e: Episode, n: nat): seq<Site>
  {
    if n == 0 then [] else TurnsScript(e, n - 1) + TurnScript(e.strict) + Plains(if e.parses(n) then 1 else 0)
  }

  lemma {:induction false} TurnsPrefix(e: Episode, t: nat, n: nat)
    requires t <= n
    ensures TurnsScript(e, t) <= TurnsScript(e, n)
    decreases n - t
  {
    if t < n {
      TurnsPrefix(e, t, n - 1);
    }
  }

  /** An exception in turn t of an episode that reaches it. */
  lemma AlongTurn(ledger: EpisodeLedgerRef, e: Episode, t: nat, n: nat, from: nat, consistent: bool)
    requires 1 <= t <= n
    requires Clean(ledger.faults, from, from + |TurnsScript(e, t - 1)|)
    requires Along(ledger, TurnScript(e.strict), from + |TurnsScript(e, t - 1)|, true, consistent)
    ensures Along(ledger, TurnsScript(e, n), from, true, consistent)
  {
    var before, turn := TurnsScript(e, t - 1), TurnScript(e.strict);
    TurnsPrefix(e, t, n);
    assert before + turn <= TurnsScript(e, t);
    hide TurnScript, Along, TurnsScript;
    AlongAfter(ledger, before, turn, from, true, consistent);
    AlongMore(ledger, before + turn, TurnsScript(e, n), from, consistent);
  }

  /** And an exception right after it. */
  lemma AlongBetween(ledger: EpisodeLedgerRef, e: Episode, t: nat, n: nat, from: nat, consistent: bool)
    requires 1 <= t <= n && e.parses(t) && consistent
    requires Clean(ledger.faults, from, from + |TurnsScript(e, t - 1)| + 15)
    requires ledger.faults(from + |TurnsScript(e, t - 1)| + 15) != NoFault
    ensures Along(ledger, TurnsScript(e, n), from, true, consistent)
    ensures |TurnsScript(e, t)| == |TurnsScript(e, t - 1)| + 16
  {
    var upto := TurnsScript(e, t);
    TurnsPrefix(e, t, n);
    assert |upto| == |TurnsScript(e, t - 1)| + 16 && upto[|upto| - 1] == Plain;
    hide TurnScript, Along, TurnsScript, Loses;
    AlongFault(ledger, upto, from, |upto| - 1, consistent);
    AlongMore(ledger, upto, TurnsScript(e, n), from, consistent);
  }

  lemma TurnsLength(e: Episode, t: nat)
    requires t >= 1
    ensures |TurnsScript(e, 0)| == 0
    ensures |TurnsScript(e, t)| == |TurnsScript(e, t - 1)| + if e.parses(t) then 16 else 15
  {
    hide TurnScript;
  }

  /** The turns in order, up to the first response that breaks the turn contract. */
  method RunTurns(ledger: EpisodeLedgerRef, e: Episode, loc0: Locals) returns (loc: Locals, r: Reply<nat>)
    requires ledger.Valid() && Complete(e, ledger.db, ledger.wire, loc0, 0)
    modifies ledger
    ensures ledger.Valid() && ledger.clock >= old(ledger.clock)
    ensures r.Ok? ==> StopsAt(e, r.value) && r.value == Stop(e) && Complete(e, ledger.db, ledger.wire, loc, r.value)
    ensures r.Raised? ==> Interrupted(e, ledger.db, ledger.wire, loc) && ledger.Faulted(old(ledger.clock), ledger.clock)
    ensures ledger.wire <= Turns(Stop(e))
    ensures Along(ledger, TurnsScript(e, Stop(e)), old(ledger.clock), r.Raised?, !Blocked(e, ledger.db, loc))
  {
    hide *;
    loc := loc0;
    ghost var start := ledger.clock;
    ghost var ran := 0;
    CleanEmpty(ledger.faults, start);
    StopLater(e, 0);
    StopBound(e);
    TurnsLength(e, 1);
    var t := 0;
    while t < TURNS
      invariant 0 <= t <= TURNS && t <= Stop(e) && ledger.Valid()
      invariant ran == |TurnsScript(e, t)| && ledger.clock == start + ran && Clean(ledger.faults, start, start + ran)
      invariant Complete(e, ledger.db, ledger.wire, loc, t)
      invariant forall u :: 1 <= u <= t ==> e.parses(u)
    {
      StopLater(e, t);
      t := t + 1;
      TurnsLength(e, t);
      var raised;
      loc, raised := InvokeTurn(ledger, e, loc, t);
      TurnsPrefixes(t, Stop(e));
      if raised {
        AlongTurn(ledger, e, t, Stop(e), start, !Blocked(e, ledger.db, loc));
        FaultedLater(ledger, start, start + ran);
        return loc, Raised;
      }
      AlongOn(ledger, TurnScript(e.strict), start, start + ran, !Blocked(e, ledger.db, loc));
      if !e.parses(t) {
        StopHere(e, t);
        AlongWhole(ledger, TurnsScript(e, t), start, !Blocked(e, ledger.db, loc));
        return loc, Ok(t);
      }
      CompleteRunning(e, ledger.db, ledger.wire, loc, t);
      CompleteInterrupted(e, ledger.db, ledger.wire, loc, t);
      CompleteUnblocked(e, ledger.db, ledger.wire, loc, t, ledger.db);
      raised := ledger.Step();
      if raised {
        AlongBetween(ledger, e, t, Stop(e), start, !Blocked(e, ledger.db, loc));
        FaultedLater(ledger, start, start + ran + 15);
        return loc, Raised;
      }
      CleanNext(ledger.faults, start, start + ran + 15);
      ran := ran + 16;
    }
    CompleteWire(e, ledger.db, ledger.wire, loc, t);
    StopHere(e, t);
    AlongWhole(ledger, TurnsScript(e, t), start, !Blocked(e, ledger.db, loc));
    r := Ok(TURNS);
  }

  lemma StopLater(e: Episode, t: nat)
    requires forall u :: 1 <= u <= t ==> e.parses(u)
    ensures t < TURNS ==> t < Stop(e)
  {
    StopsOnce(e, Stop(e));
  }

  lemma StopHere(e: Episode, t: nat)
    requires 1 <= t <= TURNS && (forall u :: 1 <= u < t ==> e.parses(u)) && (t < TURNS ==> !e.parses(t))
    ensures StopsAt(e, t) && t == Stop(e)
  {
    StopsOnce(e, t);
  }

  lemma CompleteRunning(e: Episode, db: EpisodeDb, wire: seq<Op>, loc: Locals, n: nat)
    requires Complete(e, db, wire, loc, n)
    ensures db.job == Running
  {
  }

  /** A contract failure attempts n calls and skips the rest; anything else attempts all. */
  function TerminalOf(status: Status, n: nat): Terminal
    requires n <= TURNS
  {
    if status == NotComparable then Terminal(true, n, seq(TURNS - n, i => n + 1 + i))
    else Terminal(false, TURNS, [])
  }

  /** What a normal return leaves behind. */
  ghost predicate Finished(e: Episode, db: EpisodeDb, n: nat)
  {
    && StopsAt(e, n)
    && db.job == Succeeded && db.Settled() && TurnsAccounted(db)
    && db.claims == Turns(n) + [EpisodeLedger]
    && (forall t: nat :: t in db.rows.outcomes <==> 1 <= t <= n)
    && (forall t: nat :: 1 <= t <= n ==> db.rows.outcomes[t].completed)
    && db.rows.episode == Some(if e.parses(n) then e.verdict else NotComparable)
    && db.rows.terminal == Some(TerminalOf(StatusAt(e, n), n))
  }

  lemma LedgerClaimed(e: Episode, db: EpisodeDb, wire: seq<Op>, loc: Locals, n: nat, status: Status)
    requires db.WellFormed() && Complete(e, db, wire, loc, n)
    ensures Interrupted(e, db, wire, loc) && Interrupted(e, db.Claim(EpisodeLedger), wire, loc)
    ensures Interrupted(e, Published(db.Claim(EpisodeLedger), status, |db.claims|), wire, loc)
  {
    CompleteInterrupted(e, db, wire, loc, n);
    CompleteSettled(e, db, wire, loc, n);
    hide Complete, Chained, Backed, Interrupted, TurnsAccounted, Published;
    ClaimInterrupted(e, db, wire, loc);
    PublishInterrupted(e, db, wire, loc, status);
  }

  /** The ledger claim is no turn. */
  lemma SameTurns(db: EpisodeDb, op: Op)
    ensures op in db.Claim(EpisodeLedger).claims && op.Turn? <==> op in db.claims && op.Turn?
  {
  }

  lemma ClaimInterrupted(e: Episode, db: EpisodeDb, wire: seq<Op>, loc: Locals)
    requires db.WellFormed() && Interrupted(e, db, wire, loc) && db.job == Running
    ensures Interrupted(e, db.Claim(EpisodeLedger), wire, loc)
  {
    hide TurnsAccounted;
    forall op
      ensures op in db.Claim(EpisodeLedger).claims && op.Turn? <==> op in db.claims && op.Turn?
    {
      SameTurns(db, op);
    }
    LedgerBacked(e, db, Passed);
    hide Chained, Backed, Published;
  }

  lemma PublishInterrupted(e: Episode, db: EpisodeDb, wire: seq<Op>, loc: Locals, status: Status)
    requires db.WellFormed() && Interrupted(e, db, wire, loc) && db.job == Running && db.Settled() && TurnsAccounted(db)
    ensures Interrupted(e, Published(db.Claim(EpisodeLedger), status, |db.claims|), wire, loc)
  {
    hide Chained, Backed;
    var claimed := db.Claim(EpisodeLedger);
    forall op
      ensures op in claimed.claims && op.Turn? <==> op in db.claims && op.Turn?
    {
      SameTurns(db, op);
    }
    LedgerBacked(e, db, status);
    assert Published(claimed, status, |db.claims|).Settled();
  }

  lemma CompleteSettled(e: Episode, db: EpisodeDb, wire: seq<Op>, loc: Locals, n: nat)
    requires Complete(e, db, wire, loc, n)
    ensures db.job == Running && db.Settled() && TurnsAccounted(db)
  {
    hide Chained, Backed;
  }

  lemma LedgerBacked(e: Episode, db: EpisodeDb, status: Status)
    requires db.WellFormed() && Backed(e, db) && Chained(e, db.rows)
    ensures Backed(e, db.Claim(EpisodeLedger)) && Backed(e, Published(db.Claim(EpisodeLedger), status, |db.claims|))
    ensures Chained(e, Published(db.Claim(EpisodeLedger), status, |db.claims|).rows)
  {
  }

  /** What publishing needs once the ledger effect is claimed. */
  lemma LedgerReady(e: Episode, db: EpisodeDb, wire: seq<Op>, loc: Locals, n: nat)
    requires Complete(e, db, wire, loc, n)
    ensures EpisodeLedger !in db.claims && db.job == Running && |db.claims| == n
    ensures var claimed := db.Claim(EpisodeLedger);
      && claimed.job == Running && |claimed.claims| == n + 1
      && forall i :: 0 <= i < |claimed.claims| ==> (i in claimed.receipts <==> i != n)
  {
    hide Chained, Backed;
  }

  /** The episode published under its ledger claim, and with its terminal record. */
  function Published(db: EpisodeDb, status: Status, claim: nat): EpisodeDb
  {
    db.Settle(claim, Completed).(rows := db.rows.(episode := Some(status)), job := Succeeded)
  }

  function Terminated(db: EpisodeDb, terminal: Terminal): EpisodeDb
  {
    db.(rows := db.rows.(terminal := Some(terminal)))
  }

  /** Episode row, ledger receipt and job close in one transaction. */
  method PublishEpisode(ledger: EpisodeLedgerRef, status: Status, claim: nat) returns (raised: bool)
    requires ledger.Valid() && ledger.db.job == Running
    requires claim < |ledger.db.claims| && forall i :: 0 <= i < |ledger.db.claims| ==> (i in ledger.db.receipts <==> i != claim)
    modifies ledger
    ensures ledger.Valid() && ledger.clock > old(ledger.clock) && ledger.wire == old(ledger.wire)
    ensures ledger.db == old(ledger.db) || ledger.db == Published(old(ledger.db), status, claim)
    ensures !raised ==> ledger.db == Published(old(ledger.db), status, claim)
    ensures raised ==> ledger.Faulted(old(ledger.clock), ledger.clock)
    ensures ledger.Took(old(ledger.clock), 4, raised)
    ensures ledger.db == if !ledger.Faulted(old(ledger.clock), old(ledger.clock) + 3) && ledger.faults(old(ledger.clock) + 3) != Before
                         then Published(old(ledger.db), status, claim) else old(ledger.db)
  {
    var saved := ledger.db;
    raised := ledger.Write(ledger.db.rows.(episode := Some(status)));
    if !raised {
      raised := ledger.RecordReceipt(claim, Completed);
    }
    if !raised {
      var closed := ledger.Finish(Succeeded);
      raised := closed.Raised? || !closed.value;
    }
    if raised {
      ledger.Rollback(saved);
    } else {
      raised := ledger.Commit(saved);
    }
  }

  lemma TerminalInterrupted(e: Episode, db: EpisodeDb, wire: seq<Op>, loc: Locals, terminal: Terminal)
    requires Interrupted(e, db, wire, loc)
    ensures Interrupted(e, Terminated(db, terminal), wire, loc)
  {
  }

  lemma CompleteOutcomes(e: Episode, db: EpisodeDb, wire: seq<Op>, loc: Locals, n: nat)
    requires Complete(e, db, wire, loc, n)
    ensures forall t: nat :: 1 <= t <= n ==> db.rows.outcomes[t].completed
  {
    hide Chained;
  }

  lemma EpisodeFinished(e: Episode, db: EpisodeDb, wire: seq<Op>, loc: Locals, n: nat)
    requires Complete(e, db, wire, loc, n) && StopsAt(e, n)
    ensures var status := StatusAt(e, n);
            Finished(e, Terminated(Published(db.Claim(EpisodeLedger), status, n), TerminalOf(status, n)), n)
  {
    CompleteOutcomes(e, db, wire, loc, n);
    CompleteMeans(e, db, wire, loc, n);
    hide Complete, Chained, Backed, TerminalOf, StopsAt;
    FinalSettled(db, StatusAt(e, n), n);
  }

  lemma CompleteMeans(e: Episode, db: EpisodeDb, wire: seq<Op>, loc: Locals, n: nat)
    requires Complete(e, db, wire, loc, n)
    ensures n <= TURNS && db.claims == Turns(n) && |db.claims| == n && TurnsAccounted(db)
    ensures forall i: nat :: i in db.receipts <==> i < n
    ensures forall t: nat :: t in db.rows.outcomes <==> 1 <= t <= n
  {
    hide Chained, Backed;
  }

  lemma FinalSettled(db: EpisodeDb, status: Status, n: nat)
    requires |db.claims| == n && TurnsAccounted(db) && forall i: nat :: i in db.receipts <==> i < n
    ensures var last := Published(db.Claim(EpisodeLedger), status, n);
      last.Settled() && TurnsAccounted(last) && last.claims == db.claims + [EpisodeLedger]
  {
    forall op
      ensures op in db.Claim(EpisodeLedger).claims && op.Turn? <==> op in db.claims && op.Turn?
    {
      SameTurns(db, op);
    }
  }

  /** The statements from the last turn on: once the job is closed nothing can be sealed. */
  function FinishScript(): (s: seq<Site>)
    ensures |s| == 8
  {
    Plains(6) + [{After}, {Before, After}]
  }

  lemma FinishSites()
    ensures forall j :: 0 <= j < 6 ==> FinishScript()[j] == Plain
    ensures FinishScript()[6] == {After} && FinishScript()[7] == {Before, After}
    ensures !Critical(Plain, Before) && !Critical(Plain, After)
    ensures Critical({Before, After}, Before) && Critical({Before, After}, After)
  {
  }

  /** An exception while the episode is published. */
  lemma AlongPublish(ledger: EpisodeLedgerRef, from: nat, published: bool, consistent: bool)
    requires Clean(ledger.faults, from, from + 3) && ledger.Took(from + 3, 4, true)
    requires published <==> !ledger.Faulted(from + 3, from + 6) && ledger.faults(from + 6) != Before
    requires consistent <==> !published
    ensures Along(ledger, FinishScript(), from, true, consistent)
  {
    FinishSites();
    if ledger.Faulted(from + 3, from + 6) {
      LosesPlain(ledger.faults, FinishScript(), from, 3, 6);
    } else {
      LosesAt(ledger.faults, FinishScript(), from, 6);
    }
  }

  lemma PublishedBlocked(e: Episode, db: EpisodeDb, status: Status, claim: nat, loc: Locals, terminal: Terminal)
    ensures Blocked(e, Published(db, status, claim), loc)
    ensures Blocked(e, Terminated(Published(db, status, claim), terminal), loc)
  {
  }

  /** The claim of the ledger effect, between its two checks. */
  method ClaimEpisode(ledger: EpisodeLedgerRef, e: Episode, loc: Locals, ghost n: nat) returns (claim: Reply<nat>)
    requires ledger.Valid() && Complete(e, ledger.db, ledger.wire, loc, n)
    modifies ledger
    ensures ledger.Valid() && ledger.clock > old(ledger.clock) && ledger.wire == old(ledger.wire)
    ensures ledger.Took(old(ledger.clock), 3, claim.Raised?)
    ensures claim.Ok? ==> claim.value == n && ledger.db == old(ledger.db).Claim(EpisodeLedger)
    ensures claim.Raised? ==> Interrupted(e, ledger.db, ledger.wire, loc) && !Blocked(e, ledger.db, loc)
                              && ledger.Faulted(old(ledger.clock), ledger.clock)
  {
    hide Complete, Interrupted, Blocked, Published;
    LedgerReady(e, ledger.db, ledger.wire, loc, n);
    LedgerClaimed(e, ledger.db, ledger.wire, loc, n, Passed);
    ClaimUnblocked(e, ledger.db, ledger.wire, loc, n);
    var early := ledger.Step();
    if early {
      return Raised;
    }
    claim := ledger.ClaimEffect(EpisodeLedger);
    if claim.Ok? {
      var late := ledger.Step();
      if late {
        return Raised;
      }
    }
  }

  /** From the last turn to the terminal record. */
  method FinishEpisode(ledger: EpisodeLedgerRef, e: Episode, loc: Locals, n: nat) returns (raised: bool)
    requires ledger.Valid() && StopsAt(e, n) && n <= TURNS && Complete(e, ledger.db, ledger.wire, loc, n)
    modifies ledger
    ensures ledger.Valid() && ledger.clock > old(ledger.clock) && ledger.wire == old(ledger.wire)
    ensures !raised ==> Finished(e, ledger.db, n)
    ensures Interrupted(e, ledger.db, ledger.wire, loc)
    ensures raised ==> ledger.Faulted(old(ledger.clock), ledger.clock)
    ensures Along(ledger, FinishScript(), old(ledger.clock), raised, !Blocked(e, ledger.db, loc))
  {
    hide *;
    var status := StatusAt(e, n);
    ghost var start := ledger.clock;
    ghost var before := ledger.db;
    ghost var wire := ledger.wire;
    CleanEmpty(ledger.faults, start);
    FinishSites();
    LedgerWellFormed(ledger);
    LedgerClaimed(e, before, wire, loc, n, status);
    EpisodeFinished(e, before, wire, loc, n);
    LedgerReady(e, before, wire, loc, n);
    ClaimUnblocked(e, before, wire, loc, n);
    var claim := ClaimEpisode(ledger, e, loc, n);
    if claim.Raised? {
      AlongPlain(ledger, FinishScript(), start, 0, 3, !Blocked(e, ledger.db, loc));
      return true;
    }
    CleanOn(ledger, start, start, 3);
    raised := PublishEpisode(ledger, status, claim.value);
    PublishedBlocked(e, before.Claim(EpisodeLedger), status, claim.value, loc, TerminalOf(status, n));
    if raised {
      AlongPublish(ledger, start, !ledger.Faulted(start + 3, start + 6) && ledger.faults(start + 6) != Before,
                   !Blocked(e, ledger.db, loc));
      FaultedLater(ledger, start, start + 3);
      return;
    }
    CleanOn(ledger, start, start + 3, 4);
    TerminalInterrupted(e, ledger.db, wire, loc, TerminalOf(status, n));
    TerminatedRows(ledger.db, TerminalOf(status, n));
    raised := ledger.Write(ledger.db.rows.(terminal := Some(TerminalOf(status, n))));
    if raised {
      AlongFault(ledger, FinishScript(), start, 7, !Blocked(e, ledger.db, loc));
    } else {
      CleanNext(ledger.faults, start, start + 7);
      AlongWhole(ledger, FinishScript(), start, !Blocked(e, ledger.db, loc));
    }
  }

  lemma TerminatedRows(db: EpisodeDb, terminal: Terminal)
    ensures Terminated(db, terminal) == db.(rows := db.rows.(terminal := Some(terminal)))
  {
  }

  lemma ClaimUnblocked(e: Episode, db: EpisodeDb, wire: seq<Op>, loc: Locals, n: nat)
    requires Complete(e, db, wire, loc, n)
    ensures !Blocked(e, db, loc) && !Blocked(e, db.Claim(EpisodeLedger), loc)
  {
    CompleteRunning(e, db, wire, loc, n);
    hide Complete, Blocked;
    CompleteUnblocked(e, db, wire, loc, n, db);
    CompleteUnblocked(e, db, wire, loc, n, db.Claim(EpisodeLedger));
  }

  // ---------------------------------------------------------------- the handler

  ghost predicate SealedEpisode(e: Episode, db: EpisodeDb)
  {
    && db.job == RecoveryRequired && db.Settled()
    && Chained(e, db.rows) && Backed(e, db) && TurnsAccounted(db)
  }

  /** Failure receipts for every pending claim, each durable at once. */
  method SettlePending(ledger: EpisodeLedgerRef) returns (raised: bool)
    requires ledger.Valid()
    modifies ledger
    ensures ledger.Valid() && ledger.clock >= old(ledger.clock) && ledger.wire == old(ledger.wire)
    ensures raised <==> ledger.Faulted(old(ledger.clock), ledger.clock)
    ensures ledger.db == old(ledger.db).(receipts := ledger.db.receipts)
    ensures forall i :: i in old(ledger.db.receipts) ==>
      i in ledger.db.receipts && ledger.db.receipts[i] == old(ledger.db.receipts)[i]
    ensures forall i :: i in ledger.db.receipts && i !in old(ledger.db.receipts) ==> ledger.db.receipts[i] == Failed
    ensures !raised ==> ledger.db.Settled()
  {
    var i := 0;
    raised := false;
    while i < |ledger.db.claims|
      invariant 0 <= i <= |ledger.db.claims| && ledger.Valid() && ledger.wire == old(ledger.wire)
      invariant ledger.clock >= old(ledger.clock) && !ledger.Faulted(old(ledger.clock), ledger.clock) && !raised
      invariant ledger.db == old(ledger.db).(receipts := ledger.db.receipts)
      invariant forall j :: j in old(ledger.db.receipts) ==>
        j in ledger.db.receipts && ledger.db.receipts[j] == old(ledger.db.receipts)[j]
      invariant forall j :: j in ledger.db.receipts && j !in old(ledger.db.receipts) ==> ledger.db.receipts[j] == Failed
      invariant forall j :: 0 <= j < i ==> j in ledger.db.receipts
    {
      if i !in ledger.db.receipts {
        raised := ledger.RecordReceipt(i, Failed);
        if raised {
          return;
        }
      }
      i := i + 1;
    }
  }

  lemma SettledInterrupted(e: Episode, db: EpisodeDb, later: EpisodeDb, wire: seq<Op>, loc: Locals)
    requires Interrupted(e, db, wire, loc)
    requires later == db.(receipts := later.receipts)
    requires forall i :: i in db.receipts ==> i in later.receipts && later.receipts[i] == db.receipts[i]
    ensures Interrupted(e, later, wire, loc)
  {
  }

  /** The handler's walk over the claims: the first `i` are accounted for, the others are as
      the exception left them. */
  ghost predicate Walked(e: Episode, before: EpisodeDb, db: EpisodeDb, loc: Locals, i: nat)
  {
    && i <= |before.claims|
    && db == before.(rows := before.rows.(checkpoints := db.rows.checkpoints, outcomes := db.rows.outcomes))
    && Backed(e, db)
    && (e.strict ==> forall j :: 0 <= j < i && before.claims[j].Turn? && before.claims[j].turn !in loc.persisted ==>
          j in before.receipts && before.receipts[j] != Completed)
    && (forall j :: 0 <= j < i && before.claims[j].Turn? ==>
          before.claims[j].turn in db.rows.outcomes
          && (before.claims[j].turn in before.rows.outcomes ==> before.claims[j].turn in loc.persisted))
    && (forall j :: i <= j < |before.claims| && before.claims[j].Turn? ==>
          (before.claims[j].turn in db.rows.outcomes <==> before.claims[j].turn in before.rows.outcomes))
  }

  /** A claim that needs nothing: not a turn, or a turn already recorded. */
  lemma WalkPast(e: Episode, before: EpisodeDb, db: EpisodeDb, loc: Locals, i: nat)
    requires Walked(e, before, db, loc, i) && i < |before.claims|
    requires loc.persisted <= before.rows.outcomes.Keys
    requires before.claims[i].Turn? ==> before.claims[i].turn in loc.persisted
    ensures Walked(e, before, db, loc, i + 1)
  {
    hide Backed;
  }

  lemma WalkRecord(e: Episode, before: EpisodeDb, db: EpisodeDb, loc: Locals, i: nat, result: string, completed: bool)
    requires before.WellFormed() && Walked(e, before, db, loc, i) && i < |before.claims| && before.claims[i].Turn?
    requires before.claims[i].turn !in db.rows.outcomes
    requires i in before.receipts && (completed <==> before.receipts[i] == Completed)
    requires result == (if completed then e.respond(before.claims[i].turn) else e.recovery) && (completed ==> !e.strict)
    ensures Walked(e, before, db.(rows := Recorded(db.rows, before.claims[i].turn, result, completed, i)), loc, i + 1)
  {
    hide Backed;
    RecordedBacked(e, db, before.claims[i].turn, result, completed, i);
  }

  /** A slot that already has a checkpoint the command does not know of stops the handler. */
  lemma WalkLost(e: Episode, before: EpisodeDb, db: EpisodeDb, loc: Locals, i: nat)
    requires Walked(e, before, db, loc, i) && i < |before.claims| && before.claims[i].Turn?
    requires before.claims[i].turn !in loc.persisted
    ensures before.claims[i].turn in db.rows.checkpoints ==> Unrecordable(e, before, loc)
    ensures e.strict && i in before.receipts && before.receipts[i] == Completed ==> Unrecordable(e, before, loc)
    ensures before.claims[i].turn !in db.rows.checkpoints ==> before.claims[i].turn !in db.rows.outcomes
  {
    assert before.claims[i] in before.claims;
  }

  lemma WalkDone(e: Episode, before: EpisodeDb, db: EpisodeDb, loc: Locals)
    requires Walked(e, before, db, loc, |before.claims|)
    ensures TurnsAccounted(db) && !Unrecordable(e, before, loc)
  {
    hide Backed;
    forall op | op in before.claims && op.Turn?
      ensures op.turn in db.rows.outcomes
      ensures op.turn in before.rows.outcomes ==> op.turn in loc.persisted
    {
      var j :| 0 <= j < |before.claims| && before.claims[j] == op;
    }
  }

  /** The slot's checkpoint and outcome rows, once the job is closed for recovery. */
  method RecordSlot(ledger: EpisodeLedgerRef, e: Episode, turn: nat, result: string, completed: bool, claim: nat)
      returns (raised: bool)
    requires ledger.Valid() && ledger.db.job == RecoveryRequired
    modifies ledger`db, ledger`clock
    ensures ledger.Valid() && ledger.clock > old(ledger.clock)
    ensures raised <==> ledger.Faulted(old(ledger.clock), ledger.clock) || (e.strict && completed)
    ensures ledger.db.claims == old(ledger.db.claims)
    ensures !raised ==> ledger.db == old(ledger.db).(rows := Recorded(old(ledger.db.rows), turn, result, completed, claim))
  {
    raised := ledger.Write(ledger.db.rows.(checkpoints := ledger.db.rows.checkpoints[turn := result]));
    if raised {
      return;
    }
    if e.strict && completed && ledger.db.job == RecoveryRequired {
      return true;
    }
    raised := ledger.Write(ledger.db.rows.(outcomes := ledger.db.rows.outcomes[turn := CallOutcome(completed, claim)]));
  }

  /** A checkpoint and an outcome for every claimed turn the command has not recorded. */
  method RecordTurns(ledger: EpisodeLedgerRef, e: Episode, loc: Locals) returns (raised: bool)
    requires ledger.Valid() && ledger.db.Settled() && Backed(e, ledger.db) && ledger.db.job == RecoveryRequired
    requires loc.persisted <= ledger.db.rows.outcomes.Keys
    requires forall op :: op in ledger.db.claims && op.Turn? ==> op.turn in loc.states
    modifies ledger`db, ledger`clock
    ensures ledger.Valid() && ledger.clock >= old(ledger.clock)
    ensures raised <==> ledger.Faulted(old(ledger.clock), ledger.clock) || Unrecordable(e, old(ledger.db), loc)
    ensures ledger.db.claims == old(ledger.db.claims)
    ensures !raised ==> Walked(e, old(ledger.db), ledger.db, loc, |ledger.db.claims|)
  {
    hide Backed, Walked, Unrecordable, Recorded;
    ghost var before := ledger.db;
    WalkStarts(e, before, loc);
    var i := 0;
    raised := false;
    while i < |ledger.db.claims|
      invariant 0 <= i <= |before.claims| && ledger.Valid() && ledger.clock >= old(ledger.clock)
      invariant ledger.db.claims == before.claims && ledger.db.receipts == before.receipts && ledger.db.job == before.job
      invariant !ledger.Faulted(old(ledger.clock), ledger.clock) && !raised
      invariant Walked(e, before, ledger.db, loc, i)
    {
      var op := ledger.db.claims[i];
      assert op in before.claims;
      if op.Turn? && op.turn !in loc.persisted {
        WalkLost(e, before, ledger.db, loc, i);
        if op.turn !in loc.states {
          assert false;
        }
        if op.turn in ledger.db.rows.checkpoints {
          return true;
        }
        var completed := ledger.db.receipts[i] == Completed;
        var result := if completed then e.respond(op.turn) else e.recovery;
        if !(e.strict && completed) {
          WalkRecord(e, before, ledger.db, loc, i, result, completed);
        }
        raised := RecordSlot(ledger, e, op.turn, result, completed, i);
        if raised {
          return;
        }
      } else {
        WalkPast(e, before, ledger.db, loc, i);
      }
      i := i + 1;
    }
    WalkDone(e, before, ledger.db, loc);
  }

  lemma WalkStarts(e: Episode, db: EpisodeDb, loc: Locals)
    requires Backed(e, db)
    ensures Walked(e, db, db, loc, 0)
  {
    hide Backed;
  }

  /** The handler's transaction: close the job, then record what is missing. */
  method SealTransaction(ledger: EpisodeLedgerRef, e: Episode, loc: Locals) returns (raised: bool)
    requires ledger.Valid() && ledger.db.Settled() && Interrupted(e, ledger.db, ledger.wire, loc)
    modifies ledger
    ensures ledger.Valid() && ledger.clock >= old(ledger.clock) && ledger.wire == old(ledger.wire)
    ensures ledger.db == old(ledger.db) || SealedEpisode(e, ledger.db)
    ensures !raised ==> SealedEpisode(e, ledger.db)
    ensures raised <==> ledger.Faulted(old(ledger.clock), ledger.clock) || old(ledger.db.job) != Running
                        || Unrecordable(e, old(ledger.db), loc)
  {
    hide Chained, Backed, TurnsAccounted, Unrecordable, Walked;
    var saved := ledger.db;
    var closed := ledger.Finish(RecoveryRequired);
    raised := closed.Raised? || !closed.value;
    if !raised {
      ghost var running := saved.(job := RecoveryRequired);
      CloseKeeps(e, saved, loc);
      raised := RecordTurns(ledger, e, loc);
      if !raised {
        WalkDone(e, running, ledger.db, loc);
        WalkSealed(e, running, ledger.db, loc);
      }
    }
    if raised {
      ledger.Rollback(saved);
    } else {
      raised := ledger.Commit(saved);
    }
  }

  lemma CloseKeeps(e: Episode, db: EpisodeDb, loc: Locals)
    ensures Backed(e, db) <==> Backed(e, db.(job := RecoveryRequired))
    ensures Unrecordable(e, db, loc) <==> Unrecordable(e, db.(job := RecoveryRequired), loc)
  {
  }

  lemma WalkSealed(e: Episode, before: EpisodeDb, db: EpisodeDb, loc: Locals)
    requires Walked(e, before, db, loc, |before.claims|) && before.Settled() && before.job == RecoveryRequired
    requires Chained(e, before.rows)
    ensures db.Settled() && db.job == RecoveryRequired && Backed(e, db) && Chained(e, db.rows)
    ensures db.claims == before.claims
  {
    hide Backed;
  }

  lemma SettleKeepsLost(e: Episode, db: EpisodeDb, later: EpisodeDb, loc: Locals)
    requires later == db.(receipts := later.receipts)
    requires forall i :: i in db.receipts ==> i in later.receipts && later.receipts[i] == db.receipts[i]
    requires forall i :: i in later.receipts && i !in db.receipts ==> later.receipts[i] == Failed
    ensures Unrecordable(e, db, loc) <==> Unrecordable(e, later, loc)
  {
  }

  /** The whole handler. It succeeds exactly when nothing raises again, the job was still
      running, no outcome is durable behind the command's back and, in a strict database, no
      completed call is left for it to record. */
  method SealEpisode(ledger: EpisodeLedgerRef, e: Episode, loc: Locals) returns (raised: bool)
    requires ledger.Valid() && Interrupted(e, ledger.db, ledger.wire, loc)
    modifies ledger
    ensures ledger.Valid() && ledger.clock >= old(ledger.clock) && ledger.wire == old(ledger.wire)
    ensures !raised ==> SealedEpisode(e, ledger.db)
    ensures SealedEpisode(e, ledger.db) || Interrupted(e, ledger.db, ledger.wire, loc)
    ensures raised <==> ledger.Faulted(old(ledger.clock), ledger.clock) || old(ledger.db.job) != Running
                        || Unrecordable(e, old(ledger.db), loc)
  {
    hide Interrupted, SealedEpisode, Unrecordable;
    ghost var met := ledger.db;
    raised := SettlePending(ledger);
    SettledInterrupted(e, met, ledger.db, ledger.wire, loc);
    SettleKeepsLost(e, met, ledger.db, loc);
    if !raised {
      raised := SealTransaction(ledger, e, loc);
    }
  }

  /** In a strict database an exception right after a completed receipt already defeats the
      handler, at any turn. */
  lemma CompletedReceiptUnrecordable(e: Episode, db: EpisodeDb, wire: seq<Op>, loc: Locals, t: nat, before: EpisodeDb)
    requires before.WellFormed() && Called(e, db, wire, loc, t, before)
    ensures UnrecordedSuccess(db, loc.(states := loc.states + {t}))
    ensures Unrecordable(e, db, loc.(states := loc.states + {t})) <==> e.strict
  {
    hide Backed, Chained;
    CalledBacked(e, db, wire, loc, t, before);
    assert db.claims[t - 1] == Turn(t);
    assert forall op :: op in before.claims ==> op.Turn? && op.turn in loc.persisted;
  }

  /** When the commit that stores turn t's outcome goes through and raises all the same, the
      handler meets an outcome it does not know of: the turn is accounted for, the job stays. */
  lemma LostCommit(e: Episode, db: EpisodeDb, wire: seq<Op>, loc: Locals, t: nat, before: EpisodeDb)
    requires before.WellFormed() && Called(e, db, wire, loc, t, before)
    ensures LostOutcome(db.(rows := Recorded(db.rows, t, e.respond(t), true, t - 1)), loc.(states := loc.states + {t}))
  {
    hide Backed, Chained;
    CalledBacked(e, db, wire, loc, t, before);
    assert Turn(t) in db.claims;
  }

  /** Once all turns are accounted for, provider claims and call outcomes match one to one:
      the turn of each claim has the outcome that names that claim, and no other outcome exists. */
  lemma OutcomesMatchClaims(e: Episode, db: EpisodeDb)
    requires db.WellFormed() && Backed(e, db) && TurnsAccounted(db)
    ensures forall i :: 0 <= i < |db.claims| && db.claims[i].Turn? ==>
      db.claims[i].turn in db.rows.outcomes && db.rows.outcomes[db.claims[i].turn].claim == i
    ensures forall t :: t in db.rows.outcomes ==> Turn(t) in db.claims
  {
    forall i | 0 <= i < |db.claims| && db.claims[i].Turn?
      ensures db.claims[i].turn in db.rows.outcomes && db.rows.outcomes[db.claims[i].turn].claim == i
    {
      assert db.claims[i] in db.claims;
    }
  }

  // ---------------------------------------------------------------- the command

  datatype Exit = Returned(attempted: nat) | Sealed | Unsealed

  lemma Fresh(e: Episode)
    ensures Complete(e, Db([], map[], Running, NoRows), [], Locals({}, {}, e.seed), 0)
  {
  }

  /** What no exit can break: outcomes backed, turns chained, calls in turn order, and a
      succeeded job with every claim settled and every turn accounted for. */
  ghost predicate Sound(e: Episode, db: EpisodeDb, wire: seq<Op>)
  {
    && Chained(e, db.rows) && Backed(e, db) && InOrder(wire)
    && (db.job == Succeeded ==> db.Settled() && TurnsAccounted(db))
  }

  lemma InterruptedSound(e: Episode, db: EpisodeDb, wire: seq<Op>, loc: Locals)
    requires Interrupted(e, db, wire, loc)
    ensures Sound(e, db, wire) && InOrder(wire) && db.job != RecoveryRequired
  {
    hide Chained, Backed, TurnsAccounted, InOrder;
  }

  lemma SealedSound(e: Episode, db: EpisodeDb, wire: seq<Op>)
    requires SealedEpisode(e, db) && InOrder(wire)
    ensures Sound(e, db, wire)
  {
    hide Chained, Backed, TurnsAccounted, InOrder;
  }

  /** The statements of the whole episode: the barrier, the turns, the end. */
  function EpisodeScript(e: Episode): seq<Site>
  {
    [Plain] + TurnsScript(e, Stop(e)) + FinishScript()
  }

  /** The whole episode from the job claim on, under every fault schedule. It returns normally
      exactly when nothing raised. Otherwise the handler seals it only if the first fault was
      not critical for the statement it hit, and after a single fault exactly then. */
  method RunEpisode(ledger: EpisodeLedgerRef, e: Episode) returns (exit: Exit)
    requires ledger.Valid() && ledger.db == Db([], map[], Running, NoRows) && ledger.wire == []
    modifies ledger
    ensures ledger.Valid() && Sound(e, ledger.db, ledger.wire)
    ensures exit.Returned? <==> !ledger.Faulted(old(ledger.clock), ledger.clock)
    ensures exit.Returned? <==> Clean(ledger.faults, old(ledger.clock), old(ledger.clock) + |EpisodeScript(e)|)
    ensures ledger.wire <= Turns(Stop(e)) && (exit.Returned? ==> ledger.wire == Turns(Stop(e)))
    ensures exit.Returned? ==> exit.attempted == Stop(e) && Finished(e, ledger.db, exit.attempted)
    ensures exit.Sealed? ==> SealedEpisode(e, ledger.db)
    ensures exit.Sealed? ==> !Loses(ledger.faults, EpisodeScript(e), old(ledger.clock))
    ensures exit.Unsealed? ==>
      Loses(ledger.faults, EpisodeScript(e), old(ledger.clock)) || ledger.FaultedTwice(old(ledger.clock), ledger.clock)
  {
    hide *;
    var loc := Locals({}, {}, e.seed);
    ghost var start := ledger.clock;
    EpisodeSites(e);
    CleanEmpty(ledger.faults, start);
    Fresh(e);
    CompleteInterrupted(e, ledger.db, ledger.wire, loc, 0);
    CompleteUnblocked(e, ledger.db, ledger.wire, loc, 0, ledger.db);
    var raised := ledger.Step();  // the barrier, or a wave whose lanes started too far apart
    if raised {
      AlongFault(ledger, EpisodeScript(e), start, 0, !Blocked(e, ledger.db, loc));
    } else {
      CleanNext(ledger.faults, start, start);
      var turns;
      loc, turns := RunTurns(ledger, e, loc);
      raised := turns.Raised?;
      if raised {
        AlongTurns(ledger, e, start, !Blocked(e, ledger.db, loc));
        FaultedLater(ledger, start, start + 1);
      } else {
        AlongOn(ledger, TurnsScript(e, Stop(e)), start, start + 1, !Blocked(e, ledger.db, loc));
        ghost var at := ledger.clock;
        StopBound(e);
        CompleteWire(e, ledger.db, ledger.wire, loc, turns.value);
        raised := FinishEpisode(ledger, e, loc, turns.value);
        if !raised {
          AlongOn(ledger, FinishScript(), start, at, !Blocked(e, ledger.db, loc));
          CleanNoFault(ledger, start);
          InterruptedSound(e, ledger.db, ledger.wire, loc);
          return Returned(turns.value);
        }
        AlongAfter(ledger, [Plain] + TurnsScript(e, Stop(e)), FinishScript(), start, true, !Blocked(e, ledger.db, loc));
        FaultedLater(ledger, start, at);
      }
    }
    AlongNotClean(ledger, EpisodeScript(e), start, !Blocked(e, ledger.db, loc));
    AlongRaised(ledger, EpisodeScript(e), start, !Blocked(e, ledger.db, loc));
    InterruptedSound(e, ledger.db, ledger.wire, loc);
    BlockedMeans(e, ledger.db, loc);
    ghost var handled := ledger.clock;
    raised := SealEpisode(ledger, e, loc);
    SecondFault(ledger, start, handled);
    if SealedEpisode(e, ledger.db) {
      SealedSound(e, ledger.db, ledger.wire);
    } else {
      InterruptedSound(e, ledger.db, ledger.wire, loc);
    }
    exit := if raised then Unsealed else Sealed;
  }

  lemma EpisodeSites(e: Episode)
    ensures EpisodeScript(e) == [Plain] + TurnsScript(e, Stop(e)) + FinishScript()
    ensures |EpisodeScript(e)| == 1 + |TurnsScript(e, Stop(e))| + |FinishScript()| && EpisodeScript(e)[0] == Plain
    ensures !Critical(Plain, Before) && !Critical(Plain, After)
  {
    hide TurnsScript, FinishScript;
  }

  lemma CompleteWire(e: Episode, db: EpisodeDb, wire: seq<Op>, loc: Locals, n: nat)
    requires Complete(e, db, wire, loc, n)
    ensures wire == Turns(n)
  {
  }

  lemma StopBound(e: Episode)
    ensures 1 <= Stop(e) <= TURNS
  {
  }

  lemma AlongTurns(ledger: EpisodeLedgerRef, e: Episode, from: nat, consistent: bool)
    requires Clean(ledger.faults, from, from + 1)
    requires Along(ledger, TurnsScript(e, Stop(e)), from + 1, true, consistent)
    ensures Along(ledger, EpisodeScript(e), from, true, consistent)
  {
    hide TurnsScript, FinishScript, Along;
    AlongAfter(ledger, [Plain], TurnsScript(e, Stop(e)), from, true, consistent);
    AlongMore(ledger, [Plain] + TurnsScript(e, Stop(e)), EpisodeScript(e), from, consistent);
  }

  lemma BlockedMeans(e: Episode, db: EpisodeDb, loc: Locals)
    ensures Blocked(e, db, loc) <==> db.job != Running || Unrecordable(e, db, loc)
  {
  }
}
