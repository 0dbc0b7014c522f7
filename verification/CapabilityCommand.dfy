/** The whole capability command: task by task a wave of episodes, one lane per model, each run
    by its own command on its own job; then the finalization of what they stored, or the sealer. */
module CapabilityCommand {
  import opened Ledger
  import opened Finite
  import opened Scripts
  import opened CapabilityCohort
  import opened CapabilitySeal
  import E = CapabilityEpisode

  /** What a run depends on: its size, what providers and evaluators answer in each episode, and
      which statements of each lane raise. */
  datatype Setting = Setting(
    tasks: nat,
    models: nat,
    episode: Key -> E.Episode,
    faults: Key -> nat -> Fault,
    evidence: Key -> string)

  /** The job of one lane and the calls it sent. */
  datatype Lane = Lane(db: EpisodeJob, wire: seq<E.Op>)

  const Untouched := Lane(Db([], map[], Running, E.NoRows), [])

  /** No statement of the lane raises. */
  ghost predicate Undisturbed(s: Setting, k: Key)
  {
    Clean(s.faults(k), 0, |E.EpisodeScript(s.episode(k))|)
  }

  function ResultAt(s: Setting, k: Key): Result
  {
    var e := s.episode(k);
    Result(k, E.StatusAt(e, E.Stop(e)), E.Stop(e), s.evidence(k))
  }

  function ResultsOf(s: Setting, keys: seq<Key>): seq<Result>
  {
    seq(|keys|, i requires 0 <= i < |keys| => ResultAt(s, keys[i]))
  }

  /** What a lane leaves behind, whatever raised: an episode whose outcomes are backed and whose
      calls are an initial part of its turns; a finished one if nothing raised. */
  ghost predicate LaneDone(s: Setting, k: Key, lane: Lane)
  {
    var e := s.episode(k);
    && E.Sound(e, lane.db, lane.wire) && lane.wire <= E.Turns(E.Stop(e))
    && (Undisturbed(s, k) ==> E.Finished(e, lane.db, E.Stop(e)) && lane.wire == E.Turns(E.Stop(e)))
  }

  // ---------------------------------------------------------------- the waves

  method RunLane(s: Setting, k: Key) returns (lane: Lane, r: Reply<Result>)
    ensures LaneDone(s, k, lane)
    ensures r == if Undisturbed(s, k) then Ok(ResultAt(s, k)) else Raised
    ensures r.Ok? ==> lane.db.rows.episode == Some(r.value.status) && r.value.attempted == |lane.wire|
  {
    var e := s.episode(k);
    var ledger := new EffectLedger<E.Op, E.Rows>(s.faults(k), E.NoRows);
    hide E.EpisodeScript, E.Sound, E.Finished, E.Turns, E.StatusAt, E.Stop, Loses, Clean;
    var exit := E.RunEpisode(ledger, e);
    lane := Lane(ledger.db, ledger.wire);
    r := if exit.Returned? then Ok(Result(k, E.StatusAt(e, exit.attempted), exit.attempted, s.evidence(k))) else Raised;
    if exit.Returned? {
      LaneResult(s, k, lane);
    }
  }

  /** The result of a lane is the episode row of its job, after as many calls as it attempted. */
  lemma LaneResult(s: Setting, k: Key, lane: Lane)
    requires E.Finished(s.episode(k), lane.db, E.Stop(s.episode(k))) && lane.wire == E.Turns(E.Stop(s.episode(k)))
    ensures lane.db.rows.episode == Some(ResultAt(s, k).status) && ResultAt(s, k).attempted == |lane.wire|
  {
    hide E.Stop, E.StopsAt;
  }

  /** All lanes of the wave run to their ends; then the first one that raised is seen. */
  method RunWave(s: Setting, task: nat) returns (lanes: seq<Lane>, r: Reply<seq<Result>>)
    ensures LanesDone(s, WaveKeys(task, s.models), lanes)
    ensures r.Ok? <==> forall k :: k in WaveKeys(task, s.models) ==> Undisturbed(s, k)
    ensures r.Ok? ==> r.value == ResultsOf(s, WaveKeys(task, s.models))
  {
    var keys := WaveKeys(task, s.models);
    hide LaneDone, Undisturbed, ResultAt, WaveKeys;
    lanes := [];
    var results: seq<Result> := [];
    var failed := false;
    for m := 0 to |keys|
      invariant LanesDone(s, keys[..m], lanes)
      invariant failed <==> exists j :: 0 <= j < m && !Undisturbed(s, keys[j])
      invariant !failed ==> results == ResultsOf(s, keys[..m])
    {
      var lane, reply := RunLane(s, keys[m]);
      lanes := lanes + [lane];
      if reply.Ok? {
        results := results + [reply.value];
      } else {
        failed := true;
      }
    }
    assert keys[..|keys|] == keys;
    r := if failed then Raised else Ok(results);
  }

  ghost predicate LanesDone(s: Setting, keys: seq<Key>, lanes: seq<Lane>)
  {
    |lanes| == |keys| && forall i :: 0 <= i < |keys| ==> LaneDone(s, keys[i], lanes[i])
  }

  ghost predicate WaveUndisturbed(s: Setting, task: nat)
  {
    forall k :: k in WaveKeys(task, s.models) ==> Undisturbed(s, k)
  }

  /** How many waves run: up to the first with a lane that raises, that one included. */
  ghost function Waves(s: Setting, from: nat): (n: nat)
    requires from <= s.tasks
    ensures from <= n <= s.tasks
    decreases s.tasks - from
  {
    if from == s.tasks then from else if WaveUndisturbed(s, from) then Waves(s, from + 1) else from + 1
  }

  /** The lanes of the waves that run have ended; the others have not begun. */
  ghost predicate RanUpTo(s: Setting, n: nat, lanes: seq<Lane>)
  {
    var done, all := |Keys(n, s.models)|, Keys(s.tasks, s.models);
    && |lanes| == |all| && done <= |all|
    && LanesDone(s, all[..done], lanes[..done])
    && forall i :: done <= i < |lanes| ==> lanes[i] == Untouched
  }

  ghost predicate AllUndisturbed(s: Setting)
  {
    forall k :: k in Keys(s.tasks, s.models) ==> Undisturbed(s, k)
  }

  lemma {:induction false} KeysPrefix(n: nat, tasks: nat, models: nat)
    requires n <= tasks
    ensures Keys(n, models) <= Keys(tasks, models)
    decreases tasks
  {
    if n < tasks {
      KeysPrefix(n, tasks - 1, models);
    }
  }

  lemma {:induction false} WavesGo(s: Setting, n: nat)
    requires n <= s.tasks && forall t :: 0 <= t < n ==> WaveUndisturbed(s, t)
    ensures Waves(s, 0) == Waves(s, n)
  {
    hide WaveUndisturbed;
    if n > 0 {
      WavesGo(s, n - 1);
    }
  }

  lemma {:induction false} WavesAll(s: Setting, n: nat)
    ensures (forall t :: 0 <= t < n ==> WaveUndisturbed(s, t)) <==>
      forall k :: k in Keys(n, s.models) ==> Undisturbed(s, k)
  {
    if n > 0 {
      WavesAll(s, n - 1);
      hide Undisturbed, WaveKeys;
      assert WaveUndisturbed(s, n - 1) <==> forall k :: k in WaveKeys(n - 1, s.models) ==> Undisturbed(s, k);
    }
  }

  lemma UntouchedRest(s: Setting, n: nat, lanes: seq<Lane>, rest: nat)
    requires n <= s.tasks && LanesDone(s, Keys(n, s.models), lanes)
    requires |lanes| + rest == |Keys(s.tasks, s.models)|
    ensures RanUpTo(s, n, lanes + seq(rest, _ => Untouched))
  {
    KeysPrefix(n, s.tasks, s.models);
    hide Keys, LanesDone;
    var all := lanes + seq(rest, _ => Untouched);
    assert all[..|lanes|] == lanes && Keys(s.tasks, s.models)[..|lanes|] == Keys(n, s.models);
  }

  lemma LanesTogether(s: Setting, keys: seq<Key>, more: seq<Key>, lanes: seq<Lane>, wave: seq<Lane>)
    requires LanesDone(s, keys, lanes) && LanesDone(s, more, wave)
    ensures LanesDone(s, keys + more, lanes + wave)
  {
    hide LaneDone;
  }

  /** Wave by wave. The collection returns normally exactly if no lane of the run raises, and
      then with one result per task and model in wave order; otherwise the wave in which a lane
      raised still ends, and no later one begins. */
  method CollectWaves(s: Setting) returns (lanes: seq<Lane>, r: Reply<seq<Result>>)
    ensures RanUpTo(s, Waves(s, 0), lanes)
    ensures r.Ok? <==> AllUndisturbed(s)
    ensures r.Ok? ==> r.value == ResultsOf(s, Keys(s.tasks, s.models)) && Waves(s, 0) == s.tasks
  {
    var all := Keys(s.tasks, s.models);
    lanes := [];
    var results: seq<Result> := [];
    var task := 0;
    hide LaneDone, Undisturbed, ResultAt, WaveKeys, RanUpTo;
    while task < s.tasks
      invariant 0 <= task <= s.tasks
      invariant LanesDone(s, Keys(task, s.models), lanes)
      invariant results == ResultsOf(s, Keys(task, s.models))
      invariant forall t :: 0 <= t < task ==> WaveUndisturbed(s, t)
    {
      var wave, reply := RunWave(s, task);
      LanesTogether(s, Keys(task, s.models), WaveKeys(task, s.models), lanes, wave);
      lanes := lanes + wave;
      if reply.Raised? {
        WavesGo(s, task);
        WavesAll(s, task + 1);
        KeysPrefix(task + 1, s.tasks, s.models);
        UntouchedRest(s, task + 1, lanes, |all| - |lanes|);
        DisturbedPrefix(s, task + 1);
        return lanes + seq(|all| - |lanes|, _ => Untouched), Raised;
      }
      results := results + reply.value;
      task := task + 1;
    }
    WavesGo(s, task);
    WavesAll(s, task);
    UntouchedRest(s, task, lanes, 0);
    assert lanes + seq(0, _ => Untouched) == lanes;
    r := Ok(results);
  }

  lemma DisturbedPrefix(s: Setting, n: nat)
    requires n <= s.tasks && exists k :: k in Keys(n, s.models) && !Undisturbed(s, k)
    ensures !AllUndisturbed(s)
  {
    KeysPrefix(n, s.tasks, s.models);
    hide Keys, Undisturbed;
  }

  // ---------------------------------------------------------------- the rows

  function EpisodeCalls(k: Key, db: EpisodeJob): map<Slot, string>
  {
    map t | t in db.rows.outcomes :: Slot(k, t) := if t in db.rows.checkpoints then db.rows.checkpoints[t] else ""
  }

  function EpisodeSkips(k: Key, db: EpisodeJob): set<Slot>
  {
    if db.rows.terminal.Some? then set t | t in db.rows.terminal.value.skipped :: Slot(k, t) else {}
  }

  function EpisodeTerminal(k: Key, db: EpisodeJob): map<Key, E.Terminal>
  {
    if db.rows.terminal.Some? then map[k := db.rows.terminal.value] else map[]
  }

  /** The rows of all episodes together, as the finalization reads them. */
  function RowsOf(keys: seq<Key>, jobs: seq<EpisodeJob>): Rows
    requires |keys| == |jobs|
  {
    if keys == [] then Rows(map[], {}, map[])
    else
      var n := |keys| - 1;
      var before := RowsOf(keys[..n], jobs[..n]);
      Rows(before.calls + EpisodeCalls(keys[n], jobs[n]), before.skips + EpisodeSkips(keys[n], jobs[n]),
           before.terminals + EpisodeTerminal(keys[n], jobs[n]))
  }

  lemma {:induction false} RowsFrom(keys: seq<Key>, jobs: seq<EpisodeJob>, x: Slot)
    requires |keys| == |jobs| && x in RowsOf(keys, jobs).calls
    ensures x.key in keys
  {
    hide *;
    RowsNone(keys, jobs);
    var n := |keys| - 1;
    RowsNext(keys, jobs);
    assert keys == keys[..n] + [keys[n]];
    OwnCalls(keys[n], jobs[n]);
    if x in RowsOf(keys[..n], jobs[..n]).calls {
      RowsFrom(keys[..n], jobs[..n], x);
    }
  }

  /** The rows have a call for exactly every recorded outcome of a lane, with the checkpoint of
      its turn. */
  lemma {:induction false} RowsExact(keys: seq<Key>, jobs: seq<EpisodeJob>, i: nat, t: nat)
    requires Distinct(keys) && |keys| == |jobs| && i < |keys|
    ensures RowSays(RowsOf(keys, jobs).calls, keys[i], jobs[i], t)
  {
    hide *;
    var n := |keys| - 1;
    RowsNext(keys, jobs);
    if i < n {
      DistinctInit(keys);
      RowsExact(keys[..n], jobs[..n], i, t);
      KeysApart(keys, i);
      OwnCalls(keys[n], jobs[n]);
      RowKept(RowsOf(keys[..n], jobs[..n]).calls, EpisodeCalls(keys[n], jobs[n]), keys[i], jobs[i], t);
    } else {
      if Slot(keys[n], t) in RowsOf(keys[..n], jobs[..n]).calls {
        RowsFrom(keys[..n], jobs[..n], Slot(keys[n], t));
        LastApart(keys);
      }
      OwnRow(RowsOf(keys[..n], jobs[..n]).calls, keys[n], jobs[n], t);
    }
  }

  ghost predicate RowSays(calls: map<Slot, string>, k: Key, db: EpisodeJob, t: nat)
  {
    && (Slot(k, t) in calls <==> t in db.rows.outcomes)
    && (t in db.rows.outcomes && t in db.rows.checkpoints ==> calls[Slot(k, t)] == db.rows.checkpoints[t])
  }

  lemma RowKept(before: map<Slot, string>, own: map<Slot, string>, k: Key, db: EpisodeJob, t: nat)
    requires RowSays(before, k, db, t) && Slot(k, t) !in own
    ensures RowSays(before + own, k, db, t)
  {
  }

  lemma OwnRow(before: map<Slot, string>, k: Key, db: EpisodeJob, t: nat)
    requires Slot(k, t) !in before
    ensures RowSays(before + EpisodeCalls(k, db), k, db, t)
  {
  }

  lemma RowsNone(keys: seq<Key>, jobs: seq<EpisodeJob>)
    requires |keys| == |jobs|
    ensures keys == [] ==> RowsOf(keys, jobs).calls == map[]
  {
  }

  lemma LastApart(keys: seq<Key>)
    requires Distinct(keys) && keys != []
    ensures keys[|keys| - 1] !in keys[..|keys| - 1]
  {
  }

  lemma KeysApart(keys: seq<Key>, i: nat)
    requires Distinct(keys) && i < |keys| - 1
    ensures keys[i] != keys[|keys| - 1]
  {
  }

  /** The sealer counts one call per slot with a recorded outcome. */
  lemma {:induction false} CallsCounted(keys: seq<Key>, jobs: seq<EpisodeJob>)
    requires Distinct(keys) && |keys| == |jobs|
    ensures CallCount(jobs) == |RowsOf(keys, jobs).calls|
  {
    if keys != [] {
      var n := |keys| - 1;
      DistinctInit(keys);
      CallsCounted(keys[..n], jobs[..n]);
      RowsNext(keys, jobs);
      hide RowsOf;
      var before, own := RowsOf(keys[..n], jobs[..n]).calls, EpisodeCalls(keys[n], jobs[n]);
      OwnCalls(keys[n], jobs[n]);
      forall x | x in before
        ensures x !in own
      {
        RowsFrom(keys[..n], jobs[..n], x);
        LastApart(keys);
      }
      hide EpisodeCalls, Distinct;
      DisjointSizes(before, own);
    }
  }

  lemma DisjointSizes<K, V>(a: map<K, V>, b: map<K, V>)
    requires a.Keys !! b.Keys
    ensures |a + b| == |a| + |b|
  {
    assert (a + b).Keys == a.Keys + b.Keys;
    assert |(a + b).Keys| == |a.Keys| + |b.Keys|;
    assert |a + b| == |(a + b).Keys| && |a| == |a.Keys| && |b| == |b.Keys|;
  }

  lemma OwnCalls(k: Key, db: EpisodeJob)
    ensures |EpisodeCalls(k, db)| == |db.rows.outcomes|
    ensures forall x :: x in EpisodeCalls(k, db) ==> x.key == k
  {
    var turns := db.rows.outcomes.Keys;
    var slots := set t | t in turns :: Slot(k, t);
    assert EpisodeCalls(k, db).Keys == slots;
    SlotsOfTurns(k, turns);
    assert |EpisodeCalls(k, db)| == |slots| && |db.rows.outcomes| == |turns|;
  }

  lemma {:induction false} SlotsOfTurns(k: Key, turns: set<nat>)
    ensures |set t | t in turns :: Slot(k, t)| == |turns|
    decreases |turns|
  {
    if turns != {} {
      var t :| t in turns;
      SlotsOfTurns(k, turns - {t});
      assert (set u | u in turns :: Slot(k, u)) == (set u | u in turns - {t} :: Slot(k, u)) + {Slot(k, t)};
    }
  }

  ghost predicate FinishedAll(s: Setting, keys: seq<Key>, jobs: seq<EpisodeJob>)
  {
    && |jobs| == |keys|
    && forall i :: 0 <= i < |keys| ==> E.Finished(s.episode(keys[i]), jobs[i], E.Stop(s.episode(keys[i])))
  }

  /** What one finished episode adds to the rows is what its result stands for. */
  ghost predicate Adds(r: Result, calls: map<Slot, string>, skips: set<Slot>, terminal: map<Key, E.Terminal>)
  {
    && calls.Keys == TurnSet(r.key, 0, r.attempted) && skips == TurnSet(r.key, r.attempted, TURNS)
    && terminal.Keys == {r.key} && terminal[r.key].contractFailed == r.status.NotComparable?
  }

  lemma EpisodeStored(s: Setting, k: Key, db: EpisodeJob)
    requires E.Finished(s.episode(k), db, E.Stop(s.episode(k)))
    ensures Shaped(ResultAt(s, k)) && db.job == Succeeded && ResultAt(s, k).key == k
    ensures Adds(ResultAt(s, k), EpisodeCalls(k, db), EpisodeSkips(k, db), EpisodeTerminal(k, db))
  {
    hide *;
    var r := ResultAt(s, k);
    ResultMeans(s, k);
    FinishedTerminal(s, k, db);
    FinishedEpisode(s.episode(k), db, E.Stop(s.episode(k)), r);
    CallsStored(k, db, r.attempted);
    SkipsStored(k, db, r.attempted);
    TerminalStored(r, db);
  }

  lemma ResultMeans(s: Setting, k: Key)
    ensures var r, e := ResultAt(s, k), s.episode(k);
      r.key == k && r.attempted == E.Stop(e) && r.status == E.StatusAt(e, E.Stop(e))
  {
  }

  lemma TerminalStored(r: Result, db: EpisodeJob)
    requires db.rows.terminal.Some? && db.rows.terminal.value.contractFailed == r.status.NotComparable?
    requires EpisodeCalls(r.key, db).Keys == TurnSet(r.key, 0, r.attempted)
    requires EpisodeSkips(r.key, db) == TurnSet(r.key, r.attempted, TURNS)
    ensures Adds(r, EpisodeCalls(r.key, db), EpisodeSkips(r.key, db), EpisodeTerminal(r.key, db))
  {
    hide EpisodeCalls, EpisodeSkips, TurnSet;
  }

  lemma FinishedTerminal(s: Setting, k: Key, db: EpisodeJob)
    requires E.Finished(s.episode(k), db, E.Stop(s.episode(k)))
    ensures db.job == Succeeded && db.rows.terminal.Some? && ResultAt(s, k).key == k
    ensures db.rows.terminal.value.contractFailed == ResultAt(s, k).status.NotComparable?
  {
    hide E.StopsAt, E.StatusAt, E.Stop, E.TurnsAccounted;
  }

  lemma CallsStored(k: Key, db: EpisodeJob, n: nat)
    requires forall t: nat :: t in db.rows.outcomes <==> 1 <= t <= n
    ensures EpisodeCalls(k, db).Keys == TurnSet(k, 0, n)
  {
    forall x
      ensures x in EpisodeCalls(k, db) <==> x in TurnSet(k, 0, n)
    {
      assert x.key == k && 0 < x.turn <= n ==> x == Slot(k, x.turn);
    }
  }

  lemma SkipsStored(k: Key, db: EpisodeJob, n: nat)
    requires db.rows.terminal.Some? && forall t: nat :: t in db.rows.terminal.value.skipped <==> n < t <= TURNS
    ensures EpisodeSkips(k, db) == TurnSet(k, n, TURNS)
  {
    forall x
      ensures x in EpisodeSkips(k, db) <==> x in TurnSet(k, n, TURNS)
    {
      assert x.key == k && n < x.turn <= TURNS ==> x == Slot(k, x.turn);
    }
  }

  lemma StoredNext(results: seq<Result>, r: Result, before: Rows, calls: map<Slot, string>, skips: set<Slot>,
                   terminal: map<Key, E.Terminal>)
    requires Stored(before, results) && Adds(r, calls, skips, terminal)
    requires forall x :: x in results ==> x.key != r.key
    ensures Stored(Rows(before.calls + calls, before.skips + skips, before.terminals + terminal), results + [r])
  {
    hide *;
    AddsMeans(before, results, r, calls, skips, terminal);
    CalledNext(results, r);
    TerminalsNext(results, r, before.terminals, terminal);
    StoredMeans(Rows(before.calls + calls, before.skips + skips, before.terminals + terminal), results + [r]);
  }

  lemma AddsMeans(before: Rows, results: seq<Result>, r: Result, calls: map<Slot, string>, skips: set<Slot>,
                  terminal: map<Key, E.Terminal>)
    requires Stored(before, results) && Adds(r, calls, skips, terminal)
    ensures calls.Keys == TurnSet(r.key, 0, r.attempted) && skips == TurnSet(r.key, r.attempted, TURNS)
    ensures terminal.Keys == {r.key} && terminal[r.key].contractFailed == r.status.NotComparable?
    ensures before.calls.Keys == Called(results) && before.skips == Skipped(results)
    ensures TerminalsOf(results, before.terminals)
  {
    hide TurnSet, Called, Skipped;
  }

  lemma StoredMeans(rows: Rows, results: seq<Result>)
    requires rows.calls.Keys == Called(results) && rows.skips == Skipped(results) && TerminalsOf(results, rows.terminals)
    ensures Stored(rows, results)
  {
    hide Called, Skipped;
  }

  /** One terminal record per result, saying of it whether the turn contract failed. */
  ghost predicate TerminalsOf(results: seq<Result>, terminals: map<Key, E.Terminal>)
  {
    && (forall k :: k in terminals <==> exists r :: r in results && r.key == k)
    && (forall r :: r in results ==> r.key in terminals && terminals[r.key].contractFailed == r.status.NotComparable?)
  }

  lemma TerminalsNext(results: seq<Result>, r: Result, before: map<Key, E.Terminal>, terminal: map<Key, E.Terminal>)
    requires TerminalsOf(results, before) && forall x :: x in results ==> x.key != r.key
    requires terminal.Keys == {r.key} && terminal[r.key].contractFailed == r.status.NotComparable?
    ensures TerminalsOf(results + [r], before + terminal)
  {
    assert r in results + [r] && forall x :: x in results ==> x in results + [r];
  }

  lemma CalledNext(results: seq<Result>, r: Result)
    ensures Called(results + [r]) == Called(results) + TurnSet(r.key, 0, r.attempted)
    ensures Skipped(results + [r]) == Skipped(results) + TurnSet(r.key, r.attempted, TURNS)
  {
    assert (results + [r])[..|results|] == results;
  }

  lemma RowsNext(keys: seq<Key>, jobs: seq<EpisodeJob>)
    requires |keys| == |jobs| && keys != []
    ensures var n := |keys| - 1;
      var before := RowsOf(keys[..n], jobs[..n]);
      RowsOf(keys, jobs) == Rows(before.calls + EpisodeCalls(keys[n], jobs[n]), before.skips + EpisodeSkips(keys[n], jobs[n]),
                                 before.terminals + EpisodeTerminal(keys[n], jobs[n]))
  {
  }

  lemma FinishedInit(s: Setting, keys: seq<Key>, jobs: seq<EpisodeJob>)
    requires keys != [] && FinishedAll(s, keys, jobs)
    ensures var n := |keys| - 1;
      FinishedAll(s, keys[..n], jobs[..n]) && E.Finished(s.episode(keys[n]), jobs[n], E.Stop(s.episode(keys[n])))
  {
    hide E.Finished, E.Stop;
  }

  /** Finished episodes have stored exactly what the finalization expects of their results. */
  lemma {:induction false} EpisodesStored(s: Setting, keys: seq<Key>, jobs: seq<EpisodeJob>)
    requires Distinct(keys) && FinishedAll(s, keys, jobs)
    ensures Stored(RowsOf(keys, jobs), ResultsOf(s, keys)) && Collected(ResultsOf(s, keys), keys)
    ensures forall r :: r in ResultsOf(s, keys) ==> Shaped(r)
    ensures AllSucceeded(jobs)
  {
    hide *;
    FinishedLength(s, keys, jobs);
    if keys != [] {
      var n := |keys| - 1;
      var r := ResultAt(s, keys[n]);
      FinishedInit(s, keys, jobs);
      DistinctInit(keys);
      EpisodesStored(s, keys[..n], jobs[..n]);
      EpisodeStored(s, keys[n], jobs[n]);
      RowsNext(keys, jobs);
      ResultsNext(s, keys);
      StoredNext(ResultsOf(s, keys[..n]), r, RowsOf(keys[..n], jobs[..n]), EpisodeCalls(keys[n], jobs[n]),
                 EpisodeSkips(keys[n], jobs[n]), EpisodeTerminal(keys[n], jobs[n]));
      CollectedNext(s, keys);
      SucceededNext(jobs);
    } else {
      StoredNothing(keys, jobs, s);
    }
  }

  lemma DistinctInit(keys: seq<Key>)
    requires keys != [] && Distinct(keys)
    ensures Distinct(keys[..|keys| - 1])
  {
  }

  lemma CollectedNext(s: Setting, keys: seq<Key>)
    ensures Collected(ResultsOf(s, keys), keys)
  {
    hide E.Stop, E.StatusAt;
  }

  lemma SucceededNext(jobs: seq<EpisodeJob>)
    requires jobs != [] && AllSucceeded(jobs[..|jobs| - 1]) && jobs[|jobs| - 1].job == Succeeded
    ensures AllSucceeded(jobs)
  {
    forall i | 0 <= i < |jobs|
      ensures jobs[i].job == Succeeded
    {
      assert i < |jobs| - 1 ==> jobs[..|jobs| - 1][i] == jobs[i];
    }
  }

  lemma StoredNothing(keys: seq<Key>, jobs: seq<EpisodeJob>, s: Setting)
    requires keys == [] && jobs == []
    ensures ResultsOf(s, keys) == [] && Stored(RowsOf(keys, jobs), []) && Collected([], keys) && AllSucceeded(jobs)
  {
  }

  lemma ResultsNext(s: Setting, keys: seq<Key>)
    requires keys != [] && Distinct(keys)
    ensures var n := |keys| - 1;
      && ResultsOf(s, keys) == ResultsOf(s, keys[..n]) + [ResultAt(s, keys[n])]
      && forall x :: x in ResultsOf(s, keys[..n]) ==> x.key != ResultAt(s, keys[n]).key
  {
    hide E.Stop, E.StatusAt;
  }

  // ---------------------------------------------------------------- the command

  function Jobs(lanes: seq<Lane>): seq<EpisodeJob>
  {
    seq(|lanes|, i requires 0 <= i < |lanes| => lanes[i].db)
  }

  lemma UndisturbedFinish(s: Setting, lanes: seq<Lane>)
    requires RanUpTo(s, s.tasks, lanes) && AllUndisturbed(s)
    ensures FinishedAll(s, Keys(s.tasks, s.models), Jobs(lanes))
  {
    hide E.Finished, E.Stop, E.Sound, E.Turns, Undisturbed, Keys;
    var keys := Keys(s.tasks, s.models);
    assert keys[..|keys|] == keys && lanes[..|lanes|] == lanes;
    forall i | 0 <= i < |keys|
      ensures E.Finished(s.episode(keys[i]), Jobs(lanes)[i], E.Stop(s.episode(keys[i])))
    {
      assert LaneDone(s, keys[i], lanes[i]) && keys[i] in keys;
    }
  }

  /** Every episode ends passed or stopped by its turn contract. */
  ghost predicate Comparable(s: Setting)
  {
    forall k :: k in Keys(s.tasks, s.models) ==> !Neither(ResultAt(s, k))
  }

  lemma ComparableResults(s: Setting)
    ensures Comparable(s) <==> NoneNeither(ResultsOf(s, Keys(s.tasks, s.models)))
  {
    hide ResultAt, Keys, Neither;
    var keys, results := Keys(s.tasks, s.models), ResultsOf(s, Keys(s.tasks, s.models));
    if NoneNeither(results) {
      forall k | k in keys
        ensures !Neither(ResultAt(s, k))
      {
        var i :| 0 <= i < |keys| && keys[i] == k;
        assert results[i] in results;
      }
    }
  }

  /** The run, whatever raised in any lane or in the coordinator. It is published exactly if
      nothing raised anywhere and every episode is comparable, and then its aggregate counts
      every slot once. If a lane raised, an undisturbed sealer closes every job that is open,
      unless all episode jobs have succeeded. If none raised and some episode is not comparable,
      the coordinator is left running with a claim that has no receipt. */
  method RunCapability(s: Setting, faults: nat -> Fault, digest: string)
      returns (run: CapabilityRun, lanes: seq<Lane>, published: bool)
    ensures fresh(run) && run.coordinator.faults == faults
    ensures RanUpTo(s, Waves(s, 0), lanes) && |Jobs(lanes)| == |Keys(s.tasks, s.models)|
    ensures published <==> AllUndisturbed(s) && Comparable(s) && !run.Disturbed(0)
    ensures published ==>
      && run.Done() && run.episodes == Jobs(lanes)
      && var keys, rows := Keys(s.tasks, s.models), RowsOf(Keys(s.tasks, s.models), Jobs(lanes));
      && run.Complete(s.tasks * s.models * TURNS, ResultsOf(s, keys), rows)
      && run.Checkpointed(s.tasks, s.models, ResultsOf(s, keys), rows, digest)
    ensures AllUndisturbed(s) && !published ==> run.episodes == Jobs(lanes) && AllSucceeded(run.episodes)
    ensures AllUndisturbed(s) && !Comparable(s) ==>
      run.coordinator.db.job == Running && run.coordinator.db.receipts == map[]
    ensures AllUndisturbed(s) && !Comparable(s) && !run.Disturbed(0) ==> run.coordinator.db.claims == [FINALIZE]
    ensures !AllUndisturbed(s) && !run.Disturbed(0) && !AllSucceeded(Jobs(lanes)) ==>
      && run.episodes == SealedAll(Jobs(lanes)) && run.coordinator.db == SealedJob(Db([], map[], Running, None))
      && run.aggregate == Some(Recovery(|RowsOf(Keys(s.tasks, s.models), Jobs(lanes)).calls|))
    ensures !AllUndisturbed(s) && AllSucceeded(Jobs(lanes)) ==>
      run.coordinator.db == Db([], map[], Running, None) && run.aggregate == None && run.episodes == Jobs(lanes)
  {
    hide *;
    var reply;
    lanes, reply := CollectWaves(s);
    var keys, jobs := Keys(s.tasks, s.models), Jobs(lanes);
    RanLength(s, lanes);
    KeysComplete(s.tasks, s.models);
    CallsCounted(keys, jobs);
    run := new CapabilityRun(faults, jobs);
    published := false;
    if reply.Raised? {
      IdleMeans(run);
      var unsealed := run.SealRun();
      return;
    }
    UndisturbedFinish(s, lanes);
    EpisodesStored(s, keys, jobs);
    ComparableResults(s);
    published := run.FinishRun(s.tasks, s.models, reply.value, RowsOf(keys, jobs), digest);
  }

  lemma RanLength(s: Setting, lanes: seq<Lane>)
    requires RanUpTo(s, Waves(s, 0), lanes)
    ensures |Jobs(lanes)| == |Keys(s.tasks, s.models)|
  {
    hide LanesDone, Keys;
  }

  lemma IdleMeans(run: CapabilityRun)
    requires run.Idle()
    ensures run.coordinator.db == Db([], map[], Running, None) && run.aggregate == None
    ensures !run.Disturbed(0) <==> !run.coordinator.Faulted(0, run.coordinator.clock)
  {
  }

  lemma FinishedLength(s: Setting, keys: seq<Key>, jobs: seq<EpisodeJob>)
    requires FinishedAll(s, keys, jobs)
    ensures |jobs| == |keys|
  {
  }
}
