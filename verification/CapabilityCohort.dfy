/** The cohort of capability episodes, one per task and model: what the waves collect, and the
    finalization that turns their rows into a checkpoint and a runtime outcome. Models and
    tasks are numbered; the program runs seven of the first and three of the second. */
module CapabilityCohort {
  import opened Ledger
  import opened Finite
  import CapabilityEpisode

  type Status = CapabilityEpisode.Status
  const TURNS: nat := CapabilityEpisode.TURNS

  datatype Key = Key(task: nat, model: nat)
  datatype Slot = Slot(key: Key, turn: nat)

  /** The result object a lane returns. */
  datatype Result = Result(key: Key, status: Status, attempted: nat, evidence: string)

  /** Call outcomes, skipped slots and terminal records of all episodes. */
  datatype Rows = Rows(calls: map<Slot, string>, skips: set<Slot>, terminals: map<Key, CapabilityEpisode.Terminal>)

  datatype Step = CallStep(slot: Slot) | EpisodeStep(key: Key) | FinalizeStep

  datatype Outcome = Outcome(calls: nat, successful: int, contractFailed: nat, skipped: int)

  // ---------------------------------------------------------------- what a finished episode leaves

  ghost predicate Shaped(r: Result)
  {
    1 <= r.attempted <= TURNS && (!r.status.NotComparable? ==> r.attempted == TURNS)
  }

  /** The outcomes of a finished episode are its turns up to the last attempted one and its
      skipped slots are exactly the later ones; only a broken turn contract stops it early. */
  lemma FinishedEpisode(e: CapabilityEpisode.Episode, db: CapabilityEpisode.EpisodeDb, n: nat, r: Result)
    requires CapabilityEpisode.Finished(e, db, n)
    requires r.status == CapabilityEpisode.StatusAt(e, n) && r.attempted == n
    ensures Shaped(r)
    ensures forall t: nat :: t in db.rows.outcomes <==> 1 <= t <= n
    ensures forall t: nat :: t in db.rows.terminal.value.skipped <==> n < t <= TURNS
    ensures Distinct(db.rows.terminal.value.skipped)
    ensures n < TURNS ==> r.status.NotComparable? && !e.parses(n)
    ensures db.rows.terminal.value.attempted == n && db.rows.episode == Some(r.status)
    ensures db.rows.terminal.value.contractFailed <==> r.status.NotComparable?
  {
    var skipped := db.rows.terminal.value.skipped;
    if r.status.NotComparable? {
      forall t: nat
        ensures t in skipped <==> n < t <= TURNS
      {
        if n < t <= TURNS {
          assert skipped[t - n - 1] == t;
        }
      }
    }
  }

  // ---------------------------------------------------------------- slots

  /** The slots of one episode after turn `lo` and up to turn `hi`. */
  function TurnSet(key: Key, lo: nat, hi: nat): (s: set<Slot>)
    ensures forall x :: x in s <==> x.key == key && lo < x.turn <= hi
    ensures |s| == if lo < hi then hi - lo else 0
  {
    if hi <= lo then {} else TurnSet(key, lo, hi - 1) + {Slot(key, hi)}
  }

  function Called(results: seq<Result>): set<Slot>
  {
    if results == [] then {}
    else var r := results[|results| - 1];
      Called(results[..|results| - 1]) + TurnSet(r.key, 0, r.attempted)
  }

  function Skipped(results: seq<Result>): set<Slot>
  {
    if results == [] then {}
    else var r := results[|results| - 1];
      Skipped(results[..|results| - 1]) + TurnSet(r.key, r.attempted, TURNS)
  }

  ghost predicate OnePerKey(results: seq<Result>)
  {
    forall i, j :: 0 <= i < j < |results| ==> results[i].key != results[j].key
  }

  lemma {:induction false} CalledSlots(results: seq<Result>, x: Slot)
    ensures x in Called(results) <==> exists r :: r in results && r.key == x.key && 1 <= x.turn <= r.attempted
    ensures x in Skipped(results) <==> exists r :: r in results && r.key == x.key && r.attempted < x.turn <= TURNS
  {
    if results != [] {
      var before, last := results[..|results| - 1], results[|results| - 1];
      assert results == before + [last];
      CalledSlots(before, x);
    }
  }

  lemma {:induction false} Counts(results: seq<Result>)
    requires OnePerKey(results) && forall r :: r in results ==> Shaped(r)
    ensures |Called(results)| + |Skipped(results)| == TURNS * |results|
    ensures |results| <= |Called(results)|
    ensures |Called(results)| >= TURNS * Passing(results) + (|results| - Passing(results))
  {
    if results != [] {
      var before, last := results[..|results| - 1], results[|results| - 1];
      assert results == before + [last];
      assert last in results;
      forall r | r in before
        ensures Shaped(r) && r.key != last.key
      {
        var i :| 0 <= i < |before| && before[i] == r;
        assert results[i] == r;
      }
      Counts(before);
      LastCounts(before, last);
      hide OnePerKey, Called, Skipped;
    }
  }

  /** The slots of one more episode come on top. */
  lemma LastCounts(before: seq<Result>, last: Result)
    requires Shaped(last) && forall r :: r in before ==> r.key != last.key
    ensures |Called(before + [last])| == |Called(before)| + last.attempted
    ensures |Skipped(before + [last])| == |Skipped(before)| + TURNS - last.attempted
  {
    assert (before + [last])[..|before|] == before;
    forall x: Slot | x.key == last.key
      ensures x !in Called(before) && x !in Skipped(before)
    {
      CalledSlots(before, x);
    }
    assert Called(before) !! TurnSet(last.key, 0, last.attempted);
    assert Skipped(before) !! TurnSet(last.key, last.attempted, TURNS);
  }

  function Passing(results: seq<Result>): (n: nat)
    ensures n <= |results|
  {
    if results == [] then 0
    else Passing(results[..|results| - 1]) + (if results[|results| - 1].status.Passed? then 1 else 0)
  }

  // ---------------------------------------------------------------- the plan

  /** The keys in wave order: task by task, every model in each. */
  function WaveKeys(task: nat, models: nat): seq<Key>
  {
    seq(models, m requires 0 <= m < models => Key(task, m))
  }

  function Keys(tasks: nat, models: nat): seq<Key>
  {
    if tasks == 0 then [] else Keys(tasks - 1, models) + WaveKeys(tasks - 1, models)
  }

  lemma {:induction false} KeysComplete(tasks: nat, models: nat)
    ensures |Keys(tasks, models)| == tasks * models
    ensures Distinct(Keys(tasks, models))
    ensures forall k :: k in Keys(tasks, models) <==> k.task < tasks && k.model < models
  {
    if tasks > 0 {
      KeysComplete(tasks - 1, models);
      var wave := WaveKeys(tasks - 1, models);
      assert Distinct(wave);
      forall k | k in wave
        ensures k.task == tasks - 1
      {
      }
      forall k: Key | k.task == tasks - 1 && k.model < models
        ensures k in wave
      {
        assert wave[k.model] == k;
      }
      DistinctUnion(Keys(tasks - 1, models), wave);
      assert forall k :: k in wave ==> k.task == tasks - 1 && k.model < models;
      assert tasks * models == (tasks - 1) * models + models;
    }
  }

  /** The manifest's slots; model by model, task by task, turn by turn. */
  function TurnSlots(key: Key): seq<Slot>
  {
    seq(TURNS, i requires 0 <= i < TURNS => Slot(key, i + 1))
  }

  function TaskSlots(model: nat, tasks: nat): seq<Slot>
  {
    if tasks == 0 then [] else TaskSlots(model, tasks - 1) + TurnSlots(Key(tasks - 1, model))
  }

  function Slots(models: nat, tasks: nat): seq<Slot>
  {
    if models == 0 then [] else Slots(models - 1, tasks) + TaskSlots(models - 1, tasks)
  }

  lemma TurnSlotsComplete(key: Key)
    ensures Distinct(TurnSlots(key))
    ensures forall x :: x in TurnSlots(key) <==> x.key == key && 1 <= x.turn <= TURNS
  {
    forall x: Slot | x.key == key && 1 <= x.turn <= TURNS
      ensures x in TurnSlots(key)
    {
      assert TurnSlots(key)[x.turn - 1] == x;
    }
  }

  lemma {:induction false} TaskSlotsComplete(model: nat, tasks: nat)
    ensures Distinct(TaskSlots(model, tasks))
    ensures forall x :: x in TaskSlots(model, tasks) <==> x.key.model == model && x.key.task < tasks && 1 <= x.turn <= TURNS
  {
    if tasks > 0 {
      TaskSlotsComplete(model, tasks - 1);
      TurnSlotsComplete(Key(tasks - 1, model));
      DistinctUnion(TaskSlots(model, tasks - 1), TurnSlots(Key(tasks - 1, model)));
    }
  }

  lemma {:induction false} SlotsComplete(models: nat, tasks: nat)
    ensures Distinct(Slots(models, tasks))
    ensures forall x :: x in Slots(models, tasks) <==> x.key.model < models && x.key.task < tasks && 1 <= x.turn <= TURNS
  {
    if models > 0 {
      SlotsComplete(models - 1, tasks);
      TaskSlotsComplete(models - 1, tasks);
      DistinctUnion(Slots(models - 1, tasks), TaskSlots(models - 1, tasks));
    }
  }

  /** The plan's steps: every call, every episode, the finalization. */
  function PlanSteps(models: nat, tasks: nat): seq<Step>
  {
    var slots, keys := Slots(models, tasks), Keys(tasks, models);
    seq(|slots|, i requires 0 <= i < |slots| => CallStep(slots[i]))
    + seq(|keys|, i requires 0 <= i < |keys| => EpisodeStep(keys[i]))
    + [FinalizeStep]
  }

  // ---------------------------------------------------------------- the waves

  ghost predicate Collected(results: seq<Result>, keys: seq<Key>)
  {
    |results| == |keys| && forall i :: 0 <= i < |keys| ==> results[i].key == keys[i]
  }

  lemma CollectedOnce(results: seq<Result>, keys: seq<Key>)
    requires Collected(results, keys) && Distinct(keys)
    ensures OnePerKey(results)
    ensures forall k :: k in keys ==> exists r :: r in results && r.key == k
  {
    forall k | k in keys
      ensures exists r :: r in results && r.key == k
    {
      var i :| 0 <= i < |keys| && keys[i] == k;
      assert results[i] in results;
    }
  }

  // ---------------------------------------------------------------- finalization

  /** The rows the finished episodes have stored. */
  ghost predicate Stored(rows: Rows, results: seq<Result>)
  {
    && rows.calls.Keys == Called(results)
    && rows.skips == Skipped(results)
    && (forall k :: k in rows.terminals <==> exists r :: r in results && r.key == k)
    && TerminalsMatch(results, rows)
  }

  /** Every slot is exactly one of called or skipped, and together they are all slots. */
  lemma SlotsPartitioned(results: seq<Result>, tasks: nat, models: nat)
    requires Collected(results, Keys(tasks, models)) && forall r :: r in results ==> Shaped(r)
    ensures forall x :: x in Slots(models, tasks) <==> (x in Called(results) || x in Skipped(results))
    ensures Called(results) !! Skipped(results)
    ensures |Called(results)| + |Skipped(results)| == tasks * models * TURNS
    ensures tasks * models <= |Called(results)| <= tasks * models * TURNS
  {
    KeysComplete(tasks, models);
    CollectedOnce(results, Keys(tasks, models));
    SlotsComplete(models, tasks);
    Counts(results);
    forall x: Slot
      ensures x in Slots(models, tasks) <==> (x in Called(results) || x in Skipped(results))
      ensures !(x in Called(results) && x in Skipped(results))
    {
      CalledSlots(results, x);
      forall r | r in results
        ensures r.key in Keys(tasks, models)
      {
        var i :| 0 <= i < |results| && results[i] == r;
      }
      if x in Slots(models, tasks) {
        assert x.key in Keys(tasks, models);
      }
      OneResult(results, x.key);
    }
  }

  lemma OneResult(results: seq<Result>, k: Key)
    requires OnePerKey(results)
    ensures forall r, r' :: r in results && r' in results && r.key == k && r'.key == k ==> r == r'
  {
  }

  /** How many of these episodes have a terminal record of the given kind. */
  function Terminals(results: seq<Result>, rows: Rows, contractFailed: bool): (n: nat)
    ensures n <= |results|
  {
    if results == [] then 0
    else var k := results[|results| - 1].key;
      Terminals(results[..|results| - 1], rows, contractFailed)
      + (if k in rows.terminals && rows.terminals[k].contractFailed == contractFailed then 1 else 0)
  }

  /** The checks of the outcome record and of the database: counts of rows against the counts
      the command claims. */
  predicate OutcomeAccepted(results: seq<Result>, rows: Rows, o: Outcome)
  {
    && o.successful + o.contractFailed == |results|
    && o.calls + o.skipped == TURNS * |results|
    && o.calls >= o.successful * TURNS + o.contractFailed
    && |rows.calls| == o.calls && |rows.skips| == o.skipped
    && Terminals(results, rows, false) == o.successful
    && Terminals(results, rows, true) == o.contractFailed
  }

  /** Neither passed nor stopped by the turn contract. */
  predicate Neither(r: Result)
  {
    !r.status.Passed? && !r.status.NotComparable?
  }

  ghost predicate NoneNeither(results: seq<Result>)
  {
    forall r :: r in results ==> !Neither(r)
  }

  ghost predicate TerminalsMatch(results: seq<Result>, rows: Rows)
  {
    forall r :: r in results ==> r.key in rows.terminals && rows.terminals[r.key].contractFailed == r.status.NotComparable?
  }

  /** The command counts every episode that did not pass as a contract failure; the database
      counts only the ones whose terminal record says so. */
  lemma {:induction false} CountsAgree(results: seq<Result>, rows: Rows)
    requires TerminalsMatch(results, rows)
    ensures Terminals(results, rows, false) + Terminals(results, rows, true) == |results|
    ensures Terminals(results, rows, false) >= Passing(results)
    ensures Terminals(results, rows, false) == Passing(results) <==> NoneNeither(results)
  {
    if results != [] {
      var before, last := results[..|results| - 1], results[|results| - 1];
      assert results == before + [last];
      CountsAgree(before, rows);
      assert NoneNeither(results) <==> NoneNeither(before) && !Neither(last);
      assert last in results;
    }
  }

  lemma StoredCounts(results: seq<Result>, rows: Rows)
    requires Stored(rows, results)
    ensures |rows.calls| == |Called(results)| && |rows.skips| == |Skipped(results)|
    ensures TerminalsMatch(results, rows)
  {
    assert |rows.calls| == |rows.calls.Keys|;
  }

  /** One result that is neither passed nor contract-failed makes the database refuse the
      whole finalization: then, and only then. */
  lemma AcceptedExactly(results: seq<Result>, rows: Rows)
    requires OnePerKey(results) && (forall r :: r in results ==> Shaped(r)) && Stored(rows, results)
    ensures var o := Outcome(|rows.calls|, Passing(results), |results| - Passing(results), TURNS * |results| - |rows.calls|);
      OutcomeAccepted(results, rows, o) <==> NoneNeither(results)
  {
    hide Stored, NoneNeither, TerminalsMatch, Called, Skipped, Terminals, Passing;
    StoredCounts(results, rows);
    Counts(results);
    CountsAgree(results, rows);
  }

  /** One failed episode among passed ones is enough. */
  lemma FailedEpisodeRefused(passed: Key, failed: Key)
    requires passed != failed
    ensures var results := [Result(passed, CapabilityEpisode.Passed, TURNS, ""), Result(failed, CapabilityEpisode.Failed', TURNS, "")];
      Neither(results[1]) && Shaped(results[1])
      && forall rows :: Stored(rows, results) ==>
           !OutcomeAccepted(results, rows, Outcome(|rows.calls|, 1, 1, 2 * TURNS - |rows.calls|))
  {
    var results := [Result(passed, CapabilityEpisode.Passed, TURNS, ""), Result(failed, CapabilityEpisode.Failed', TURNS, "")];
    assert results[..1] == [results[0]] && results[..1][..0] == [];
    forall rows | Stored(rows, results)
      ensures !OutcomeAccepted(results, rows, Outcome(|rows.calls|, 1, 1, 2 * TURNS - |rows.calls|))
    {
      StoredCounts(results, rows);
      assert results[0] in results && results[1] in results;
      assert Terminals(results[..1], rows, true) == 0;
    }
  }

  datatype Exit =
    | Incomplete
    | LookupFailed
    | Refused
    | Published(steps: seq<(Step, string)>, outcome: Outcome)

  /** The results of the episodes that did not pass, by key. */
  method FailedByKey(results: seq<Result>) returns (failed: map<Key, Result>)
    requires OnePerKey(results)
    ensures forall r :: r in results && !r.status.Passed? ==> r.key in failed && failed[r.key] == r
    ensures forall k :: k in failed ==> failed[k] in results && failed[k].key == k && !failed[k].status.Passed?
    ensures |failed| == |results| - Passing(results)
  {
    hide FailedMap, OnePerKey, Passing;
    failed := map[];
    FailedStart();
    assert results[..0] == [];
    for i := 0 to |results|
      invariant FailedMap(results[..i], failed)
    {
      assert results[..i + 1] == results[..i] + [results[i]];
      FailedNext(results, i, failed);
      if !results[i].status.Passed? {
        failed := failed[results[i].key := results[i]];
      }
    }
    assert results[..|results|] == results;
    FailedDone(results, failed);
  }

  ghost predicate FailedMap(results: seq<Result>, failed: map<Key, Result>)
  {
    && (forall r :: r in results && !r.status.Passed? ==> r.key in failed && failed[r.key] == r)
    && (forall k :: k in failed ==> failed[k] in results && failed[k].key == k && !failed[k].status.Passed?)
    && |failed| == |results| - Passing(results)
  }

  lemma FailedStart()
    ensures FailedMap([], map[])
  {
  }

  lemma FailedDone(results: seq<Result>, failed: map<Key, Result>)
    requires FailedMap(results, failed)
    ensures forall r :: r in results && !r.status.Passed? ==> r.key in failed && failed[r.key] == r
    ensures forall k :: k in failed ==> failed[k] in results && failed[k].key == k && !failed[k].status.Passed?
    ensures |failed| == |results| - Passing(results)
  {
  }

  lemma PassingNext(before: seq<Result>, r: Result)
    ensures Passing(before + [r]) == Passing(before) + if r.status.Passed? then 1 else 0
  {
    assert (before + [r])[..|before|] == before;
  }

  lemma FailedNext(results: seq<Result>, i: nat, failed: map<Key, Result>)
    requires OnePerKey(results) && i < |results| && FailedMap(results[..i], failed)
    ensures FailedMap(results[..i] + [results[i]],
              if results[i].status.Passed? then failed else failed[results[i].key := results[i]])
  {
    forall b | b in results[..i]
      ensures b.key != results[i].key
    {
      var j :| 0 <= j < i && results[j] == b;
    }
    hide FailedMap, OnePerKey;
    FailedLast(results[..i], results[i], failed);
  }

  lemma FailedLast(before: seq<Result>, r: Result, failed: map<Key, Result>)
    requires FailedMap(before, failed) && forall b :: b in before ==> b.key != r.key
    ensures FailedMap(before + [r], if r.status.Passed? then failed else failed[r.key := r])
  {
    hide Passing;
    PassingNext(before, r);
    assert r.key !in failed;
    var all := before + [r];
    assert all[|before|] == r && forall b :: b in all <==> b in before || b == r;
  }

  /** The checkpoint entry of a slot: the call's evidence, or the episode that skipped it. */
  predicate SlotResult(rows: Rows, results: seq<Result>, x: Slot, value: string)
  {
    if x in rows.calls then value == rows.calls[x]
    else exists r :: r in results && r.key == x.key && r.status.NotComparable? && r.attempted < x.turn && value == r.evidence
  }

  lemma SkippedSlot(rows: Rows, results: seq<Result>, tasks: nat, models: nat, x: Slot) returns (r: Result)
    requires Collected(results, Keys(tasks, models)) && (forall r :: r in results ==> Shaped(r)) && Stored(rows, results)
    requires x in Slots(models, tasks) && x !in rows.calls
    ensures r in results && r.key == x.key && r.status.NotComparable? && r.attempted < x.turn
  {
    SlotsPartitioned(results, tasks, models);
    CalledSlots(results, x);
    r :| r in results && r.key == x.key && r.attempted < x.turn <= TURNS;
  }

  /** Slot by slot; the lookup of a slot without a call can only fail in an incomplete cohort. */
  method SlotResults(tasks: nat, models: nat, results: seq<Result>, rows: Rows, failed: map<Key, Result>)
      returns (r: Reply<seq<(Step, string)>>)
    requires Collected(results, Keys(tasks, models)) && (forall r :: r in results ==> Shaped(r)) && Stored(rows, results)
    requires forall r :: r in results && !r.status.Passed? ==> r.key in failed && failed[r.key] == r
    ensures r.Ok? && |r.value| == |Slots(models, tasks)|
    ensures forall i :: 0 <= i < |r.value| ==>
      r.value[i].0 == CallStep(Slots(models, tasks)[i]) && SlotResult(rows, results, Slots(models, tasks)[i], r.value[i].1)
  {
    hide Stored, Collected, Shaped;
    var slots := Slots(models, tasks);
    var entries: seq<(Step, string)> := [];
    for i := 0 to |slots|
      invariant |entries| == i
      invariant forall j :: 0 <= j < i ==> entries[j].0 == CallStep(slots[j]) && SlotResult(rows, results, slots[j], entries[j].1)
    {
      var x := slots[i];
      if x in rows.calls {
        entries := entries + [(CallStep(x), rows.calls[x])];
      } else {
        ghost var skipped := SkippedSlot(rows, results, tasks, models, x);
        if x.key !in failed {
          return Raised;
        }
        entries := entries + [(CallStep(x), failed[x.key].evidence)];
      }
    }
    r := Ok(entries);
  }

  function EpisodeEntries(results: seq<Result>): seq<(Step, string)>
  {
    seq(|results|, i requires 0 <= i < |results| => (EpisodeStep(results[i].key), results[i].evidence))
  }

  /** What the final checkpoint says: of every slot its call or the episode that skipped it, of
      every episode its evidence, and the final digest, each under its own step. */
  ghost predicate StepsSay(tasks: nat, models: nat, results: seq<Result>, rows: Rows, digest: string, steps: seq<(Step, string)>)
  {
    var slots, keys := Slots(models, tasks), Keys(tasks, models);
    && |steps| == |slots| + |keys| + 1 && |results| == |keys|
    && (forall i :: 0 <= i < |slots| ==> steps[i].0 == CallStep(slots[i]) && SlotResult(rows, results, slots[i], steps[i].1))
    && (forall i :: 0 <= i < |keys| ==> steps[|slots| + i] == (EpisodeStep(keys[i]), results[i].evidence))
    && steps[|slots| + |keys|] == (FinalizeStep, digest)
  }

  lemma EntriesSay(tasks: nat, models: nat, results: seq<Result>, rows: Rows, digest: string, entries: seq<(Step, string)>)
    requires Collected(results, Keys(tasks, models)) && |entries| == |Slots(models, tasks)|
    requires forall i :: 0 <= i < |entries| ==>
      entries[i].0 == CallStep(Slots(models, tasks)[i]) && SlotResult(rows, results, Slots(models, tasks)[i], entries[i].1)
    ensures StepsSay(tasks, models, results, rows, digest, entries + EpisodeEntries(results) + [(FinalizeStep, digest)])
  {
    hide SlotResult, Slots, Keys;
  }

  /** What the outcome counts: slots called and skipped, episodes passed and not. */
  ghost predicate Counted(results: seq<Result>, rows: Rows, slots: int, o: Outcome)
  {
    && o.calls == |rows.calls| && o.skipped == |rows.skips| && o.calls + o.skipped == slots
    && o.successful == |set r | r in results && r.status.Passed?|
    && o.contractFailed == |set r | r in results && !r.status.Passed?|
  }

  lemma {:induction false} PassingCounted(results: seq<Result>)
    requires OnePerKey(results)
    ensures Passing(results) == |set r | r in results && r.status.Passed?|
    ensures |results| - Passing(results) == |set r | r in results && !r.status.Passed?|
  {
    if results != [] {
      var before, last := results[..|results| - 1], results[|results| - 1];
      assert results == before + [last];
      LastKey(results);
      hide OnePerKey;
      PassingCounted(before);
      OneMorePassing(before, last);
    }
  }

  lemma LastKey(results: seq<Result>)
    requires OnePerKey(results) && results != []
    ensures OnePerKey(results[..|results| - 1]) && results[|results| - 1] !in results[..|results| - 1]
  {
  }

  lemma OneMorePassing(before: seq<Result>, last: Result)
    requires last !in before
    ensures var n := if last.status.Passed? then 1 else 0;
      && |set r | r in before + [last] && r.status.Passed?| == |set r | r in before && r.status.Passed?| + n
      && |set r | r in before + [last] && !r.status.Passed?| == |set r | r in before && !r.status.Passed?| + 1 - n
  {
    var passed, others := set r | r in before && r.status.Passed?, set r | r in before && !r.status.Passed?;
    if last.status.Passed? {
      assert (set r | r in before + [last] && r.status.Passed?) == passed + {last};
      assert (set r | r in before + [last] && !r.status.Passed?) == others;
    } else {
      assert (set r | r in before + [last] && r.status.Passed?) == passed;
      assert (set r | r in before + [last] && !r.status.Passed?) == others + {last};
    }
  }

  /** Keys in wave order: by task, then by model. */
  lemma {:induction false} KeysOrdered(tasks: nat, models: nat)
    ensures forall i, j :: 0 <= i < j < |Keys(tasks, models)| ==>
      var a, b := Keys(tasks, models)[i], Keys(tasks, models)[j];
      a.task < b.task || (a.task == b.task && a.model < b.model)
  {
    if tasks > 0 {
      KeysOrdered(tasks - 1, models);
      KeysComplete(tasks - 1, models);
      var before, wave := Keys(tasks - 1, models), WaveKeys(tasks - 1, models);
      hide Keys;
      assert forall i :: 0 <= i < |before| ==> before[i] in before;
    }
  }

  /** Slots in manifest order: by model, then by task, then by turn. */
  predicate SlotBefore(a: Slot, b: Slot)
  {
    || a.key.model < b.key.model
    || (a.key.model == b.key.model && (a.key.task < b.key.task || (a.key.task == b.key.task && a.turn < b.turn)))
  }

  ghost predicate SlotsSorted(slots: seq<Slot>)
  {
    forall i, j :: 0 <= i < j < |slots| ==> SlotBefore(slots[i], slots[j])
  }

  lemma SlotsSortedSum(a: seq<Slot>, b: seq<Slot>)
    requires SlotsSorted(a) && SlotsSorted(b) && forall x, y :: x in a && y in b ==> SlotBefore(x, y)
    ensures SlotsSorted(a + b)
  {
    hide SlotBefore;
  }

  lemma {:induction false} TaskSlotsOrdered(model: nat, tasks: nat)
    ensures SlotsSorted(TaskSlots(model, tasks))
  {
    if tasks > 0 {
      TaskSlotsOrdered(model, tasks - 1);
      TaskSlotsComplete(model, tasks - 1);
      TurnSlotsComplete(Key(tasks - 1, model));
      SlotsSortedSum(TaskSlots(model, tasks - 1), TurnSlots(Key(tasks - 1, model)));
    }
  }

  lemma {:induction false} SlotsOrdered(models: nat, tasks: nat)
    ensures SlotsSorted(Slots(models, tasks))
  {
    if models > 0 {
      SlotsOrdered(models - 1, tasks);
      SlotsComplete(models - 1, tasks);
      TaskSlotsOrdered(models - 1, tasks);
      TaskSlotsComplete(models - 1, tasks);
      SlotsSortedSum(Slots(models - 1, tasks), TaskSlots(models - 1, tasks));
    }
  }

  /** The finalization of a completed cohort. */
  method Finalize(tasks: nat, models: nat, results: seq<Result>, rows: Rows, digest: string) returns (exit: Exit)
    requires Collected(results, Keys(tasks, models)) && (forall r :: r in results ==> Shaped(r)) && Stored(rows, results)
    ensures exit.Published? <==> NoneNeither(results)
    ensures exit.Published? || exit.Refused?
    ensures exit.Published? ==>
      && Counted(results, rows, tasks * models * TURNS, exit.outcome)
      && StepsSay(tasks, models, results, rows, digest, exit.steps)
      && exit.outcome.calls == |rows.calls| && exit.outcome.skipped == |rows.skips|
      && exit.outcome.calls + exit.outcome.skipped == tasks * models * TURNS
      && |exit.steps| == |PlanSteps(models, tasks)|
      && (forall i :: 0 <= i < |exit.steps| ==> exit.steps[i].0 == PlanSteps(models, tasks)[i])
      && (forall i :: 0 <= i < |Slots(models, tasks)| ==> SlotResult(rows, results, Slots(models, tasks)[i], exit.steps[i].1))
  {
    hide *;
    CohortReady(results, rows, tasks, models);
    if |results| != tasks * models {
      return Incomplete;
    }
    var calls := |rows.calls|;
    if !(tasks * models <= calls <= tasks * models * TURNS) {
      return Incomplete;
    }
    var failed := FailedByKey(results);
    var outcome := Outcome(calls, |results| - |failed|, |failed|, TURNS * |results| - calls);
    var entries := SlotResults(tasks, models, results, rows, failed);
    if entries.Raised? {
      return LookupFailed;
    }
    if !OutcomeAccepted(results, rows, outcome) {
      return Refused;
    }
    CountsMean(results, rows, tasks * models * TURNS, outcome);
    EntriesSay(tasks, models, results, rows, digest, entries.value);
    StepsMatch(results, tasks, models, entries.value, digest);
    exit := Published(entries.value + EpisodeEntries(results) + [(FinalizeStep, digest)], outcome);
  }

  lemma CountsMean(results: seq<Result>, rows: Rows, slots: int, o: Outcome)
    requires OnePerKey(results) && |rows.calls| + |rows.skips| == slots == TURNS * |results|
    requires o == Outcome(|rows.calls|, Passing(results), |results| - Passing(results), TURNS * |results| - |rows.calls|)
    ensures Counted(results, rows, slots, o)
  {
    PassingCounted(results);
    hide Passing, OnePerKey;
  }

  lemma CohortReady(results: seq<Result>, rows: Rows, tasks: nat, models: nat)
    requires Collected(results, Keys(tasks, models)) && (forall r :: r in results ==> Shaped(r)) && Stored(rows, results)
    ensures OnePerKey(results) && |results| == tasks * models && TURNS * |results| == tasks * models * TURNS
    ensures tasks * models <= |rows.calls| <= tasks * models * TURNS
    ensures |rows.calls| + |rows.skips| == tasks * models * TURNS
    ensures var o := Outcome(|rows.calls|, Passing(results), |results| - Passing(results), TURNS * |results| - |rows.calls|);
      OutcomeAccepted(results, rows, o) <==> NoneNeither(results)
  {
    hide Stored, Shaped, OutcomeAccepted, NoneNeither;
    KeysComplete(tasks, models);
    CollectedOnce(results, Keys(tasks, models));
    CollectedCounts(results, rows, tasks, models);
    AcceptedExactly(results, rows);
  }

  /** The checkpoint's steps are the plan's, in the plan's order. */
  lemma StepsMatch(results: seq<Result>, tasks: nat, models: nat, entries: seq<(Step, string)>, digest: string)
    requires Collected(results, Keys(tasks, models)) && |entries| == |Slots(models, tasks)|
    requires forall i :: 0 <= i < |entries| ==> entries[i].0 == CallStep(Slots(models, tasks)[i])
    ensures var steps := entries + EpisodeEntries(results) + [(FinalizeStep, digest)];
      && |steps| == |PlanSteps(models, tasks)|
      && (forall i :: 0 <= i < |steps| ==> steps[i].0 == PlanSteps(models, tasks)[i])
      && (forall i :: 0 <= i < |entries| ==> steps[i] == entries[i])
  {
  }

  lemma CollectedCounts(results: seq<Result>, rows: Rows, tasks: nat, models: nat)
    requires Collected(results, Keys(tasks, models)) && (forall r :: r in results ==> Shaped(r)) && Stored(rows, results)
    ensures |results| == tasks * models && TURNS * |results| == tasks * models * TURNS
    ensures tasks * models <= |rows.calls| <= tasks * models * TURNS
    ensures |rows.calls| + |rows.skips| == tasks * models * TURNS
  {
    KeysComplete(tasks, models);
    SlotsPartitioned(results, tasks, models);
    assert |rows.calls| == |rows.calls.Keys|;
  }

  /** No step occurs twice in the plan, so the checkpoint holds one result per step. */
  lemma PlanStepsDistinct(models: nat, tasks: nat)
    ensures Distinct(PlanSteps(models, tasks))
  {
    SlotsComplete(models, tasks);
    KeysComplete(tasks, models);
  }
}
