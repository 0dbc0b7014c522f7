/** The two-barrier start of a task wave: every lane owns its job, posts its start time, reads
    the common list of start times and only then calls the provider. Lanes interleave freely;
    an action sequence is one interleaving. The barrier keeps the three states of a reusable
    one (filling, draining, broken), so that it hands out all-or-none is proved, not presumed. */
module WaveStart {
  import opened Ledger
  import opened Finite

  const TURNS: nat := 8

  datatype Phase =
    | Queued | Owner | AtFirst | Released | Posted | AtSecond | Informed
    | Calling(made: nat) | Returned
    | Refused  // the start skew exceeded the budget
    | Crashed  // any other exception

  datatype Gate = Filling | Draining | Broken

  datatype Event = Owned(lane: nat) | Started(lane: nat) | Called(lane: nat)

  datatype Start = Start(lane: nat, at: int)

  /** `inside` are the lanes the barrier counts; `starts` is the shared list of start times. */
  datatype Wave = Wave(lanes: seq<Phase>, gate: Gate, inside: set<nat>, starts: seq<Start>, log: seq<Event>)

  datatype Action =
    | Own(lane: nat) | Enter(lane: nat) | Leave(lane: nat) | Expire(lane: nat)
    | Post(lane: nat, at: int) | Judge(lane: nat) | Call(lane: nat) | Return(lane: nat) | Crash(lane: nat)

  // ---------------------------------------------------------------- the shared list

  function Latest(starts: seq<Start>): (m: int)
    requires |starts| > 0
    ensures forall s :: s in starts ==> s.at <= m
    ensures exists s :: s in starts && s.at == m
  {
    var last := starts[|starts| - 1];
    if |starts| == 1 then last.at
    else
      var rest := Latest(starts[..|starts| - 1]);
      assert starts == starts[..|starts| - 1] + [last];
      if last.at > rest then last.at else rest
  }

  function Earliest(starts: seq<Start>): (m: int)
    requires |starts| > 0
    ensures forall s :: s in starts ==> m <= s.at
    ensures exists s :: s in starts && s.at == m
  {
    var last := starts[|starts| - 1];
    if |starts| == 1 then last.at
    else
      var rest := Earliest(starts[..|starts| - 1]);
      assert starts == starts[..|starts| - 1] + [last];
      if last.at < rest then last.at else rest
  }

  /** Nanoseconds to whole milliseconds, against the budget. */
  predicate Late(starts: seq<Start>, budget: int)
  {
    |starts| > 0 && (Latest(starts) - Earliest(starts)) / 1_000_000 > budget
  }

  /** The verdict depends on the posted times alone: some pair of lanes is too far apart. */
  lemma LateMeans(starts: seq<Start>, budget: int)
    ensures Late(starts, budget) <==>
      exists s, t :: s in starts && t in starts && (s.at - t.at) / 1_000_000 > budget
  {
    if Late(starts, budget) {
      var s :| s in starts && s.at == Latest(starts);
      var t :| t in starts && t.at == Earliest(starts);
      assert (s.at - t.at) / 1_000_000 > budget;
    }
    forall s, t | s in starts && t in starts && (s.at - t.at) / 1_000_000 > budget
      ensures Late(starts, budget)
    {
      assert s.at - t.at <= Latest(starts) - Earliest(starts);
    }
  }

  // ---------------------------------------------------------------- steps

  predicate Ended(p: Phase)
  {
    p.Returned? || p.Refused? || p.Crashed?
  }

  function Move(w: Wave, i: nat, p: Phase): Wave
    requires i < |w.lanes|
  {
    w.(lanes := w.lanes[i := p])
  }

  /** Leaving the barrier: the last one out makes a draining barrier usable again. */
  function Out(w: Wave, i: nat): Wave
  {
    var inside := w.inside - {i};
    w.(inside := inside, gate := if w.gate.Draining? && inside == {} then Filling else w.gate)
  }

  function Past(p: Phase): Phase
  {
    if p.Owner? || p.AtFirst? then Released else Informed
  }

  predicate Waiting(p: Phase)
  {
    p.AtFirst? || p.AtSecond?
  }

  /** One step of one lane; None when the lane cannot take it. */
  function Apply(w: Wave, a: Action, budget: int): Option<Wave>
  {
    if a.lane >= |w.lanes| then None else
    var i := a.lane;
    var p := w.lanes[i];
    match a
    case Own(_) =>
      if p.Queued? then Some(Move(w, i, Owner).(log := w.log + [Owned(i)])) else None
    case Enter(_) =>
      if !(p.Owner? || p.Posted?) || w.gate.Draining? then None
      else if w.gate.Broken? then Some(Move(w, i, Crashed))
      else
        var counted := w.(inside := w.inside + {i});
        if |counted.inside| == |w.lanes| then Some(Move(Out(counted.(gate := Draining), i), i, Past(p)))
        else Some(Move(counted, i, if p.Owner? then AtFirst else AtSecond))
    case Leave(_) =>
      if !Waiting(p) || w.gate.Filling? then None
      else Some(Move(Out(w, i), i, if w.gate.Draining? then Past(p) else Crashed))
    case Expire(_) =>
      if Waiting(p) && w.gate.Filling? then Some(Move(Out(w.(gate := Broken), i), i, Crashed)) else None
    case Post(_, at) =>
      if p.Released? then Some(Move(w, i, Posted).(starts := w.starts + [Start(i, at)], log := w.log + [Started(i)]))
      else None
    case Judge(_) =>
      if p.Informed? then Some(Move(w, i, if Late(w.starts, budget) then Refused else Calling(0))) else None
    case Call(_) =>
      if p.Calling? && p.made < TURNS then Some(Move(w, i, Calling(p.made + 1)).(log := w.log + [Called(i)])) else None
    case Return(_) =>
      if p.Calling? then Some(Move(w, i, Returned)) else None
    case Crash(_) =>
      if Ended(p) || Waiting(p) then None else Some(Move(w, i, Crashed))
  }

  function Fresh(n: nat): Wave
  {
    Wave(seq(n, _ => Queued), Filling, {}, [], [])
  }

  // ---------------------------------------------------------------- the invariant

  /** How far the wave has got: how often the barrier has released everybody. */
  datatype Stage = Gathering | FirstOut | Posting | SecondOut | Open

  predicate Allowed(p: Phase, stage: Stage)
  {
    match stage
    case Gathering => p.Queued? || p.Owner? || p.AtFirst? || p.Crashed?
    case FirstOut => p.AtFirst? || p.Released? || p.Posted? || p.Crashed?
    case Posting => p.Released? || p.Posted? || p.AtSecond? || p.Crashed?
    case SecondOut => p.AtSecond? || p.Informed? || p.Calling? || Ended(p)
    case Open => p.Informed? || p.Calling? || Ended(p)
  }

  predicate GateOf(stage: Stage, gate: Gate)
  {
    match stage
    case Gathering | Posting => !gate.Draining?
    case FirstOut | SecondOut => gate.Draining?
    case Open => gate.Filling?
  }

  /** The barrier counts exactly the waiting lanes, and each stage admits only its phases. */
  ghost predicate Staged(w: Wave, stage: Stage)
  {
    && GateOf(stage, w.gate)
    && (forall i :: i in w.inside <==> 0 <= i < |w.lanes| && Waiting(w.lanes[i]))
    && (w.gate.Draining? ==> w.inside != {})
    && (forall i :: 0 <= i < |w.lanes| ==> Allowed(w.lanes[i], stage))
  }

  /** A barrier that still fills is not full. */
  predicate Roomy(w: Wave)
  {
    w.gate.Filling? && w.lanes != [] ==> |w.inside| < |w.lanes|
  }

  predicate HasOwned(p: Phase)
  {
    !p.Queued? && !p.Crashed?
  }

  predicate HasPosted(p: Phase)
  {
    HasOwned(p) && !p.Owner? && !p.AtFirst? && !p.Released?
  }

  predicate Complete(stage: Stage)
  {
    stage.SecondOut? || stage.Open?
  }

  /** The list holds one start per lane that posted, and from the second release on it is
      complete; ownership likewise from the first release on. */
  ghost predicate Recorded(w: Wave, stage: Stage)
  {
    && (forall i :: 0 <= i < |w.lanes| && (HasOwned(w.lanes[i]) || !stage.Gathering?) ==> Owned(i) in w.log)
    && (forall i :: 0 <= i < |w.lanes| && (HasPosted(w.lanes[i]) || Complete(stage)) ==> Started(i) in w.log)
    && (forall i :: Started(i) in w.log <==> exists s :: s in w.starts && s.lane == i)
    && (forall j, k :: 0 <= j < k < |w.starts| ==> w.starts[j].lane != w.starts[k].lane)
    && (forall s :: s in w.starts ==> s.lane < |w.lanes| && (HasPosted(w.lanes[s.lane]) || w.lanes[s.lane].Crashed?) && !stage.Gathering?)
  }

  /** No call before every lane owns its job and has posted its start. */
  ghost predicate CallsLast(log: seq<Event>, n: nat)
  {
    forall p, j :: 0 <= p < |log| && log[p].Called? && 0 <= j < n ==> Owned(j) in log[..p] && Started(j) in log[..p]
  }

  /** Lanes that went ahead and lanes that were refused judged the same list. */
  ghost predicate Verdicts(w: Wave, stage: Stage, budget: int)
  {
    && (forall i :: 0 <= i < |w.lanes| ==>
          && (w.lanes[i].Calling? || w.lanes[i].Returned? ==> !Late(w.starts, budget))
          && (w.lanes[i].Calling? ==> w.lanes[i].made <= TURNS)
          && (w.lanes[i].Refused? ==> Late(w.starts, budget)))
    && (forall e :: e in w.log && e.Called? ==> Complete(stage) && !Late(w.starts, budget))
  }

  ghost predicate Inv(w: Wave, stage: Stage, budget: int)
  {
    Staged(w, stage) && Roomy(w) && Recorded(w, stage) && Verdicts(w, stage, budget) && CallsLast(w.log, |w.lanes|)
  }

  function Later(stage: Stage): Stage
  {
    match stage
    case Gathering => FirstOut
    case FirstOut => Posting
    case Posting => SecondOut
    case SecondOut | Open => Open
  }

  /** The stage after a step: the last lane in releases the barrier, the last lane out refills it. */
  function Onward(w: Wave, a: Action, stage: Stage): Stage
  {
    match a
    case Enter(i) =>
      if w.gate.Filling? && |w.inside + {i}| == |w.lanes| then
        if |w.lanes| == 1 then Later(Later(stage)) else Later(stage)
      else stage
    case Leave(i) => if w.gate.Draining? && w.inside == {i} then Later(stage) else stage
    case _ => stage
  }

  /** When the barrier is full, everybody else is already waiting in it. */
  lemma FullBarrier(w: Wave, i: nat)
    requires i < |w.lanes| && |w.inside + {i}| == |w.lanes|
    requires forall j :: j in w.inside ==> j < |w.lanes|
    ensures forall j :: 0 <= j < |w.lanes| ==> j == i || j in w.inside
    ensures (|w.lanes| == 1) <==> (w.inside + {i} - {i} == {})
  {
    var all := UpTo(|w.lanes|);
    SameCardinality(w.inside + {i}, all);
    forall j | 0 <= j < |w.lanes|
      ensures j == i || j in w.inside
    {
      assert j in all;
    }
    if w.inside + {i} - {i} == {} {
      assert w.inside + {i} == {i};
    } else {
      var k :| k in w.inside + {i} - {i};
      var pair := {i, k};
      assert pair - {k} == {i};
      SubsetCardinality(pair, w.inside + {i});
      assert |w.lanes| >= 2;
    }
  }

  lemma InsideCounted(w: Wave, i: nat)
    requires i < |w.lanes| && forall j :: j in w.inside ==> j < |w.lanes|
    ensures |w.inside + {i}| <= |w.lanes|
  {
    SubsetCardinality(w.inside + {i}, UpTo(|w.lanes|));
  }

  predicate Fills(w: Wave, a: Action)
  {
    a.Enter? && w.gate.Filling? && |w.inside + {a.lane}| == |w.lanes|
  }

  lemma StepRoomy(w: Wave, a: Action, stage: Stage, budget: int)
    requires Staged(w, stage) && Roomy(w) && Apply(w, a, budget).Some?
    ensures Roomy(Apply(w, a, budget).value)
  {
    InsideCounted(w, a.lane);
  }

  /** A release with other lanes waiting: the barrier drains. */
  lemma ManyReleased(w: Wave, a: Action, stage: Stage, budget: int)
    requires Staged(w, stage) && Fills(w, a) && Apply(w, a, budget).Some? && |w.lanes| != 1
    ensures Staged(Apply(w, a, budget).value, Later(stage))
  {
    FullBarrier(w, a.lane);
    hide UpTo;
  }

  /** A lane alone passes straight through. */
  lemma OneReleased(w: Wave, a: Action, stage: Stage, budget: int)
    requires Staged(w, stage) && Fills(w, a) && Apply(w, a, budget).Some? && |w.lanes| == 1
    ensures Staged(Apply(w, a, budget).value, Later(Later(stage)))
  {
    FullBarrier(w, a.lane);
    hide UpTo;
  }

  lemma ReleaseStaged(w: Wave, a: Action, stage: Stage, budget: int)
    requires Staged(w, stage) && Fills(w, a) && Apply(w, a, budget).Some?
    ensures Staged(Apply(w, a, budget).value, Onward(w, a, stage))
  {
    hide Staged, Apply;
    if |w.lanes| == 1 {
      OneReleased(w, a, stage, budget);
    } else {
      ManyReleased(w, a, stage, budget);
    }
  }

  lemma EnterStaged(w: Wave, a: Action, stage: Stage, budget: int)
    requires Staged(w, stage) && !Fills(w, a) && Apply(w, a, budget).Some? && a.Enter?
    ensures Staged(Apply(w, a, budget).value, stage)
  {
  }

  lemma LeaveStaged(w: Wave, a: Action, stage: Stage, budget: int)
    requires Staged(w, stage) && Apply(w, a, budget).Some? && a.Leave?
    ensures Staged(Apply(w, a, budget).value, Onward(w, a, stage))
  {
  }

  lemma ExpireStaged(w: Wave, a: Action, stage: Stage, budget: int)
    requires Staged(w, stage) && Apply(w, a, budget).Some? && a.Expire?
    ensures Staged(Apply(w, a, budget).value, stage)
  {
  }

  lemma BarrierStaged(w: Wave, a: Action, stage: Stage, budget: int)
    requires Staged(w, stage) && !Fills(w, a) && Apply(w, a, budget).Some?
    requires a.Enter? || a.Leave? || a.Expire?
    ensures Staged(Apply(w, a, budget).value, Onward(w, a, stage))
  {
    hide Staged, Apply;
    if a.Enter? {
      EnterStaged(w, a, stage, budget);
    } else if a.Leave? {
      LeaveStaged(w, a, stage, budget);
    } else {
      ExpireStaged(w, a, stage, budget);
    }
  }

  lemma LaneStaged(w: Wave, a: Action, stage: Stage, budget: int)
    requires Staged(w, stage) && Apply(w, a, budget).Some?
    requires !(a.Enter? || a.Leave? || a.Expire?)
    ensures Staged(Apply(w, a, budget).value, Onward(w, a, stage))
  {
  }

  /** A lane that moves without posting or logging. */
  lemma MovedRecorded(w: Wave, next: Wave, i: nat, stage: Stage, stage': Stage)
    requires Recorded(w, stage) && i < |w.lanes| && |next.lanes| == |w.lanes|
    requires next.starts == w.starts && next.log == w.log
    requires forall j :: 0 <= j < |w.lanes| && j != i ==> next.lanes[j] == w.lanes[j]
    requires HasOwned(next.lanes[i]) ==> HasOwned(w.lanes[i])
    requires HasPosted(next.lanes[i]) ==> HasPosted(w.lanes[i])
    requires HasPosted(w.lanes[i]) || w.lanes[i].Crashed? ==> HasPosted(next.lanes[i]) || next.lanes[i].Crashed?
    requires stage'.Gathering? ==> stage.Gathering?
    requires !stage'.Gathering? && stage.Gathering? ==> forall j :: 0 <= j < |w.lanes| ==> HasOwned(w.lanes[j])
    requires Complete(stage') && !Complete(stage) ==> forall j :: 0 <= j < |w.lanes| ==> HasPosted(w.lanes[j])
    ensures Recorded(next, stage')
  {
  }

  lemma BarrierMoves(w: Wave, a: Action, stage: Stage, budget: int)
    requires Staged(w, stage) && Apply(w, a, budget).Some?
    requires a.Enter? || a.Leave? || a.Expire?
    ensures var next, stage', i := Apply(w, a, budget).value, Onward(w, a, stage), a.lane;
      && i < |w.lanes| && |next.lanes| == |w.lanes|
      && next.starts == w.starts && next.log == w.log
      && (forall j :: 0 <= j < |w.lanes| && j != i ==> next.lanes[j] == w.lanes[j])
      && (HasOwned(next.lanes[i]) ==> HasOwned(w.lanes[i]))
      && (HasPosted(next.lanes[i]) ==> HasPosted(w.lanes[i]))
      && (HasPosted(w.lanes[i]) || w.lanes[i].Crashed? ==> HasPosted(next.lanes[i]) || next.lanes[i].Crashed?)
      && (stage'.Gathering? ==> stage.Gathering?)
  {
    BarrierFrame(w, a, budget);
    BarrierPhase(w, a, stage, budget);
    hide Apply, Staged;
  }

  /** At the barrier a lane changes only its own phase. */
  lemma BarrierFrame(w: Wave, a: Action, budget: int)
    requires Apply(w, a, budget).Some? && (a.Enter? || a.Leave? || a.Expire?)
    ensures var next, i := Apply(w, a, budget).value, a.lane;
      && i < |w.lanes| && |next.lanes| == |w.lanes| && next.starts == w.starts && next.log == w.log
      && (forall j :: 0 <= j < |w.lanes| && j != i ==> next.lanes[j] == w.lanes[j])
  {
  }

  lemma BarrierPhase(w: Wave, a: Action, stage: Stage, budget: int)
    requires Staged(w, stage) && Apply(w, a, budget).Some?
    requires a.Enter? || a.Leave? || a.Expire?
    ensures var next, i := Apply(w, a, budget).value, a.lane;
      && i < |w.lanes| && |next.lanes| == |w.lanes|
      && (HasOwned(next.lanes[i]) ==> HasOwned(w.lanes[i]))
      && (HasPosted(next.lanes[i]) ==> HasPosted(w.lanes[i]))
      && (HasPosted(w.lanes[i]) || w.lanes[i].Crashed? ==> HasPosted(next.lanes[i]) || next.lanes[i].Crashed?)
  {
  }

  lemma BarrierRecorded(w: Wave, a: Action, stage: Stage, budget: int)
    requires Staged(w, stage) && Recorded(w, stage) && Apply(w, a, budget).Some?
    requires a.Enter? || a.Leave? || a.Expire?
    ensures Recorded(Apply(w, a, budget).value, Onward(w, a, stage))
  {
    hide Recorded, Apply;
    BarrierMoves(w, a, stage, budget);
    StageAdvances(w, a, stage, budget);
    MovedRecorded(w, Apply(w, a, budget).value, a.lane, stage, Onward(w, a, stage));
  }

  /** A release finds every lane waiting, so everybody owns its job and, the second time,
      has posted. */
  lemma StageAdvances(w: Wave, a: Action, stage: Stage, budget: int)
    requires Staged(w, stage) && Apply(w, a, budget).Some?
    ensures !Onward(w, a, stage).Gathering? && stage.Gathering? ==> forall j :: 0 <= j < |w.lanes| ==> HasOwned(w.lanes[j])
    ensures Complete(Onward(w, a, stage)) && !Complete(stage) ==> forall j :: 0 <= j < |w.lanes| ==> HasPosted(w.lanes[j])
  {
    if Fills(w, a) {
      FullBarrier(w, a.lane);
    }
  }

  lemma PostRecorded(w: Wave, a: Action, stage: Stage, budget: int)
    requires Staged(w, stage) && Recorded(w, stage) && Apply(w, a, budget).Some? && a.Post?
    ensures Recorded(Apply(w, a, budget).value, stage)
  {
  }

  lemma OwnRecorded(w: Wave, a: Action, stage: Stage, budget: int)
    requires Staged(w, stage) && Recorded(w, stage) && Apply(w, a, budget).Some? && a.Own?
    ensures Recorded(Apply(w, a, budget).value, stage)
  {
    hide Late;
  }

  lemma CallRecorded(w: Wave, a: Action, stage: Stage, budget: int)
    requires Recorded(w, stage) && Apply(w, a, budget).Some? && a.Call?
    ensures Recorded(Apply(w, a, budget).value, stage)
  {
    hide Late;
  }

  lemma QuietMoves(w: Wave, a: Action, stage: Stage, budget: int)
    requires Apply(w, a, budget).Some? && (a.Judge? || a.Return? || a.Crash?)
    ensures var next, i := Apply(w, a, budget).value, a.lane;
      && i < |w.lanes| && next == w.(lanes := w.lanes[i := next.lanes[i]])
      && (HasOwned(next.lanes[i]) ==> HasOwned(w.lanes[i])) && (HasPosted(next.lanes[i]) ==> HasPosted(w.lanes[i]))
      && (HasPosted(w.lanes[i]) || w.lanes[i].Crashed? ==> HasPosted(next.lanes[i]) || next.lanes[i].Crashed?)
  {
    hide Late;
  }

  lemma LaneRecorded(w: Wave, a: Action, stage: Stage, budget: int)
    requires Staged(w, stage) && Recorded(w, stage) && Apply(w, a, budget).Some?
    requires !(a.Enter? || a.Leave? || a.Expire? || a.Post?)
    ensures Recorded(Apply(w, a, budget).value, Onward(w, a, stage))
  {
    hide Staged, Recorded, Apply;
    if a.Own? {
      OwnRecorded(w, a, stage, budget);
    } else if a.Call? {
      CallRecorded(w, a, stage, budget);
    } else {
      QuietMoves(w, a, stage, budget);
      MovedRecorded(w, Apply(w, a, budget).value, a.lane, stage, stage);
    }
  }

  lemma BarrierVerdicts(w: Wave, a: Action, stage: Stage, budget: int)
    requires Staged(w, stage) && Verdicts(w, stage, budget) && Apply(w, a, budget).Some?
    requires a.Enter? || a.Leave? || a.Expire?
    ensures Verdicts(Apply(w, a, budget).value, Onward(w, a, stage), budget)
  {
    hide Late, Staged;
  }

  lemma PostVerdicts(w: Wave, a: Action, stage: Stage, budget: int)
    requires Staged(w, stage) && Verdicts(w, stage, budget) && Apply(w, a, budget).Some? && a.Post?
    ensures Verdicts(Apply(w, a, budget).value, stage, budget)
  {
    hide Late;
  }

  lemma LaneVerdicts(w: Wave, a: Action, stage: Stage, budget: int)
    requires Staged(w, stage) && Verdicts(w, stage, budget) && Apply(w, a, budget).Some?
    requires !(a.Enter? || a.Leave? || a.Expire? || a.Post?)
    ensures Verdicts(Apply(w, a, budget).value, Onward(w, a, stage), budget)
  {
    hide Late;
  }

  /** A step adds at most one event, and a call only once the stage is complete. */
  lemma StepLogs(w: Wave, a: Action, stage: Stage, budget: int)
    requires Staged(w, stage) && Apply(w, a, budget).Some?
    ensures |Apply(w, a, budget).value.lanes| == |w.lanes|
    ensures var log := Apply(w, a, budget).value.log;
      log == w.log || (exists x :: log == w.log + [x] && (x.Called? ==> Complete(stage)))
  {
    var log := Apply(w, a, budget).value.log;
    if log != w.log {
      assert log == w.log + [log[|w.log|]];
      assert a.Call? ==> Complete(stage);
    }
    hide Staged;
  }

  lemma CallLogged(log: seq<Event>, x: Event, lanes: nat)
    requires CallsLast(log, lanes)
    requires x.Called? ==> forall j :: 0 <= j < lanes ==> Owned(j) in log && Started(j) in log
    ensures CallsLast(log + [x], lanes)
  {
    var next := log + [x];
    forall p, j | 0 <= p < |next| && next[p].Called? && 0 <= j < lanes
      ensures Owned(j) in next[..p] && Started(j) in next[..p]
    {
      assert next[..p] == log[..p];
      assert p == |log| ==> log[..p] == log;
    }
  }

  lemma StepCallsLast(w: Wave, a: Action, stage: Stage, budget: int)
    requires Staged(w, stage) && Recorded(w, stage) && CallsLast(w.log, |w.lanes|) && Apply(w, a, budget).Some?
    ensures |Apply(w, a, budget).value.lanes| == |w.lanes|
    ensures CallsLast(Apply(w, a, budget).value.log, |w.lanes|)
  {
    StepLogs(w, a, stage, budget);
    hide Apply, Staged, CallsLast;
    var log := Apply(w, a, budget).value.log;
    if log != w.log {
      var x :| log == w.log + [x] && (x.Called? ==> Complete(stage));
      CallLogged(w.log, x, |w.lanes|);
    }
  }

  /** Every step of every lane keeps the invariant. */
  lemma StepInv(w: Wave, a: Action, stage: Stage, budget: int)
    requires Inv(w, stage, budget) && Apply(w, a, budget).Some?
    ensures Inv(Apply(w, a, budget).value, Onward(w, a, stage), budget)
    ensures |Apply(w, a, budget).value.lanes| == |w.lanes|
  {
    hide Staged, Roomy, Recorded, Verdicts, CallsLast, Apply, Fills;
    StepCallsLast(w, a, stage, budget);
    StepRoomy(w, a, stage, budget);
    if a.Enter? || a.Leave? || a.Expire? {
      if Fills(w, a) {
        ReleaseStaged(w, a, stage, budget);
      } else {
        BarrierStaged(w, a, stage, budget);
      }
      BarrierRecorded(w, a, stage, budget);
      BarrierVerdicts(w, a, stage, budget);
    } else {
      LaneStaged(w, a, stage, budget);
      if a.Post? {
        PostRecorded(w, a, stage, budget);
        PostVerdicts(w, a, stage, budget);
      } else {
        LaneRecorded(w, a, stage, budget);
        LaneVerdicts(w, a, stage, budget);
      }
    }
  }

  // ---------------------------------------------------------------- whole runs of one wave

  function Run(w: Wave, actions: seq<Action>, budget: int): Option<Wave>
    decreases |actions|
  {
    if actions == [] then Some(w)
    else match Apply(w, actions[0], budget)
         case None => None
         case Some(next) => Run(next, actions[1..], budget)
  }

  ghost predicate Safe(w: Wave, n: nat, budget: int)
  {
    |w.lanes| == n && exists stage :: Inv(w, stage, budget)
  }

  lemma {:induction false} RunSafe(w: Wave, actions: seq<Action>, n: nat, budget: int)
    requires Safe(w, n, budget) && Run(w, actions, budget).Some?
    ensures Safe(Run(w, actions, budget).value, n, budget)
    decreases |actions|
  {
    hide Inv, Apply;
    if actions != [] {
      var stage :| Inv(w, stage, budget);
      StepInv(w, actions[0], stage, budget);
      RunSafe(Apply(w, actions[0], budget).value, actions[1..], n, budget);
    }
  }

  lemma FreshSafe(n: nat, budget: int)
    ensures Safe(Fresh(n), n, budget)
  {
    assert Inv(Fresh(n), Gathering, budget);
  }

  predicate Judging(p: Phase)
  {
    p.Informed? || p.Calling? || p.Returned? || p.Refused?
  }

  /** The list every lane judges: one start per lane, no more. */
  ghost predicate FullList(starts: seq<Start>, n: nat)
  {
    && |starts| == n
    && (forall s :: s in starts ==> s.lane < n)
    && (forall j, k :: 0 <= j < k < |starts| ==> starts[j].lane != starts[k].lane)
  }

  function Posters(starts: seq<Start>): (lanes: set<nat>)
    ensures forall s :: s in starts ==> s.lane in lanes
    ensures forall i :: i in lanes ==> exists s :: s in starts && s.lane == i
  {
    if starts == [] then {}
    else
      var rest := Posters(starts[..|starts| - 1]);
      assert starts == starts[..|starts| - 1] + [starts[|starts| - 1]];
      rest + {starts[|starts| - 1].lane}
  }

  lemma {:induction false} PostersCounted(starts: seq<Start>)
    requires forall j, k :: 0 <= j < k < |starts| ==> starts[j].lane != starts[k].lane
    ensures |Posters(starts)| == |starts|
  {
    if starts != [] {
      PostersCounted(starts[..|starts| - 1]);
    }
  }

  lemma ListFull(w: Wave, stage: Stage)
    requires Recorded(w, stage) && Complete(stage)
    ensures FullList(w.starts, |w.lanes|)
  {
    PostersCounted(w.starts);
    var all := UpTo(|w.lanes|);
    forall i | i in all
      ensures i in Posters(w.starts)
    {
      assert Started(i) in w.log;
    }
    assert Posters(w.starts) == all;
  }

  /** Every interleaving of every wave: calls come after all lanes own their jobs and have
      posted; whoever is past the second barrier sees the full list of starts; and the lanes
      agree: a refused lane and a provider call never occur in the same wave. */
  lemma WaveSafe(n: nat, actions: seq<Action>, budget: int)
    requires Run(Fresh(n), actions, budget).Some?
    ensures var w := Run(Fresh(n), actions, budget).value;
      && |w.lanes| == n
      && CallsLast(w.log, n)
      && (forall i :: 0 <= i < n && Judging(w.lanes[i]) ==> FullList(w.starts, n))
      && (forall i :: 0 <= i < n && w.lanes[i].Refused? ==> Late(w.starts, budget) && forall e :: e in w.log ==> !e.Called?)
      && (forall i :: 0 <= i < n && (w.lanes[i].Calling? || w.lanes[i].Returned?) ==> !Late(w.starts, budget))
  {
    FreshSafe(n, budget);
    RunSafe(Fresh(n), actions, n, budget);
    InvSafe(Run(Fresh(n), actions, budget).value, n, budget);
  }

  lemma InvSafe(w: Wave, n: nat, budget: int)
    requires Safe(w, n, budget)
    ensures CallsLast(w.log, n)
    ensures forall i :: 0 <= i < n && Judging(w.lanes[i]) ==> FullList(w.starts, n)
    ensures forall i :: 0 <= i < n && w.lanes[i].Refused? ==> Late(w.starts, budget) && forall e :: e in w.log ==> !e.Called?
    ensures forall i :: 0 <= i < n && (w.lanes[i].Calling? || w.lanes[i].Returned?) ==> !Late(w.starts, budget)
  {
    hide Late, FullList, Recorded;
    var stage :| Inv(w, stage, budget);
    if Complete(stage) {
      ListFull(w, stage);
    }
  }

  // ---------------------------------------------------------------- every wave ends

  function Rank(p: Phase): nat
  {
    match p
    case Queued => 0
    case Owner => 1
    case AtFirst => 2
    case Released => 3
    case Posted => 4
    case AtSecond => 5
    case Informed => 6
    case Calling(made) => 7 + made
    case Returned | Refused | Crashed => 8 + TURNS
  }

  function Total(lanes: seq<Phase>): nat
  {
    if lanes == [] then 0 else Rank(lanes[0]) + Total(lanes[1..])
  }

  lemma {:induction false} TotalMove(lanes: seq<Phase>, i: nat, p: Phase)
    requires i < |lanes|
    ensures Total(lanes[i := p]) == Total(lanes) - Rank(lanes[i]) + Rank(p)
  {
    if i > 0 {
      TotalMove(lanes[1..], i - 1, p);
      assert lanes[i := p][1..] == lanes[1..][i - 1 := p];
    }
  }

  lemma {:induction false} TotalBound(lanes: seq<Phase>)
    requires forall p :: p in lanes && p.Calling? ==> p.made <= TURNS
    ensures Total(lanes) <= (8 + TURNS) * |lanes|
  {
    if lanes != [] {
      TotalBound(lanes[1..]);
    }
  }

  lemma StepUp(w: Wave, a: Action, stage: Stage, budget: int)
    requires Inv(w, stage, budget) && Apply(w, a, budget).Some?
    ensures |Apply(w, a, budget).value.lanes| == |w.lanes| && a.lane < |w.lanes|
    ensures var next := Apply(w, a, budget).value.lanes;
      next == w.lanes[a.lane := next[a.lane]] && Rank(next[a.lane]) > Rank(w.lanes[a.lane])
  {
    hide Late, Recorded, CallsLast, Staged;
  }

  lemma StepRank(w: Wave, a: Action, stage: Stage, budget: int)
    requires Inv(w, stage, budget) && Apply(w, a, budget).Some?
    ensures Total(Apply(w, a, budget).value.lanes) > Total(w.lanes)
  {
    hide Inv;
    StepUp(w, a, stage, budget);
    var next := Apply(w, a, budget).value.lanes;
    TotalMove(w.lanes, a.lane, next[a.lane]);
  }

  lemma {:induction false} RunRank(w: Wave, actions: seq<Action>, n: nat, budget: int)
    requires Safe(w, n, budget) && Run(w, actions, budget).Some?
    ensures Total(w.lanes) + |actions| <= (8 + TURNS) * n
    decreases |actions|
  {
    var stage :| Inv(w, stage, budget);
    if actions == [] {
      assert forall p :: p in w.lanes && p.Calling? ==> p.made <= TURNS;
      TotalBound(w.lanes);
    } else {
      hide Inv, Apply;
      StepInv(w, actions[0], stage, budget);
      StepRank(w, actions[0], stage, budget);
      RunRank(Apply(w, actions[0], budget).value, actions[1..], n, budget);
    }
  }

  /** While a lane has not ended, some lane can move without an exception: the barrier
      deadlocks nobody, and its timeout is needed only once a lane has crashed. */
  lemma SomeoneMoves(w: Wave, n: nat, budget: int, i: nat)
    requires Safe(w, n, budget) && i < n && !Ended(w.lanes[i])
    ensures exists a :: Apply(w, a, budget).Some? && !a.Crash? && (a.Expire? ==> Crashed in w.lanes)
  {
    hide Recorded, Verdicts, CallsLast;
    var stage :| Inv(w, stage, budget);
    if Waiting(w.lanes[i]) && w.gate.Filling? {
      var j := Absent(w);
      assert Allowed(w.lanes[j], stage);
      if w.lanes[j].Crashed? {
        assert Apply(w, Expire(i), budget).Some?;
      } else {
        LaneMoves(w, j, budget);
      }
    } else if Waiting(w.lanes[i]) {
      assert Apply(w, Leave(i), budget).Some?;
    } else if w.gate.Draining? {
      var j :| j in w.inside;
      assert Apply(w, Leave(j), budget).Some?;
    } else {
      LaneMoves(w, i, budget);
    }
  }

  lemma Absent(w: Wave) returns (j: nat)
    requires |w.inside| < |w.lanes|
    ensures j < |w.lanes| && j !in w.inside
  {
    var all := UpTo(|w.lanes|);
    if all <= w.inside {
      SubsetCardinality(all, w.inside);
    }
    j :| j in all && j !in w.inside;
  }

  lemma LaneMoves(w: Wave, j: nat, budget: int)
    requires j < |w.lanes| && !Waiting(w.lanes[j]) && !Ended(w.lanes[j]) && !w.gate.Draining?
    ensures exists a :: Apply(w, a, budget).Some? && !a.Crash? && !a.Expire?
  {
    var a := match w.lanes[j]
      case Queued => Own(j)
      case Owner | Posted => Enter(j)
      case Released => Post(j, 0)
      case Informed => Judge(j)
      case _ => Return(j);
    assert Apply(w, a, budget).Some?;
  }

  // ---------------------------------------------------------------- waves in sequence

  /** One wave per task. A step acts on any wave opened so far; the next one opens only when
      every lane of the last has returned, since a lane's exception ends the command. */
  datatype Cohort = Cohort(waves: seq<Wave>, trace: seq<Stamp>)

  datatype Stamp = Stamp(wave: nat, action: Action)

  datatype CohortStep = On(wave: nat, action: Action) | OpenNext

  predicate AllReturned(w: Wave)
  {
    forall p :: p in w.lanes ==> p.Returned?
  }

  function Advance(c: Cohort, m: CohortStep, n: nat, budget: int): Option<Cohort>
  {
    match m
    case On(k, a) =>
      if k >= |c.waves| then None
      else (match Apply(c.waves[k], a, budget)
            case None => None
            case Some(w) => Some(Cohort(c.waves[k := w], c.trace + [Stamp(k, a)])))
    case OpenNext =>
      if c.waves == [] || AllReturned(c.waves[|c.waves| - 1]) then Some(c.(waves := c.waves + [Fresh(n)])) else None
  }

  function Execute(c: Cohort, moves: seq<CohortStep>, n: nat, budget: int): Option<Cohort>
    decreases |moves|
  {
    if moves == [] then Some(c)
    else match Advance(c, moves[0], n, budget)
         case None => None
         case Some(next) => Execute(next, moves[1..], n, budget)
  }

  /** Steps of different waves do not interleave. */
  ghost predicate InSequence(c: Cohort)
  {
    && (forall k :: 0 <= k < |c.waves| - 1 ==> AllReturned(c.waves[k]))
    && (forall p :: 0 <= p < |c.trace| ==> c.trace[p].wave < |c.waves|)
    && (forall p, q :: 0 <= p < q < |c.trace| ==> c.trace[p].wave <= c.trace[q].wave)
  }

  ghost predicate WavesSafe(c: Cohort, n: nat, budget: int)
  {
    forall k :: 0 <= k < |c.waves| ==> Safe(c.waves[k], n, budget)
  }

  lemma ReturnedStuck(w: Wave, a: Action, budget: int)
    requires AllReturned(w)
    ensures Apply(w, a, budget).None?
  {
    if a.lane < |w.lanes| {
      assert w.lanes[a.lane] in w.lanes;
    }
  }

  lemma AdvanceSafe(c: Cohort, m: CohortStep, n: nat, budget: int)
    requires InSequence(c) && WavesSafe(c, n, budget) && Advance(c, m, n, budget).Some?
    ensures InSequence(Advance(c, m, n, budget).value) && WavesSafe(Advance(c, m, n, budget).value, n, budget)
  {
    hide Inv, Apply, AllReturned;
    match m
    case OpenNext =>
      FreshSafe(n, budget);
    case On(k, a) =>
      if k < |c.waves| - 1 {
        ReturnedStuck(c.waves[k], a, budget);
      }
      var stage :| Inv(c.waves[k], stage, budget);
      StepInv(c.waves[k], a, stage, budget);
  }

  lemma {:induction false} ExecuteSafe(c: Cohort, moves: seq<CohortStep>, n: nat, budget: int)
    requires InSequence(c) && WavesSafe(c, n, budget) && Execute(c, moves, n, budget).Some?
    ensures InSequence(Execute(c, moves, n, budget).value)
    ensures WavesSafe(Execute(c, moves, n, budget).value, n, budget)
    decreases |moves|
  {
    hide InSequence, WavesSafe, Advance;
    if moves != [] {
      AdvanceSafe(c, moves[0], n, budget);
      ExecuteSafe(Advance(c, moves[0], n, budget).value, moves[1..], n, budget);
    }
  }

  /** Calls in flight at the same time belong to the same wave, and in the trace of any run
      all steps of a wave come before all steps of the next. */
  lemma WavesNeverOverlap(moves: seq<CohortStep>, n: nat, budget: int)
    requires Execute(Cohort([], []), moves, n, budget).Some?
    ensures var c := Execute(Cohort([], []), moves, n, budget).value;
      && WavesSafe(c, n, budget)
      && (forall p, q :: 0 <= p < q < |c.trace| ==> c.trace[p].wave <= c.trace[q].wave)
      && (forall k, k', i, j :: 0 <= k < k' < |c.waves| && 0 <= i < |c.waves[k].lanes| && 0 <= j < |c.waves[k'].lanes| ==>
            !(c.waves[k].lanes[i].Calling? && c.waves[k'].lanes[j].Calling?))
  {
    var start := Cohort([], []);
    ExecuteSafe(start, moves, n, budget);
    var c := Execute(start, moves, n, budget).value;
    forall k, i | 0 <= k < |c.waves| - 1 && 0 <= i < |c.waves[k].lanes|
      ensures c.waves[k].lanes[i].Returned?
    {
      assert AllReturned(c.waves[k]) && c.waves[k].lanes[i] in c.waves[k].lanes;
    }
  }
}
