/** Many producers, one bounded queue, one writer, one reader. Producers put their rows and
    then one anonymous end marker; the writer inserts rows until it has seen as many markers
    as there are producers. A run is any interleaving of their steps. */
module SerializedProducers {
  import opened Finite
  import opened Ledger

  const BATCH: nat := 1000

  // ---------------------------------------------------------------- the partition of the rows

  /** Row count, producers, queue capacity, first sequence number, work items, rows already
      in the table. */
  datatype Setup = Setup(rows: nat, producers: nat, capacity: nat, first: int, work: nat, existing: nat)

  ghost predicate Sane(s: Setup)
  {
    s.producers >= 1 && s.capacity >= 1 && s.work >= 1
  }

  function Share(base: nat, remainder: nat, p: nat): nat
  {
    base + if p < remainder then 1 else 0
  }

  function Count(s: Setup, p: nat): nat
    requires s.producers >= 1
  {
    Share(s.rows / s.producers, s.rows % s.producers, p)
  }

  /** The ordinals before producer p's: what the producers before it count. */
  function Offset(s: Setup, p: nat): nat
    requires s.producers >= 1
  {
    if p == 0 then 0 else Offset(s, p - 1) + Count(s, p - 1)
  }

  lemma {:induction false} OffsetClosed(s: Setup, p: nat)
    requires s.producers >= 1
    ensures Offset(s, p) == p * (s.rows / s.producers) + if p < s.rows % s.producers then p else s.rows % s.producers
  {
    if p > 0 {
      OffsetClosed(s, p - 1);
      assert p * (s.rows / s.producers) == (p - 1) * (s.rows / s.producers) + s.rows / s.producers;
    }
  }

  /** The shares add up to the rows. */
  lemma OffsetTotal(s: Setup)
    requires s.producers >= 1
    ensures Offset(s, s.producers) == s.rows
  {
    OffsetClosed(s, s.producers);
    assert s.rows == s.producers * (s.rows / s.producers) + s.rows % s.producers;
  }

  lemma {:induction false} OffsetMonotone(s: Setup, p: nat, q: nat)
    requires s.producers >= 1 && p <= q
    ensures Offset(s, p) <= Offset(s, q)
  {
    if p < q {
      OffsetMonotone(s, p, q - 1);
    }
  }

  /** The shares are even, the earlier producers taking one more. */
  lemma SharesEven(s: Setup, p: nat, q: nat)
    requires s.producers >= 1 && p <= q
    ensures Count(s, q) <= Count(s, p) <= Count(s, q) + 1
  {
  }

  /** Every ordinal below Offset(q) is some producer's before q. */
  lemma {:induction false} OwnerOf(s: Setup, q: nat, ordinal: nat) returns (p: nat)
    requires s.producers >= 1 && ordinal < Offset(s, q)
    ensures p < q && Offset(s, p) <= ordinal < Offset(s, p) + Count(s, p)
  {
    if ordinal >= Offset(s, q - 1) {
      p := q - 1;
    } else {
      p := OwnerOf(s, q - 1, ordinal);
    }
  }

  /** Shares of different producers do not meet. */
  lemma SharesApart(s: Setup, p: nat, i: nat, q: nat, j: nat)
    requires s.producers >= 1 && i < Count(s, p) && j < Count(s, q) && Offset(s, p) + i == Offset(s, q) + j
    ensures p == q && i == j
  {
    if p < q {
      OffsetMonotone(s, p + 1, q);
    } else if q < p {
      OffsetMonotone(s, q + 1, p);
    }
  }

  lemma NextShare(s: Setup, p: nat)
    requires s.producers >= 1
    ensures Count(s, p) == Share(s.rows / s.producers, s.rows % s.producers, p)
    ensures Offset(s, 0) == 0 && Offset(s, p + 1) == Offset(s, p) + Count(s, p)
  {
  }

  /** The loop that starts the threads: the running cursor is the offset. */
  method Shares(s: Setup) returns (shares: seq<(nat, nat)>)
    requires s.producers >= 1
    ensures |shares| == s.producers
    ensures forall p :: 0 <= p < |shares| ==> shares[p] == (Count(s, p), Offset(s, p))
  {
    hide *;
    var base, remainder := s.rows / s.producers, s.rows % s.producers;
    shares := [];
    var cursor := 0;
    NextShare(s, 0);
    for p := 0 to s.producers
      invariant |shares| == p && cursor == Offset(s, p)
      invariant forall q :: 0 <= q < p ==> shares[q] == (Count(s, q), Offset(s, q))
    {
      NextShare(s, p);
      var count := Share(base, remainder, p);
      shares := shares + [(count, cursor)];
      cursor := cursor + count;
    }
  }

  // ---------------------------------------------------------------- steps

  /** The index-th message of a producer. The writer sees only whether it is an end marker
      and, if not, the ordinal. */
  datatype Message = Message(producer: nat, index: nat)

  datatype Row = Row(sequence: int, work: nat, producer: nat)

  /** `committed` of the inserted rows are visible to the reader. */
  datatype State = State(sent: seq<nat>, taken: seq<Message>, queue: seq<Message>,
                         completed: nat, inserted: seq<Row>, committed: nat, closed: bool, observed: seq<nat>)

  datatype Action = Put(producer: nat) | Take | Close | Read

  predicate IsEnd(s: Setup, m: Message)
    requires s.producers >= 1
  {
    m.index >= Count(s, m.producer)
  }

  function RowOf(s: Setup, m: Message): Row
    requires Sane(s)
  {
    var ordinal := Offset(s, m.producer) + m.index;
    Row(s.first + ordinal, ordinal % s.work + 1, m.producer)
  }

  function Apply(s: Setup, x: State, a: Action): Option<State>
    requires Sane(s)
  {
    match a
    case Put(p) =>
      if p < |x.sent| && x.sent[p] <= Count(s, p) && |x.queue| < s.capacity then
        Some(x.(sent := x.sent[p := x.sent[p] + 1], queue := x.queue + [Message(p, x.sent[p])]))
      else None
    case Take =>
      if x.completed < s.producers && x.queue != [] then
        var m := x.queue[0];
        var y := x.(taken := x.taken + [m], queue := x.queue[1..]);
        if IsEnd(s, m) then Some(y.(completed := x.completed + 1))
        else
          var inserted := x.inserted + [RowOf(s, m)];
          Some(y.(inserted := inserted, committed := if |inserted| % BATCH == 0 then |inserted| else x.committed))
      else None
    case Close =>
      if x.completed == s.producers && !x.closed then Some(x.(closed := true, committed := |x.inserted|)) else None
    case Read =>
      Some(x.(observed := x.observed + [s.existing + x.committed]))
  }

  function Fresh(s: Setup): State
  {
    State(seq(s.producers, _ => 0), [], [], 0, [], 0, false, [])
  }

  function Run(s: Setup, x: State, actions: seq<Action>): Option<State>
    requires Sane(s)
    decreases |actions|
  {
    if actions == [] then Some(x)
    else match Apply(s, x, actions[0])
         case None => None
         case Some(y) => Run(s, y, actions[1..])
  }

  // ---------------------------------------------------------------- the invariant

  /** Everything put so far, in the order it was put: taken first, the queue last. */
  function History(x: State): seq<Message>
  {
    x.taken + x.queue
  }

  /** Each producer has put exactly its first messages, each once and in order. */
  ghost predicate Ordered(s: Setup, x: State)
    requires Sane(s)
  {
    && |x.sent| == s.producers && |x.queue| <= s.capacity
    && (forall p :: 0 <= p < |x.sent| ==> x.sent[p] <= Count(s, p) + 1)
    && (forall m :: m in History(x) <==> m.producer < |x.sent| && m.index < x.sent[m.producer])
    && (forall i, j :: 0 <= i < j < |History(x)| && History(x)[i].producer == History(x)[j].producer ==>
          History(x)[i].index < History(x)[j].index)
  }

  function Rows(s: Setup, taken: seq<Message>): seq<Row>
    requires Sane(s)
  {
    if taken == [] then []
    else
      var before, last := Rows(s, taken[..|taken| - 1]), taken[|taken| - 1];
      if IsEnd(s, last) then before else before + [RowOf(s, last)]
  }

  /** The producers whose end marker is among these messages. */
  function Ended(s: Setup, taken: seq<Message>): set<nat>
    requires Sane(s)
  {
    if taken == [] then {}
    else
      var before, last := Ended(s, taken[..|taken| - 1]), taken[|taken| - 1];
      if IsEnd(s, last) then before + {last.producer} else before
  }

  /** The writer has inserted the rows it took and counted the end markers. */
  ghost predicate Written(s: Setup, x: State)
    requires Sane(s)
  {
    && x.inserted == Rows(s, x.taken)
    && x.completed == |Ended(s, x.taken)|
    && |x.taken| == |x.inserted| + x.completed
    && (x.closed ==> x.completed == s.producers)
  }

  /** Whole batches are committed, and everything at the end. */
  ghost predicate Committed(x: State)
  {
    x.committed == if x.closed then |x.inserted| else |x.inserted| - |x.inserted| % BATCH
  }

  ghost predicate ReadsGrow(s: Setup, x: State)
  {
    && (forall i, j :: 0 <= i < j < |x.observed| ==> x.observed[i] <= x.observed[j])
    && (forall n :: n in x.observed ==> s.existing <= n <= s.existing + x.committed)
  }

  function Total(sent: seq<nat>): nat
  {
    if sent == [] then 0 else Total(sent[..|sent| - 1]) + sent[|sent| - 1]
  }

  ghost predicate Inv(s: Setup, x: State)
    requires Sane(s)
  {
    && Ordered(s, x) && Written(s, x) && Committed(x) && ReadsGrow(s, x)
    && |History(x)| == Total(x.sent)
  }

  lemma {:induction false} EndedFrom(s: Setup, taken: seq<Message>, p: nat)
    requires Sane(s)
    ensures p in Ended(s, taken) <==> exists m :: m in taken && m.producer == p && IsEnd(s, m)
  {
    if taken != [] {
      var before, last := taken[..|taken| - 1], taken[|taken| - 1];
      assert taken == before + [last];
      EndedFrom(s, before, p);
    }
  }

  lemma {:induction false} TotalUpdate(sent: seq<nat>, p: nat, n: nat)
    requires p < |sent|
    ensures Total(sent[p := n]) == Total(sent) - sent[p] + n
  {
    var init := sent[..|sent| - 1];
    if p < |sent| - 1 {
      TotalUpdate(init, p, n);
      assert sent[p := n][..|sent| - 1] == init[p := n];
    } else {
      assert sent[p := n][..|sent| - 1] == init;
    }
  }

  lemma PutOrdered(s: Setup, x: State, p: nat)
    requires Sane(s) && Ordered(s, x) && Apply(s, x, Put(p)).Some?
    ensures Ordered(s, Apply(s, x, Put(p)).value)
    ensures History(Apply(s, x, Put(p)).value) == History(x) + [Message(p, x.sent[p])]
  {
    var y := Apply(s, x, Put(p)).value;
    var h, m := History(x), Message(p, x.sent[p]);
    assert History(y) == h + [m];
    forall i | 0 <= i < |h|
      ensures h[i].producer < |x.sent| && h[i].index < x.sent[h[i].producer]
    {
      assert h[i] in h;
    }
  }

  lemma TakeHistory(s: Setup, x: State)
    requires Sane(s) && Ordered(s, x) && Apply(s, x, Take).Some?
    ensures History(Apply(s, x, Take).value) == History(x) && Ordered(s, Apply(s, x, Take).value)
  {
    assert History(Apply(s, x, Take).value) == History(x);
  }

  /** An end marker taken now was not taken before. */
  lemma NewEnd(s: Setup, x: State)
    requires Sane(s) && Ordered(s, x) && x.queue != [] && IsEnd(s, x.queue[0])
    ensures x.queue[0].producer !in Ended(s, x.taken)
  {
    hide Count;
    var m, h := x.queue[0], History(x);
    EndedFrom(s, x.taken, m.producer);
    assert m == h[|x.taken|] && m in h;
    forall e | e in x.taken && e.producer == m.producer
      ensures !IsEnd(s, e)
    {
      var i :| 0 <= i < |x.taken| && x.taken[i] == e;
      assert h[i] == e;
    }
  }

  lemma TakeWritten(s: Setup, x: State)
    requires Sane(s) && Ordered(s, x) && Written(s, x) && Apply(s, x, Take).Some?
    ensures Written(s, Apply(s, x, Take).value)
  {
    hide Ordered, IsEnd, RowOf;
    var m := x.queue[0];
    assert (x.taken + [m])[..|x.taken|] == x.taken;
    if IsEnd(s, m) {
      NewEnd(s, x);
    }
  }

  lemma TakeCommitted(s: Setup, x: State)
    requires Sane(s) && Written(s, x) && Committed(x) && Apply(s, x, Take).Some?
    ensures Committed(Apply(s, x, Take).value)
    ensures Apply(s, x, Take).value.committed >= x.committed
  {
    hide IsEnd, RowOf, Rows, Ended;
  }

  lemma ReadGrows(s: Setup, x: State)
    requires Sane(s) && ReadsGrow(s, x)
    ensures ReadsGrow(s, Apply(s, x, Read).value)
  {
    assert forall i :: 0 <= i < |x.observed| ==> x.observed[i] in x.observed;
  }

  lemma StepInv(s: Setup, x: State, a: Action)
    requires Sane(s) && Inv(s, x) && Apply(s, x, a).Some?
    ensures Inv(s, Apply(s, x, a).value)
    ensures !a.Read? ==> Steps(Apply(s, x, a).value) == Steps(x) + 1
    ensures a.Read? ==> Steps(Apply(s, x, a).value) == Steps(x)
  {
    hide Count, Rows, Ended, RowOf, Total;
    match a
    case Put(p) =>
      PutOrdered(s, x, p);
      TotalUpdate(x.sent, p, x.sent[p] + 1);
    case Take =>
      TakeHistory(s, x);
      TakeWritten(s, x);
      TakeCommitted(s, x);
    case Close =>
    case Read =>
      ReadGrows(s, x);
  }

  /** Work done so far: messages put, messages taken, the final commit. */
  function Steps(x: State): nat
  {
    |History(x)| + |x.taken| + if x.closed then 1 else 0
  }

  // ---------------------------------------------------------------- the end of a run

  lemma EndedBounded(s: Setup, x: State)
    requires Sane(s) && Ordered(s, x)
    ensures Ended(s, x.taken) <= UpTo(s.producers)
    ensures forall p :: p in Ended(s, x.taken) <==> 0 <= p < s.producers && Message(p, Count(s, p)) in x.taken
  {
    hide Count;
    forall p: nat
      ensures p in Ended(s, x.taken) ==> p < s.producers && Message(p, Count(s, p)) in x.taken
      ensures p < s.producers && Message(p, Count(s, p)) in x.taken ==> p in Ended(s, x.taken)
    {
      EndedFrom(s, x.taken, p);
      forall m | m in x.taken && m.producer == p && IsEnd(s, m)
        ensures p < s.producers && m == Message(p, Count(s, p))
      {
        assert m in History(x);
      }
    }
  }

  lemma TakenFirst(s: Setup, x: State, e: Message, m: Message)
    requires Sane(s) && Ordered(s, x) && e in x.taken && m in x.queue && e.producer == m.producer
    ensures e.index < m.index
  {
    var i :| 0 <= i < |x.taken| && x.taken[i] == e;
    var j :| 0 <= j < |x.queue| && x.queue[j] == m;
    assert History(x)[i] == e && History(x)[|x.taken| + j] == m;
  }

  /** When the writer has seen all end markers it has seen everything: the queue is empty and
      no producer has anything left to put. */
  lemma AllTaken(s: Setup, x: State)
    requires Sane(s) && Ordered(s, x) && Written(s, x) && x.completed == s.producers
    ensures x.queue == [] && forall p :: 0 <= p < s.producers ==> x.sent[p] == Count(s, p) + 1
    ensures forall m :: m in x.taken <==> m.producer < s.producers && m.index <= Count(s, m.producer)
  {
    hide Count;
    EndedBounded(s, x);
    SameCardinality(Ended(s, x.taken), UpTo(s.producers));
    forall p | 0 <= p < s.producers
      ensures x.sent[p] == Count(s, p) + 1 && Message(p, Count(s, p)) in x.taken
    {
      assert p in UpTo(s.producers);
      assert Message(p, Count(s, p)) in History(x);
    }
    if x.queue != [] {
      var m := x.queue[0];
      assert m in History(x);
      TakenFirst(s, x, Message(m.producer, Count(s, m.producer)), m);
      assert false;
    }
    assert History(x) == x.taken;
  }

  /** Nobody is stuck before the final commit. */
  lemma NeverStuck(s: Setup, x: State)
    requires Sane(s) && Inv(s, x) && !x.closed
    ensures exists a: Action :: !a.Read? && Apply(s, x, a).Some?
  {
    hide Count;
    EndedBounded(s, x);
    if x.completed == s.producers {
      assert Apply(s, x, Close).Some?;
    } else {
      SubsetCardinality(Ended(s, x.taken), UpTo(s.producers));
      if x.queue != [] {
        assert Apply(s, x, Take).Some?;
      } else {
        var p := Unfinished(s, x);
        assert Apply(s, x, Put(p)).Some?;
      }
    }
  }

  lemma Unfinished(s: Setup, x: State) returns (p: nat)
    requires Sane(s) && Ordered(s, x) && Written(s, x) && x.completed != s.producers && x.queue == []
    ensures p < s.producers && x.sent[p] <= Count(s, p)
  {
    hide Count;
    EndedBounded(s, x);
    p := Missing(Ended(s, x.taken), UpTo(s.producers));
    hide Ended, Written;
    assert History(x) == x.taken;
  }

  lemma Missing(a: set<nat>, b: set<nat>) returns (p: nat)
    requires a <= b && |a| != |b|
    ensures p in b && p !in a
  {
    assert b == a + (b - a);
    p :| p in b - a;
  }

  lemma FreshInv(s: Setup)
    requires Sane(s)
    ensures Inv(s, Fresh(s)) && Steps(Fresh(s)) == 0
  {
    TotalZero(Fresh(s).sent);
  }

  lemma {:induction false} TotalZero(sent: seq<nat>)
    requires forall p :: 0 <= p < |sent| ==> sent[p] == 0
    ensures Total(sent) == 0
  {
    if sent != [] {
      TotalZero(sent[..|sent| - 1]);
    }
  }

  lemma {:induction false} TotalBound(s: Setup, sent: seq<nat>)
    requires Sane(s) && forall p :: 0 <= p < |sent| ==> sent[p] <= Count(s, p) + 1
    ensures Total(sent) <= Offset(s, |sent|) + |sent|
    ensures (forall p :: 0 <= p < |sent| ==> sent[p] == Count(s, p) + 1) ==> Total(sent) == Offset(s, |sent|) + |sent|
  {
    hide Count;
    if sent != [] {
      TotalBound(s, sent[..|sent| - 1]);
    }
  }

  function Work(actions: seq<Action>): nat
  {
    if actions == [] then 0 else (if actions[0].Read? then 0 else 1) + Work(actions[1..])
  }

  lemma {:induction false} RunInv(s: Setup, x: State, actions: seq<Action>)
    requires Sane(s) && Inv(s, x) && Run(s, x, actions).Some?
    ensures Inv(s, Run(s, x, actions).value)
    ensures Steps(Run(s, x, actions).value) == Steps(x) + Work(actions)
    decreases |actions|
  {
    hide Inv, Apply, Steps;
    if actions != [] {
      StepInv(s, x, actions[0]);
      RunInv(s, Apply(s, x, actions[0]).value, actions[1..]);
    }
  }

  /** Every run is finite apart from reads: at most two steps per row and producer, and the
      final commit. A run of that many steps is closed. */
  lemma RunsEnd(s: Setup, actions: seq<Action>)
    requires Sane(s) && Run(s, Fresh(s), actions).Some?
    ensures Work(actions) <= 2 * (s.rows + s.producers) + 1
    ensures Run(s, Fresh(s), actions).value.closed <==> Work(actions) == 2 * (s.rows + s.producers) + 1
  {
    hide Count;
    FreshInv(s);
    RunInv(s, Fresh(s), actions);
    var x := Run(s, Fresh(s), actions).value;
    TotalBound(s, x.sent);
    OffsetTotal(s);
    if x.closed {
      AllTaken(s, x);
    }
  }

  /** Until the final commit every run can go on, so the protocol neither deadlocks nor runs
      forever. */
  lemma RunsGoOn(s: Setup, actions: seq<Action>)
    requires Sane(s) && Run(s, Fresh(s), actions).Some? && !Run(s, Fresh(s), actions).value.closed
    ensures exists a: Action :: !a.Read? && Apply(s, Run(s, Fresh(s), actions).value, a).Some?
  {
    hide Inv, Apply, Run;
    FreshInv(s);
    RunInv(s, Fresh(s), actions);
    NeverStuck(s, Run(s, Fresh(s), actions).value);
  }

  // ---------------------------------------------------------------- what was inserted

  lemma {:induction false} RowsFrom(s: Setup, taken: seq<Message>)
    requires Sane(s)
    ensures forall r :: r in Rows(s, taken) ==> exists m :: m in taken && !IsEnd(s, m) && RowOf(s, m) == r
    ensures forall m :: m in taken && !IsEnd(s, m) ==> RowOf(s, m) in Rows(s, taken)
  {
    hide IsEnd, RowOf;
    if taken != [] {
      var before, last := taken[..|taken| - 1], taken[|taken| - 1];
      assert taken == before + [last];
      RowsFrom(s, before);
    }
  }

  /** No two inserted rows share a sequence number, whatever the interleaving so far. */
  lemma {:induction false} RowsDistinct(s: Setup, taken: seq<Message>)
    requires Sane(s) && Distinct(taken)
    ensures forall i, j :: 0 <= i < j < |Rows(s, taken)| ==> Rows(s, taken)[i].sequence != Rows(s, taken)[j].sequence
  {
    hide IsEnd, RowOf;
    if taken != [] {
      var before, last := taken[..|taken| - 1], taken[|taken| - 1];
      RowsDistinct(s, before);
      RowsFrom(s, before);
      if !IsEnd(s, last) {
        forall r | r in Rows(s, before)
          ensures r.sequence != RowOf(s, last).sequence
        {
          var m :| m in before && !IsEnd(s, m) && RowOf(s, m) == r;
          assert m != last;
          RowsApart(s, m, last);
        }
      }
    }
  }

  lemma RowsApart(s: Setup, m: Message, n: Message)
    requires Sane(s) && m != n && !IsEnd(s, m) && !IsEnd(s, n)
    ensures RowOf(s, m).sequence != RowOf(s, n).sequence
  {
    hide Count, Offset;
    if Offset(s, m.producer) + m.index == Offset(s, n.producer) + n.index {
      SharesApart(s, m.producer, m.index, n.producer, n.index);
    }
  }

  lemma TakenDistinct(s: Setup, x: State)
    requires Sane(s) && Ordered(s, x)
    ensures Distinct(x.taken)
  {
    assert forall i :: 0 <= i < |x.taken| ==> x.taken[i] == History(x)[i];
  }

  ghost predicate HasSequence(rows: seq<Row>, n: int)
  {
    exists r :: r in rows && r.sequence == n
  }

  /** Every ordinal has its row at the end. */
  lemma OrdinalInserted(s: Setup, x: State, ordinal: nat)
    requires Sane(s) && Ordered(s, x) && Written(s, x) && x.completed == s.producers && ordinal < s.rows
    ensures HasSequence(x.inserted, s.first + ordinal)
  {
    hide Count, Offset;
    OffsetTotal(s);
    var p := OwnerOf(s, s.producers, ordinal);
    AllTaken(s, x);
    var m := Message(p, ordinal - Offset(s, p));
    assert m in x.taken;
    RowsFrom(s, x.taken);
    assert RowOf(s, m) in x.inserted;
  }

  /** Work items take turns. */
  lemma RowWork(s: Setup, m: Message)
    requires Sane(s)
    ensures RowOf(s, m).work == (RowOf(s, m).sequence - s.first) % s.work + 1 && RowOf(s, m).producer == m.producer
  {
  }

  lemma RowInRange(s: Setup, m: Message)
    requires Sane(s) && m.producer < s.producers && !IsEnd(s, m)
    ensures s.first <= RowOf(s, m).sequence < s.first + s.rows && 1 <= RowOf(s, m).work <= s.work
  {
    hide Count;
    OffsetTotal(s);
    OffsetMonotone(s, m.producer + 1, s.producers);
  }

  lemma InsertedRows(s: Setup, x: State)
    requires Sane(s) && Ordered(s, x) && Written(s, x)
    ensures forall r :: r in x.inserted ==>
      s.first <= r.sequence < s.first + s.rows && 1 <= r.work <= s.work && r.work == (r.sequence - s.first) % s.work + 1
  {
    hide Count, Offset, RowOf, Rows;
    RowsFrom(s, x.taken);
    forall r | r in x.inserted
      ensures s.first <= r.sequence < s.first + s.rows && 1 <= r.work <= s.work && r.work == (r.sequence - s.first) % s.work + 1
    {
      var m :| m in x.taken && !IsEnd(s, m) && RowOf(s, m) == r;
      assert m in History(x);
      RowInRange(s, m);
      RowWork(s, m);
    }
  }

  /** At the end of every run each sequence number of the range is inserted exactly once, with
      the work item whose turn it is, and everything is committed; at every moment of it the
      inserted rows are distinct and in range, and the reader's counts never decrease. */
  lemma ExactlyOnce(s: Setup, actions: seq<Action>)
    requires Sane(s) && Run(s, Fresh(s), actions).Some?
    ensures var x := Run(s, Fresh(s), actions).value;
      && (forall i, j :: 0 <= i < j < |x.inserted| ==> x.inserted[i].sequence != x.inserted[j].sequence)
      && (forall r :: r in x.inserted ==> s.first <= r.sequence < s.first + s.rows && 1 <= r.work <= s.work)
      && (forall r :: r in x.inserted ==> r.work == (r.sequence - s.first) % s.work + 1)
      && (forall i, j :: 0 <= i < j < |x.observed| ==> x.observed[i] <= x.observed[j])
      && (x.closed ==> |x.inserted| == s.rows && x.committed == s.rows && x.queue == [])
      && (x.closed ==> forall n :: s.first <= n < s.first + s.rows ==> HasSequence(x.inserted, n))
  {
    hide Count, Offset, RowOf, Rows, Ended, Total, Run;
    FreshInv(s);
    RunInv(s, Fresh(s), actions);
    var x := Run(s, Fresh(s), actions).value;
    TakenDistinct(s, x);
    RowsDistinct(s, x.taken);
    InsertedRows(s, x);
    if x.closed {
      AllTaken(s, x);
      RunsEnd(s, actions);
      forall n | s.first <= n < s.first + s.rows
        ensures HasSequence(x.inserted, n)
      {
        OrdinalInserted(s, x, n - s.first);
      }
      assert History(x) == x.taken;
      TotalBound(s, x.sent);
      OffsetTotal(s);
    }
  }
}
