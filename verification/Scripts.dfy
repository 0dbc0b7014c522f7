/** Fault schedules against the statements of a command: which first fault is critical. */
module Scripts {
  import opened Ledger

  // ---------------------------------------------------------------- statements and faults

  /** A statement, as the kinds of fault that are critical for it. */
  type Site = set<Fault>

  const Plain: Site := {}

  predicate Critical(site: Site, fault: Fault)
  {
    fault != NoFault && fault in site
  }

  /** The first fault among the statements of the script is critical for its statement. */
  ghost predicate Loses(faults: nat -> Fault, script: seq<Site>, from: nat)
    decreases |script|
  {
    script != [] &&
    if faults(from) != NoFault then Critical(script[0], faults(from)) else Loses(faults, script[1..], from + 1)
  }

  ghost predicate Clean(faults: nat -> Fault, from: nat, to: nat)
  {
    forall k :: from <= k < to ==> faults(k) == NoFault
  }

  function Plains(n: nat): (s: seq<Site>)
    ensures |s| == n
  {
    seq(n, _ => Plain)
  }

  /** Only the first fault matters. */
  lemma {:induction false} LosesAt(faults: nat -> Fault, script: seq<Site>, from: nat, i: nat)
    requires i < |script| && Clean(faults, from, from + i) && faults(from + i) != NoFault
    ensures Loses(faults, script, from) <==> Critical(script[i], faults(from + i))
    decreases i
  {
    if i > 0 {
      assert faults(from) == NoFault;
      LosesAt(faults, script[1..], from + 1, i - 1);
    }
  }

  /** So something is lost exactly when some statement meets its critical kind of fault and
      no statement before it raised. */
  lemma LosesExactly(faults: nat -> Fault, script: seq<Site>, from: nat)
    ensures Loses(faults, script, from) <==>
      exists i :: 0 <= i < |script| && Clean(faults, from, from + i) && Critical(script[i], faults(from + i))
  {
    if Clean(faults, from, from + |script|) {
      LosesNothing(faults, script, from);
    } else {
      var i := FirstFault(faults, from, |script|);
      LosesAt(faults, script, from, i);
      forall j: nat | j < |script| && Clean(faults, from, from + j) && Critical(script[j], faults(from + j))
        ensures j == i
      {
        assert faults(from + j) != NoFault;
      }
    }
  }

  lemma {:induction false} FirstFault(faults: nat -> Fault, from: nat, n: nat) returns (i: nat)
    requires !Clean(faults, from, from + n)
    ensures i < n && Clean(faults, from, from + i) && faults(from + i) != NoFault
    decreases n
  {
    if Clean(faults, from, from + n - 1) {
      i := n - 1;
    } else {
      i := FirstFault(faults, from, n - 1);
    }
  }

  /** A first fault among plain statements loses nothing. */
  lemma {:induction false} LosesPlain(faults: nat -> Fault, script: seq<Site>, from: nat, lo: nat, hi: nat)
    requires lo <= hi <= |script| && Clean(faults, from, from + lo) && !Clean(faults, from + lo, from + hi)
    requires forall j :: lo <= j < hi ==> script[j] == Plain
    ensures !Loses(faults, script, from)
    decreases hi - lo
  {
    if faults(from + lo) != NoFault {
      LosesAt(faults, script, from, lo);
    } else {
      LosesPlain(faults, script, from, lo + 1, hi);
    }
  }

  lemma {:induction false} LosesNothing(faults: nat -> Fault, script: seq<Site>, from: nat)
    requires Clean(faults, from, from + |script|)
    ensures !Loses(faults, script, from)
    decreases |script|
  {
    if script != [] {
      assert faults(from) == NoFault;
      LosesNothing(faults, script[1..], from + 1);
    }
  }

  lemma {:induction false} LosesLater(faults: nat -> Fault, a: seq<Site>, b: seq<Site>, from: nat)
    ensures Clean(faults, from, from + |a|) ==> (Loses(faults, a + b, from) <==> Loses(faults, b, from + |a|))
    ensures !Clean(faults, from, from + |a|) ==> (Loses(faults, a + b, from) <==> Loses(faults, a, from))
    decreases |a|
  {
    if a == [] {
      assert a + b == b;
    } else {
      assert (a + b)[1..] == a[1..] + b;
      LosesLater(faults, a[1..], b, from + 1);
      if faults(from) == NoFault {
        assert Clean(faults, from, from + |a|) <==> Clean(faults, from + 1, from + |a|);
      }
    }
  }

  // ---------------------------------------------------------------- pieces of a command

  /** A piece of a command runs along a script: on a normal return all its statements ran; on
      an exception the command's state is `consistent` exactly when the first fault was not
      critical for the statement it hit. */
  ghost predicate Along<Op(!new), Rows(!new)>(ledger: EffectLedger<Op, Rows>, script: seq<Site>, from: nat, raised: bool, consistent: bool)
    reads ledger`clock
  {
    && ledger.Took(from, |script|, raised)
    && (raised ==> (consistent <==> !Loses(ledger.faults, script, from)))
  }

  lemma CleanEmpty(faults: nat -> Fault, from: nat)
    ensures Clean(faults, from, from)
  {
  }

  lemma CleanNext(faults: nat -> Fault, from: nat, to: nat)
    requires Clean(faults, from, to) && faults(to) == NoFault
    ensures Clean(faults, from, to + 1)
  {
  }

  /** Statement `i` of the script is the first to raise. */
  lemma AlongFault<Op(!new), Rows(!new)>(ledger: EffectLedger<Op, Rows>, script: seq<Site>, from: nat, i: nat, consistent: bool)
    requires i < |script| && Clean(ledger.faults, from, from + i) && ledger.faults(from + i) != NoFault
    requires consistent <==> !Critical(script[i], ledger.faults(from + i))
    ensures Along(ledger, script, from, true, consistent)
    ensures from + i < ledger.clock ==> ledger.Faulted(from, ledger.clock)
  {
    LosesAt(ledger.faults, script, from, i);
  }

  /** The last statement of the script is plain. */
  lemma AlongLast<Op(!new), Rows(!new)>(ledger: EffectLedger<Op, Rows>, script: seq<Site>, from: nat, raised: bool, consistent: bool)
    requires script != [] && script[|script| - 1] == Plain && consistent
    requires Clean(ledger.faults, from, from + |script| - 1) && ledger.Took(from + |script| - 1, 1, raised)
    ensures Along(ledger, script, from, raised, consistent)
    ensures raised && from + |script| <= ledger.clock ==> ledger.Faulted(from, ledger.clock)
  {
    if raised {
      LosesAt(ledger.faults, script, from, |script| - 1);
    }
  }

  /** Plain statements lo..hi of the script raised. */
  lemma AlongPlain<Op(!new), Rows(!new)>(ledger: EffectLedger<Op, Rows>, script: seq<Site>, from: nat, lo: nat, n: nat, consistent: bool)
    requires lo + n <= |script| && Clean(ledger.faults, from, from + lo)
    requires forall j :: lo <= j < lo + n ==> script[j] == Plain
    requires consistent && ledger.Took(from + lo, n, true)
    ensures Along(ledger, script, from, true, consistent)
    ensures from + lo + n <= ledger.clock ==> ledger.Faulted(from, ledger.clock)
  {
    LosesPlain(ledger.faults, script, from, lo, lo + n);
  }

  /** The script's first part ran; what raises later is judged by the second part. */
  lemma AlongAfter<Op(!new), Rows(!new)>(ledger: EffectLedger<Op, Rows>, a: seq<Site>, b: seq<Site>, from: nat,
                                         raised: bool, consistent: bool)
    requires Clean(ledger.faults, from, from + |a|) && Along(ledger, b, from + |a|, raised, consistent)
    ensures Along(ledger, a + b, from, raised, consistent)
  {
    LosesLater(ledger.faults, a, b, from);
  }

  /** What raised in a first part of the script raised in the whole. */
  lemma AlongMore<Op(!new), Rows(!new)>(ledger: EffectLedger<Op, Rows>, head: seq<Site>, script: seq<Site>, from: nat, consistent: bool)
    requires head <= script && Along(ledger, head, from, true, consistent)
    ensures Along(ledger, script, from, true, consistent)
  {
    assert script == head + script[|head|..];
    LosesLater(ledger.faults, head, script[|head|..], from);
  }

  lemma CleanOn<Op(!new), Rows(!new)>(ledger: EffectLedger<Op, Rows>, from: nat, to: nat, n: nat)
    requires from <= to && Clean(ledger.faults, from, to) && ledger.Took(to, n, false)
    ensures Clean(ledger.faults, from, to + n) && ledger.clock == to + n
  {
  }

  /** A later piece that raised has raised within the whole. */
  lemma FaultedLater<Op(!new), Rows(!new)>(ledger: EffectLedger<Op, Rows>, from: nat, to: nat)
    requires from <= to && ledger.Faulted(to, ledger.clock)
    ensures ledger.Faulted(from, ledger.clock)
  {
  }

  lemma TookFault<Op(!new), Rows(!new)>(ledger: EffectLedger<Op, Rows>, from: nat, i: nat, n: nat)
    requires i < n && ledger.faults(from + i) != NoFault && from + i < ledger.clock
    ensures ledger.Took(from, n, true) && ledger.Faulted(from, ledger.clock)
  {
  }

  lemma TookAll<Op(!new), Rows(!new)>(ledger: EffectLedger<Op, Rows>, from: nat, n: nat)
    requires Clean(ledger.faults, from, from + n) && ledger.clock == from + n
    ensures ledger.Took(from, n, false)
  {
  }

  lemma TookPart<Op(!new), Rows(!new)>(ledger: EffectLedger<Op, Rows>, from: nat, before: nat, n: nat, all: nat)
    requires before + n <= all && ledger.Took(from + before, n, true)
    ensures ledger.Took(from, all, true)
  {
  }

  lemma AlongClean<Op(!new), Rows(!new)>(ledger: EffectLedger<Op, Rows>, script: seq<Site>, from: nat, consistent: bool)
    requires Along(ledger, script, from, false, consistent)
    ensures ledger.clock == from + |script| && Clean(ledger.faults, from, from + |script|)
  {
  }

  lemma AlongWhole<Op(!new), Rows(!new)>(ledger: EffectLedger<Op, Rows>, script: seq<Site>, from: nat, consistent: bool)
    requires ledger.clock == from + |script| && Clean(ledger.faults, from, from + |script|)
    ensures Along(ledger, script, from, false, consistent)
  {
  }

  lemma AlongOn<Op(!new), Rows(!new)>(ledger: EffectLedger<Op, Rows>, script: seq<Site>, from: nat, to: nat, consistent: bool)
    requires from <= to && Clean(ledger.faults, from, to) && Along(ledger, script, to, false, consistent)
    ensures ledger.clock == to + |script| && Clean(ledger.faults, from, to + |script|)
  {
  }

  lemma CleanNoFault<Op(!new), Rows(!new)>(ledger: EffectLedger<Op, Rows>, from: nat)
    requires Clean(ledger.faults, from, ledger.clock)
    ensures !ledger.Faulted(from, ledger.clock)
  {
  }

  lemma AlongRaised<Op(!new), Rows(!new)>(ledger: EffectLedger<Op, Rows>, script: seq<Site>, from: nat, consistent: bool)
    requires Along(ledger, script, from, true, consistent)
    ensures consistent <==> !Loses(ledger.faults, script, from)
  {
  }

  lemma AlongNotClean<Op(!new), Rows(!new)>(ledger: EffectLedger<Op, Rows>, script: seq<Site>, from: nat, consistent: bool)
    requires Along(ledger, script, from, true, consistent)
    ensures !Clean(ledger.faults, from, from + |script|)
  {
  }

  lemma FaultedSplit<Op(!new), Rows(!new)>(ledger: EffectLedger<Op, Rows>, from: nat, at: nat)
    requires from <= at && Clean(ledger.faults, from, at) && !ledger.Faulted(at, ledger.clock)
    ensures !ledger.Faulted(from, ledger.clock)
  {
  }

  /** A fault before the handler and one inside it are two. */
  lemma SecondFault<Op(!new), Rows(!new)>(ledger: EffectLedger<Op, Rows>, from: nat, handled: nat)
    requires from <= handled && ledger.Faulted(from, handled) && handled <= ledger.clock
    ensures ledger.Faulted(from, ledger.clock)
    ensures ledger.Faulted(handled, ledger.clock) ==> ledger.FaultedTwice(from, ledger.clock)
  {
  }
}
