/** Splitting a document into overlapping chunks that prefer to end at a line break. */
module ChunkText {

  const CHUNK: nat := 1600
  const OVERLAP: nat := 240

  // ---------------------------------------------------------------- line ends and blanks

  function ReplaceCrLf(s: string): string
  {
    if s == [] then []
    else if s[0] == '\r' && |s| > 1 && s[1] == '\n' then ['\n'] + ReplaceCrLf(s[2..])
    else [s[0]] + ReplaceCrLf(s[1..])
  }

  function ReplaceCr(s: string): string
  {
    if s == [] then [] else [if s[0] == '\r' then '\n' else s[0]] + ReplaceCr(s[1..])
  }

  function Normalize(s: string): string
  {
    ReplaceCr(ReplaceCrLf(s))
  }

  /** Universal newlines in one pass: each of \r\n, \r and \n ends one line. */
  function Lines(s: string): string
  {
    if s == [] then []
    else if s[0] != '\r' then [s[0]] + Lines(s[1..])
    else ['\n'] + Lines(if |s| > 1 && s[1] == '\n' then s[2..] else s[1..])
  }

  lemma {:induction false} NormalizeIsLines(s: string)
    ensures Normalize(s) == Lines(s)
    ensures '\r' !in Normalize(s)
  {
    if s != [] {
      var n := if s[0] == '\r' && |s| > 1 && s[1] == '\n' then 2 else 1;
      NormalizeIsLines(s[n..]);
      var rest := ReplaceCrLf(s[n..]);
      var first := if n == 2 then '\n' else s[0];
      assert ([first] + rest)[1..] == rest;
    }
  }

  /** What Python's str.strip removes. */
  predicate White(c: char)
  {
    || '\t' <= c <= '\r' || '\U{1c}' <= c <= ' ' || c == '\U{85}' || c == '\U{a0}' || c == '\U{1680}'
    || '\U{2000}' <= c <= '\U{200a}' || c == '\U{2028}' || c == '\U{2029}' || c == '\U{202f}'
    || c == '\U{205f}' || c == '\U{3000}'
  }

  predicate Blank(s: string)
  {
    forall i :: 0 <= i < |s| ==> White(s[i])
  }

  /** Line ends are white, so normalizing decides nothing about blankness. */
  lemma NormalizeBlank(s: string)
    ensures Blank(Normalize(s)) <==> Blank(s)
  {
    hide White;
    assert White('\r') && White('\n') by {
      WhiteEnds();
    }
    NormalizeIsLines(s);
    LinesBlank(s);
  }

  lemma WhiteEnds()
    ensures White('\r') && White('\n')
  {
  }

  lemma {:induction false} LinesBlank(s: string)
    ensures Blank(Lines(s)) <==> Blank(s)
  {
    WhiteEnds();
    hide White;
    if s != [] {
      var n := if s[0] == '\r' && |s| > 1 && s[1] == '\n' then 2 else 1;
      LinesBlank(s[n..]);
      BlankCons(s[..n], s[n..]);
      assert s == s[..n] + s[n..];
      var first := if s[0] == '\r' then '\n' else s[0];
      assert Lines(s) == [first] + Lines(s[n..]);
      BlankCons([first], Lines(s[n..]));
      assert s[..n] == if n == 2 then ['\r', '\n'] else [s[0]];
      assert s[..n][0] == s[0] && [first][0] == first;
    }
  }

  lemma BlankCons(a: string, b: string)
    ensures Blank(a + b) <==> Blank(a) && Blank(b)
  {
    if Blank(a + b) {
      assert forall i :: 0 <= i < |a| ==> a[i] == (a + b)[i];
      assert forall i :: 0 <= i < |b| ==> b[i] == (a + b)[|a| + i];
    }
  }

  function StripLeft(s: string): string
  {
    if s != [] && White(s[0]) then StripLeft(s[1..]) else s
  }

  function StripRight(s: string): string
  {
    if s != [] && White(s[|s| - 1]) then StripRight(s[..|s| - 1]) else s
  }

  function Strip(s: string): string
  {
    StripRight(StripLeft(s))
  }

  lemma {:induction false} StripLeftKeeps(s: string)
    ensures |StripLeft(s)| <= |s| && s[|s| - |StripLeft(s)|..] == StripLeft(s) && Blank(s[..|s| - |StripLeft(s)|])
    ensures StripLeft(s) != [] ==> !White(StripLeft(s)[0])
  {
    hide White, Blank;
    if s != [] && White(s[0]) {
      StripLeftKeeps(s[1..]);
      var k := |s| - |StripLeft(s)|;
      assert StripLeft(s) == StripLeft(s[1..]);
      hide StripLeft;
      assert s[..k] == [s[0]] + s[1..][..k - 1] && s[k..] == s[1..][k - 1..];
      BlankCons([s[0]], s[1..][..k - 1]);
      OneBlank(s[0]);
    } else {
      BlankNothing();
      assert s[..0] == [] && s[0..] == s;
    }
  }

  lemma OneBlank(c: char)
    ensures Blank([c]) <==> White(c)
  {
    assert [c][0] == c;
  }

  lemma {:induction false} StripRightKeeps(s: string)
    ensures |StripRight(s)| <= |s| && s[..|StripRight(s)|] == StripRight(s) && Blank(s[|StripRight(s)|..])
    ensures StripRight(s) != [] ==> !White(StripRight(s)[|StripRight(s)| - 1])
  {
    hide White, Blank;
    if s != [] && White(s[|s| - 1]) {
      var init := s[..|s| - 1];
      StripRightKeeps(init);
      var k := |StripRight(s)|;
      assert StripRight(s) == StripRight(init);
      hide StripRight;
      assert s[k..] == init[k..] + [s[|s| - 1]] && s[..k] == init[..k];
      BlankCons(init[k..], [s[|s| - 1]]);
      OneBlank(s[|s| - 1]);
    } else {
      BlankNothing();
      assert s[|s|..] == [] && s[..|s|] == s;
    }
  }

  /** A strip takes blanks off both ends and nothing else. */
  lemma StripKeeps(s: string) returns (left: nat, right: nat)
    ensures left <= right <= |s| && s[left..right] == Strip(s)
    ensures Blank(s[..left]) && Blank(s[right..])
    ensures Strip(s) == [] <==> Blank(s)
    ensures Strip(s) != [] ==> !White(Strip(s)[0]) && !White(Strip(s)[|Strip(s)| - 1])
  {
    hide *;
    var l, inner := StripLeft(s), Strip(s);
    StripLeftKeeps(s);
    StripRightKeeps(l);
    StripTwice(s);
    left := |s| - |l|;
    right := left + |inner|;
    StripCuts(s, left, right, inner, l);
    BlankCons(s[..left], l);
    BlankCons(inner, l[|inner|..]);
    FirstNotBlank(inner);
    BlankNothing();
  }

  lemma StripTwice(s: string)
    ensures Strip(s) == StripRight(StripLeft(s))
    ensures StripLeft(s) == [] ==> Strip(s) == []
  {
  }

  /** Cutting a string at two places. */
  lemma StripCuts(s: string, left: nat, right: nat, inner: string, l: string)
    requires |l| <= |s| && left == |s| - |l| && s[left..] == l
    requires |inner| <= |l| && right == left + |inner| && l[..|inner|] == inner
    ensures s == s[..left] + l && l == inner + l[|inner|..]
    ensures s[left..right] == inner && s[right..] == l[|inner|..]
    ensures inner != [] ==> inner[0] == l[0]
  {
  }

  lemma FirstNotBlank(s: string)
    ensures s != [] && !White(s[0]) ==> !Blank(s)
  {
  }

  lemma BlankNothing()
    ensures Blank([])
  {
  }

  // ---------------------------------------------------------------- windows

  /** The position of the last line break in lo..hi, or -1. */
  method LastBreak(s: string, lo: nat, hi: nat) returns (p: int)
    requires lo <= hi <= |s|
    ensures p == BreakIn(s, lo, hi)
  {
    var i := hi;
    while i > lo && s[i - 1] != '\n'
      invariant lo <= i <= hi
      invariant BreakIn(s, lo, hi) == BreakIn(s, lo, i)
    {
      i := i - 1;
    }
    p := i - 1;
    if i == lo {
      p := -1;
    }
  }

  function BreakIn(s: string, lo: nat, hi: nat): (p: int)
    requires lo <= hi <= |s|
    ensures p == -1 || (lo <= p < hi && s[p] == '\n')
    ensures forall q :: (if p == -1 then lo else p + 1) <= q < hi ==> s[q] != '\n'
    decreases hi
  {
    if lo == hi then -1 else if s[hi - 1] == '\n' then hi - 1 else BreakIn(s, lo, hi - 1)
  }

  /** Where a window that starts here stops: at the end of the text, at the last line break in
      its second half, or at full length. */
  function Stop(s: string, start: nat): (stop: nat)
    requires start < |s|
    ensures start < stop <= |s| && stop <= start + CHUNK
    ensures stop < |s| ==> stop >= start + CHUNK / 2
  {
    if start + CHUNK >= |s| then |s|
    else
      var p := BreakIn(s, start + CHUNK / 2, start + CHUNK);
      if p == -1 then start + CHUNK else p
  }

  datatype Window = Window(start: nat, stop: nat)

  /** The windows of a text: from the beginning, each one determined by its start, the next
      one 240 characters before the end of the last, up to the end of the text. */
  ghost predicate Tiling(s: string, w: seq<Window>)
  {
    && w != [] && w[0].start == 0 && w[|w| - 1].stop == |s|
    && Chain(s, w)
  }

  ghost predicate Chain(s: string, w: seq<Window>)
  {
    && (forall i :: 0 <= i < |w| ==> w[i].start < |s| && w[i].stop == Stop(s, w[i].start))
    && (forall i :: 0 <= i < |w| - 1 ==> w[i].stop < |s| && w[i + 1].start == w[i].stop - OVERLAP)
  }

  ghost predicate Within(s: string, w: seq<Window>)
  {
    forall i :: 0 <= i < |w| ==> w[i].start <= w[i].stop <= |s|
  }

  function Text(s: string, w: Window): string
    requires w.start <= w.stop <= |s|
  {
    s[w.start..w.stop]
  }

  /** The stripped texts of the windows that are not blank. */
  function Pieces(s: string, w: seq<Window>): seq<string>
    requires Within(s, w)
  {
    if w == [] then []
    else
      var piece := Strip(Text(s, w[|w| - 1]));
      Pieces(s, w[..|w| - 1]) + if piece == [] then [] else [piece]
  }

  /** Where the loop ends a window. */
  method WindowEnd(s: string, start: nat) returns (stop: nat)
    requires start < |s|
    ensures stop == Stop(s, start)
  {
    stop := if start + CHUNK < |s| then start + CHUNK else |s|;
    if stop < |s| {
      var newline := LastBreak(s, start + CHUNK / 2, stop);
      if newline > start {
        stop := newline;
      }
    }
  }

  ghost predicate Linked(s: string, w: seq<Window>, start: nat)
  {
    if w == [] then start == 0
    else w[0].start == 0 && w[|w| - 1].stop < |s| && start == w[|w| - 1].stop - OVERLAP
  }

  lemma ChainGrows(s: string, w: seq<Window>, start: nat)
    requires Chain(s, w) && Linked(s, w, start) && start < |s|
    ensures var next := Window(start, Stop(s, start));
      && Chain(s, w + [next]) && (w + [next])[0].start == 0 && (w + [next])[..|w|] == w && (w + [next])[|w|] == next
      && Pieces(s, w + [next]) == Pieces(s, w) + Piece(Strip(s[start..next.stop]))
  {
    ChainLonger(s, w, start);
    hide *;
    var next := Window(start, Stop(s, start));
    ChainInside(s, w + [next]);
    ChainInside(s, w);
    PiecesNext(s, w, next);
    WindowText(s, next);
  }

  function Piece(text: string): seq<string>
  {
    if text == [] then [] else [text]
  }

  lemma ChainLonger(s: string, w: seq<Window>, start: nat)
    requires Chain(s, w) && Linked(s, w, start) && start < |s|
    ensures var next := Window(start, Stop(s, start));
      && Chain(s, w + [next]) && (w + [next])[0].start == 0 && (w + [next])[..|w|] == w && (w + [next])[|w|] == next
      && next.start <= next.stop <= |s|
  {
    hide Stop;
  }

  lemma ChainInside(s: string, w: seq<Window>)
    requires Chain(s, w)
    ensures Within(s, w)
  {
    hide Stop;
  }

  lemma PiecesNext(s: string, w: seq<Window>, next: Window)
    requires Within(s, w)
    requires next.start <= next.stop <= |s|
    ensures Within(s, w + [next])
    ensures Pieces(s, w + [next]) == Pieces(s, w) + Piece(Strip(Text(s, next)))
  {
    hide Strip;
    assert (w + [next])[..|w|] == w;
  }

  lemma WindowText(s: string, w: Window)
    requires w.start <= w.stop <= |s|
    ensures Text(s, w) == s[w.start..w.stop]
  {
  }

  method Chunks(text: string) returns (chunks: seq<string>, ghost windows: seq<Window>)
    ensures Blank(text) ==> chunks == []
    ensures !Blank(text) ==>
      Tiling(Normalize(text), windows) && chunks == Pieces(Normalize(text), windows)
  {
    hide White, Normalize, Blank, Stop, Pieces, Strip;
    var normalized := Normalize(text);
    NormalizeBlank(text);
    ghost var l, r := StripKeeps(normalized);
    windows := [];
    if Strip(normalized) == [] {
      return [], windows;
    }
    NotBlankLength(normalized);
    chunks := [];
    var start := 0;
    PiecesNone(normalized);
    while start < |normalized|
      invariant 0 <= start < |normalized|
      invariant Chain(normalized, windows) && Linked(normalized, windows, start)
      invariant chunks == Pieces(normalized, windows)
      decreases |normalized| - start
    {
      var stop := WindowEnd(normalized, start);
      ChainGrows(normalized, windows, start);
      var piece := Strip(normalized[start..stop]);
      if piece != [] {
        chunks := chunks + [piece];
      }
      windows := windows + [Window(start, stop)];
      if stop >= |normalized| {
        break;
      }
      start := if start + 1 > stop - OVERLAP then start + 1 else stop - OVERLAP;
    }
  }

  lemma NotBlankLength(s: string)
    ensures !Blank(s) ==> |s| > 0
  {
  }

  lemma PiecesNone(s: string)
    ensures Pieces(s, []) == []
  {
  }

  lemma {:induction false} SamePrefix(s: string, w: seq<Window>, w': seq<Window>, i: nat)
    requires Tiling(s, w) && Tiling(s, w') && i < |w| && i < |w'|
    ensures w[i] == w'[i]
  {
    if i > 0 {
      SamePrefix(s, w, w', i - 1);
    }
  }

  /** A text has only one tiling, so the chunks are determined by it. */
  lemma TilingUnique(s: string, w: seq<Window>, w': seq<Window>)
    requires Tiling(s, w) && Tiling(s, w')
    ensures w == w'
  {
    forall i | 0 <= i < |w| && i < |w'|
      ensures w[i] == w'[i]
    {
      SamePrefix(s, w, w', i);
    }
    var last := if |w| < |w'| then |w| - 1 else |w'| - 1;
    assert w[last] == w'[last] && w[last].stop == |s|;
  }

  // ---------------------------------------------------------------- what the windows are good for

  /** At most 1600 long, overlapping by exactly 240, advancing by at least 560. */
  lemma WindowShape(s: string, w: seq<Window>, i: nat)
    requires Chain(s, w) && i < |w|
    ensures w[i].start < w[i].stop <= |s| && |Text(s, w[i])| <= CHUNK
    ensures i + 1 < |w| ==> w[i].stop - w[i + 1].start == OVERLAP
    ensures i + 1 < |w| ==> w[i + 1].start >= w[i].start + 560 && w[i + 1].stop > w[i].stop
  {
  }

  /** Where a window ends: at the end of the text if that is within 1600 characters; otherwise at
      the last line break of its second half; otherwise after 1600 characters. */
  lemma WindowEnds(s: string, w: seq<Window>, i: nat)
    requires Chain(s, w) && i < |w|
    ensures var start, stop := w[i].start, w[i].stop;
      && (start + 1600 >= |s| ==> stop == |s|)
      && (start + 1600 < |s| && (exists q :: start + 800 <= q < start + 1600 && s[q] == '\n') ==>
            start + 800 <= stop < start + 1600 && s[stop] == '\n' && forall q :: stop < q < start + 1600 ==> s[q] != '\n')
      && (start + 1600 < |s| && (forall q :: start + 800 <= q < start + 1600 ==> s[q] != '\n') ==> stop == start + 1600)
  {
    assert w[i].stop == Stop(s, w[i].start);
  }

  /** Every character lies in a window. */
  lemma {:induction false} WindowsCover(s: string, w: seq<Window>, p: nat)
    requires Chain(s, w) && w != [] && w[0].start == 0 && p < w[|w| - 1].stop
    ensures exists i :: 0 <= i < |w| && w[i].start <= p < w[i].stop
  {
    var n := |w| - 1;
    if w[n].start <= p {
      assert w[n].start <= p < w[n].stop;
    } else {
      ChainInit(s, w);
      hide *;
      WindowsCover(s, w[..n], p);
      var i :| 0 <= i < n && w[..n][i].start <= p < w[..n][i].stop;
      assert w[i].start <= p < w[i].stop;
    }
  }

  /** Windows overlap, so the chain without its last window reaches into that window. */
  lemma ChainInit(s: string, w: seq<Window>)
    requires Chain(s, w) && w != [] && w[0].start == 0 && w[|w| - 1].start > 0
    ensures |w| > 1 && Chain(s, w[..|w| - 1])
    ensures w[..|w| - 1][0].start == 0 && w[|w| - 1].start < w[|w| - 2].stop && w[..|w| - 1][|w| - 2] == w[|w| - 2]
  {
    hide Stop;
  }

  lemma {:induction false} Advance(s: string, w: seq<Window>)
    requires Chain(s, w) && w != [] && w[0].start == 0
    ensures w[|w| - 1].start >= 560 * (|w| - 1)
  {
    if |w| > 1 {
      Advance(s, w[..|w| - 1]);
      WindowShape(s, w, |w| - 2);
    }
  }

  /** The number of windows, and so of chunks, is linear in the text. */
  lemma WindowCount(s: string, w: seq<Window>)
    requires Tiling(s, w)
    ensures |w| <= (|s| - 1) / 560 + 1
    ensures |Pieces(s, w)| <= |w|
  {
    Advance(s, w);
    WindowShape(s, w, |w| - 1);
    PiecesCount(s, w);
  }

  lemma {:induction false} PiecesCount(s: string, w: seq<Window>)
    requires Within(s, w)
    ensures |Pieces(s, w)| <= |w|
  {
    if w != [] {
      PiecesCount(s, w[..|w| - 1]);
    }
  }

  /** The first window, then every other one without its first 240 characters. */
  function Rebuild(s: string, w: seq<Window>): string
    requires Chain(s, w)
  {
    if w == [] then []
    else
      var text := Text(s, w[|w| - 1]);
      if |w| == 1 then text
      else Rebuild(s, w[..|w| - 1]) + if |text| < OVERLAP then [] else text[OVERLAP..]
  }

  lemma {:induction false} RebuildPrefix(s: string, w: seq<Window>)
    requires Chain(s, w) && w != [] && w[0].start == 0
    ensures Rebuild(s, w) == s[..w[|w| - 1].stop]
  {
    if |w| > 1 {
      var before, last := w[..|w| - 1], w[|w| - 1];
      RebuildPrefix(s, before);
      WindowShape(s, w, |w| - 2);
      hide Stop, Rebuild;
      RebuildStep(s, w);
      Glue(s, before[|before| - 1].stop, last.start, last.stop);
    }
  }

  lemma RebuildStep(s: string, w: seq<Window>)
    requires Chain(s, w) && |w| > 1
    ensures Rebuild(s, w) == Rebuild(s, w[..|w| - 1])
      + if |Text(s, w[|w| - 1])| < OVERLAP then [] else Text(s, w[|w| - 1])[OVERLAP..]
  {
    hide Stop;
  }

  lemma Glue(s: string, mid: nat, start: nat, stop: nat)
    requires start + OVERLAP == mid <= stop <= |s|
    ensures s[..mid] + s[start..stop][OVERLAP..] == s[..stop] && |s[start..stop]| >= OVERLAP
  {
  }

  /** Dropping the overlaps gives the normalized text back. */
  lemma WindowsRebuild(s: string, w: seq<Window>)
    requires Tiling(s, w)
    ensures Rebuild(s, w) == s
  {
    RebuildPrefix(s, w);
    assert s[..|s|] == s;
  }

  lemma {:induction false} PieceOf(s: string, w: seq<Window>, i: nat)
    requires Chain(s, w) && i < |w| && !Blank(Text(s, w[i]))
    ensures Strip(Text(s, w[i])) in Pieces(s, w)
  {
    hide White;
    var left, right := StripKeeps(Text(s, w[i]));
    if i < |w| - 1 {
      PieceOf(s, w[..|w| - 1], i);
    }
  }

  /** Which windows the pieces come from: each is the stripped text of its window, in order, and
      only blank windows are left out. */
  ghost predicate TakenFrom(s: string, w: seq<Window>, pieces: seq<string>, at: seq<nat>)
    requires Within(s, w)
  {
    && |at| == |pieces|
    && (forall k :: 0 <= k < |at| ==> at[k] < |w| && pieces[k] == Strip(Text(s, w[at[k]])))
    && (forall j, k :: 0 <= j < k < |at| ==> at[j] < at[k])
    && (forall i: nat :: i < |w| ==> (i in at <==> Strip(Text(s, w[i])) != []))
  }

  lemma TakenNext(s: string, w: seq<Window>, pieces: seq<string>, at: seq<nat>, next: Window) returns (more: seq<nat>)
    requires Within(s, w + [next]) && Within(s, w) && TakenFrom(s, w, pieces, at) && next.start <= next.stop <= |s|
    ensures TakenFrom(s, w + [next], pieces + Piece(Strip(Text(s, next))), more)
  {
    hide Strip, Text;
    var all, piece := w + [next], Strip(Text(s, next));
    assert all[|w|] == next && forall i :: 0 <= i < |w| ==> all[i] == w[i];
    more := at;
    if piece != [] {
      more := at + [|w|];
      forall i: nat | i < |all|
        ensures i in more <==> Strip(Text(s, all[i])) != []
      {
        assert more[|at|] == |w|;
        assert i in more <==> i in at || i == |w|;
      }
    }
  }

  /** The pieces are the stripped windows that are not blank, in the order of the windows. */
  lemma {:induction false} PiecesInOrder(s: string, w: seq<Window>) returns (at: seq<nat>)
    requires Within(s, w)
    ensures TakenFrom(s, w, Pieces(s, w), at)
    decreases |w|
  {
    if w == [] {
      at := [];
    } else {
      hide *;
      var init, last := Split(s, w);
      var before := PiecesInOrder(s, init);
      PiecesNext(s, init, last);
      at := TakenNext(s, init, Pieces(s, init), before, last);
    }
  }

  lemma Split(s: string, w: seq<Window>) returns (init: seq<Window>, last: Window)
    requires w != [] && Within(s, w)
    ensures w == init + [last] && |init| < |w| && Within(s, init) && last.start <= last.stop <= |s|
  {
    init, last := w[..|w| - 1], w[|w| - 1];
  }

  lemma {:induction false} PiecesFrom(s: string, w: seq<Window>, piece: string)
    requires Chain(s, w) && piece in Pieces(s, w)
    ensures exists i :: 0 <= i < |w| && piece == Strip(Text(s, w[i])) && piece != []
  {
    hide Stop, Strip;
    if piece in Pieces(s, w[..|w| - 1]) {
      PiecesFrom(s, w[..|w| - 1], piece);
      var i :| 0 <= i < |w| - 1 && piece == Strip(Text(s, w[..|w| - 1][i]));
      assert piece == Strip(Text(s, w[i]));
    }
  }

  lemma NotBlankAt(s: string, i: nat)
    requires i < |s| && !White(s[i])
    ensures !Blank(s)
  {
  }

  lemma VisibleInChunk(s: string, w: seq<Window>, p: nat)
    requires Tiling(s, w) && p < |s| && !White(s[p])
    ensures exists i :: 0 <= i < |w| && w[i].start <= p < w[i].stop && Strip(Text(s, w[i])) in Pieces(s, w)
  {
    hide White, Stop, Pieces, Strip, Blank;
    WindowsCover(s, w, p);
    var i :| 0 <= i < |w| && w[i].start <= p < w[i].stop;
    WindowShape(s, w, i);
    NotBlankAt(Text(s, w[i]), p - w[i].start);
    PieceOf(s, w, i);
  }

  lemma ChunkVisible(s: string, w: seq<Window>, c: string)
    requires Chain(s, w) && c in Pieces(s, w)
    ensures !Blank(c) && |c| <= CHUNK && !Blank(s)
  {
    hide White, Stop, Pieces, Strip;
    PiecesFrom(s, w, c);
    var i :| 0 <= i < |w| && c == Strip(Text(s, w[i])) && c != [];
    var left, right := StripKeeps(Text(s, w[i]));
    WindowShape(s, w, i);
    assert Text(s, w[i])[left] == c[0] && s[w[i].start + left] == Text(s, w[i])[left];
  }

  /** There are chunks exactly when the text is not blank, no chunk is blank or longer than
      1600, and every visible character of the text is in a chunk. */
  lemma ChunksMeanText(s: string, w: seq<Window>)
    requires Tiling(s, w)
    ensures Pieces(s, w) == [] <==> Blank(s)
    ensures forall c :: c in Pieces(s, w) ==> !Blank(c) && |c| <= CHUNK
    ensures forall p :: 0 <= p < |s| && !White(s[p]) ==>
      exists i :: 0 <= i < |w| && w[i].start <= p < w[i].stop && Strip(Text(s, w[i])) in Pieces(s, w)
  {
    hide White, Stop, Pieces, Strip;
    forall p | 0 <= p < |s| && !White(s[p])
      ensures exists i :: 0 <= i < |w| && w[i].start <= p < w[i].stop && Strip(Text(s, w[i])) in Pieces(s, w)
    {
      VisibleInChunk(s, w, p);
    }
    forall c | c in Pieces(s, w)
      ensures !Blank(c) && |c| <= CHUNK && !Blank(s)
    {
      ChunkVisible(s, w, c);
    }
    if Pieces(s, w) != [] {
      assert Pieces(s, w)[0] in Pieces(s, w);
    }
  }
}
