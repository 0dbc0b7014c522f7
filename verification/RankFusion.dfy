/** Reciprocal rank fusion of two ranked lists of paths, with exact scores. */
module RankFusion {
  import opened Finite

  type Path = string

  // ---------------------------------------------------------------- scores

  /** What a channel adds to a path: 1/(k+rank) for every rank it occupies. */
  function ChannelScore(channel: seq<Path>, p: Path, k: nat): real
  {
    if channel == [] then 0.0
    else
      ChannelScore(channel[..|channel| - 1], p, k)
      + if channel[|channel| - 1] == p then 1.0 / (k + |channel|) as real else 0.0
  }

  function Score(dense: seq<Path>, lexical: seq<Path>, p: Path, k: nat): real
  {
    ChannelScore(dense, p, k) + ChannelScore(lexical, p, k)
  }

  /** A path found once in a channel scores by that rank alone, one not found scores nothing. */
  lemma {:induction false} ChannelScoreAt(channel: seq<Path>, p: Path, k: nat)
    requires Distinct(channel)
    ensures p !in channel ==> ChannelScore(channel, p, k) == 0.0
    ensures forall i :: 0 <= i < |channel| && channel[i] == p ==> ChannelScore(channel, p, k) == 1.0 / (k + i + 1) as real
  {
    if channel != [] {
      var before := channel[..|channel| - 1];
      ChannelScoreAt(before, p, k);
      assert channel == before + [channel[|channel| - 1]];
    }
  }

  // ---------------------------------------------------------------- the order of paths

  predicate Less(a: Path, b: Path)
  {
    b != [] && (a == [] || a[0] < b[0] || (a[0] == b[0] && Less(a[1..], b[1..])))
  }

  lemma {:induction false} LessIrreflexive(a: Path)
    ensures !Less(a, a)
  {
    if a != [] {
      LessIrreflexive(a[1..]);
    }
  }

  lemma {:induction false} LessTotal(a: Path, b: Path)
    ensures a == b || Less(a, b) || Less(b, a)
    ensures !(Less(a, b) && Less(b, a)) && !Less(a, a)
    decreases |a| + |b|
  {
    LessIrreflexive(a);
    if a != [] && b != [] && a[0] == b[0] {
      LessTotal(a[1..], b[1..]);
      assert a == [a[0]] + a[1..] && b == [b[0]] + b[1..];
    }
  }

  lemma {:induction false} LessTransitive(a: Path, b: Path, c: Path)
    requires Less(a, b) && Less(b, c)
    ensures Less(a, c)
  {
    if a != [] && a[0] == b[0] == c[0] {
      LessTransitive(a[1..], b[1..], c[1..]);
    }
  }

  /** At the first place they part, the smaller one has ended or has the smaller character. */
  ghost predicate PartsAt(a: Path, b: Path, n: int)
  {
    && 0 <= n <= |a| && n < |b| && a[..n] == b[..n]
    && (n == |a| || a[n] < b[n])
  }

  lemma {:induction false} LessMeans(a: Path, b: Path)
    ensures Less(a, b) <==> exists n :: PartsAt(a, b, n)
  {
    if a != [] && b != [] && a[0] == b[0] {
      LessMeans(a[1..], b[1..]);
      forall n | PartsAt(a, b, n)
        ensures PartsAt(a[1..], b[1..], n - 1)
      {
        assert a[1..][..n - 1] == a[..n][1..] && b[1..][..n - 1] == b[..n][1..];
      }
      forall n | PartsAt(a[1..], b[1..], n)
        ensures PartsAt(a, b, n + 1)
      {
        assert a[..n + 1] == [a[0]] + a[1..][..n] && b[..n + 1] == [b[0]] + b[1..][..n];
      }
    } else if Less(a, b) {
      assert PartsAt(a, b, 0);
    } else {
      forall n | PartsAt(a, b, n)
        ensures n == 0
      {
        SameStart(a, b, n);
      }
    }
  }

  lemma SameStart(a: Path, b: Path, n: int)
    requires PartsAt(a, b, n)
    ensures n > 0 ==> a[0] == b[0]
  {
    if n > 0 {
      assert a[0] == a[..n][0] && b[0] == b[..n][0];
    }
  }

  datatype Entry = Entry(path: Path, score: real)

  /** The sort key (-score, path). */
  predicate Ahead(a: Entry, b: Entry)
  {
    a.score > b.score || (a.score == b.score && Less(a.path, b.path))
  }

  ghost predicate Ranked(s: seq<Entry>)
  {
    forall i, j :: 0 <= i < j < |s| ==> Ahead(s[i], s[j])
  }

  lemma AheadTransitive(a: Entry, b: Entry, c: Entry)
    requires Ahead(a, b) && Ahead(b, c)
    ensures Ahead(a, c)
  {
    if a.score == b.score == c.score {
      LessTransitive(a.path, b.path, c.path);
    }
  }

  lemma AheadTotal(a: Entry, b: Entry)
    ensures a == b || Ahead(a, b) || Ahead(b, a)
    ensures !(Ahead(a, b) && Ahead(b, a)) && !Ahead(a, a)
  {
    LessTotal(a.path, b.path);
    LessTotal(a.path, a.path);
  }

  lemma SameEmpty(s: seq<Entry>, t: seq<Entry>)
    requires forall e :: e in s <==> e in t
    ensures s == [] <==> t == []
  {
    if s != [] {
      assert s[0] in s;
      assert s[0] in t;
    }
    if t != [] {
      assert t[0] in t;
      assert t[0] in s;
    }
  }

  /** There is only one ranking of a set of entries. */
  lemma {:induction false} RankingUnique(s: seq<Entry>, t: seq<Entry>)
    requires Ranked(s) && Ranked(t) && forall e :: e in s <==> e in t
    ensures s == t
  {
    SameEmpty(s, t);
    if s != [] {
      assert s[0] in t && t != [] && t[0] in s;
      FirstOfRanked(s, t[0]);
      FirstOfRanked(t, s[0]);
      AheadTotal(s[0], t[0]);
      TailOfRanked(s);
      TailOfRanked(t);
      RankingUnique(s[1..], t[1..]);
      assert s == [s[0]] + s[1..] && t == [t[0]] + t[1..];
    }
  }

  lemma FirstOfRanked(s: seq<Entry>, e: Entry)
    requires Ranked(s) && e in s
    ensures e == s[0] || Ahead(s[0], e)
  {
  }

  lemma TailOfRanked(s: seq<Entry>)
    requires Ranked(s) && s != []
    ensures Ranked(s[1..]) && forall e :: e in s[1..] <==> e in s && e != s[0]
  {
    forall e | e in s[1..]
      ensures e in s && e != s[0]
    {
      AheadTotal(s[0], s[0]);
    }
    assert s == [s[0]] + s[1..];
  }

  // ---------------------------------------------------------------- the computation

  /** What one more rank adds. */
  lemma NextScore(channel: seq<Path>, i: nat, k: nat)
    requires i < |channel|
    ensures forall p :: ChannelScore(channel[..i + 1], p, k)
                     == ChannelScore(channel[..i], p, k) + if channel[i] == p then 1.0 / (k + (i + 1)) as real else 0.0
    ensures forall p :: p in channel[..i + 1] <==> p in channel[..i] || p == channel[i]
  {
    assert channel[..i + 1][..i] == channel[..i] && channel[..i + 1] == channel[..i] + [channel[i]];
  }

  method AddChannel(channel: seq<Path>, k: nat, scores0: map<Path, real>) returns (scores: map<Path, real>)
    ensures forall p :: p in scores <==> p in scores0 || p in channel
    ensures forall p :: p in scores ==>
      scores[p] == (if p in scores0 then scores0[p] else 0.0) + ChannelScore(channel, p, k)
  {
    scores := scores0;
    Absent(channel[..0], k);
    for i := 0 to |channel|
      invariant forall p :: p in scores <==> p in scores0 || p in channel[..i]
      invariant forall p :: p in scores ==>
        scores[p] == (if p in scores0 then scores0[p] else 0.0) + ChannelScore(channel[..i], p, k)
    {
      hide ChannelScore;
      var path := channel[i];
      NextScore(channel, i, k);
      Absent(channel[..i], k);
      scores := scores[path := (if path in scores then scores[path] else 0.0) + 1.0 / (k + (i + 1)) as real];
    }
    assert channel[..|channel|] == channel;
  }

  /** One entry into a ranking, before the entries it is ahead of. */
  function Placed(s: seq<Entry>, e: Entry): seq<Entry>
  {
    if s != [] && Ahead(e, s[|s| - 1]) then Placed(s[..|s| - 1], e) + [s[|s| - 1]] else s + [e]
  }

  lemma {:induction false} PlacedRanked(s: seq<Entry>, e: Entry)
    requires Ranked(s) && e !in s
    ensures Ranked(Placed(s, e)) && forall x :: x in Placed(s, e) <==> x in s || x == e
  {
    if s != [] {
      var init, last := s[..|s| - 1], s[|s| - 1];
      assert s == init + [last];
      PlacedRanked(init, e);
      AheadTotal(last, e);
      hide Ahead;
      forall i | 0 <= i < |init|
        ensures Ahead(last, e) ==> Ahead(s[i], e)
      {
        if Ahead(last, e) {
          AheadTransitive(s[i], last, e);
        }
      }
      forall x | x in init
        ensures Ahead(x, last)
      {
      }
    }
  }

  method Insert(s: seq<Entry>, e: Entry) returns (t: seq<Entry>)
    ensures t == Placed(s, e)
  {
    var i := |s|;
    assert s[..i] == s && s[i..] == [];
    while i > 0 && Ahead(e, s[i - 1])
      invariant 0 <= i <= |s|
      invariant Placed(s, e) == Placed(s[..i], e) + s[i..]
    {
      assert s[..i][..i - 1] == s[..i - 1] && s[i - 1..] == [s[i - 1]] + s[i..];
      i := i - 1;
    }
    t := s[..i] + [e] + s[i..];
  }

  method Sorted(scores: map<Path, real>) returns (s: seq<Entry>)
    ensures Ranked(s)
    ensures forall e :: e in s <==> e.path in scores && e.score == scores[e.path]
  {
    s := [];
    var left := scores.Keys;
    while left != {}
      invariant left <= scores.Keys && Ranked(s)
      invariant forall e :: e in s <==> e.path in scores && e.path !in left && e.score == scores[e.path]
      decreases |left|
    {
      var p :| p in left;
      PlacedRanked(s, Entry(p, scores[p]));
      s := Insert(s, Entry(p, scores[p]));
      left := left - {p};
    }
  }

  /** All paths of both channels, by score and then by name. */
  ghost predicate Ranking(dense: seq<Path>, lexical: seq<Path>, k: nat, s: seq<Entry>)
  {
    Ranked(s) && forall e :: e in s <==> (e.path in dense || e.path in lexical) && e.score == Score(dense, lexical, e.path, k)
  }

  function Paths(s: seq<Entry>): seq<Path>
  {
    seq(|s|, i requires 0 <= i < |s| => s[i].path)
  }

  method Fuse(dense: seq<Path>, lexical: seq<Path>, limit: nat, k: nat) returns (paths: seq<Path>)
    ensures forall s :: Ranking(dense, lexical, k, s) ==> paths == Cut(Paths(s), limit)
    ensures forall s :: Ranking(dense, lexical, k, s) ==> |paths| == (if limit < |s| then limit else |s|)
    ensures forall s: seq<Entry>, i :: Ranking(dense, lexical, k, s) && 0 <= i < |paths| ==> paths[i] == s[i].path
  {
    var scores := AddChannel(dense, k, map[]);
    scores := AddChannel(lexical, k, scores);
    Absent(dense, k);
    var ranking := Sorted(scores);
    assert Ranking(dense, lexical, k, ranking);
    paths := [];
    var n := if limit < |ranking| then limit else |ranking|;
    for i := 0 to n
      invariant paths == Paths(ranking)[..i]
    {
      paths := paths + [ranking[i].path];
    }
    forall s | Ranking(dense, lexical, k, s)
      ensures s == ranking
    {
      RankingUnique(s, ranking);
    }
  }

  function Cut(paths: seq<Path>, limit: nat): seq<Path>
  {
    if limit < |paths| then paths[..limit] else paths
  }

  lemma {:induction false} Absent(channel: seq<Path>, k: nat)
    ensures forall p :: p !in channel ==> ChannelScore(channel, p, k) == 0.0
  {
    if channel != [] {
      Absent(channel[..|channel| - 1], k);
    }
  }

  // ---------------------------------------------------------------- what fusion promises

  /** No path twice, at any cut, duplicates in the channels or not. */
  lemma FusionDistinct(dense: seq<Path>, lexical: seq<Path>, k: nat, s: seq<Entry>)
    requires Ranking(dense, lexical, k, s)
    ensures Distinct(Paths(s))
    ensures forall p :: p in Paths(s) <==> p in dense || p in lexical
  {
    forall i, j | 0 <= i < j < |s|
      ensures s[i].path != s[j].path
    {
      AheadTotal(s[i], s[j]);
      assert s[i] in s && s[j] in s;
    }
    forall p
      ensures p in Paths(s) <==> p in dense || p in lexical
    {
      var e := Entry(p, Score(dense, lexical, p, k));
      if p in dense || p in lexical {
        assert e in s;
        var i :| 0 <= i < |s| && s[i] == e;
        assert Paths(s)[i] == p;
      }
      if p in Paths(s) {
        var i :| 0 <= i < |s| && Paths(s)[i] == p;
        assert s[i] in s;
      }
    }
  }

  /** The ranking does not depend on which channel comes first, nor on anything but the
      channels. */
  lemma FusionSymmetric(dense: seq<Path>, lexical: seq<Path>, k: nat, s: seq<Entry>, t: seq<Entry>)
    requires Ranking(dense, lexical, k, s) && (Ranking(lexical, dense, k, t) || Ranking(dense, lexical, k, t))
    ensures s == t
  {
    RankingUnique(s, t);
  }

  /** Every path in both channels comes before every path in only one. */
  ghost predicate AgreementFirst(dense: seq<Path>, lexical: seq<Path>, s: seq<Entry>)
  {
    forall i, j :: 0 <= i < |s| && 0 <= j < |s| && InBoth(dense, lexical, s[i].path) && !InBoth(dense, lexical, s[j].path)
      ==> i < j
  }

  predicate InBoth(dense: seq<Path>, lexical: seq<Path>, p: Path)
  {
    p in dense && p in lexical
  }

  lemma Reciprocal(a: nat, b: nat)
    requires 0 < a <= b
    ensures 1.0 / a as real >= 1.0 / b as real > 0.0
  {
    var x, y := a as real, b as real;
    assert 1.0 / x - 1.0 / y == (y - x) / (x * y);
    assert x * y > 0.0;
  }

  lemma BothScore(dense: seq<Path>, lexical: seq<Path>, k: nat, p: Path, longest: nat)
    requires Distinct(dense) && Distinct(lexical) && p in dense && p in lexical
    requires |dense| <= longest && |lexical| <= longest
    ensures Score(dense, lexical, p, k) >= 2.0 / (k + longest) as real
  {
    hide ChannelScore;
    var i :| 0 <= i < |dense| && dense[i] == p;
    var j :| 0 <= j < |lexical| && lexical[j] == p;
    ChannelScoreAt(dense, p, k);
    ChannelScoreAt(lexical, p, k);
    TwoReciprocals(k + i + 1, k + j + 1, k + longest);
  }

  lemma TwoReciprocals(a: nat, b: nat, c: nat)
    requires 0 < a <= c && 0 < b <= c
    ensures 1.0 / a as real + 1.0 / b as real >= 2.0 / c as real
  {
    Reciprocal(a, c);
    Reciprocal(b, c);
    assert 2.0 / c as real == 1.0 / c as real + 1.0 / c as real;
  }

  lemma SingleScore(dense: seq<Path>, lexical: seq<Path>, k: nat, p: Path)
    requires Distinct(dense) && Distinct(lexical) && !(p in dense && p in lexical)
    ensures Score(dense, lexical, p, k) <= 1.0 / (k + 1) as real
  {
    ChannelScoreAt(dense, p, k);
    ChannelScoreAt(lexical, p, k);
    Reciprocal(k + 1, k + 1);
    if i :| 0 <= i < |dense| && dense[i] == p {
      Reciprocal(k + 1, k + i + 1);
    }
    if j :| 0 <= j < |lexical| && lexical[j] == p {
      Reciprocal(k + 1, k + j + 1);
    }
  }

  lemma TwoLateBeatOneEarly(k: nat, longest: nat)
    requires 1 <= longest <= k + 1
    ensures 2.0 / (k + longest) as real > 1.0 / (k + 1) as real
  {
    var x, y := (k + longest) as real, (k + 1) as real;
    assert 2.0 * y > x;
    assert 2.0 / x - 1.0 / y == (2.0 * y - x) / (x * y);
    assert x * y > 0.0;
  }

  lemma AgreementWins(dense: seq<Path>, lexical: seq<Path>, k: nat, s: seq<Entry>)
    requires Distinct(dense) && Distinct(lexical) && |dense| <= k + 1 && |lexical| <= k + 1
    requires Ranking(dense, lexical, k, s)
    ensures AgreementFirst(dense, lexical, s)
  {
    forall i, j | 0 <= i < |s| && 0 <= j < |s| && InBoth(dense, lexical, s[i].path) && !InBoth(dense, lexical, s[j].path)
      ensures i < j
    {
      assert s[i] in s && s[j] in s;
      var longest := if |dense| < |lexical| then |lexical| else |dense|;
      BothScore(dense, lexical, k, s[i].path, longest);
      SingleScore(dense, lexical, k, s[j].path);
      TwoLateBeatOneEarly(k, longest);
    }
  }

  /** Cutting the ranking anywhere never keeps a path of one channel and drops one of both. */
  lemma CutKeepsAgreement(dense: seq<Path>, lexical: seq<Path>, k: nat, s: seq<Entry>, limit: nat, p: Path, q: Path)
    requires Distinct(dense) && Distinct(lexical) && |dense| <= k + 1 && |lexical| <= k + 1
    requires Ranking(dense, lexical, k, s)
    requires InBoth(dense, lexical, p) && !InBoth(dense, lexical, q) && q in Cut(Paths(s), limit)
    ensures p in Cut(Paths(s), limit)
  {
    AgreementWins(dense, lexical, k, s);
    FusionDistinct(dense, lexical, k, s);
    var cut := Cut(Paths(s), limit);
    var j :| 0 <= j < |cut| && cut[j] == q;
    var i :| 0 <= i < |s| && Paths(s)[i] == p;
    assert Paths(s)[j] == q && i < j;
    assert cut[i] == p;
  }

  // ---------------------------------------------------------------- the bound is tight

  function Word(c: char, n: nat): Path
  {
    seq(n, _ => c)
  }

  lemma EmptyFirst(c: char, n: nat)
    requires n > 0
    ensures Less("", Word(c, n))
  {
  }

  function Climb(c: char, from: nat, n: nat): seq<Path>
  {
    seq(n, i requires 0 <= i < n => Word(c, from + i))
  }

  lemma ClimbDistinct(c: char, from: nat, n: nat)
    ensures Distinct(Climb(c, from, n))
    ensures forall p :: p in Climb(c, from, n) ==> from <= |p| < from + n && (p != [] ==> p[0] == c)
  {
    forall i, j | 0 <= i < j < n
      ensures Climb(c, from, n)[i] != Climb(c, from, n)[j]
    {
      assert |Word(c, from + i)| != |Word(c, from + j)|;
    }
    forall p | p in Climb(c, from, n)
      ensures from <= |p| < from + n && (p != [] ==> p[0] == c)
    {
      var i :| 0 <= i < n && Climb(c, from, n)[i] == p;
      assert p == Word(c, from + i);
    }
  }

  /** A path that comes first in one channel only. */
  function Early(k: nat): seq<Path>
  {
    Climb('a', 0, k + 2)
  }

  /** Shares only its last path with the other channel. */
  function Late(k: nat): seq<Path>
  {
    Climb('b', 1, k + 1) + [Word('a', k + 1)]
  }

  lemma EarlyLate(k: nat)
    ensures Distinct(Early(k)) && Distinct(Late(k)) && |Early(k)| == |Late(k)| == k + 2
    ensures Early(k)[0] == "" && "" !in Late(k)
    ensures Early(k)[k + 1] == Late(k)[k + 1] == Word('a', k + 1)
  {
    ClimbDistinct('a', 0, k + 2);
    ClimbDistinct('b', 1, k + 1);
    var p := Word('a', k + 1);
    assert p[0] == 'a' && p !in Climb('b', 1, k + 1);
    DistinctUnion(Climb('b', 1, k + 1), [p]);
    assert forall w :: w in Late(k) <==> w in Climb('b', 1, k + 1) || w == p;
    assert Word('a', 0) == "";
  }

  /** A path of a single channel ranked before one of both breaks the promise. */
  lemma Outranked(dense: seq<Path>, lexical: seq<Path>, k: nat, s: seq<Entry>, p: Path, q: Path)
    requires Ranking(dense, lexical, k, s) && InBoth(dense, lexical, p) && !InBoth(dense, lexical, q)
    requires q in dense || q in lexical
    requires Ahead(Entry(q, Score(dense, lexical, q, k)), Entry(p, Score(dense, lexical, p, k)))
    ensures !AgreementFirst(dense, lexical, s)
  {
    hide Score;
    var ep, eq := Entry(p, Score(dense, lexical, p, k)), Entry(q, Score(dense, lexical, q, k));
    assert ep in s && eq in s;
    var i :| 0 <= i < |s| && s[i] == ep;
    var j :| 0 <= j < |s| && s[j] == eq;
    AheadTotal(ep, eq);
    assert InBoth(dense, lexical, s[i].path) && !InBoth(dense, lexical, s[j].path);
  }

  /** One path more than k+1 and the promise fails: last in both channels only ties with
      first in one, and the tie goes to the name. */
  lemma OneTooMany(k: nat, s: seq<Entry>)
    requires Ranking(Early(k), Late(k), k, s)
    ensures !AgreementFirst(Early(k), Late(k), s)
  {
    var dense, lexical := Early(k), Late(k);
    EarlyLate(k);
    var p, q := Word('a', k + 1), "";
    ChannelScoreAt(dense, p, k);
    ChannelScoreAt(lexical, p, k);
    ChannelScoreAt(dense, q, k);
    ChannelScoreAt(lexical, q, k);
    var x := (k + 1) as real;
    assert (k + (k + 1) + 1) as real == 2.0 * x;
    assert Score(dense, lexical, p, k) == 1.0 / (2.0 * x) + 1.0 / (2.0 * x);
    Halves(x);
    assert Score(dense, lexical, q, k) == 1.0 / x;
    EmptyFirst('a', k + 1);
    assert dense[0] == q && dense[k + 1] == p && lexical[k + 1] == p;
    hide ChannelScore, AgreementFirst;
    Outranked(dense, lexical, k, s, p, q);
  }

  lemma Halves(x: real)
    requires x > 0.0
    ensures 1.0 / (2.0 * x) + 1.0 / (2.0 * x) == 1.0 / x
  {
  }

  /** The length that guarantees agreement: k+1, and not one more. */
  lemma AgreementBound(k: nat, longest: nat)
    ensures longest <= k + 1 <==>
      forall dense, lexical, s ::
        Distinct(dense) && Distinct(lexical) && |dense| <= longest && |lexical| <= longest && Ranking(dense, lexical, k, s)
        ==> AgreementFirst(dense, lexical, s)
  {
    if longest <= k + 1 {
      forall dense, lexical, s | Distinct(dense) && Distinct(lexical) && |dense| <= longest && |lexical| <= longest
                                 && Ranking(dense, lexical, k, s)
        ensures AgreementFirst(dense, lexical, s)
      {
        AgreementWins(dense, lexical, k, s);
      }
    } else {
      EarlyLate(k);
      var s := RankingExists(Early(k), Late(k), k);
      OneTooMany(k, s);
    }
  }

  /** Every pair of channels has a ranking. */
  lemma RankingExists(dense: seq<Path>, lexical: seq<Path>, k: nat) returns (s: seq<Entry>)
    ensures Ranking(dense, lexical, k, s)
  {
    var keys := set p | p in dense + lexical;
    s := RankingOf(dense, lexical, k, keys);
    assert forall p :: p in dense + lexical <==> p in dense || p in lexical;
  }

  lemma {:induction false} RankingOf(dense: seq<Path>, lexical: seq<Path>, k: nat, keys: set<Path>) returns (s: seq<Entry>)
    ensures Ranked(s) && forall e :: e in s <==> e.path in keys && e.score == Score(dense, lexical, e.path, k)
    decreases |keys|
  {
    if keys == {} {
      s := [];
    } else {
      var p :| p in keys;
      var rest := RankingOf(dense, lexical, k, keys - {p});
      PlacedRanked(rest, Entry(p, Score(dense, lexical, p, k)));
      s := Placed(rest, Entry(p, Score(dense, lexical, p, k)));
    }
  }

  /** Duplicates break the promise at any length from three: a path twice in one channel can
      outscore a path in both. */
  lemma DuplicatesBreakAgreement(k: nat, p: Path, q: Path, s: seq<Entry>)
    requires p != q && Ranking([q, q, p], [p], k, s)
    ensures !AgreementFirst([q, q, p], [p], s)
  {
    var dense, lexical := [q, q, p], [p];
    DuplicateScores(k, p, q);
    hide Score, AgreementFirst;
    Outranked(dense, lexical, k, s, p, q);
  }

  lemma DuplicateScores(k: nat, p: Path, q: Path)
    requires p != q
    ensures Score([q, q, p], [p], q, k) > Score([q, q, p], [p], p, k)
  {
    AppendScore([], q, q, k);
    AppendScore([q], q, q, k);
    AppendScore([q, q], p, q, k);
    AppendScore([], p, q, k);
    AppendScore([], q, p, k);
    AppendScore([q], q, p, k);
    AppendScore([q, q], p, p, k);
    AppendScore([], p, p, k);
    assert [] + [q] == [q] && [q] + [q] == [q, q] && [q, q] + [p] == [q, q, p] && [] + [p] == [p];
    var x, y := (k + 2) as real, (k + 3) as real;
    assert 1.0 / x - 1.0 / y == (y - x) / (x * y) && x * y > 0.0;
  }

  lemma AppendScore(channel: seq<Path>, last: Path, p: Path, k: nat)
    ensures ChannelScore(channel + [last], p, k)
         == ChannelScore(channel, p, k) + if last == p then 1.0 / (k + |channel| + 1) as real else 0.0
    ensures channel == [] ==> ChannelScore(channel, p, k) == 0.0
  {
    assert (channel + [last])[..|channel|] == channel;
  }

  // ---------------------------------------------------------------- duplicates, exactly

  function Count(channel: seq<Path>, p: Path): nat
  {
    if channel == [] then 0
    else Count(channel[..|channel| - 1], p) + if channel[|channel| - 1] == p then 1 else 0
  }

  /** No path more than `most` times. */
  ghost predicate AtMost(channel: seq<Path>, most: nat)
  {
    forall p :: Count(channel, p) <= most
  }

  /** What a path that holds the first n ranks of a channel scores there. */
  function Top(k: nat, n: nat): real
  {
    if n == 0 then 0.0 else Top(k, n - 1) + 1.0 / (k + n) as real
  }

  lemma {:induction false} TopGrows(k: nat, n: nat, m: nat)
    requires n <= m
    ensures Top(k, n) <= Top(k, m)
    decreases m
  {
    if n < m {
      TopGrows(k, n, m - 1);
      Reciprocal(k + m, k + m);
    }
  }

  lemma CountNext(channel: seq<Path>, last: Path, p: Path)
    ensures Count(channel + [last], p) == Count(channel, p) + if last == p then 1 else 0
  {
    assert (channel + [last])[..|channel|] == channel;
  }

  lemma {:induction false} CountWithin(channel: seq<Path>, p: Path, q: Path)
    ensures Count(channel, q) <= |channel| && (Count(channel, q) > 0 <==> q in channel)
    ensures p in channel && p != q ==> Count(channel, q) < |channel|
  {
    if channel != [] {
      CountWithin(channel[..|channel| - 1], p, q);
      assert channel == channel[..|channel| - 1] + [channel[|channel| - 1]];
    }
  }

  /** A path scores no more than if its occurrences held the first ranks. */
  lemma {:induction false} ScoreAtMost(channel: seq<Path>, p: Path, k: nat)
    ensures ChannelScore(channel, p, k) <= Top(k, Count(channel, p))
  {
    if channel != [] {
      ScoreAtMost(channel[..|channel| - 1], p, k);
      CountWithin(channel, p, p);
      if channel[|channel| - 1] == p {
        Reciprocal(k + Count(channel, p), k + |channel|);
      }
    }
  }

  /** A path that is there scores at least what the last rank gives. */
  lemma {:induction false} ScoreAtLeast(channel: seq<Path>, p: Path, k: nat)
    ensures ChannelScore(channel, p, k) >= 0.0
    ensures p in channel ==> ChannelScore(channel, p, k) >= 1.0 / (k + |channel|) as real
  {
    if channel != [] {
      var init := channel[..|channel| - 1];
      ScoreAtLeast(init, p, k);
      assert channel == init + [channel[|channel| - 1]];
      Reciprocal(k + |channel|, k + |channel|);
      if p in init {
        Reciprocal(k + |init|, k + |channel|);
      }
    }
  }

  predicate EnoughFor(k: nat, longest: nat, most: nat)
    requires longest >= 1
  {
    2.0 / (k + longest) as real > Top(k, if most < longest then most else longest - 1)
  }

  lemma AgreementOutscores(dense: seq<Path>, lexical: seq<Path>, k: nat, longest: nat, most: nat, p: Path, q: Path)
    requires 1 <= longest && |dense| <= longest && |lexical| <= longest && AtMost(dense, most) && AtMost(lexical, most)
    requires InBoth(dense, lexical, p) && !InBoth(dense, lexical, q) && EnoughFor(k, longest, most)
    ensures Score(dense, lexical, p, k) > Score(dense, lexical, q, k)
  {
    ScoreAtLeast(dense, p, k);
    ScoreAtLeast(lexical, p, k);
    TwoReciprocals(k + |dense|, k + |lexical|, k + longest);
    Alone(dense, p, q, k, longest, most);
    Alone(lexical, p, q, k, longest, most);
    hide ChannelScore, Top, Count;
  }

  lemma Alone(channel: seq<Path>, p: Path, q: Path, k: nat, longest: nat, most: nat)
    requires 1 <= longest && |channel| <= longest && AtMost(channel, most) && p in channel && p != q
    ensures ChannelScore(channel, q, k) <= Top(k, if most < longest then most else longest - 1)
    ensures q !in channel ==> ChannelScore(channel, q, k) == 0.0
  {
    Absent(channel, k);
    CountWithin(channel, p, q);
    ScoreAtMost(channel, q, k);
    TopGrows(k, Count(channel, q), if most < longest then most else longest - 1);
  }

  /** One path on the first `n` ranks, others up to the last rank, and there another. */
  function Crowd(q: Path, n: nat, others: nat, p: Path): seq<Path>
  {
    Repeat(q, n) + Climb('a', 1, others) + [p]
  }

  function Repeat(q: Path, n: nat): seq<Path>
  {
    if n == 0 then [] else Repeat(q, n - 1) + [q]
  }

  lemma {:induction false} RepeatScore(q: Path, n: nat, p: Path, k: nat)
    ensures |Repeat(q, n)| == n
    ensures ChannelScore(Repeat(q, n), q, k) == Top(k, n) && Count(Repeat(q, n), q) == n
    ensures p != q ==> ChannelScore(Repeat(q, n), p, k) == 0.0 && Count(Repeat(q, n), p) == 0
  {
    if n > 0 {
      RepeatScore(q, n - 1, p, k);
      AppendScore(Repeat(q, n - 1), q, q, k);
      AppendScore(Repeat(q, n - 1), q, p, k);
      CountNext(Repeat(q, n - 1), q, q);
      CountNext(Repeat(q, n - 1), q, p);
    }
  }

  lemma ClimbNext(n: nat)
    requires n > 0
    ensures Climb('a', 1, n) == Climb('a', 1, n - 1) + [Word('a', n)]
    ensures Word('a', n) != "" && Word('a', n) != "b"
  {
    assert Word('a', n)[0] == 'a';
  }

  /** The others score for nobody else, and each occurs once. */
  lemma {:induction false} ClimbScore(head: seq<Path>, n: nat, p: Path, k: nat)
    ensures p == "" || p == "b" ==>
      && ChannelScore(head + Climb('a', 1, n), p, k) == ChannelScore(head, p, k)
      && Count(head + Climb('a', 1, n), p) == Count(head, p)
    ensures Count(head + Climb('a', 1, n), p) <= Count(head, p) + if 1 <= |p| <= n && p[0] == 'a' then 1 else 0
  {
    if n == 0 {
      assert head + Climb('a', 1, 0) == head;
    } else {
      ClimbScore(head, n - 1, p, k);
      ClimbNext(n);
      var before := head + Climb('a', 1, n - 1);
      assert head + Climb('a', 1, n) == before + [Word('a', n)];
      AppendScore(before, Word('a', n), p, k);
      CountNext(before, Word('a', n), p);
    }
  }

  lemma CrowdScores(n: nat, others: nat, k: nat)
    ensures var crowd := Crowd("", n, others, "b");
      && |crowd| == n + others + 1 && crowd[|crowd| - 1] == "b" && (n > 0 ==> "" in crowd)
      && (n == 0 ==> "" !in crowd)
      && ChannelScore(crowd, "", k) == Top(k, n) && ChannelScore(crowd, "b", k) == 1.0 / (k + |crowd|) as real
  {
    var head := Repeat("", n);
    RepeatScore("", n, "b", k);
    var before := head + Climb('a', 1, others);
    ClimbScore(head, others, "", k);
    ClimbScore(head, others, "b", k);
    AppendScore(before, "b", "", k);
    AppendScore(before, "b", "b", k);
    CountNext(before, "b", "");
    CountWithin(Crowd("", n, others, "b"), "", "");
  }

  lemma CrowdCounts(n: nat, others: nat, most: nat)
    requires n <= most && 1 <= most
    ensures AtMost(Crowd("", n, others, "b"), most)
  {
    var head := Repeat("", n);
    var before := head + Climb('a', 1, others);
    forall p
      ensures Count(Crowd("", n, others, "b"), p) <= most
    {
      RepeatScore("", n, p, 0);
      ClimbScore(head, others, p, 0);
      CountNext(before, "b", p);
    }
  }

  /** Agreement comes first whatever the channels, up to a length and with no path more than
      so many times in one of them. */
  ghost predicate AlwaysFirst(k: nat, longest: nat, most: nat)
  {
    forall dense, lexical, s ::
      |dense| <= longest && |lexical| <= longest && AtMost(dense, most) && AtMost(lexical, most) && Ranking(dense, lexical, k, s)
      ==> AgreementFirst(dense, lexical, s)
  }

  /** Exactly if a path on the last rank of both channels outscores one that holds as many
      first ranks of a single channel as it can. */
  lemma DuplicateBound(k: nat, longest: nat, most: nat)
    requires 1 <= longest && 1 <= most
    ensures AlwaysFirst(k, longest, most) <==> EnoughFor(k, longest, most)
  {
    hide AtMost, EnoughFor, Ranking, AgreementFirst;
    if EnoughFor(k, longest, most) {
      forall dense, lexical, s | |dense| <= longest && |lexical| <= longest && AtMost(dense, most) && AtMost(lexical, most)
                                 && Ranking(dense, lexical, k, s)
        ensures AgreementFirst(dense, lexical, s)
      {
        OutscoresFirst(dense, lexical, k, longest, most, s);
      }
    } else {
      NotEnough(k, longest, most);
      var n := if most < longest then most else longest - 1;
      CrowdCounts(n, longest - 1 - n, most);
      CrowdCounts(0, longest - 1, most);
      CrowdScores(n, longest - 1 - n, k);
      CrowdScores(0, longest - 1, k);
      hide Crowd, ChannelScore, Top;
      var dense, lexical := Crowd("", n, longest - 1 - n, "b"), Crowd("", 0, longest - 1, "b");
      var s := RankingExists(dense, lexical, k);
      CrowdWins(k, longest, n, s);
    }
  }

  lemma NotEnough(k: nat, longest: nat, most: nat)
    requires 1 <= longest && 1 <= most && !EnoughFor(k, longest, most)
    ensures var n := if most < longest then most else longest - 1;
      1 <= n < longest && 2.0 / (k + longest) as real <= Top(k, n)
  {
    Reciprocal(k + longest, k + longest);
    assert 2.0 / (k + longest) as real == 1.0 / (k + longest) as real + 1.0 / (k + longest) as real;
  }

  lemma OutscoresFirst(dense: seq<Path>, lexical: seq<Path>, k: nat, longest: nat, most: nat, s: seq<Entry>)
    requires 1 <= longest && |dense| <= longest && |lexical| <= longest && AtMost(dense, most) && AtMost(lexical, most)
    requires Ranking(dense, lexical, k, s) && EnoughFor(k, longest, most)
    ensures AgreementFirst(dense, lexical, s)
  {
    hide AtMost, EnoughFor, Score;
    forall i, j | 0 <= i < |s| && 0 <= j < |s| && InBoth(dense, lexical, s[i].path) && !InBoth(dense, lexical, s[j].path)
      ensures i < j
    {
      assert s[i] in s && s[j] in s;
      AgreementOutscores(dense, lexical, k, longest, most, s[i].path, s[j].path);
    }
  }

  lemma CrowdOf(n: nat, longest: nat, k: nat)
    requires n < longest
    ensures var crowd := Crowd("", n, longest - 1 - n, "b");
      && "b" in crowd && ("" in crowd <==> n > 0)
      && ChannelScore(crowd, "", k) == Top(k, n) && ChannelScore(crowd, "b", k) == 1.0 / (k + longest) as real
  {
    CrowdScores(n, longest - 1 - n, k);
    hide Crowd, ChannelScore, Top;
    var crowd := Crowd("", n, longest - 1 - n, "b");
    assert k + |crowd| == k + longest;
  }

  /** Two crowds that share their last path. */
  lemma CrowdsMeet(k: nat, longest: nat, n: nat)
    requires 1 <= n < longest
    ensures var dense, lexical := Crowd("", n, longest - 1 - n, "b"), Crowd("", 0, longest - 1, "b");
      && Score(dense, lexical, "", k) == Top(k, n) && Score(dense, lexical, "b", k) == 2.0 / (k + longest) as real
      && "b" in dense && "b" in lexical && "" in dense && "" !in lexical
  {
    hide Crowd, ChannelScore, Top;
    CrowdOf(n, longest, k);
    CrowdOf(0, longest, k);
    TopNone(k);
    HalvesOf(k + longest);
  }

  lemma CrowdWins(k: nat, longest: nat, n: nat, s: seq<Entry>)
    requires 1 <= n < longest && 2.0 / (k + longest) as real <= Top(k, n)
    requires Ranking(Crowd("", n, longest - 1 - n, "b"), Crowd("", 0, longest - 1, "b"), k, s)
    ensures !AgreementFirst(Crowd("", n, longest - 1 - n, "b"), Crowd("", 0, longest - 1, "b"), s)
  {
    hide Crowd, Score, Top, Ranking, AgreementFirst;
    CrowdsMeet(k, longest, n);
    assert Less("", "b");
    Outranked(Crowd("", n, longest - 1 - n, "b"), Crowd("", 0, longest - 1, "b"), k, s, "b", "");
  }

  lemma TopNone(k: nat)
    ensures Top(k, 0) == 0.0
  {
  }

  lemma HalvesOf(n: nat)
    requires n > 0
    ensures 1.0 / n as real + 1.0 / n as real == 2.0 / n as real
  {
  }
}
