/** Bounded workflow annotations for failed tests: escaping, the budget, and the flush. */
module FailureAnnotations {
  import opened Decimals
  import opened Ledger

  type Byte = n: int | 0 <= n < 256

  const MAX_ANNOTATIONS: nat := 100
  const MAX_PAYLOAD: nat := 64 * 1024
  const SUMMARY_RESERVE: nat := 256
  const LIMIT: nat := 500
  const PHASE_LIMIT: nat := 32

  // ---------------------------------------------------------------- escaping

  function Cut(s: string, n: nat): (r: string)
    ensures r <= s && |r| == if n < |s| then n else |s|
  {
    if |s| <= n then s else s[..n]
  }

  function Replace(s: string, c: char, r: string): string
  {
    if s == [] then [] else (if s[0] == c then r else [s[0]]) + Replace(s[1..], c, r)
  }

  /** One replacement after the other, the percent sign first. */
  function Property(value: string): string
  {
    Replace(Replace(Replace(Replace(Replace(Cut(value, LIMIT),
      '%', "%25"), '\r', "%0D"), '\n', "%0A"), ':', "%3A"), ',', "%2C")
  }

  function EscapeChar(c: char): string
  {
    if c == '%' then "%25" else if c == '\r' then "%0D" else if c == '\n' then "%0A"
    else if c == ':' then "%3A" else if c == ',' then "%2C" else [c]
  }

  function Escape(s: string): string
  {
    if s == [] then [] else EscapeChar(s[0]) + Escape(s[1..])
  }

  lemma {:induction false} ReplaceSum(a: string, b: string, c: char, r: string)
    ensures Replace(a + b, c, r) == Replace(a, c, r) + Replace(b, c, r)
  {
    if a == [] {
      assert a + b == b;
    } else {
      ReplaceSum(a[1..], b, c, r);
      assert (a + b)[1..] == a[1..] + b && (a + b)[0] == a[0];
      var head := if a[0] == c then r else [a[0]];
      var tail, rest := Replace(a[1..], c, r), Replace(b, c, r);
      assert Replace(a, c, r) == head + tail && Replace(a + b, c, r) == head + (tail + rest);
      hide Replace;
      Regroup(head, tail, rest);
    }
  }

  lemma {:induction false} ReplaceAbsent(s: string, c: char, r: string)
    requires c !in s
    ensures Replace(s, c, r) == s
  {
    if s != [] {
      ReplaceAbsent(s[1..], c, r);
    }
  }

  function Chain(s: string): string
  {
    Replace(Replace(Replace(Replace(Replace(s, '%', "%25"), '\r', "%0D"), '\n', "%0A"), ':', "%3A"), ',', "%2C")
  }

  lemma ChainSum(a: string, b: string)
    ensures Chain(a + b) == Chain(a) + Chain(b)
  {
    var a1, b1 := Replace(a, '%', "%25"), Replace(b, '%', "%25");
    var a2, b2 := Replace(a1, '\r', "%0D"), Replace(b1, '\r', "%0D");
    var a3, b3 := Replace(a2, '\n', "%0A"), Replace(b2, '\n', "%0A");
    var a4, b4 := Replace(a3, ':', "%3A"), Replace(b3, ':', "%3A");
    ReplaceSum(a, b, '%', "%25");
    ReplaceSum(a1, b1, '\r', "%0D");
    ReplaceSum(a2, b2, '\n', "%0A");
    ReplaceSum(a3, b3, ':', "%3A");
    ReplaceSum(a4, b4, ',', "%2C");
  }

  function Single(c: char, d: char, r: string): string
  {
    if c == d then r else [c]
  }

  lemma ReplaceSingle(c: char, d: char, r: string)
    ensures Replace([c], d, r) == Single(c, d, r)
  {
    assert [c][1..] == [] && r + [] == r;
  }

  /** No later replacement touches what an earlier one wrote. */
  lemma ChainChar(c: char)
    ensures Chain([c]) == EscapeChar(c)
  {
    hide Replace;
    ReplaceSingle(c, '%', "%25");
    if c == '%' {
      ReplaceAbsent("%25", '\r', "%0D");
      ReplaceAbsent("%25", '\n', "%0A");
      ReplaceAbsent("%25", ':', "%3A");
      ReplaceAbsent("%25", ',', "%2C");
    } else {
      ReplaceSingle(c, '\r', "%0D");
      if c == '\r' {
        ReplaceAbsent("%0D", '\n', "%0A");
        ReplaceAbsent("%0D", ':', "%3A");
        ReplaceAbsent("%0D", ',', "%2C");
      } else {
        ReplaceSingle(c, '\n', "%0A");
        if c == '\n' {
          ReplaceAbsent("%0A", ':', "%3A");
          ReplaceAbsent("%0A", ',', "%2C");
        } else {
          ReplaceSingle(c, ':', "%3A");
          ReplaceSingle(c, ',', "%2C");
          if c == ':' {
            ReplaceAbsent("%3A", ',', "%2C");
          }
        }
      }
    }
  }

  /** The five replacements in sequence escape character by character. */
  lemma {:induction false} ChainEscapes(s: string)
    ensures Chain(s) == Escape(s)
  {
    if s != [] {
      assert s == [s[0]] + s[1..];
      ChainSum([s[0]], s[1..]);
      ChainChar(s[0]);
      ChainEscapes(s[1..]);
    }
  }

  /** What a reader of workflow commands does with a property value. */
  function Unescape(s: string): string
  {
    if s == [] then []
    else if |s| >= 3 && s[0] == '%' && Code(s[1], s[2]).Some? then [Code(s[1], s[2]).value] + Unescape(s[3..])
    else [s[0]] + Unescape(s[1..])
  }

  function Code(a: char, b: char): Option<char>
  {
    if a == '2' && b == '5' then Some('%') else if a == '0' && b == 'D' then Some('\r')
    else if a == '0' && b == 'A' then Some('\n') else if a == '3' && b == 'A' then Some(':')
    else if a == '2' && b == 'C' then Some(',') else None
  }

  lemma UnescapeFirst(c: char, rest: string)
    ensures Unescape(EscapeChar(c) + rest) == [c] + Unescape(rest)
  {
    var e := EscapeChar(c);
    var s := e + rest;
    assert s[0] == e[0];
    if |e| == 3 {
      assert s[1] == e[1] && s[2] == e[2] && s[3..] == rest;
    } else {
      assert s[1..] == rest;
    }
  }

  /** Escaping loses nothing. */
  lemma {:induction false} EscapeRoundTrip(s: string)
    ensures Unescape(Escape(s)) == s
  {
    if s != [] {
      EscapeRoundTrip(s[1..]);
      UnescapeFirst(s[0], Escape(s[1..]));
      hide EscapeChar, Unescape;
    }
  }

  /** It leaves no separator behind. */
  lemma {:induction false} EscapeSeparators(s: string)
    ensures ',' !in Escape(s) && ':' !in Escape(s) && '\n' !in Escape(s) && '\r' !in Escape(s)
  {
    if s != [] {
      EscapeSeparators(s[1..]);
    }
  }

  lemma PropertyRoundTrip(value: string)
    ensures Unescape(Property(value)) == Cut(value, LIMIT)
    ensures ',' !in Property(value) && '\n' !in Property(value)
  {
    ChainEscapes(Cut(value, LIMIT));
    EscapeRoundTrip(Cut(value, LIMIT));
    EscapeSeparators(Cut(value, LIMIT));
  }

  predicate Allowed(c: char)
  {
    'A' <= c <= 'Z' || 'a' <= c <= 'z' || '0' <= c <= '9' || c in "_./:[](), =+-"
  }

  function Safe(value: string, limit: nat): string
  {
    Cut(Masked(value), limit)
  }

  function Masked(s: string): (r: string)
    ensures |r| == |s|
  {
    seq(|s|, i requires 0 <= i < |s| => if s[i] == '\r' || s[i] == '\n' then ' ' else if Allowed(s[i]) then s[i] else '?')
  }

  lemma SafeChars(value: string, limit: nat)
    ensures forall c :: c in Safe(value, limit) ==> Allowed(c) || c == '?'
    ensures '\n' !in Safe(value, limit)
    ensures |Safe(value, limit)| == if limit < |value| then limit else |value|
    ensures forall i :: 0 <= i < |Safe(value, limit)| && Allowed(value[i]) ==> Safe(value, limit)[i] == value[i]
    ensures forall i :: 0 <= i < |Safe(value, limit)| && value[i] in "\r\n" ==> Safe(value, limit)[i] == ' '
    ensures forall i :: 0 <= i < |Safe(value, limit)| && value[i] !in "\r\n" && !Allowed(value[i]) ==> Safe(value, limit)[i] == '?'
  {
    assert Allowed(' ') by {
      assert "_./:[](), =+-"[9] == ' ';
    }
    NewlineForbidden();
    forall c | c in Safe(value, limit)
      ensures Allowed(c) || c == '?'
    {
      var i :| 0 <= i < |Safe(value, limit)| && Safe(value, limit)[i] == c;
    }
  }

  lemma NewlineForbidden()
    ensures !Allowed('\n') && !Allowed('\r')
  {
  }

  // ---------------------------------------------------------------- commands

  datatype Place = Place(path: string, line: nat)

  function ErrorWord(): string { "::error" }
  function FileWord(): string { " file=" }
  function LineWord(): string { ",line=" }
  function TitleWord(): string { "title=pytest failure::" }

  function Metadata(place: Option<Place>): string
  {
    match place
    case None => " "
    case Some(p) => FileWord() + (Property(p.path) + (LineWord() + (Decimal(p.line) + ",")))
  }

  function Title(nodeid: string, phase: string): string
  {
    TitleWord() + (Safe(nodeid, LIMIT) + (" [" + (Safe(phase, PHASE_LIMIT) + "]")))
  }

  function Command(nodeid: string, phase: string, place: Option<Place>): string
  {
    ErrorWord() + (Metadata(place) + (Title(nodeid, phase) + "\n"))
  }

  lemma MetadataLine(place: Option<Place>)
    ensures '\n' !in Metadata(place)
  {
    if place.Some? {
      PropertyRoundTrip(place.value.path);
      DecimalRoundTrip(place.value.line);
      assert !IsDigit('\n');
    }
  }

  lemma TitleLine(nodeid: string, phase: string)
    ensures '\n' !in Title(nodeid, phase)
  {
    SafeChars(nodeid, LIMIT);
    SafeChars(phase, PHASE_LIMIT);
    hide Safe;
  }

  /** Every command is one line, whatever the test is called. */
  lemma CommandIsLine(nodeid: string, phase: string, place: Option<Place>)
    ensures var c := Command(nodeid, phase, place);
      |c| > 0 && c[|c| - 1] == '\n' && '\n' !in c[..|c| - 1]
  {
    MetadataLine(place);
    TitleLine(nodeid, phase);
    hide Metadata, Title;
    var c := Command(nodeid, phase, place);
    var body := ErrorWord() + (Metadata(place) + Title(nodeid, phase));
    assert '\n' !in ErrorWord();
    hide ErrorWord;
    assert c == body + "\n";
    assert c[..|c| - 1] == body;
  }

  /** Up to the first occurrence of a character. */
  function Before(s: string, c: char): (r: string)
    ensures r <= s
  {
    if s == [] || s[0] == c then [] else [s[0]] + Before(s[1..], c)
  }

  lemma {:induction false} BeforeFirst(a: string, c: char, b: string)
    requires c !in a && b != [] && b[0] == c
    ensures Before(a + b, c) == a
  {
    if a == [] {
      assert a + b == b;
    } else {
      BeforeFirst(a[1..], c, b);
      assert (a + b)[1..] == a[1..] + b;
    }
  }

  function After(s: string, prefix: string): Option<string>
  {
    if prefix <= s then Some(s[|prefix|..]) else None
  }

  lemma AfterSum(a: string, b: string)
    ensures After(a + b, a) == Some(b)
  {
    assert (a + b)[|a|..] == b;
  }

  /** Reading file and line back from a command. */
  function ParsePlace(command: string): Option<Place>
  {
    match After(command, ErrorWord())
    case None => None
    case Some(metadata) =>
      match After(metadata, FileWord())
      case None => None
      case Some(rest) =>
        var file := Before(rest, ',');
        match After(rest[|file|..], LineWord())
        case None => None
        case Some(end) =>
          var digits := Before(end, ',');
          if digits != [] && forall c :: c in digits ==> IsDigit(c) then Some(Place(Unescape(file), Value(digits))) else None
  }

  lemma Regroup(a: string, b: string, c: string)
    ensures (a + b) + c == a + (b + c)
  {
  }

  /** The metadata in front of any rest, nested to the right. */
  lemma MetadataFirst(place: Place, rest: string)
    ensures Metadata(Some(place)) + rest ==
      FileWord() + (Property(place.path) + (LineWord() + (Decimal(place.line) + ("," + rest))))
  {
    hide FileWord, LineWord, Property, Decimal;
    var d := Decimal(place.line) + ",";
    var l := LineWord() + d;
    Regroup(FileWord(), Property(place.path) + l, rest);
    Regroup(Property(place.path), l, rest);
    Regroup(LineWord(), d, rest);
    Regroup(Decimal(place.line), ",", rest);
  }

  /** The file, up to its first 500 characters, and the line can be read back. */
  lemma CommandParses(nodeid: string, phase: string, place: Place)
    ensures ParsePlace(Command(nodeid, phase, Some(place))) == Some(Place(Cut(place.path, LIMIT), place.line))
  {
    PropertyRoundTrip(place.path);
    DecimalRoundTrip(place.line);
    assert !IsDigit(',') && LineWord()[0] == ',' && LineWord() != [];
    hide ErrorWord, FileWord, LineWord, Metadata, Title, Property, Decimal, Cut, IsDigit, Value, Unescape, Before, After;
    var rest := Title(nodeid, phase) + "\n";
    var file, digits := Property(place.path), Decimal(place.line);
    MetadataFirst(place, rest);
    var end := digits + ("," + rest);
    AfterSum(ErrorWord(), Metadata(Some(place)) + rest);
    AfterSum(FileWord(), file + (LineWord() + end));
    BeforeFirst(file, ',', LineWord() + end);
    assert (file + (LineWord() + end))[|file|..] == LineWord() + end;
    AfterSum(LineWord(), end);
    BeforeFirst(digits, ',', "," + rest);
  }

  lemma NoMetadata(place: Option<Place>)
    requires place.None?
    ensures ErrorWord() + Metadata(place) == "::error "
  {
  }

  /** A command ends with the masked test and phase; without a place nothing stands before. */
  lemma CommandShows(nodeid: string, phase: string, place: Option<Place>)
    ensures var c := Command(nodeid, phase, place);
      var shown := "title=pytest failure::" + Safe(nodeid, 500) + " [" + Safe(phase, 32) + "]\n";
      |shown| <= |c| && c[|c| - |shown|..] == shown && (place.None? ==> c == "::error " + shown)
  {
    hide Safe, Metadata;
    var node, stage := Safe(nodeid, 500), Safe(phase, 32);
    var shown := "title=pytest failure::" + node + " [" + stage + "]\n";
    assert Title(nodeid, phase) + "\n" == shown by {
      assert "]" + "\n" == "]\n";
      assert TitleWord() == "title=pytest failure::";
      hide TitleWord;
      Regroup(TitleWord(), node + (" [" + (stage + "]")), "\n");
      Regroup(node, " [" + (stage + "]"), "\n");
      Regroup(" [", stage + "]", "\n");
      Regroup(stage, "]", "\n");
      Regroup(TitleWord(), node, " [" + (stage + "]\n"));
      Regroup(TitleWord() + node, " [", stage + "]\n");
      Regroup(TitleWord() + node + " [", stage, "]\n");
    }
    hide Title;
    var before := ErrorWord() + Metadata(place);
    Regroup(ErrorWord(), Metadata(place), Title(nodeid, phase) + "\n");
    assert Command(nodeid, phase, place) == before + shown;
    assert (before + shown)[|before|..] == shown;
    if place.None? {
      NoMetadata(place);
    }
  }

  // ---------------------------------------------------------------- bytes

  function Utf8(c: char): (r: seq<Byte>)
    ensures 1 <= |r| <= 4
    ensures c != '\n' ==> 10 !in r
    ensures c == '\n' ==> r == [10]
  {
    var n := c as int;
    if n < 0x80 then [n]
    else if n < 0x800 then [0xC0 + n / 0x40, 0x80 + n % 0x40]
    else if n < 0x1_0000 then [0xE0 + n / 0x1000, 0x80 + n / 0x40 % 0x40, 0x80 + n % 0x40]
    else [0xF0 + n / 0x4_0000, 0x80 + n / 0x1000 % 0x40, 0x80 + n / 0x40 % 0x40, 0x80 + n % 0x40]
  }

  function Encode(s: string): seq<Byte>
  {
    if s == [] then [] else Utf8(s[0]) + Encode(s[1..])
  }

  /** Reading the bytes back, one character at a time. */
  function Decode(b: seq<Byte>): string
  {
    if b == [] then []
    else
      var width := Width(b[0]);
      if |b| < width then "?" else [Character(b[..width])] + Decode(b[width..])
  }

  function Width(lead: Byte): (n: nat)
    ensures 1 <= n <= 4
  {
    if lead < 0x80 then 1 else if lead < 0xE0 then 2 else if lead < 0xF0 then 3 else 4
  }

  function Character(b: seq<Byte>): char
    requires 1 <= |b| <= 4
  {
    if |b| == 1 then Scalar(b[0])
    else if |b| == 2 then Scalar(Joined(b[0] % 0x20, b[1]))
    else if |b| == 3 then Scalar(Joined(Joined(b[0] % 0x10, b[1]), b[2]))
    else Scalar(Joined(Joined(Joined(b[0] % 8, b[1]), b[2]), b[3]))
  }

  /** Six more bits. */
  function Joined(high: int, byte: int): int
  {
    high * 0x40 + byte % 0x40
  }

  /** Encoding loses nothing. */
  lemma {:induction false} DecodeEncode(s: string)
    ensures Decode(Encode(s)) == s
  {
    if s != [] {
      DecodeEncode(s[1..]);
      Utf8Reads(s[0]);
      hide Utf8, Character, Width;
      var first, rest := Utf8(s[0]), Encode(s[1..]);
      assert (first + rest)[0] == first[0] && (first + rest)[..|first|] == first && (first + rest)[|first|..] == rest;
    }
  }

  lemma Utf8Reads(c: char)
    ensures Width(Utf8(c)[0]) == |Utf8(c)| && Character(Utf8(c)) == c
  {
    var n := c as int;
    if 0x80 <= n < 0x800 {
      TwoRead(n);
    } else if 0x800 <= n < 0x1_0000 {
      ThreeRead(n);
    } else if n >= 0x1_0000 {
      FourRead(n);
    }
    hide Joined;
  }

  lemma TwoRead(n: nat)
    requires 0x80 <= n < 0x800
    ensures Joined((0xC0 + n / 0x40) % 0x20, 0x80 + n % 0x40) == n
  {
    JoinedSplit(n);
    assert (0xC0 + n / 0x40) % 0x20 == n / 0x40;
  }

  lemma ThreeRead(n: nat)
    requires 0x800 <= n < 0x1_0000
    ensures Joined(Joined((0xE0 + n / 0x1000) % 0x10, 0x80 + n / 0x40 % 0x40), 0x80 + n % 0x40) == n
  {
    JoinedSplit(n);
    JoinedSplit(n / 0x40);
    hide Joined;
    assert (0xE0 + n / 0x1000) % 0x10 == n / 0x1000;
  }

  lemma FourRead(n: nat)
    requires 0x1_0000 <= n < 0x11_0000
    ensures Joined(Joined(Joined((0xF0 + n / 0x4_0000) % 8, 0x80 + n / 0x1000 % 0x40), 0x80 + n / 0x40 % 0x40), 0x80 + n % 0x40) == n
  {
    JoinedSplit(n);
    JoinedSplit(n / 0x40);
    JoinedSplit(n / 0x1000);
    hide Joined;
    assert (0xF0 + n / 0x4_0000) % 8 == n / 0x4_0000;
  }

  lemma JoinedSplit(n: nat)
    ensures Joined(n / 0x40, 0x80 + n % 0x40) == n
    ensures n / 0x40 / 0x40 == n / 0x1000 && n / 0x1000 / 0x40 == n / 0x4_0000
  {
  }

  // ---------------------------------------------------------------- surrogates

  /** A character of the reporting program: any code point, lone surrogates included. */
  type Point = n: int | 0 <= n < 0x11_0000

  predicate Lone(p: Point)
  {
    0xD800 <= p < 0xE000
  }

  /** What is left of a code point in UTF-8: a surrogate is replaced by a question mark. */
  function Scalar(n: int): char
  {
    if 0 <= n < 0xD800 || 0xE000 <= n < 0x11_0000 then n as char else '?'
  }

  function Lossy(s: seq<Point>): (r: string)
    ensures |r| == |s|
  {
    seq(|s|, i requires 0 <= i < |s| => Scalar(s[i]))
  }

  function Points(s: string): (r: seq<Point>)
    ensures |r| == |s|
  {
    seq(|s|, i requires 0 <= i < |s| => s[i] as int)
  }

  /** The encoder of the program, replacing what it cannot encode. */
  function EncodePoints(s: seq<Point>): seq<Byte>
  {
    if s == [] then []
    else (if Lone(s[0]) then ['?' as int] else Utf8(Scalar(s[0]))) + EncodePoints(s[1..])
  }

  lemma {:induction false} EncodeLossy(s: seq<Point>)
    ensures EncodePoints(s) == Encode(Lossy(s))
  {
    if s != [] {
      EncodeLossy(s[1..]);
      assert Lossy(s)[1..] == Lossy(s[1..]);
      assert Utf8('?') == ['?' as int];
    }
  }

  function EscapePoints(s: seq<Point>): seq<Point>
  {
    if s == [] then [] else (if Lone(s[0]) then [s[0]] else Points(EscapeChar(Scalar(s[0])))) + EscapePoints(s[1..])
  }

  lemma LossySum(a: seq<Point>, b: seq<Point>)
    ensures Lossy(a + b) == Lossy(a) + Lossy(b)
  {
  }

  lemma LossyPoints(s: string)
    ensures Lossy(Points(s)) == s
  {
    forall i | 0 <= i < |s|
      ensures Scalar(s[i] as int) == s[i]
    {
    }
  }

  /** Escaping and replacing do not meet: a replaced surrogate needs no escape. */
  lemma {:induction false} LossyEscape(s: seq<Point>)
    ensures Lossy(EscapePoints(s)) == Escape(Lossy(s))
  {
    if s != [] {
      LossyEscape(s[1..]);
      var first := if Lone(s[0]) then [s[0]] else Points(EscapeChar(Scalar(s[0])));
      LossySum(first, EscapePoints(s[1..]));
      LossyPoints(EscapeChar(Scalar(s[0])));
      assert Lossy(s)[0] == Scalar(s[0]) && Lossy(s)[1..] == Lossy(s[1..]);
      assert EscapeChar('?') == ['?'];
    }
  }

  function MaskedPoints(s: seq<Point>): (r: seq<Point>)
    ensures |r| == |s|
  {
    seq(|s|, i requires 0 <= i < |s| => if Lone(s[i]) then '?' as int else Masked([Scalar(s[i])])[0] as int)
  }

  function CutPoints(s: seq<Point>, n: nat): seq<Point>
  {
    if |s| <= n then s else s[..n]
  }

  lemma LossyCut(s: seq<Point>, n: nat)
    ensures Lossy(CutPoints(s, n)) == Cut(Lossy(s), n)
  {
  }

  lemma LossyMasked(s: seq<Point>)
    ensures Lossy(MaskedPoints(s)) == Masked(Lossy(s))
  {
    assert !Allowed('?') by {
      QuestionForbidden();
    }
  }

  lemma QuestionForbidden()
    ensures !Allowed('?')
  {
  }

  datatype PointPlace = PointPlace(path: seq<Point>, line: nat)

  function PointMetadata(place: Option<PointPlace>): seq<Point>
  {
    match place
    case None => Points(" ")
    case Some(p) =>
      Points(FileWord()) + (EscapePoints(CutPoints(p.path, LIMIT)) + Points(LineWord() + (Decimal(p.line) + ",")))
  }

  function PointTitle(nodeid: seq<Point>, phase: seq<Point>): seq<Point>
  {
    Points(TitleWord()) + (CutPoints(MaskedPoints(nodeid), LIMIT)
    + (Points(" [") + (CutPoints(MaskedPoints(phase), PHASE_LIMIT) + Points("]"))))
  }

  /** The command of the program, on its own strings, with or without a place. */
  function PointCommand(nodeid: seq<Point>, phase: seq<Point>, place: Option<PointPlace>): seq<Point>
  {
    Points(ErrorWord()) + (PointMetadata(place) + (PointTitle(nodeid, phase) + Points("\n")))
  }

  function LossyPlace(place: Option<PointPlace>): Option<Place>
  {
    if place.Some? then Some(Place(Lossy(place.value.path), place.value.line)) else None
  }

  lemma LossyMetadata(place: Option<PointPlace>)
    ensures Lossy(PointMetadata(place)) == Metadata(LossyPlace(place))
  {
    LossyPoints(" ");
    if place.Some? {
      var p := place.value;
      var path, line := CutPoints(p.path, LIMIT), LineWord() + (Decimal(p.line) + ",");
      LossyCut(p.path, LIMIT);
      LossyEscape(path);
      ChainEscapes(Lossy(path));
      LossyPoints(FileWord());
      LossyPoints(line);
      LossySum(EscapePoints(path), Points(line));
      LossySum(Points(FileWord()), EscapePoints(path) + Points(line));
    }
  }

  lemma LossyTitle(nodeid: seq<Point>, phase: seq<Point>)
    ensures Lossy(PointTitle(nodeid, phase)) == Title(Lossy(nodeid), Lossy(phase))
  {
    var node, stage := CutPoints(MaskedPoints(nodeid), LIMIT), CutPoints(MaskedPoints(phase), PHASE_LIMIT);
    LossyMasked(nodeid);
    LossyMasked(phase);
    LossyCut(MaskedPoints(nodeid), LIMIT);
    LossyCut(MaskedPoints(phase), PHASE_LIMIT);
    LossyPoints(TitleWord());
    LossyPoints(" [");
    LossyPoints("]");
    hide Lossy, MaskedPoints, CutPoints, Cut, Points, TitleWord;
    LossySum(stage, Points("]"));
    LossySum(Points(" ["), stage + Points("]"));
    LossySum(node, Points(" [") + (stage + Points("]")));
    LossySum(Points(TitleWord()), node + (Points(" [") + (stage + Points("]"))));
  }

  /** Replacing what cannot be encoded commutes with building the command. */
  lemma LossyCommand(nodeid: seq<Point>, phase: seq<Point>, place: Option<PointPlace>)
    ensures Lossy(PointCommand(nodeid, phase, place)) == Command(Lossy(nodeid), Lossy(phase), LossyPlace(place))
  {
    LossyMetadata(place);
    LossyTitle(nodeid, phase);
    LossyPoints(ErrorWord());
    LossyPoints("\n");
    hide Lossy, PointMetadata, PointTitle, Metadata, Title, Points, ErrorWord;
    LossySum(PointTitle(nodeid, phase), Points("\n"));
    LossySum(PointMetadata(place), PointTitle(nodeid, phase) + Points("\n"));
    LossySum(Points(ErrorWord()), PointMetadata(place) + (PointTitle(nodeid, phase) + Points("\n")));
  }

  /** On the emitted bytes: a report without a place shows none, and one with a place gives file
      and line back, the file exactly when the first 500 code points of its name hold no lone
      surrogate. */
  lemma BytesParse(nodeid: seq<Point>, phase: seq<Point>, place: Option<PointPlace>)
    ensures var read := ParsePlace(Decode(EncodePoints(PointCommand(nodeid, phase, place))));
      && (read.Some? <==> place.Some?)
      && (place.Some? ==>
            var cut := CutPoints(place.value.path, LIMIT);
            && read == Some(Place(Lossy(cut), place.value.line))
            && (Points(read.value.path) == cut <==> forall p :: p in cut ==> !Lone(p)))
  {
    EncodeLossy(PointCommand(nodeid, phase, place));
    LossyCommand(nodeid, phase, place);
    DecodeEncode(Command(Lossy(nodeid), Lossy(phase), LossyPlace(place)));
    hide EncodePoints, PointCommand, Command, ParsePlace, Decode, Encode, CutPoints, Cut, Lossy;
    if place.Some? {
      CommandParses(Lossy(nodeid), Lossy(phase), Place(Lossy(place.value.path), place.value.line));
      LossyCut(place.value.path, LIMIT);
      LossyExact(CutPoints(place.value.path, LIMIT));
    } else {
      CommandWithoutPlace(Lossy(nodeid), Lossy(phase));
    }
  }

  lemma CommandWithoutPlace(nodeid: string, phase: string)
    ensures ParsePlace(Command(nodeid, phase, None)).None?
  {
    var rest := Title(nodeid, phase) + "\n";
    AfterSum(ErrorWord(), " " + rest);
    hide ErrorWord, Title;
    TitleFirst(nodeid, phase);
    assert (" " + rest)[1] == 't' && FileWord()[1] == 'f';
  }

  lemma TitleFirst(nodeid: string, phase: string)
    ensures Title(nodeid, phase) != [] && Title(nodeid, phase)[0] == 't'
  {
  }

  lemma LossyExact(s: seq<Point>)
    ensures Points(Lossy(s)) == s <==> forall p :: p in s ==> !Lone(p)
  {
    if Points(Lossy(s)) == s {
      forall p | p in s
        ensures !Lone(p)
      {
        var i :| 0 <= i < |s| && s[i] == p;
        assert Points(Lossy(s))[i] == s[i];
      }
    }
    if forall p :: p in s ==> !Lone(p) {
      forall i | 0 <= i < |s|
        ensures Points(Lossy(s))[i] == s[i]
      {
        assert !Lone(s[i]);
      }
    }
  }

  /** One line: a single newline byte, at the end. */
  ghost predicate IsLine(b: seq<Byte>)
  {
    |b| > 0 && b[|b| - 1] == 10 && 10 !in b[..|b| - 1]
  }

  lemma {:induction false} EncodeLine(body: string)
    requires '\n' !in body
    ensures IsLine(Encode(body + "\n"))
  {
    if body == [] {
      assert body + "\n" == "\n";
      assert Encode("\n") == [10] + [];
    } else {
      EncodeLine(body[1..]);
      assert (body + "\n")[1..] == body[1..] + "\n";
      var first, rest := Utf8(body[0]), Encode(body[1..] + "\n");
      assert Encode(body + "\n") == first + rest;
      assert (first + rest)[..|first + rest| - 1] == first + rest[..|rest| - 1];
    }
  }

  function Join(lines: seq<seq<Byte>>): seq<Byte>
  {
    if lines == [] then [] else Join(lines[..|lines| - 1]) + lines[|lines| - 1]
  }

  /** Nothing is left open: no line, or the last one has its newline. */
  predicate Fresh(lines: seq<seq<Byte>>)
  {
    lines == [] || Ended(lines[|lines| - 1])
  }

  predicate Ended(line: seq<Byte>)
  {
    line != [] && line[|line| - 1] == 10
  }

  /** Reading lines off a byte stream. */
  function Lines(b: seq<Byte>): seq<seq<Byte>>
  {
    if b == [] then []
    else AddByte(Lines(b[..|b| - 1]), b[|b| - 1])
  }

  function AddByte(lines: seq<seq<Byte>>, last: Byte): seq<seq<Byte>>
  {
    if Fresh(lines) then lines + [[last]]
    else lines[..|lines| - 1] + [lines[|lines| - 1] + [last]]
  }

  lemma LinesNext(b: seq<Byte>, last: Byte)
    ensures Lines(b + [last]) == AddByte(Lines(b), last)
  {
    assert (b + [last])[..|b|] == b;
  }

  lemma {:induction false} LinesStep(b: seq<Byte>, part: seq<Byte>, before: seq<seq<Byte>>)
    requires Lines(b) == before && Fresh(before) && 10 !in part[..if part == [] then 0 else |part| - 1]
    ensures Lines(b + part) == if part == [] then before else before + [part]
  {
    hide Lines;
    if part == [] {
      assert b + part == b;
    } else {
      var init, last := part[..|part| - 1], part[|part| - 1];
      assert init + [last] == part && b + part == (b + init) + [last];
      LinesStep(b, init, before);
      LinesNext(b + init, last);
      if init != [] {
        assert init[|init| - 1] in init;
        assert (before + [init])[..|before|] == before;
      }
    }
  }

  lemma LinesNone()
    ensures Lines(Join([])) == []
  {
  }

  lemma FreshLines(lines: seq<seq<Byte>>)
    requires lines != [] && forall l :: l in lines ==> IsLine(l)
    ensures var last := lines[|lines| - 1];
      last != [] && 10 !in last[..|last| - 1] && Fresh(lines[..|lines| - 1])
  {
    assert lines[|lines| - 1] in lines;
    assert |lines| > 1 ==> lines[|lines| - 2] in lines;
  }

  /** A reader of the stream sees exactly the commands written, one per line. */
  lemma {:induction false} LinesOfJoin(lines: seq<seq<Byte>>)
    requires forall l :: l in lines ==> IsLine(l)
    ensures Lines(Join(lines)) == lines
  {
    hide Lines, IsLine, Join, Ended;
    if lines == [] {
      LinesNone();
    } else {
      var before, last := lines[..|lines| - 1], lines[|lines| - 1];
      LinesOfJoin(before);
      FreshLines(lines);
      JoinNext(before, last);
      hide Fresh;
      LinesStep(Join(before), last, before);
      assert lines == before + [last];
    }
  }

  // ---------------------------------------------------------------- the budget

  function SummaryHead(): string { "::warning title=" + "pytest failures omitted::" }
  function SummaryTail(): string { " additional failures " + "omitted by bounded reporter" }

  function Summary(omitted: nat): string
  {
    SummaryHead() + (Decimal(omitted) + SummaryTail()) + "\n"
  }

  /** All characters of the summary are one byte. */
  predicate Ascii(s: string)
  {
    forall i :: 0 <= i < |s| ==> s[i] as int < 0x80
  }

  lemma {:induction false} AsciiLength(s: string)
    requires Ascii(s)
    ensures |Encode(s)| == |s|
  {
    if s != [] {
      AsciiLength(s[1..]);
    }
  }

  lemma DigitsAscii(n: nat)
    ensures Ascii(Decimal(n))
  {
    DecimalRoundTrip(n);
    forall i | 0 <= i < |Decimal(n)|
      ensures Decimal(n)[i] as int < 0x80
    {
      assert IsDigit(Decimal(n)[i]);
    }
  }

  lemma HeadAscii()
    ensures Ascii(SummaryHead()) && |SummaryHead()| == 41 && '\n' !in SummaryHead()
  {
    var a, b := "::warning title=", "pytest failures omitted::";
    assert Ascii(a) && '\n' !in a;
    assert Ascii(b) && '\n' !in b;
    AsciiSum(a, b);
  }

  lemma TailAscii()
    ensures Ascii(SummaryTail()) && |SummaryTail()| == 48 && '\n' !in SummaryTail()
  {
    var a, b := " additional failures ", "omitted by bounded reporter";
    assert Ascii(a) && '\n' !in a;
    assert Ascii(b) && '\n' !in b;
    AsciiSum(a, b);
  }

  lemma SummaryAscii(omitted: nat)
    ensures Ascii(Summary(omitted)) && |Summary(omitted)| == 90 + |Decimal(omitted)|
  {
    DigitsAscii(omitted);
    HeadAscii();
    TailAscii();
    hide Decimal, SummaryHead, SummaryTail;
    AsciiSum(Decimal(omitted), SummaryTail());
    AsciiSum(SummaryHead(), Decimal(omitted) + SummaryTail());
    AsciiSum(SummaryHead() + (Decimal(omitted) + SummaryTail()), "\n");
  }

  lemma AsciiSum(a: string, b: string)
    requires Ascii(a) && Ascii(b)
    ensures Ascii(a + b)
  {
  }

  /** The reserve holds the summary exactly below ten to the 166th. */
  lemma SummaryFits(omitted: nat)
    ensures |Encode(Summary(omitted))| <= SUMMARY_RESERVE <==> omitted < Power10(166)
  {
    hide Power10, Encode, Decimal, Summary;
    SummaryAscii(omitted);
    AsciiLength(Summary(omitted));
    DecimalLength(omitted, 166);
  }

  /** A report as the program gets it. */
  datatype Report = Report(nodeid: seq<Point>, phase: seq<Point>, place: Option<PointPlace>)

  function Encoded(r: Report): seq<Byte>
  {
    EncodePoints(PointCommand(r.nodeid, r.phase, r.place))
  }

  lemma EncodedIsLine(r: Report)
    ensures IsLine(Encoded(r))
  {
    EncodeLossy(PointCommand(r.nodeid, r.phase, r.place));
    LossyCommand(r.nodeid, r.phase, r.place);
    hide PointCommand, Command, EncodePoints, Lossy;
    var c := Command(Lossy(r.nodeid), Lossy(r.phase), LossyPlace(r.place));
    CommandIsLine(Lossy(r.nodeid), Lossy(r.phase), LossyPlace(r.place));
    assert c == c[..|c| - 1] + "\n";
    EncodeLine(c[..|c| - 1]);
  }

  predicate Fits(commands: seq<seq<Byte>>, command: seq<Byte>)
  {
    |commands| < MAX_ANNOTATIONS && |Join(commands)| + |command| <= MAX_PAYLOAD - SUMMARY_RESERVE
  }

  /** The reports that make it into the payload, in the order they came. */
  function Accepted(reports: seq<Report>): seq<seq<Byte>>
  {
    if reports == [] then []
    else
      var before := Accepted(reports[..|reports| - 1]);
      var command := Encoded(reports[|reports| - 1]);
      if Fits(before, command) then before + [command] else before
  }

  function Payload(commands: seq<seq<Byte>>, omitted: nat): seq<Byte>
  {
    Join(commands) + if omitted == 0 then [] else Encode(Summary(omitted))
  }

  class Annotations {
    var commands: seq<seq<Byte>>
    var payloadBytes: nat
    var omitted: nat
    var output: seq<Byte>
    ghost var reports: seq<Report>

    constructor ()
      ensures Valid() && reports == [] && output == []
    {
      commands, payloadBytes, omitted, output := [], 0, 0, [];
      reports := [];
    }

    /** The buffer is what the reports so far leave of the budget; the others are counted. */
    ghost predicate Valid()
      reads this
    {
      && commands == Accepted(reports) && |commands| + omitted == |reports|
      && payloadBytes == |Join(commands)| <= MAX_PAYLOAD - SUMMARY_RESERVE
    }

    method Emit(r: Report)
      requires Valid()
      modifies this`commands, this`payloadBytes, this`omitted, this`reports
      ensures Valid() && reports == old(reports) + [r]
      ensures Fits(old(commands), Encoded(r)) ==> commands == old(commands) + [Encoded(r)] && omitted == old(omitted)
      ensures !Fits(old(commands), Encoded(r)) ==> commands == old(commands) && omitted == old(omitted) + 1
    {
      AcceptedNext(reports, r);
      hide Encoded, Accepted, Join;
      var encoded := Encoded(r);
      JoinNext(commands, encoded);
      reports := reports + [r];
      if |commands| >= MAX_ANNOTATIONS || payloadBytes + |encoded| > MAX_PAYLOAD - SUMMARY_RESERVE {
        omitted := omitted + 1;
        return;
      }
      commands := commands + [encoded];
      payloadBytes := payloadBytes + |encoded|;
    }

    /** Writes until nothing is left; a write of nothing is an error. */
    method WriteAll(payload: seq<Byte>, pipe: nat -> int) returns (raised: bool)
      modifies this`output
      ensures !raised ==> output == old(output) + payload
      ensures raised ==> Cutoff(old(output), payload, output)
      ensures (forall k :: pipe(k) > 0) ==> !raised
    {
      var done := 0;
      var calls := 0;
      assert payload[..0] == [];
      while done < |payload|
        invariant 0 <= done <= |payload|
        invariant output == old(output) + payload[..done]
      {
        var written := pipe(calls);
        calls := calls + 1;
        if written <= 0 {
          return true;
        }
        var taken := if written < |payload| - done then written else |payload| - done;
        assert payload[..done + taken] == payload[..done] + payload[done..done + taken];
        output := output + payload[done..done + taken];
        done := done + taken;
      }
      assert payload[..|payload|] == payload;
      raised := false;
    }

    /** Writes the payload through a pipe that takes what it takes; a write of nothing is an
        error, raised after the buffer is cleared. */
    method Flush(pipe: nat -> int) returns (raised: bool)
      requires Valid()
      modifies this
      ensures Valid() && reports == []
      ensures !raised ==> output == old(output) + Payload(old(commands), old(omitted))
      ensures raised ==> Cutoff(old(output), Payload(old(commands), old(omitted)), output)
      ensures (forall k :: pipe(k) > 0) ==> !raised
    {
      ClearedValid();
      if commands == [] && omitted == 0 {
        reports := [];
        return false;
      }
      hide *;
      var payload := Payload(commands, omitted);
      commands, payloadBytes, omitted, reports := [], 0, 0, [];
      EmptyValid();
      raised := WriteAll(payload, pipe);
    }

    lemma EmptyValid()
      requires commands == [] && reports == [] && payloadBytes == 0 && omitted == 0
      ensures Valid()
    {
    }
  }

  /** Only a proper part of the payload got out. */
  ghost predicate Cutoff(before: seq<Byte>, payload: seq<Byte>, after: seq<Byte>)
  {
    exists n :: 0 <= n < |payload| && after == before + payload[..n]
  }

  lemma AcceptedNext(reports: seq<Report>, r: Report)
    ensures Accepted(reports + [r]) ==
      if Fits(Accepted(reports), Encoded(r)) then Accepted(reports) + [Encoded(r)] else Accepted(reports)
  {
    hide Encoded;
    assert (reports + [r])[..|reports|] == reports;
  }

  lemma JoinNext(commands: seq<seq<Byte>>, command: seq<Byte>)
    ensures Join(commands + [command]) == Join(commands) + command
  {
    assert (commands + [command])[..|commands|] == commands;
  }

  lemma ClearedValid()
    ensures Accepted([]) == [] && Join([]) == [] && Payload([], 0) == []
  {
  }

  /** The payload stays within 64 KiB as long as fewer than ten to the 166th are omitted. */
  lemma PayloadBounded(commands: seq<seq<Byte>>, omitted: nat)
    requires |Join(commands)| <= MAX_PAYLOAD - SUMMARY_RESERVE && omitted < Power10(166)
    ensures |Payload(commands, omitted)| <= MAX_PAYLOAD
  {
    hide Power10, Encode, Summary, Join;
    SummaryFits(omitted);
  }

  ghost predicate Subsequence(a: seq<seq<Byte>>, b: seq<seq<Byte>>)
  {
    || a == []
    || (b != [] && Subsequence(a, b[..|b| - 1]))
    || (b != [] && a[|a| - 1] == b[|b| - 1] && Subsequence(a[..|a| - 1], b[..|b| - 1]))
  }

  function AllEncoded(reports: seq<Report>): seq<seq<Byte>>
  {
    seq(|reports|, i requires 0 <= i < |reports| => Encoded(reports[i]))
  }

  lemma AllEncodedNext(reports: seq<Report>)
    requires reports != []
    ensures AllEncoded(reports) == AllEncoded(reports[..|reports| - 1]) + [Encoded(reports[|reports| - 1])]
  {
    hide Encoded;
  }

  /** What is accepted keeps the order of the reports. */
  lemma {:induction false} AcceptedOrdered(reports: seq<Report>)
    ensures Subsequence(Accepted(reports), AllEncoded(reports))
  {
    hide Encoded, Fits;
    if reports != [] {
      var init, last := reports[..|reports| - 1], Encoded(reports[|reports| - 1]);
      AcceptedOrdered(init);
      AllEncodedNext(reports);
      hide AllEncoded, Accepted;
      AcceptedLast(reports);
      SubsequenceNext(Accepted(init), AllEncoded(init), last);
    }
  }

  lemma AcceptedLast(reports: seq<Report>)
    requires reports != []
    ensures var init, last := reports[..|reports| - 1], Encoded(reports[|reports| - 1]);
      Accepted(reports) == if Fits(Accepted(init), last) then Accepted(init) + [last] else Accepted(init)
  {
    hide Encoded, Fits;
  }

  lemma SubsequenceNext(a: seq<seq<Byte>>, b: seq<seq<Byte>>, last: seq<Byte>)
    requires Subsequence(a, b)
    ensures Subsequence(a, b + [last]) && Subsequence(a + [last], b + [last])
  {
    assert (b + [last])[..|b|] == b && (a + [last])[..|a|] == a;
  }

  /** A report is left out only if 100 commands stand already or its own would go beyond what
      64 KiB leave beside the summary. */
  lemma AcceptedGreedily(reports: seq<Report>, r: Report)
    ensures var before, line := Accepted(reports), EncodePoints(PointCommand(r.nodeid, r.phase, r.place));
      Accepted(reports + [r]) == if |before| < 100 && |Join(before)| + |line| <= 65280 then before + [line] else before
  {
    AcceptedNext(reports, r);
    hide Accepted, Join, EncodePoints, PointCommand;
  }

  /** The number of those left out can be read from the summary. */
  lemma SummarySays(omitted: nat)
    ensures var s := Summary(omitted);
      && |s| >= 90
      && s[..41] == "::warning title=" + "pytest failures omitted::"
      && s[|s| - 49..] == " additional failures " + "omitted by bounded reporter" + "\n"
      && (forall c :: c in s[41..|s| - 49] ==> IsDigit(c))
      && Value(s[41..|s| - 49]) == omitted
  {
    DecimalRoundTrip(omitted);
    HeadAscii();
    TailAscii();
    assert SummaryHead() == "::warning title=" + "pytest failures omitted::";
    assert SummaryTail() + "\n" == " additional failures " + "omitted by bounded reporter" + "\n";
    hide Decimal, SummaryHead, SummaryTail, Value, IsDigit, Ascii;
    var digits, tail := Decimal(omitted), SummaryTail() + "\n";
    assert Summary(omitted) == SummaryHead() + digits + tail;
    hide Summary;
    var s := SummaryHead() + digits + tail;
    assert s[..41] == SummaryHead() && s[|s| - 49..] == tail && s[41..|s| - 49] == digits;
  }

  /** It is one line each and never exceeds the budget. */
  lemma {:induction false} AcceptedBounded(reports: seq<Report>)
    ensures |Accepted(reports)| <= MAX_ANNOTATIONS && |Join(Accepted(reports))| <= MAX_PAYLOAD - SUMMARY_RESERVE
    ensures forall l :: l in Accepted(reports) ==> IsLine(l)
  {
    if reports == [] {
      ClearedValid();
    } else {
      hide Encoded, IsLine, Accepted, Join;
      var init := reports[..|reports| - 1];
      AcceptedBounded(init);
      AcceptedLast(reports);
      EncodedIsLine(reports[|reports| - 1]);
      JoinNext(Accepted(init), Encoded(reports[|reports| - 1]));
    }
  }

  /** It is everything while the budget lasts. */
  lemma {:induction false} AcceptedAll(reports: seq<Report>)
    requires |reports| <= MAX_ANNOTATIONS && |Join(AllEncoded(reports))| <= MAX_PAYLOAD - SUMMARY_RESERVE
    ensures Accepted(reports) == AllEncoded(reports)
  {
    if reports != [] {
      hide Encoded, Accepted, Join;
      var init, last := reports[..|reports| - 1], Encoded(reports[|reports| - 1]);
      AllEncodedNext(reports);
      JoinNext(AllEncoded(init), last);
      AcceptedAll(init);
      AcceptedLast(reports);
    }
  }

  /** The lines a reader sees after a clean flush: the accepted commands in order, then at most
      the summary. */
  lemma PayloadLines(reports: seq<Report>, omitted: nat)
    ensures Lines(Payload(Accepted(reports), omitted)) ==
      Accepted(reports) + if omitted == 0 then [] else [Encode(Summary(omitted))]
  {
    var accepted := Accepted(reports);
    AcceptedBounded(reports);
    hide Accepted, IsLine, Encode, Summary;
    if omitted == 0 {
      LinesOfJoin(accepted);
      assert Payload(accepted, omitted) == Join(accepted);
    } else {
      var summary := Encode(Summary(omitted));
      SummaryIsLine(omitted);
      LinesOfJoin(accepted + [summary]);
      assert (accepted + [summary])[..|accepted|] == accepted;
    }
  }

  lemma SummaryIsLine(omitted: nat)
    ensures IsLine(Encode(Summary(omitted)))
  {
    DecimalRoundTrip(omitted);
    HeadAscii();
    TailAscii();
    assert !IsDigit('\n');
    hide Decimal, SummaryHead, SummaryTail, Encode, IsDigit, IsLine, Value;
    EncodeLine(SummaryHead() + (Decimal(omitted) + SummaryTail()));
  }
}
