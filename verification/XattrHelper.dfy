/**
 * xattr-helper: a dump of extended attributes as text, with unsafe bytes in octal escapes, and the
 * restoration of what was dumped.
 */
module XattrHelper {
  import opened Bytes
  import opened Sequences
  import opened Wrappers

  const NUL: Byte := 0
  const RETURN: Byte := 13
  const DQUOTE: Byte := 34
  const EQUALS: Byte := 61

  /** "# file: " */
  const FileMark: seq<Byte> := [35, 32, 102, 105, 108, 101, 58, 32]

  const PathChars: set<Byte> := {NEWLINE, RETURN, BACKSLASH}
  const NameChars: set<Byte> := {EQUALS, NEWLINE, RETURN, BACKSLASH}
  const ValueChars: set<Byte> := {NUL, DQUOTE, NEWLINE, RETURN, BACKSLASH}

  // ----- quoting -----

  function Quote(s: seq<Byte>, chars: set<Byte>): seq<Byte> {
    if s == [] then []
    else (if s[0] in chars then Octal(s[0]) else [s[0]]) + Quote(s[1..], chars)
  }

  /** A backslash and three octal digits stand at `at`. */
  predicate EscapeAt(s: seq<Byte>, at: nat) {
    at + 4 <= |s| && s[at] == BACKSLASH && IsOctal(s[at + 1]) && IsOctal(s[at + 2]) && IsOctal(s[at + 3])
  }

  function EscapeValue(s: seq<Byte>, at: nat): (v: int)
    requires EscapeAt(s, at)
    ensures 0 <= v < 512
  {
    var (a: int, b: int, c: int) := (s[at + 1], s[at + 2], s[at + 3]);
    (a - 48) * 64 + (b - 48) * 8 + c - 48
  }

  /** Errors of Python: a byte above 255, and the two ValueErrors with their line numbers. */
  datatype Error = Overflow | MissingPathname(line: nat) | Malformed(line: nat)

  function Before(bytes: seq<Byte>, r: Result<seq<Byte>, Error>): Result<seq<Byte>, Error> {
    match r
    case Ok(s) => Ok(bytes + s)
    case Err(e) => Err(e)
  }

  function Unquote(s: seq<Byte>): Result<seq<Byte>, Error> {
    if s == [] then Ok([])
    else if !EscapeAt(s, 0) then Before([s[0]], Unquote(s[1..]))
    else if EscapeValue(s, 0) > 255 then Err(Overflow)
    else Before([EscapeValue(s, 0)], Unquote(s[4..]))
  }

  lemma BeforeBefore(a: seq<Byte>, b: seq<Byte>, r: Result<seq<Byte>, Error>)
    ensures Before(a, Before(b, r)) == Before(a + b, r)
  {
    if r.Ok? {
      assert a + (b + r.value) == a + b + r.value;
    }
  }

  lemma OctalUnquoted(b: Byte, rest: seq<Byte>)
    ensures Unquote(Octal(b) + rest) == Before([b], Unquote(rest))
  {
    var s := Octal(b) + rest;
    assert s[0] == Octal(b)[0] && s[1] == Octal(b)[1] && s[2] == Octal(b)[2] && s[3] == Octal(b)[3];
    assert b / 64 * 64 + b / 8 % 8 * 8 + b % 8 == b;
    assert s[4..] == rest;
  }

  lemma PlainUnquoted(b: Byte, rest: seq<Byte>)
    requires b != BACKSLASH
    ensures Unquote([b] + rest) == Before([b], Unquote(rest))
  {
    assert ([b] + rest)[1..] == rest;
  }

  /** Unquoting reads back what was quoted, whatever follows. */
  lemma {:induction false} QuotedUnquoted(s: seq<Byte>, chars: set<Byte>, rest: seq<Byte>)
    requires BACKSLASH in chars
    ensures Unquote(Quote(s, chars) + rest) == Before(s, Unquote(rest))
  {
    hide Unquote;
    if s == [] {
      assert Quote(s, chars) + rest == rest;
      BeforeNothing(Unquote(rest));
    } else {
      var one := if s[0] in chars then Octal(s[0]) else [s[0]];
      var later := Quote(s[1..], chars) + rest;
      assert Quote(s, chars) + rest == one + later;
      QuotedUnquoted(s[1..], chars, rest);
      if s[0] in chars {
        OctalUnquoted(s[0], later);
      } else {
        PlainUnquoted(s[0], later);
      }
      BeforeBefore([s[0]], s[1..], Unquote(rest));
      assert [s[0]] + s[1..] == s;
    }
  }

  lemma BeforeNothing(r: Result<seq<Byte>, Error>)
    ensures Before([], r) == r
  {
    if r.Ok? {
      assert [] + r.value == r.value;
    }
  }

  ghost predicate QuotesDigits(chars: set<Byte>) {
    forall d: Byte :: IsOctal(d) ==> d in chars
  }

  /** What is quoted begins with no octal digit when all of them are quoted. */
  lemma NoDigitFirst(s: seq<Byte>, chars: set<Byte>)
    requires QuotesDigits(chars)
    ensures Quote(s, chars) == [] || !IsOctal(Quote(s, chars)[0])
  {
    if s != [] && s[0] in chars {
      assert (Octal(s[0]) + Quote(s[1..], chars))[0] == BACKSLASH;
    }
  }

  /** No octal digit follows a backslash that was not quoted. */
  lemma {:induction false} DigitsUnquoted(s: seq<Byte>, chars: set<Byte>)
    requires QuotesDigits(chars)
    ensures Unquote(Quote(s, chars)) == Ok(s)
  {
    hide Octal;
    if s != [] {
      var later := Quote(s[1..], chars);
      DigitsUnquoted(s[1..], chars);
      NoDigitFirst(s[1..], chars);
      assert [s[0]] + s[1..] == s;
      if s[0] in chars {
        OctalUnquoted(s[0], later);
      } else {
        assert ([s[0]] + later)[1..] == later;
      }
    }
  }

  /** Unquoting is the inverse of quoting, when backslashes or all octal digits are quoted. */
  lemma RoundTrip(s: seq<Byte>, chars: set<Byte>)
    requires BACKSLASH in chars || QuotesDigits(chars)
    ensures Unquote(Quote(s, chars)) == Ok(s)
  {
    if BACKSLASH in chars {
      QuotedUnquoted(s, chars, []);
      assert Quote(s, chars) + [] == Quote(s, chars) && s + [] == s;
    } else {
      DigitsUnquoted(s, chars);
    }
  }

  /** When neither backslashes nor some octal digit are quoted, not every string is read back. */
  lemma BackslashNeeded(chars: set<Byte>, d: Byte)
    requires BACKSLASH !in chars && IsOctal(d) && d !in chars
    ensures var s := [BACKSLASH, d, d, d]; Quote(s, chars) == s && Unquote(s) != Ok(s)
  {
    var s: seq<Byte> := [BACKSLASH, d, d, d];
    QuoteNothing(s, chars);
    assert s[4..] == [] && EscapeAt(s, 0);
    if EscapeValue(s, 0) <= 255 {
      assert Unquote(s) == Before([EscapeValue(s, 0)], Ok([]));
      assert |Unquote(s).value| == 1;
    }
  }

  /** Every string is read back exactly when backslashes or all octal digits are quoted. */
  lemma ReadBackExactly(chars: set<Byte>)
    ensures (forall s :: Unquote(Quote(s, chars)) == Ok(s)) <==> BACKSLASH in chars || QuotesDigits(chars)
  {
    hide Unquote, Quote;
    if BACKSLASH in chars || QuotesDigits(chars) {
      forall s
        ensures Unquote(Quote(s, chars)) == Ok(s)
      {
        RoundTrip(s, chars);
      }
    } else {
      var d: Byte :| IsOctal(d) && d !in chars;
      BackslashNeeded(chars, d);
    }
  }

  lemma {:induction false} QuoteNothing(s: seq<Byte>, chars: set<Byte>)
    requires forall i :: 0 <= i < |s| ==> s[i] !in chars
    ensures Quote(s, chars) == s
  {
    if s != [] {
      QuoteNothing(s[1..], chars);
      assert s == [s[0]] + s[1..];
    }
  }

  /** Quoting leaves none of the quoted characters, except backslashes, and no others but octal digits come in. */
  lemma {:induction false} QuoteRemoves(s: seq<Byte>, chars: set<Byte>, b: Byte)
    requires b != BACKSLASH && !IsOctal(b)
    ensures b in Quote(s, chars) <==> b in s && b !in chars
  {
    if s != [] {
      QuoteRemoves(s[1..], chars, b);
      assert s == [s[0]] + s[1..];
      var one := if s[0] in chars then Octal(s[0]) else [s[0]];
      assert b in Quote(s, chars) <==> b in one || b in Quote(s[1..], chars);
    }
  }

  // ----- lines -----

  /** What iterating over a binary file gives: lines with their newlines. */
  function Lines(text: seq<Byte>): seq<seq<Byte>>
    decreases |text|
  {
    var i := IndexOf(text, NEWLINE);
    if text == [] then []
    else if i == |text| then [text]
    else [text[..i + 1]] + Lines(text[i + 1..])
  }

  /** rstrip(b"\n") */
  function Chomp(line: seq<Byte>): seq<Byte> {
    if line != [] && line[|line| - 1] == NEWLINE then Chomp(line[..|line| - 1]) else line
  }

  predicate StartsWith(s: seq<Byte>, prefix: seq<Byte>) {
    |prefix| <= |s| && s[..|prefix|] == prefix
  }

  /** bytes.isspace() */
  predicate IsBlank(line: seq<Byte>) {
    forall b | b in line :: b == 32 || 9 <= b <= 13
  }

  /** The slice [8:] of Python. */
  function BehindMark(s: seq<Byte>): seq<Byte> {
    if |s| <= 8 then [] else s[8..]
  }

  /** The slice [1:-1] of Python. */
  function Inner(s: seq<Byte>): seq<Byte> {
    if |s| <= 2 then [] else s[1..|s| - 1]
  }

  datatype Triple = Triple(path: seq<Byte>, name: seq<Byte>, value: seq<Byte>)

  /** A file to dump with its attributes, in the order in which they are listed. */
  datatype File = File(path: seq<Byte>, attrs: seq<(seq<Byte>, seq<Byte>)>)

  // ----- dump and restore -----

  function PathLine(path: seq<Byte>): seq<Byte> {
    FileMark + Quote(path, PathChars) + [NEWLINE]
  }

  function AttrLine(name: seq<Byte>, value: seq<Byte>): seq<Byte> {
    Quote(name, NameChars) + [EQUALS, DQUOTE] + Quote(value, ValueChars) + [DQUOTE, NEWLINE]
  }

  function AttrText(attrs: seq<(seq<Byte>, seq<Byte>)>): seq<Byte> {
    if attrs == [] then [] else AttrLine(attrs[0].0, attrs[0].1) + AttrText(attrs[1..])
  }

  function Dump(files: seq<File>): seq<Byte> {
    if files == [] then []
    else if files[0].attrs == [] then Dump(files[1..])
    else PathLine(files[0].path) + AttrText(files[0].attrs) + Dump(files[1..])
  }

  /** All attributes, file by file. */
  function Triples(files: seq<File>): seq<Triple> {
    if files == [] then [] else TriplesOf(files[0].path, files[0].attrs) + Triples(files[1..])
  }

  function TriplesOf(path: seq<Byte>, attrs: seq<(seq<Byte>, seq<Byte>)>): seq<Triple> {
    if attrs == [] then [] else [Triple(path, attrs[0].0, attrs[0].1)] + TriplesOf(path, attrs[1..])
  }

  /** The attributes that were set, and the error that ended the restoration, if any. */
  datatype Replay = Replay(done: seq<Triple>, path: Option<seq<Byte>>, error: Option<Error>)

  /** One line; `number` counts from 1. */
  function RestoreLine(r: Replay, line: seq<Byte>, number: nat): Replay {
    if StartsWith(line, FileMark) then
      match Unquote(BehindMark(Chomp(line)))
      case Ok(path) => r.(path := Some(path))
      case Err(e) => r.(error := Some(e))
    else
      var i := IndexOf(line, EQUALS);
      if i == |line| then if IsBlank(line) then r else r.(error := Some(Malformed(number)))
      else if r.path == None then r.(error := Some(MissingPathname(number)))
      else
        match Unquote(line[..i])
        case Err(e) => r.(error := Some(e))
        case Ok(name) =>
          match Unquote(Inner(Chomp(line[i + 1..])))
          case Err(e) => r.(error := Some(e))
          case Ok(value) => r.(done := r.done + [Triple(r.path.value, name, value)])
  }

  function RestoreLines(r: Replay, lines: seq<seq<Byte>>, number: nat): Replay
    decreases |lines|
  {
    if lines == [] || r.error.Some? then r
    else RestoreLines(RestoreLine(r, lines[0], number), lines[1..], number + 1)
  }

  function Restore(text: seq<Byte>): Replay {
    RestoreLines(Replay([], None, None), Lines(text), 1)
  }

  // ----- lines are read as they were written -----

  lemma {:induction false} IndexOfBehind(body: seq<Byte>, b: Byte, rest: seq<Byte>)
    requires b !in body
    ensures IndexOf(body + [b] + rest, b) == |body|
  {
    var s := body + [b] + rest;
    if body != [] {
      assert s[0] == body[0] && body[0] in body;
      assert s[1..] == body[1..] + [b] + rest;
      IndexOfBehind(body[1..], b, rest);
    }
  }

  lemma LineFirst(body: seq<Byte>, rest: seq<Byte>)
    requires NEWLINE !in body
    ensures Lines(body + [NEWLINE] + rest) == [body + [NEWLINE]] + Lines(rest)
  {
    var text := body + [NEWLINE] + rest;
    IndexOfBehind(body, NEWLINE, rest);
    assert text[..|body| + 1] == body + [NEWLINE] && text[|body| + 1..] == rest;
  }

  lemma ChompLine(body: seq<Byte>)
    requires NEWLINE !in body
    ensures Chomp(body + [NEWLINE]) == body
  {
    assert (body + [NEWLINE])[..|body|] == body;
    if body != [] {
      assert body[|body| - 1] in body;
    }
  }

  function PathBody(path: seq<Byte>): seq<Byte> {
    FileMark + Quote(path, PathChars)
  }

  function AttrBody(name: seq<Byte>, value: seq<Byte>): seq<Byte> {
    Quote(name, NameChars) + ([EQUALS, DQUOTE] + Quote(value, ValueChars) + [DQUOTE])
  }

  lemma PathBodyHasNoNewline(path: seq<Byte>)
    ensures NEWLINE !in PathBody(path) && PathLine(path) == PathBody(path) + [NEWLINE]
  {
    QuoteRemoves(path, PathChars, NEWLINE);
  }

  lemma AttrBodyHasNoNewline(name: seq<Byte>, value: seq<Byte>)
    ensures NEWLINE !in AttrBody(name, value) && AttrLine(name, value) == AttrBody(name, value) + [NEWLINE]
  {
    QuoteRemoves(name, NameChars, NEWLINE);
    QuoteRemoves(value, ValueChars, NEWLINE);
    hide Quote;
    var q, v := Quote(name, NameChars), Quote(value, ValueChars);
    assert AttrBody(name, value) == q + ([EQUALS, DQUOTE] + v + [DQUOTE]);
    assert NEWLINE !in [EQUALS, DQUOTE] && NEWLINE !in [DQUOTE];
    assert [DQUOTE, NEWLINE] == [DQUOTE] + [NEWLINE];
  }

  lemma PathLineRestored(r: Replay, path: seq<Byte>, number: nat)
    ensures RestoreLine(r, PathLine(path), number) == r.(path := Some(path))
  {
    PathBodyHasNoNewline(path);
    ChompLine(PathBody(path));
    RoundTrip(path, PathChars);
    hide Quote, Unquote, Chomp;
    assert PathLine(path)[..8] == FileMark;
    assert BehindMark(PathBody(path)) == Quote(path, PathChars);
  }

  /** A line of an attribute looks like that of a file exactly when the attribute's name does. */
  lemma {:induction false} StartsQuoted(name: seq<Byte>, rest: seq<Byte>, prefix: seq<Byte>)
    requires forall i :: 0 <= i < |prefix| ==> prefix[i] !in NameChars
    ensures StartsWith(Quote(name, NameChars) + ([EQUALS] + rest), prefix) <==> StartsWith(name, prefix)
  {
    var line := Quote(name, NameChars) + ([EQUALS] + rest);
    if prefix != [] {
      if name == [] {
        assert line[0] == EQUALS;
        StartsFirst(line, prefix);
      } else if name[0] in NameChars {
        assert line[0] == BACKSLASH;
        StartsFirst(line, prefix);
        StartsFirst(name, prefix);
      } else {
        var later := Quote(name[1..], NameChars) + ([EQUALS] + rest);
        assert line == [name[0]] + later;
        StartsQuoted(name[1..], rest, prefix[1..]);
        StartsCons(name[0], later, prefix);
        StartsCons(name[0], name[1..], prefix);
        assert name == [name[0]] + name[1..];
      }
    }
  }

  lemma StartsFirst(s: seq<Byte>, prefix: seq<Byte>)
    requires prefix != []
    ensures StartsWith(s, prefix) ==> s != [] && s[0] == prefix[0]
  {
    if |prefix| <= |s| {
      assert s[..|prefix|][0] == s[0];
    }
  }

  lemma StartsCons(b: Byte, s: seq<Byte>, prefix: seq<Byte>)
    requires prefix != []
    ensures StartsWith([b] + s, prefix) <==> b == prefix[0] && StartsWith(s, prefix[1..])
  {
    if |prefix| <= |s| + 1 {
      assert ([b] + s)[..|prefix|] == [b] + s[..|prefix| - 1];
      assert prefix == [prefix[0]] + prefix[1..];
    }
  }

  /** What restoring the line of one attribute does: a name with the mark is taken for a file. */
  function AfterAttr(r: Replay, name: seq<Byte>, value: seq<Byte>): Replay
    requires r.path.Some?
  {
    if StartsWith(name, FileMark) then r.(path := Some(name[8..] + [EQUALS, DQUOTE] + value + [DQUOTE]))
    else r.(done := r.done + [Triple(r.path.value, name, value)])
  }

  lemma QuoteConcat(a: seq<Byte>, b: seq<Byte>, chars: set<Byte>)
    ensures Quote(a + b, chars) == Quote(a, chars) + Quote(b, chars)
  {
    if a == [] {
      assert a + b == b;
    } else {
      assert (a + b)[1..] == a[1..] + b;
      QuoteConcat(a[1..], b, chars);
    }
  }

  /** The text `="value"`, unquoted. */
  lemma ValueUnquoted(value: seq<Byte>)
    ensures Unquote([EQUALS, DQUOTE] + Quote(value, ValueChars) + [DQUOTE]) == Ok([EQUALS, DQUOTE] + value + [DQUOTE])
  {
    var q := Quote(value, ValueChars);
    assert [EQUALS, DQUOTE] + q + [DQUOTE] == [EQUALS] + ([DQUOTE] + (q + [DQUOTE]));
    PlainUnquoted(EQUALS, [DQUOTE] + (q + [DQUOTE]));
    PlainUnquoted(DQUOTE, q + [DQUOTE]);
    QuotedUnquoted(value, ValueChars, [DQUOTE]);
    PlainUnquoted(DQUOTE, []);
    assert [DQUOTE] + [] == [DQUOTE];
    assert [EQUALS] + ([DQUOTE] + (value + [DQUOTE])) == [EQUALS, DQUOTE] + value + [DQUOTE];
  }

  /** The line of an attribute, split where it is read. */
  lemma AttrLineIs(name: seq<Byte>, value: seq<Byte>)
    ensures
      var q, v := Quote(name, NameChars), Quote(value, ValueChars);
      && AttrLine(name, value) == q + ([EQUALS] + (([DQUOTE] + v + [DQUOTE]) + [NEWLINE]))
      && AttrLine(name, value) == q + ([EQUALS] + ([DQUOTE] + v + [DQUOTE, NEWLINE]))
  {
    hide Quote;
    AttrShape(Quote(name, NameChars), Quote(value, ValueChars));
  }

  lemma AttrShape(q: seq<Byte>, v: seq<Byte>)
    ensures q + [EQUALS, DQUOTE] + v + [DQUOTE, NEWLINE] == q + ([EQUALS] + (([DQUOTE] + v + [DQUOTE]) + [NEWLINE]))
    ensures q + [EQUALS, DQUOTE] + v + [DQUOTE, NEWLINE] == q + ([EQUALS] + ([DQUOTE] + v + [DQUOTE, NEWLINE]))
  {
    assert ([DQUOTE] + v + [DQUOTE]) + [NEWLINE] == [DQUOTE] + v + [DQUOTE, NEWLINE];
    assert [EQUALS, DQUOTE] == [EQUALS] + [DQUOTE];
  }

  /** What stands around the first `b`. */
  lemma FirstSplit(q: seq<Byte>, b: Byte, tail: seq<Byte>)
    requires b !in q
    ensures
      var line := q + ([b] + tail);
      IndexOf(line, b) == |q| < |line| && line[..|q|] == q && line[|q| + 1..] == tail
  {
    IndexOfBehind(q, b, tail);
    assert q + ([b] + tail) == q + [b] + tail;
  }

  /** The name is read up to the first equals sign, the value between the quotes. */
  lemma AttrParts(name: seq<Byte>, value: seq<Byte>)
    ensures
      var line, q := AttrLine(name, value), Quote(name, NameChars);
      && IndexOf(line, EQUALS) == |q| < |line| && line[..|q|] == q
      && Inner(Chomp(line[|q| + 1..])) == Quote(value, ValueChars)
  {
    var q, v := Quote(name, NameChars), Quote(value, ValueChars);
    QuoteRemoves(name, NameChars, EQUALS);
    QuoteRemoves(value, ValueChars, NEWLINE);
    assert EQUALS !in q && NEWLINE !in v && NEWLINE != DQUOTE;
    hide *;
    var body := [DQUOTE] + v + [DQUOTE];
    AttrLineIs(name, value);
    FirstSplit(q, EQUALS, body + [NEWLINE]);
    ChompLine(body);
    InnerQuoted(v);
  }

  lemma InnerQuoted(v: seq<Byte>)
    ensures Inner([DQUOTE] + v + [DQUOTE]) == v
  {
    var body := [DQUOTE] + v + [DQUOTE];
    assert body[1..|body| - 1] == v;
  }

  lemma RestoreAttr(r: Replay, line: seq<Byte>, number: nat, i: nat, name: seq<Byte>, value: seq<Byte>)
    requires r.path.Some? && !StartsWith(line, FileMark) && IndexOf(line, EQUALS) == i < |line|
    requires Unquote(line[..i]) == Ok(name) && Unquote(Inner(Chomp(line[i + 1..]))) == Ok(value)
    ensures RestoreLine(r, line, number) == r.(done := r.done + [Triple(r.path.value, name, value)])
  {
    hide Unquote, Chomp, Inner, StartsWith, IndexOf, BehindMark, IsBlank;
  }

  lemma RestorePath(r: Replay, line: seq<Byte>, number: nat, path: seq<Byte>)
    requires StartsWith(line, FileMark) && Unquote(BehindMark(Chomp(line))) == Ok(path)
    ensures RestoreLine(r, line, number) == r.(path := Some(path))
  {
  }

  lemma MarkPlain()
    ensures forall i :: 0 <= i < |FileMark| ==> FileMark[i] !in NameChars
    ensures |FileMark| == 8 && BACKSLASH in NameChars && BACKSLASH in ValueChars
  {
  }

  lemma LineIsMarked(name: seq<Byte>, value: seq<Byte>)
    ensures StartsWith(AttrLine(name, value), FileMark) <==> StartsWith(name, FileMark)
  {
    hide Quote, StartsWith;
    AttrLineIs(name, value);
    StartsQuoted(name, [DQUOTE] + Quote(value, ValueChars) + [DQUOTE, NEWLINE], FileMark);
  }

  lemma GoodNameRestored(r: Replay, name: seq<Byte>, value: seq<Byte>, number: nat)
    requires r.path.Some? && !StartsWith(name, FileMark)
    ensures RestoreLine(r, AttrLine(name, value), number) == AfterAttr(r, name, value)
  {
    var line := AttrLine(name, value);
    MarkPlain();
    LineIsMarked(name, value);
    AttrParts(name, value);
    RoundTrip(name, NameChars);
    RoundTrip(value, ValueChars);
    RestoreAttr(r, line, number, |Quote(name, NameChars)|, name, value);
    hide Quote, Unquote, Chomp, IndexOf, AttrLine, Inner, StartsWith, RestoreLine;
  }

  lemma MarkedText(name: seq<Byte>, value: seq<Byte>)
    requires StartsWith(name, FileMark)
    ensures BehindMark(Chomp(AttrLine(name, value)))
      == Quote(name[8..], NameChars) + ([EQUALS, DQUOTE] + Quote(value, ValueChars) + [DQUOTE])
  {
    var later, tail := name[8..], [EQUALS, DQUOTE] + Quote(value, ValueChars) + [DQUOTE];
    assert name == FileMark + later;
    MarkPlain();
    QuoteConcat(FileMark, later, NameChars);
    QuoteNothing(FileMark, NameChars);
    assert AttrBody(name, value) == FileMark + Quote(later, NameChars) + tail;
    hide *;
    AttrBodyHasNoNewline(name, value);
    ChompLine(AttrBody(name, value));
    DropMark(Quote(later, NameChars), tail);
  }

  lemma DropMark(q: seq<Byte>, tail: seq<Byte>)
    ensures BehindMark(FileMark + q + tail) == q + tail
  {
    assert FileMark + q + tail == FileMark + (q + tail);
    assert (FileMark + (q + tail))[8..] == q + tail;
  }

  lemma MarkedNameRestored(r: Replay, name: seq<Byte>, value: seq<Byte>, number: nat)
    requires r.path.Some? && StartsWith(name, FileMark)
    ensures RestoreLine(r, AttrLine(name, value), number) == AfterAttr(r, name, value)
  {
    hide Quote, Unquote, Chomp, IndexOf, AttrLine, Inner, RestoreLine;
    var later, tail := name[8..], [EQUALS, DQUOTE] + Quote(value, ValueChars) + [DQUOTE];
    MarkPlain();
    LineIsMarked(name, value);
    MarkedText(name, value);
    QuotedUnquoted(later, NameChars, tail);
    ValueUnquoted(value);
    var path := later + ([EQUALS, DQUOTE] + value + [DQUOTE]);
    assert path == later + [EQUALS, DQUOTE] + value + [DQUOTE];
    RestorePath(r, AttrLine(name, value), number, path);
  }

  // ----- whole dumps -----

  function AfterAttrs(r: Replay, attrs: seq<(seq<Byte>, seq<Byte>)>): (t: Replay)
    requires r.path.Some?
    ensures t.path.Some? && t.error == r.error
    decreases |attrs|
  {
    if attrs == [] then r else AfterAttrs(AfterAttr(r, attrs[0].0, attrs[0].1), attrs[1..])
  }

  function AfterFiles(r: Replay, files: seq<File>): (t: Replay)
    ensures t.error == r.error
    decreases |files|
  {
    if files == [] then r
    else if files[0].attrs == [] then AfterFiles(r, files[1..])
    else AfterFiles(AfterAttrs(r.(path := Some(files[0].path)), files[0].attrs), files[1..])
  }

  lemma OneLine(r: Replay, body: seq<Byte>, rest: seq<Byte>, number: nat)
    requires NEWLINE !in body && r.error == None
    ensures RestoreLines(r, Lines(body + [NEWLINE] + rest), number)
      == RestoreLines(RestoreLine(r, body + [NEWLINE], number), Lines(rest), number + 1)
  {
    LineFirst(body, rest);
    assert ([body + [NEWLINE]] + Lines(rest))[1..] == Lines(rest);
  }

  lemma {:induction false} AttrsRestored(r: Replay, attrs: seq<(seq<Byte>, seq<Byte>)>, rest: seq<Byte>, number: nat)
    requires r.path.Some? && r.error == None
    ensures RestoreLines(r, Lines(AttrText(attrs) + rest), number)
      == RestoreLines(AfterAttrs(r, attrs), Lines(rest), number + |attrs|)
    decreases |attrs|
  {
    hide RestoreLine, RestoreLines, Lines, AttrLine, AttrBody;
    if attrs == [] {
      assert AttrText(attrs) + rest == rest;
    } else {
      var (name, value) := attrs[0];
      var later := AttrText(attrs[1..]) + rest;
      AttrBodyHasNoNewline(name, value);
      assert AttrText(attrs) + rest == AttrBody(name, value) + [NEWLINE] + later;
      OneLine(r, AttrBody(name, value), later, number);
      if StartsWith(name, FileMark) {
        MarkedNameRestored(r, name, value, number);
      } else {
        GoodNameRestored(r, name, value, number);
      }
      AttrsRestored(AfterAttr(r, name, value), attrs[1..], rest, number + 1);
    }
  }

  lemma {:induction false} FilesRestored(r: Replay, files: seq<File>, number: nat)
    requires r.error == None
    ensures RestoreLines(r, Lines(Dump(files)), number) == AfterFiles(r, files)
    decreases |files|
  {
    hide RestoreLine, Lines, PathLine, PathBody, AttrText, AfterAttrs;
    if files == [] {
      NoLines();
    } else if files[0].attrs == [] {
      FilesRestored(r, files[1..], number);
    } else {
      var f, later := files[0], Dump(files[1..]);
      PathBodyHasNoNewline(f.path);
      assert Dump(files) == PathBody(f.path) + [NEWLINE] + (AttrText(f.attrs) + later);
      OneLine(r, PathBody(f.path), AttrText(f.attrs) + later, number);
      PathLineRestored(r, f.path, number);
      var q := r.(path := Some(f.path));
      AttrsRestored(q, f.attrs, later, number + 1);
      FilesRestored(AfterAttrs(q, f.attrs), files[1..], number + 1 + |f.attrs|);
    }
  }

  lemma NoLines()
    ensures Lines([]) == []
  {
  }

  /** How many of the names do not have the mark. */
  function Unmarked(files: seq<File>): nat {
    if files == [] then 0 else UnmarkedOf(files[0].attrs) + Unmarked(files[1..])
  }

  function UnmarkedOf(attrs: seq<(seq<Byte>, seq<Byte>)>): nat {
    if attrs == [] then 0 else (if StartsWith(attrs[0].0, FileMark) then 0 else 1) + UnmarkedOf(attrs[1..])
  }

  lemma {:induction false} AttrsReplayed(r: Replay, path: seq<Byte>, attrs: seq<(seq<Byte>, seq<Byte>)>)
    requires r.path.Some?
    ensures |AfterAttrs(r, attrs).done| == |r.done| + UnmarkedOf(attrs)
    ensures UnmarkedOf(attrs) <= |TriplesOf(path, attrs)| == |attrs|
    ensures r.path.value == path && UnmarkedOf(attrs) == |attrs| ==> AfterAttrs(r, attrs).done == r.done + TriplesOf(path, attrs)
    decreases |attrs|
  {
    if attrs == [] {
      assert r.done + TriplesOf(path, attrs) == r.done;
    } else {
      var next := AfterAttr(r, attrs[0].0, attrs[0].1);
      AttrsReplayed(next, path, attrs[1..]);
      var one := [Triple(path, attrs[0].0, attrs[0].1)];
      assert r.done + (one + TriplesOf(path, attrs[1..])) == r.done + one + TriplesOf(path, attrs[1..]);
    }
  }

  lemma {:induction false} FilesReplayed(r: Replay, files: seq<File>)
    ensures |AfterFiles(r, files).done| == |r.done| + Unmarked(files)
    ensures Unmarked(files) <= |Triples(files)|
    ensures Unmarked(files) == |Triples(files)| ==> AfterFiles(r, files).done == r.done + Triples(files)
    decreases |files|
  {
    if files == [] {
      assert r.done + Triples(files) == r.done;
    } else {
      var f := files[0];
      var q := r.(path := Some(f.path));
      AttrsReplayed(q, f.path, f.attrs);
      var next := if f.attrs == [] then r else AfterAttrs(q, f.attrs);
      FilesReplayed(next, files[1..]);
      assert r.done + (TriplesOf(f.path, f.attrs) + Triples(files[1..])) == r.done + TriplesOf(f.path, f.attrs) + Triples(files[1..]);
    }
  }

  /** Whether no attribute's name begins like the line of a file. */
  ghost predicate NoMarkedName(files: seq<File>) {
    forall i, j :: 0 <= i < |files| && 0 <= j < |files[i].attrs| ==> !StartsWith(files[i].attrs[j].0, FileMark)
  }

  lemma {:induction false} UnmarkedAllOf(attrs: seq<(seq<Byte>, seq<Byte>)>)
    ensures UnmarkedOf(attrs) <= |attrs|
    ensures UnmarkedOf(attrs) == |attrs| <==> forall j :: 0 <= j < |attrs| ==> !StartsWith(attrs[j].0, FileMark)
  {
    if attrs != [] {
      UnmarkedAllOf(attrs[1..]);
      assert forall j :: 0 < j < |attrs| ==> attrs[j] == attrs[1..][j - 1];
      assert (forall j :: 0 <= j < |attrs| ==> !StartsWith(attrs[j].0, FileMark))
        <==> (!StartsWith(attrs[0].0, FileMark) && forall j :: 0 <= j < |attrs[1..]| ==> !StartsWith(attrs[1..][j].0, FileMark));
    }
  }

  lemma {:induction false} UnmarkedAll(files: seq<File>)
    ensures Unmarked(files) == |Triples(files)| <==> NoMarkedName(files)
  {
    if files != [] {
      var f, rest := files[0], files[1..];
      UnmarkedAll(rest);
      UnmarkedAllOf(f.attrs);
      AttrsReplayed(Replay([], Some(f.path), None), f.path, f.attrs);
      FilesReplayed(Replay([], None, None), rest);
      assert forall i :: 0 < i < |files| ==> files[i] == rest[i - 1];
      assert NoMarkedName(files) <==> NoMarkedName([f]) && NoMarkedName(rest) by {
        assert files == [f] + rest;
      }
    }
  }

  /**
   * Restoring a dump never fails, and sets exactly the dumped attributes in order if and only if no name
   * begins like the line of a file.
   */
  lemma DumpRestores(files: seq<File>)
    ensures Restore(Dump(files)).error == None
    ensures Restore(Dump(files)).done == Triples(files) <==> NoMarkedName(files)
  {
    var r := Replay([], None, None);
    FilesRestored(r, files, 1);
    FilesReplayed(r, files);
    UnmarkedAll(files);
    assert [] + Triples(files) == Triples(files);
  }

  // ----- the loops -----

  /** The first byte of `chars` from `pos` on, or the length. */
  method Search(s: seq<Byte>, chars: set<Byte>, pos: nat) returns (at: nat)
    requires pos <= |s|
    ensures pos <= at <= |s| && (at < |s| ==> s[at] in chars) && forall i :: pos <= i < at ==> s[i] !in chars
  {
    at := pos;
    while at < |s| && s[at] !in chars
      invariant pos <= at <= |s| && forall i :: pos <= i < at ==> s[i] !in chars
    {
      at := at + 1;
    }
  }

  lemma QuoteRun(s: seq<Byte>, chars: set<Byte>, pos: nat, at: nat)
    requires pos <= at <= |s| && forall i :: pos <= i < at ==> s[i] !in chars
    ensures Quote(s[pos..], chars) == s[pos..at] + Quote(s[at..], chars)
  {
    assert s[pos..] == s[pos..at] + s[at..];
    QuoteConcat(s[pos..at], s[at..], chars);
    QuoteNothing(s[pos..at], chars);
  }

  lemma QuoteNext(s: seq<Byte>, chars: set<Byte>, start: nat)
    requires start < |s| && s[start] in chars
    ensures Quote(s[start..], chars) == Octal(s[start]) + Quote(s[start + 1..], chars)
  {
    assert s[start..][1..] == s[start + 1..];
  }

  method QuoteBytes(s: seq<Byte>, chars: set<Byte>) returns (result: seq<Byte>)
    ensures result == Quote(s, chars)
  {
    hide Quote, Octal;
    result := [];
    var pos := 0;
    QuoteStartEnd(s, chars);
    while pos < |s|
      invariant pos <= |s| && result + Quote(s[pos..], chars) == Quote(s, chars)
    {
      var start := Search(s, chars, pos);
      QuoteRun(s, chars, pos, start);
      if start == |s| {
        assert s[pos..|s|] == s[pos..];
        AppendAssoc(result, s[pos..], Quote(s[start..], chars));
        result := result + s[pos..];
        pos := |s|;
      } else {
        QuoteNext(s, chars, start);
        var one, rest := Octal(s[start]), Quote(s[start + 1..], chars);
        AppendAssoc(result, s[pos..start], one + rest);
        AppendAssoc(result + s[pos..start], one, rest);
        result := result + s[pos..start] + one;
        pos := start + 1;
      }
    }
    assert result + [] == result;
  }

  lemma QuoteStartEnd(s: seq<Byte>, chars: set<Byte>)
    ensures [] + Quote(s[0..], chars) == Quote(s, chars) && Quote(s[|s|..], chars) == []
  {
    assert s[0..] == s;
  }

  /** The first escape from `pos` on, or the length. */
  method SearchEscape(s: seq<Byte>, pos: nat) returns (at: nat)
    requires pos <= |s|
    ensures pos <= at <= |s| && (at < |s| ==> EscapeAt(s, at)) && forall i :: pos <= i < at ==> !EscapeAt(s, i)
  {
    at := pos;
    while at < |s| && !EscapeAt(s, at)
      invariant pos <= at <= |s| && forall i :: pos <= i < at ==> !EscapeAt(s, i)
    {
      at := at + 1;
    }
  }

  lemma {:induction false} UnquoteRun(s: seq<Byte>, pos: nat, at: nat)
    requires pos <= at <= |s| && forall i :: pos <= i < at ==> !EscapeAt(s, i)
    ensures Unquote(s[pos..]) == Before(s[pos..at], Unquote(s[at..]))
    decreases at - pos
  {
    if pos == at {
      BeforeNothing(Unquote(s[at..]));
    } else {
      EscapeShift(s, pos);
      UnquoteRun(s, pos + 1, at);
      assert s[pos..][1..] == s[pos + 1..] && s[pos..at] == [s[pos]] + s[pos + 1..at];
      BeforeBefore([s[pos]], s[pos + 1..at], Unquote(s[at..]));
    }
  }

  lemma EscapeShift(s: seq<Byte>, pos: nat)
    requires pos < |s|
    ensures EscapeAt(s[pos..], 0) <==> EscapeAt(s, pos)
    ensures EscapeAt(s, pos) ==> EscapeValue(s[pos..], 0) == EscapeValue(s, pos)
  {
  }

  method UnquoteBytes(s: seq<Byte>) returns (r: Result<seq<Byte>, Error>)
    ensures r == Unquote(s)
  {
    hide Unquote, EscapeAt;
    var result: seq<Byte> := [];
    var pos := 0;
    assert s[0..] == s;
    BeforeNothing(Unquote(s));
    while pos < |s|
      invariant pos <= |s| && Before(result, Unquote(s[pos..])) == Unquote(s)
    {
      var start := SearchEscape(s, pos);
      UnquoteRun(s, pos, start);
      BeforeBefore(result, s[pos..start], Unquote(s[start..]));
      if start == |s| {
        assert s[pos..|s|] == s[pos..];
        result := result + s[pos..];
        pos := |s|;
      } else {
        UnquoteEscape(s, start);
        var value := EscapeValue(s, start);
        if value > 255 {
          return Err(Overflow);
        }
        var b: Byte := value;
        BeforeBefore(result + s[pos..start], [b], Unquote(s[start + 4..]));
        result := result + s[pos..start] + [b];
        pos := start + 4;
      }
    }
    UnquoteEnd();
    assert s[pos..] == [] && result + [] == result;
    r := Ok(result);
  }

  lemma UnquoteEnd()
    ensures Unquote([]) == Ok([])
  {
  }

  lemma UnquoteEscape(s: seq<Byte>, at: nat)
    requires at < |s| && EscapeAt(s, at)
    ensures at + 4 <= |s|
    ensures Unquote(s[at..])
      == if EscapeValue(s, at) > 255 then Err(Overflow) else Before([EscapeValue(s, at)], Unquote(s[at + 4..]))
  {
    EscapeShift(s, at);
    assert s[at..][4..] == s[at + 4..];
  }

  method DumpAttrs(attrs: seq<(seq<Byte>, seq<Byte>)>) returns (out: seq<Byte>)
    ensures out == AttrText(attrs)
  {
    out := [];
    assert attrs[0..] == attrs;
    for j := 0 to |attrs|
      invariant out + AttrText(attrs[j..]) == AttrText(attrs)
    {
      assert attrs[j..][1..] == attrs[j + 1..];
      var name := QuoteBytes(attrs[j].0, NameChars);
      var value := QuoteBytes(attrs[j].1, ValueChars);
      var line := name + [EQUALS, DQUOTE] + value + [DQUOTE, NEWLINE];
      assert AttrText(attrs[j..]) == line + AttrText(attrs[j + 1..]);
      AppendAssoc(out, line, AttrText(attrs[j + 1..]));
      out := out + line;
    }
    assert out + [] == out;
  }

  method DumpXattrs(files: seq<File>) returns (out: seq<Byte>)
    ensures out == Dump(files)
  {
    hide AttrText;
    out := [];
    assert files[0..] == files;
    for i := 0 to |files|
      invariant out + Dump(files[i..]) == Dump(files)
    {
      var f := files[i];
      assert files[i..][1..] == files[i + 1..];
      if f.attrs != [] {
        var path := QuoteBytes(f.path, PathChars);
        var attrs := DumpAttrs(f.attrs);
        var line := FileMark + path + [NEWLINE];
        assert Dump(files[i..]) == line + attrs + Dump(files[i + 1..]);
        AppendAssoc(out, line + attrs, Dump(files[i + 1..]));
        out := out + (line + attrs);
      }
    }
    assert out + [] == out;
  }

  /** The attributes that are set, in order, and the error that stops the restoration. */
  method RestoreXattrs(text: seq<Byte>) returns (done: seq<Triple>, error: Option<Error>)
    ensures done == Restore(text).done && error == Restore(text).error
  {
    hide Unquote, Lines, Inner, Chomp, StartsWith, IndexOf;
    var path: Option<seq<Byte>> := None;
    var lines := Lines(text);
    done, error := [], None;
    for i := 0 to |lines|
      invariant error == None
      invariant RestoreLines(Replay(done, path, None), lines[i..], i + 1) == Restore(text)
    {
      var line := lines[i];
      ghost var r := Replay(done, path, None);
      assert lines[i..][1..] == lines[i + 1..];
      assert RestoreLines(r, lines[i..], i + 1) == RestoreLines(RestoreLine(r, line, i + 1), lines[i + 1..], i + 2);
      if StartsWith(line, FileMark) {
        var found := UnquoteBytes(BehindMark(Chomp(line)));
        if found.Err? {
          error := Some(found.error);
          return;
        }
        path := Some(found.value);
      } else {
        var at := IndexOf(line, EQUALS);
        if at < |line| {
          if path == None {
            error := Some(MissingPathname(i + 1));
            return;
          }
          var name := UnquoteBytes(line[..at]);
          if name.Err? {
            error := Some(name.error);
            return;
          }
          var value := UnquoteBytes(Inner(Chomp(line[at + 1..])));
          if value.Err? {
            error := Some(value.error);
            return;
          }
          done := done + [Triple(path.value, name.value, value.value)];
        } else if !IsBlank(line) {
          error := Some(Malformed(i + 1));
          return;
        }
      }
    }
  }
}
