/**
 * shquote: printing arguments quoted for the shell, and the reference it is measured against: word
 * splitting and quote removal of sections 2.2.1, 2.2.2 and 2.2.4 of the POSIX.1-2024 Shell Command
 * Language.
 */
module Shquote {
  import opened Bytes
  import opened Sequences
  import opened Utf8
  import opened Wrappers

  const TAB: Byte := 9
  const SPACE: Byte := 32
  const DOLLAR: Byte := 36
  const QUOTE: Byte := 39
  const DEL: Byte := 127

  /** The characters `^#*[]=|\?${}()"<>&;~ and space. */
  const Specials: set<int> := {96, 94, 35, 42, 91, 93, 61, 124, 92, 63, 36, 123, 125, 40, 41, 34, 60, 62, 38, 59, 126, 32}

  predicate IsControl(b: Byte) {
    b < 32 || b == DEL
  }

  // ----- the printer -----

  /** The values of esc, 0 to 2; esc_mode is one of the last two. */
  datatype Style = Verbatim | SingleQuoted | DollarQuoted

  /** POSIXLY_CORRECT, set and not empty, disallows dollar-single quoting. */
  function Mode(posixlyCorrect: Option<seq<Byte>>): Style {
    if posixlyCorrect.Some? && posixlyCorrect.value != [] then SingleQuoted else DollarQuoted
  }

  /** How to print a string, from what is known of it before `at`. */
  function StyleFrom(s: seq<Byte>, at: nat, esc: Style, mode: Style): Style
    requires at <= |s| && IsCString(s)
    decreases |s| - at
  {
    if at == |s| then esc
    else if IsControl(s[at]) || s[at] == QUOTE then mode
    else if s[at] in Specials then
      if mode == SingleQuoted then SingleQuoted else StyleFrom(s, at + 1, SingleQuoted, mode)
    else if CharLen(s, at) < 0 then mode
    else StyleFrom(s, at + CharLen(s, at), esc, mode)
  }

  function SingleBody(s: seq<Byte>): seq<Byte> {
    if s == [] then []
    else (if s[0] == QUOTE then [QUOTE, BACKSLASH, QUOTE, QUOTE] else [s[0]]) + SingleBody(s[1..])
  }

  /** The letter of a backslash escape. */
  function Letter(b: Byte): Option<Byte> {
    if b == 7 then Some(97)
    else if b == 8 then Some(98)
    else if b == 27 then Some(101)
    else if b == 12 then Some(102)
    else if b == 10 then Some(110)
    else if b == 13 then Some(114)
    else if b == 9 then Some(116)
    else if b == 11 then Some(118)
    else if b == BACKSLASH || b == QUOTE then Some(b)
    else None
  }

  /** One step of dollar-single quoting: what is printed, and how many bytes it stands for. */
  function DollarStep(s: seq<Byte>, at: nat): (r: (seq<Byte>, nat))
    requires at < |s| && IsCString(s)
    ensures 1 <= r.1 <= |s| - at
  {
    if Letter(s[at]).Some? then ([BACKSLASH, Letter(s[at]).value], 1)
    else if IsControl(s[at]) || CharLen(s, at) < 0 then (Octal(s[at]), 1)
    else (s[at..at + CharLen(s, at)], CharLen(s, at))
  }

  function DollarBody(s: seq<Byte>, at: nat): seq<Byte>
    requires at <= |s| && IsCString(s)
    decreases |s| - at
  {
    if at == |s| then []
    else DollarStep(s, at).0 + DollarBody(s, at + DollarStep(s, at).1)
  }

  function Quoted(s: seq<Byte>, mode: Style): seq<Byte>
    requires IsCString(s)
  {
    match StyleFrom(s, 0, Verbatim, mode)
    case Verbatim => s
    case SingleQuoted => [QUOTE] + SingleBody(s) + [QUOTE]
    case DollarQuoted => [DOLLAR, QUOTE] + DollarBody(s, 0) + [QUOTE]
  }

  ghost predicate CStrings(args: seq<seq<Byte>>) {
    forall i :: 0 <= i < |args| ==> IsCString(args[i])
  }

  /** All arguments from the first on, each but the first with a space before it, then a newline. */
  function Line(args: seq<seq<Byte>>, first: bool, mode: Style): seq<Byte>
    requires CStrings(args)
  {
    if args == [] then [NEWLINE]
    else (if first then [] else [SPACE]) + Quoted(args[0], mode) + Line(args[1..], false, mode)
  }

  // ----- the shell -----

  /** The characters with a meaning of their own to the shell when they are not quoted. */
  predicate NeedsQuoting(b: Byte) {
    || b in {124, 38, 59, 60, 62, 40, 41, 36, 96, 92, 34, 39}
    || b in {42, 63, 91, 93, 94, 35, 126, 61, 123, 125}
  }

  predicate IsDelimiter(b: Byte) {
    b == SPACE || b == TAB || b == NEWLINE
  }

  datatype Quoting = Unquoted | InSingle | InDollar

  /** A word after quote removal and the input behind it. */
  datatype Token = Token(word: seq<Byte>, rest: seq<Byte>)

  /** How many octal digits, up to three, follow the backslash. */
  function OctalCount(input: seq<Byte>): (n: nat)
    ensures n < |input| || n == 0
  {
    if |input| <= 1 || !IsOctal(input[1]) then 0
    else if |input| <= 2 || !IsOctal(input[2]) then 1
    else if |input| <= 3 || !IsOctal(input[3]) then 2
    else 3
  }

  function OctalValue(digits: seq<Byte>): int {
    if digits == [] then 0 else OctalValue(digits[..|digits| - 1]) * 8 + digits[|digits| - 1] - 48
  }

  /** The byte that a backslash and a letter stand for within dollar-single-quotes. */
  function FromLetter(b: Byte): Option<Byte> {
    if b == 97 then Some(7)
    else if b == 98 then Some(8)
    else if b == 101 then Some(27)
    else if b == 102 then Some(12)
    else if b == 110 then Some(10)
    else if b == 114 then Some(13)
    else if b == 116 then Some(9)
    else if b == 118 then Some(11)
    else if b == BACKSLASH || b == QUOTE || b == 34 then Some(b)
    else None
  }

  /** Read one word; None where the input is not plainly quoted text. */
  function Lex(q: Quoting, input: seq<Byte>, word: seq<Byte>): (t: Option<Token>)
    ensures t.Some? ==> |t.value.rest| <= |input|
    decreases |input|
  {
    if input == [] then None
    else
      var c := input[0];
      match q
      case Unquoted =>
        if IsDelimiter(c) then Some(Token(word, input))
        else if c == QUOTE then Lex(InSingle, input[1..], word)
        else if c == DOLLAR && |input| > 1 && input[1] == QUOTE then Lex(InDollar, input[2..], word)
        else if c == BACKSLASH && |input| > 1 then
          Lex(Unquoted, input[2..], if input[1] == NEWLINE then word else word + [input[1]])
        else if NeedsQuoting(c) then None
        else Lex(Unquoted, input[1..], word + [c])
      case InSingle =>
        if c == QUOTE then Lex(Unquoted, input[1..], word) else Lex(InSingle, input[1..], word + [c])
      case InDollar =>
        if c == QUOTE then Lex(Unquoted, input[1..], word)
        else if c != BACKSLASH then Lex(InDollar, input[1..], word + [c])
        else
          var n := OctalCount(input);
          if n > 0 then
            var v := OctalValue(input[1..n + 1]);
            if 0 < v < 256 then Lex(InDollar, input[n + 1..], word + [v]) else None
          else if |input| > 1 && FromLetter(input[1]).Some? then
            Lex(InDollar, input[2..], word + [FromLetter(input[1]).value])
          else None
  }

  /** The words of one line. */
  function Split(input: seq<Byte>): Option<seq<seq<Byte>>>
    decreases |input|
  {
    if input == [] then None
    else if input[0] == NEWLINE then if |input| == 1 then Some([]) else None
    else if IsDelimiter(input[0]) then Split(input[1..])
    else
      match Lex(Unquoted, input, [])
      case None => None
      case Some(t) =>
        match Split(t.rest)
        case None => None
        case Some(words) => Some([t.word] + words)
  }

  // ----- what the printer prints -----

  /** A byte that may stand unquoted in a word. */
  predicate Plain(b: Byte) {
    !IsControl(b) && b != QUOTE && b !in Specials
  }

  lemma PlainToShell(b: Byte)
    requires Plain(b)
    ensures !NeedsQuoting(b) && !IsDelimiter(b)
  {
  }

  /** A string is printed verbatim only if all its bytes are plain. */
  lemma {:induction false} VerbatimIsPlain(s: seq<Byte>, at: nat, esc: Style, mode: Style)
    requires at <= |s| && IsCString(s) && mode != Verbatim && StyleFrom(s, at, esc, mode) == Verbatim
    ensures esc == Verbatim && forall i :: at <= i < |s| ==> Plain(s[i])
    decreases |s| - at
  {
    if at < |s| {
      if s[at] in Specials {
        VerbatimIsPlain(s, at + 1, SingleQuoted, mode);
      } else {
        CharIsValid(s, at);
        VerbatimIsPlain(s, at + CharLen(s, at), esc, mode);
      }
    }
  }

  lemma {:induction false} VerbatimLexed(s: seq<Byte>, rest: seq<Byte>, word: seq<Byte>)
    requires (forall i :: 0 <= i < |s| ==> Plain(s[i])) && rest != [] && IsDelimiter(rest[0])
    ensures Lex(Unquoted, s + rest, word) == Some(Token(word + s, rest))
  {
    if s == [] {
      assert s + rest == rest && word + s == word;
    } else {
      PlainToShell(s[0]);
      assert (s + rest)[1..] == s[1..] + rest;
      assert word + [s[0]] + s[1..] == word + s;
      VerbatimLexed(s[1..], rest, word + [s[0]]);
    }
  }

  lemma {:induction false} SingleLexed(s: seq<Byte>, rest: seq<Byte>, word: seq<Byte>)
    ensures Lex(InSingle, SingleBody(s) + [QUOTE] + rest, word) == Lex(Unquoted, rest, word + s)
  {
    var input := SingleBody(s) + [QUOTE] + rest;
    if s == [] {
      assert input[1..] == rest && word + s == word;
    } else {
      var later := SingleBody(s[1..]) + [QUOTE] + rest;
      assert word + [s[0]] + s[1..] == word + s;
      SingleLexed(s[1..], rest, word + [s[0]]);
      SingleBodyFirst(s, rest);
      if s[0] == QUOTE {
        QuoteLexed(later, word);
      } else {
        assert input[1..] == later;
      }
    }
  }

  lemma SingleBodyFirst(s: seq<Byte>, rest: seq<Byte>)
    requires s != []
    ensures SingleBody(s) + [QUOTE] + rest
      == (if s[0] == QUOTE then [QUOTE, BACKSLASH, QUOTE, QUOTE] else [s[0]]) + (SingleBody(s[1..]) + [QUOTE] + rest)
  {
    var one := if s[0] == QUOTE then [QUOTE, BACKSLASH, QUOTE, QUOTE] else [s[0]];
    var body := SingleBody(s[1..]);
    assert SingleBody(s) == one + body;
    hide SingleBody;
    assert one + body + [QUOTE] + rest == one + (body + [QUOTE] + rest);
  }

  /** A quote that closes the quotes, an escaped quote and one that opens them again. */
  lemma QuoteLexed(later: seq<Byte>, word: seq<Byte>)
    ensures Lex(InSingle, [QUOTE, BACKSLASH, QUOTE, QUOTE] + later, word) == Lex(InSingle, later, word + [QUOTE])
  {
    var input := [QUOTE, BACKSLASH, QUOTE, QUOTE] + later;
    var closed, escaped := [BACKSLASH, QUOTE, QUOTE] + later, [QUOTE] + later;
    assert input[1..] == closed && closed[2..] == escaped && escaped[1..] == later;
    assert Lex(InSingle, input, word) == Lex(Unquoted, closed, word);
    assert closed[0] == BACKSLASH && closed[1] == QUOTE;
    assert Lex(Unquoted, closed, word) == Lex(Unquoted, escaped, word + [QUOTE]);
  }

  lemma OctalDigits(b: Byte)
    requires b != 0
    ensures IsOctal(48 + b / 64) && IsOctal(48 + b / 8 % 8) && IsOctal(48 + b % 8)
    ensures OctalValue([48 + b / 64, 48 + b / 8 % 8, 48 + b % 8]) == b
  {
    var digits: seq<Byte> := [48 + b / 64, 48 + b / 8 % 8, 48 + b % 8];
    assert digits[..2] == [48 + b / 64, 48 + b / 8 % 8] && digits[..2][..1] == [48 + b / 64];
    assert OctalValue(digits[..2][..1][..0]) == 0;
    assert OctalValue(digits[..2][..1]) == b / 64;
    assert OctalValue(digits[..2]) == b / 64 * 8 + b / 8 % 8;
  }

  lemma OctalLexed(b: Byte, later: seq<Byte>, word: seq<Byte>)
    requires b != 0
    ensures Lex(InDollar, Octal(b) + later, word) == Lex(InDollar, later, word + [b])
  {
    var input := Octal(b) + later;
    OctalDigits(b);
    assert input[1] == Octal(b)[1] && input[2] == Octal(b)[2] && input[3] == Octal(b)[3];
    assert input[1..4] == [48 + b / 64, 48 + b / 8 % 8, 48 + b % 8];
    assert input[4..] == later;
  }

  lemma LetterLexed(b: Byte, later: seq<Byte>, word: seq<Byte>)
    requires Letter(b).Some?
    ensures Lex(InDollar, [BACKSLASH, Letter(b).value] + later, word) == Lex(InDollar, later, word + [b])
  {
    var input := [BACKSLASH, Letter(b).value] + later;
    assert input[2..] == later;
  }

  /** Bytes that are neither a quote nor a backslash stand for themselves. */
  lemma {:induction false} SelfLexed(s: seq<Byte>, later: seq<Byte>, word: seq<Byte>)
    requires forall i :: 0 <= i < |s| ==> s[i] != QUOTE && s[i] != BACKSLASH
    ensures Lex(InDollar, s + later, word) == Lex(InDollar, later, word + s)
  {
    if s == [] {
      assert s + later == later && word + s == word;
    } else {
      assert (s + later)[1..] == s[1..] + later;
      assert word + [s[0]] + s[1..] == word + s;
      SelfLexed(s[1..], later, word + [s[0]]);
    }
  }

  lemma StepLexed(s: seq<Byte>, at: nat, later: seq<Byte>, word: seq<Byte>)
    requires at < |s| && IsCString(s)
    ensures Lex(InDollar, DollarStep(s, at).0 + later, word)
      == Lex(InDollar, later, word + s[at..at + DollarStep(s, at).1])
  {
    assert s[at] in s && s[at..at + 1] == [s[at]];
    if Letter(s[at]).Some? {
      LetterLexed(s[at], later, word);
    } else if IsControl(s[at]) || CharLen(s, at) < 0 {
      OctalLexed(s[at], later, word);
    } else {
      CharIsValid(s, at);
      SelfLexed(s[at..at + CharLen(s, at)], later, word);
    }
  }

  lemma {:induction false} DollarLexed(s: seq<Byte>, at: nat, rest: seq<Byte>, word: seq<Byte>)
    requires at <= |s| && IsCString(s)
    ensures Lex(InDollar, DollarBody(s, at) + [QUOTE] + rest, word) == Lex(Unquoted, rest, word + s[at..])
    decreases |s| - at
  {
    hide DollarStep, IsCString;
    if at == |s| {
      CloseDollar(rest, word);
      assert word + s[at..] == word && [] + [QUOTE] + rest == [QUOTE] + rest;
    } else {
      var (out, n) := DollarStep(s, at);
      var later := DollarBody(s, at + n) + [QUOTE] + rest;
      BetweenQuotes(out, DollarBody(s, at + n), rest);
      assert DollarBody(s, at) == out + DollarBody(s, at + n);
      hide Lex, DollarBody;
      StepLexed(s, at, later, word);
      assert word + s[at..at + n] + s[at + n..] == word + s[at..];
      DollarLexed(s, at + n, rest, word + s[at..at + n]);
    }
  }

  lemma CloseDollar(rest: seq<Byte>, word: seq<Byte>)
    ensures Lex(InDollar, [QUOTE] + rest, word) == Lex(Unquoted, rest, word)
  {
    assert ([QUOTE] + rest)[1..] == rest;
  }

  /** The shell reads one quoted string as one word with the bytes of the string. */
  lemma QuotedLexed(s: seq<Byte>, mode: Style, rest: seq<Byte>)
    requires IsCString(s) && mode != Verbatim && rest != [] && IsDelimiter(rest[0])
    ensures Lex(Unquoted, Quoted(s, mode) + rest, []) == Some(Token(s, rest))
    ensures s != [] ==> Quoted(s, mode) != [] && !IsDelimiter(Quoted(s, mode)[0])
    ensures s == [] ==> Quoted(s, mode) == []
  {
    hide *;
    assert [] + s == s && s[0..] == s;
    QuotedIs(s, mode);
    DelimiterLexed(rest, s);
    match StyleFrom(s, 0, Verbatim, mode)
    case Verbatim =>
      VerbatimIsPlain(s, 0, Verbatim, mode);
      VerbatimLexed(s, rest, []);
      if s != [] {
        PlainToShell(s[0]);
      }
    case SingleQuoted =>
      SingleLexed(s, rest, []);
      BetweenQuotes([QUOTE], SingleBody(s), rest);
      OpenSingle(SingleBody(s) + [QUOTE] + rest);
    case DollarQuoted =>
      DollarLexed(s, 0, rest, []);
      BetweenQuotes([DOLLAR, QUOTE], DollarBody(s, 0), rest);
      OpenDollar(DollarBody(s, 0) + [QUOTE] + rest);
  }

  lemma BetweenQuotes(before: seq<Byte>, body: seq<Byte>, rest: seq<Byte>)
    ensures before + body + [QUOTE] + rest == before + (body + [QUOTE] + rest)
  {
  }

  lemma QuotedIs(s: seq<Byte>, mode: Style)
    requires IsCString(s)
    ensures StyleFrom(s, 0, Verbatim, mode) == Verbatim ==> Quoted(s, mode) == s
    ensures StyleFrom(s, 0, Verbatim, mode) == SingleQuoted ==> Quoted(s, mode) == [QUOTE] + SingleBody(s) + [QUOTE]
    ensures StyleFrom(s, 0, Verbatim, mode) == DollarQuoted ==> Quoted(s, mode) == [DOLLAR, QUOTE] + DollarBody(s, 0) + [QUOTE]
    ensures s == [] ==> StyleFrom(s, 0, Verbatim, mode) == Verbatim
    ensures !IsDelimiter(QUOTE) && !IsDelimiter(DOLLAR)
  {
  }

  lemma DelimiterLexed(rest: seq<Byte>, word: seq<Byte>)
    requires rest != [] && IsDelimiter(rest[0])
    ensures Lex(Unquoted, rest, word) == Some(Token(word, rest))
  {
  }

  lemma OpenSingle(input: seq<Byte>)
    ensures Lex(Unquoted, [QUOTE] + input, []) == Lex(InSingle, input, [])
  {
    assert ([QUOTE] + input)[1..] == input;
  }

  lemma OpenDollar(input: seq<Byte>)
    ensures Lex(Unquoted, [DOLLAR, QUOTE] + input, []) == Lex(InDollar, input, [])
  {
    assert ([DOLLAR, QUOTE] + input)[2..] == input;
  }

  // ----- whole lines -----

  /** The arguments that are printed at all. */
  function NonEmpty(args: seq<seq<Byte>>): seq<seq<Byte>> {
    if args == [] then []
    else (if args[0] == [] then [] else [args[0]]) + NonEmpty(args[1..])
  }

  lemma LineStartsDelimited(args: seq<seq<Byte>>, mode: Style)
    requires CStrings(args)
    ensures Line(args, false, mode) != [] && IsDelimiter(Line(args, false, mode)[0])
  {
  }

  lemma SplitWord(s: seq<Byte>, mode: Style, rest: seq<Byte>)
    requires IsCString(s) && mode != Verbatim && rest != [] && IsDelimiter(rest[0])
    ensures Split(Quoted(s, mode) + rest)
      == if s == [] then Split(rest)
         else if Split(rest) == None then None else Some([s] + Split(rest).value)
  {
    hide Lex, Quoted;
    QuotedLexed(s, mode, rest);
    var input := Quoted(s, mode) + rest;
    if s == [] {
      assert input == rest;
    } else {
      assert input[0] == Quoted(s, mode)[0];
    }
  }

  lemma SplitBlank(rest: seq<Byte>)
    ensures Split([SPACE] + rest) == Split(rest)
  {
    assert ([SPACE] + rest)[1..] == rest;
  }

  lemma LineIs(args: seq<seq<Byte>>, first: bool, mode: Style)
    requires CStrings(args)
    ensures args == [] ==> Line(args, first, mode) == [NEWLINE]
    ensures args != [] ==>
      Line(args, first, mode)
        == (if first then [] else [SPACE]) + (Quoted(args[0], mode) + Line(args[1..], false, mode))
  {
    hide Quoted;
    if args != [] {
      AppendAssoc(if first then [] else [SPACE], Quoted(args[0], mode), Line(args[1..], false, mode));
    }
  }

  /** The shell splits the line into exactly the arguments that are not empty. */
  lemma {:induction false} LineSplits(args: seq<seq<Byte>>, first: bool, mode: Style)
    requires CStrings(args) && mode != Verbatim
    ensures Split(Line(args, first, mode)) == Some(NonEmpty(args))
  {
    hide Line, Split, Quoted, IsCString;
    LineIs(args, first, mode);
    if args == [] {
      SplitEnd();
    } else {
      var later := Line(args[1..], false, mode);
      LineSplits(args[1..], false, mode);
      LineStartsDelimited(args[1..], mode);
      SplitWord(args[0], mode, later);
      var both := Quoted(args[0], mode) + later;
      if first {
        assert Line(args, first, mode) == [] + both == both;
      } else {
        assert Line(args, first, mode) == [SPACE] + both;
        SplitBlank(both);
      }
      assert NonEmpty(args) == if args[0] == [] then NonEmpty(args[1..]) else [args[0]] + NonEmpty(args[1..]);
    }
  }

  lemma SplitEnd()
    ensures Split([NEWLINE]) == Some([])
  {
  }

  /** The shell reads back exactly the arguments if and only if none of them is empty. */
  lemma RoundTrip(args: seq<seq<Byte>>, posixlyCorrect: Option<seq<Byte>>)
    requires CStrings(args)
    ensures Split(Line(args, true, Mode(posixlyCorrect))) == Some(args) <==> forall i :: 0 <= i < |args| ==> args[i] != []
  {
    LineSplits(args, true, Mode(posixlyCorrect));
    NonEmptyAll(args);
  }

  lemma {:induction false} NonEmptyAll(args: seq<seq<Byte>>)
    ensures |NonEmpty(args)| <= |args|
    ensures NonEmpty(args) == args <==> forall i :: 0 <= i < |args| ==> args[i] != []
  {
    if args != [] {
      NonEmptyAll(args[1..]);
      assert args == [args[0]] + args[1..];
      if args[0] != [] {
        assert NonEmpty(args)[1..] == NonEmpty(args[1..]);
        assert (forall i :: 0 <= i < |args| ==> args[i] != []) <==> forall i :: 0 <= i < |args[1..]| ==> args[1..][i] != [];
      }
    }
  }

  // ----- clean output -----

  /** Valid UTF-8 without control bytes. */
  ghost predicate Clean(s: seq<Byte>) {
    ValidUtf8(s) && forall i :: 0 <= i < |s| ==> !IsControl(s[i])
  }

  lemma CleanConcat(s: seq<Byte>, t: seq<Byte>)
    requires Clean(s) && Clean(t)
    ensures Clean(s + t)
  {
    ValidConcat(s, t);
  }

  lemma CleanAscii(s: seq<Byte>)
    requires forall i :: 0 <= i < |s| ==> 32 <= s[i] < 127
    ensures Clean(s)
  {
    ValidAscii(s);
  }

  /** A character that is not a control byte is clean. */
  lemma CleanChar(s: seq<Byte>, at: nat)
    requires at < |s| && IsCString(s) && CharLen(s, at) > 0 && !IsControl(s[at])
    ensures Clean(s[at..at + CharLen(s, at)])
    ensures s[at] < 0x80 ==> CharLen(s, at) == 1
    ensures s[at] != QUOTE ==> QUOTE !in s[at..at + CharLen(s, at)]
  {
    CharIsValid(s, at);
    var c := s[at..at + CharLen(s, at)];
    assert forall i :: 0 <= i < |c| ==> c[i] == s[at + i];
  }

  /** What is not put into dollar-single-quotes, where those are allowed, is clean and has no quote. */
  lemma {:induction false} UndollaredIsClean(s: seq<Byte>, at: nat, esc: Style)
    requires at <= |s| && IsCString(s) && esc != DollarQuoted && StyleFrom(s, at, esc, DollarQuoted) != DollarQuoted
    ensures Clean(s[at..]) && QUOTE !in s[at..]
    decreases |s| - at
  {
    hide Clean, CharLen, IsCString;
    if at == |s| {
      CleanAscii(s[at..]);
    } else if s[at] in Specials {
      UndollaredIsClean(s, at + 1, SingleQuoted);
      CleanAscii([s[at]]);
      assert s[at..] == [s[at]] + s[at + 1..];
      CleanConcat([s[at]], s[at + 1..]);
    } else {
      var end := at + CharLen(s, at);
      CleanChar(s, at);
      UndollaredIsClean(s, end, esc);
      assert s[at..] == s[at..end] + s[end..];
      CleanConcat(s[at..end], s[end..]);
    }
  }

  lemma DollarStepClean(s: seq<Byte>, at: nat)
    requires at < |s| && IsCString(s)
    ensures Clean(DollarStep(s, at).0)
  {
    if Letter(s[at]).Some? {
      CleanAscii(DollarStep(s, at).0);
    } else if IsControl(s[at]) || CharLen(s, at) < 0 {
      CleanAscii(Octal(s[at]));
    } else {
      CleanChar(s, at);
    }
  }

  lemma {:induction false} DollarBodyClean(s: seq<Byte>, at: nat)
    requires at <= |s| && IsCString(s)
    ensures Clean(DollarBody(s, at))
    decreases |s| - at
  {
    hide Clean, DollarStep;
    if at == |s| {
      CleanAscii([]);
    } else {
      DollarStepClean(s, at);
      DollarBodyClean(s, at + DollarStep(s, at).1);
      CleanConcat(DollarStep(s, at).0, DollarBody(s, at + DollarStep(s, at).1));
    }
  }

  lemma {:induction false} SingleBodySame(s: seq<Byte>)
    requires QUOTE !in s
    ensures SingleBody(s) == s
  {
    if s != [] {
      SingleBodySame(s[1..]);
      assert s == [s[0]] + s[1..];
    }
  }

  lemma QuotedClean(s: seq<Byte>)
    requires IsCString(s)
    ensures Clean(Quoted(s, DollarQuoted))
  {
    CleanAscii([QUOTE]);
    CleanAscii([DOLLAR, QUOTE]);
    hide *;
    QuotedIs(s, DollarQuoted);
    if StyleFrom(s, 0, Verbatim, DollarQuoted) == DollarQuoted {
      DollarBodyClean(s, 0);
      CleanConcat([DOLLAR, QUOTE], DollarBody(s, 0));
      CleanConcat([DOLLAR, QUOTE] + DollarBody(s, 0), [QUOTE]);
    } else {
      UndollaredIsClean(s, 0, Verbatim);
      assert s[0..] == s;
      SingleBodySame(s);
      CleanConcat([QUOTE], s);
      CleanConcat([QUOTE] + s, [QUOTE]);
    }
  }

  /**
   * Without POSIXLY_CORRECT, whatever the arguments are, the output is a line of valid UTF-8 with no
   * control byte before the final newline.
   */
  lemma {:induction false} LineClean(args: seq<seq<Byte>>, first: bool)
    requires CStrings(args)
    ensures
      var line := Line(args, first, DollarQuoted);
      && line != [] && line[|line| - 1] == NEWLINE && ValidUtf8(line)
      && Clean(line[..|line| - 1])
  {
    hide Clean, Quoted, Line, IsCString, ValidUtf8;
    var line := Line(args, first, DollarQuoted);
    LineIs(args, first, DollarQuoted);
    if args == [] {
      CleanAscii([]);
      ValidAscii([NEWLINE]);
      assert line[..0] == [];
    } else {
      var before, q, later := if first then [] else [SPACE], Quoted(args[0], DollarQuoted), Line(args[1..], false, DollarQuoted);
      LineClean(args[1..], false);
      QuotedClean(args[0]);
      CleanAscii(before);
      CleanConcat(before, q);
      CleanConcat(before + q, later[..|later| - 1]);
      CleanIsValid(before + q);
      ValidConcat(before + q, later);
      assert line == before + q + later;
      assert line[..|line| - 1] == before + q + later[..|later| - 1];
    }
  }

  lemma CleanIsValid(s: seq<Byte>)
    requires Clean(s)
    ensures ValidUtf8(s)
  {
  }

  // ----- the loops -----

  method FindStyle(s: seq<Byte>, mode: Style) returns (esc: Style)
    requires IsCString(s) && mode != Verbatim
    ensures esc == StyleFrom(s, 0, Verbatim, mode)
  {
    var t := 0;
    esc := Verbatim;
    while t < |s|
      invariant t <= |s|
      invariant StyleFrom(s, t, esc, mode) == StyleFrom(s, 0, Verbatim, mode)
      decreases |s| - t
    {
      if IsControl(s[t]) || s[t] == QUOTE {
        return mode;
      } else if s[t] in Specials {
        esc := SingleQuoted;
        if esc == mode {
          return;
        }
        t := t + 1;
      } else {
        var l, ignored := U8decode(s, t, 0);
        if l < 0 {
          return mode;
        }
        t := t + l;
      }
    }
  }

  method PrintSingle(out: seq<Byte>, s: seq<Byte>) returns (r: seq<Byte>)
    ensures r == out + SingleBody(s)
  {
    r := out;
    for k := 0 to |s|
      invariant r + SingleBody(s[k..]) == out + SingleBody(s)
    {
      var one := if s[k] == QUOTE then [QUOTE, BACKSLASH, QUOTE, QUOTE] else [s[k]];
      assert s[k..][1..] == s[k + 1..];
      assert r + (one + SingleBody(s[k + 1..])) == r + one + SingleBody(s[k + 1..]);
      r := r + one;
    }
  }

  lemma DollarBodyStep(s: seq<Byte>, k: nat, r: seq<Byte>)
    requires k < |s| && IsCString(s)
    ensures r + DollarBody(s, k) == r + DollarStep(s, k).0 + DollarBody(s, k + DollarStep(s, k).1)
  {
    assert DollarBody(s, k) == DollarStep(s, k).0 + DollarBody(s, k + DollarStep(s, k).1);
  }

  method PrintDollar(out: seq<Byte>, s: seq<Byte>) returns (r: seq<Byte>)
    requires IsCString(s)
    ensures r == out + DollarBody(s, 0)
  {
    hide DollarBody;
    r := out;
    var k := 0;
    while k < |s|
      invariant k <= |s|
      invariant r + DollarBody(s, k) == out + DollarBody(s, 0)
      decreases |s| - k
    {
      DollarBodyStep(s, k, r);
      var letter := Letter(s[k]);
      if letter.Some? {
        r := r + [BACKSLASH, letter.value];
        k := k + 1;
      } else {
        var l, ignored := U8decode(s, k, 0);
        if IsControl(s[k]) || l < 0 {
          r := r + Octal(s[k]);
          k := k + 1;
        } else {
          r := r + s[k..k + l];
          k := k + l;
        }
      }
    }
    DollarBodyEnd(s);
  }

  lemma DollarBodyEnd(s: seq<Byte>)
    requires IsCString(s)
    ensures DollarBody(s, |s|) == []
  {
  }

  lemma Between(out: seq<Byte>, a: seq<Byte>, body: seq<Byte>, z: seq<Byte>)
    ensures out + a + body + z == out + (a + body + z)
  {
  }

  method PrintShquoted(out: seq<Byte>, s: seq<Byte>, mode: Style) returns (r: seq<Byte>)
    requires IsCString(s) && mode != Verbatim
    ensures r == out + Quoted(s, mode)
  {
    hide SingleBody, DollarBody, StyleFrom;
    var esc := FindStyle(s, mode);
    match esc
    case Verbatim =>
      r := out + s;
    case SingleQuoted =>
      r := PrintSingle(out + [QUOTE], s);
      r := r + [QUOTE];
      Between(out, [QUOTE], SingleBody(s), [QUOTE]);
    case DollarQuoted =>
      r := PrintDollar(out + [DOLLAR, QUOTE], s);
      r := r + [QUOTE];
      Between(out, [DOLLAR, QUOTE], DollarBody(s, 0), [QUOTE]);
  }

  /** What follows the arguments printed so far, when one more is printed. */
  lemma LineMore(out: seq<Byte>, args: seq<seq<Byte>>, i: nat, mode: Style)
    requires CStrings(args) && i < |args|
    ensures out + Line(args[i..], i == 0, mode)
      == (if i > 0 then out + [SPACE] else out) + Quoted(args[i], mode) + Line(args[i + 1..], false, mode)
  {
    assert args[i..][1..] == args[i + 1..];
    LineIs(args[i..], i == 0, mode);
    hide Line, Quoted;
    var q, later := Quoted(args[i], mode), Line(args[i + 1..], false, mode);
    var before := if i == 0 then [] else [SPACE];
    AppendAssoc(out, before, q + later);
    AppendAssoc(out + before, q, later);
    assert out + [] == out;
  }

  /** The whole output for the arguments. */
  method PrintLine(args: seq<seq<Byte>>, posixlyCorrect: Option<seq<Byte>>) returns (out: seq<Byte>)
    requires CStrings(args)
    ensures out == Line(args, true, Mode(posixlyCorrect))
  {
    hide Line, Quoted;
    var mode := if posixlyCorrect.Some? && posixlyCorrect.value != [] then SingleQuoted else DollarQuoted;
    out := [];
    assert args[0..] == args && [] + Line(args, true, mode) == Line(args, true, mode);
    for i := 0 to |args|
      invariant out + Line(args[i..], i == 0, mode) == Line(args, true, mode)
    {
      LineMore(out, args, i, mode);
      if i > 0 {
        out := out + [SPACE];
      }
      out := PrintShquoted(out, args[i], mode);
    }
    LineIs(args[|args|..], |args| == 0, mode);
    out := out + [NEWLINE];
  }
}
