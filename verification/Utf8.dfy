/**
 * UTF-8: the encoding of section 3 of RFC 3629 as the reference, and the decoder u8decode of
 * shquote.c, which reads a string up to its terminating NUL.
 */
module Utf8 {
  import opened Bytes

  /** The code points that may be encoded: no surrogates, none above 10FFFF; strings hold no NUL. */
  predicate IsScalar(cp: int) {
    0 < cp < 0x11_0000 && !(0xD800 <= cp < 0xE000)
  }

  function Encode(cp: int): (r: seq<Byte>)
    requires IsScalar(cp)
    ensures 1 <= |r| <= 4
  {
    if cp < 0x80 then [cp]
    else if cp < 0x800 then [0xC0 + cp / 64, 0x80 + cp % 64]
    else if cp < 0x1_0000 then [0xE0 + cp / 4096, 0x80 + cp / 64 % 64, 0x80 + cp % 64]
    else [0xF0 + cp / 0x4_0000, 0x80 + cp / 4096 % 64, 0x80 + cp / 64 % 64, 0x80 + cp % 64]
  }

  ghost predicate AllScalars(cps: seq<int>) {
    forall i :: 0 <= i < |cps| ==> IsScalar(cps[i])
  }

  ghost function EncodeAll(cps: seq<int>): seq<Byte>
    requires AllScalars(cps)
  {
    if cps == [] then [] else Encode(cps[0]) + EncodeAll(cps[1..])
  }

  ghost predicate ValidUtf8(s: seq<Byte>) {
    exists cps :: AllScalars(cps) && s == EncodeAll(cps)
  }

  lemma {:induction false} EncodeAllConcat(a: seq<int>, b: seq<int>)
    requires AllScalars(a) && AllScalars(b)
    ensures EncodeAll(a + b) == EncodeAll(a) + EncodeAll(b)
  {
    if a == [] {
      assert a + b == b;
    } else {
      assert (a + b)[1..] == a[1..] + b;
      EncodeAllConcat(a[1..], b);
    }
  }

  lemma ValidConcat(s: seq<Byte>, t: seq<Byte>)
    requires ValidUtf8(s) && ValidUtf8(t)
    ensures ValidUtf8(s + t)
  {
    var a :| AllScalars(a) && s == EncodeAll(a);
    var b :| AllScalars(b) && t == EncodeAll(b);
    EncodeAllConcat(a, b);
  }

  lemma ValidOne(cp: int)
    requires IsScalar(cp)
    ensures ValidUtf8(Encode(cp))
  {
    assert EncodeAll([cp]) == Encode(cp) + EncodeAll([]);
  }

  lemma {:induction false} ValidAscii(s: seq<Byte>)
    requires forall i :: 0 <= i < |s| ==> 0 < s[i] < 0x80
    ensures ValidUtf8(s)
  {
    if s == [] {
      assert EncodeAll([]) == [];
    } else {
      ValidOne(s[0]);
      ValidAscii(s[1..]);
      ValidConcat([s[0]], s[1..]);
    }
  }

  // ----- the decoder -----

  /** A string without NUL in it, as C holds it. */
  predicate IsCString(s: seq<Byte>) {
    forall b | b in s :: b != 0
  }

  /** The byte at `i`: the terminating NUL may be read, nothing behind it. */
  function Peek(s: seq<Byte>, i: nat): Byte
    requires i <= |s|
  {
    if i < |s| then s[i] else 0
  }

  /** A continuation byte: its two high bits are 10. */
  predicate IsTail(b: Byte) {
    0x80 <= b < 0xC0
  }

  /** The `n` continuation bytes from `i` on, shifted into `cp`; a negative length when one is missing. */
  function Tails(s: seq<Byte>, at: nat, i: nat, cp: nat, n: nat): (int, nat)
    requires at <= i <= |s|
    decreases n
  {
    if n == 0 then (i - at, cp)
    else if !IsTail(Peek(s, i)) then (-1, cp)
    else Tails(s, at, i + 1, cp * 64 + Peek(s, i) % 64, n - 1)
  }

  /** The length of the character at `at` and its code point; -1 when it is not one. */
  function Decode(s: seq<Byte>, at: nat, cp: nat): (int, nat)
    requires at <= |s|
  {
    var b := Peek(s, at);
    if b == 0 then (0, 0)
    else if b < 0x80 then (1, b)
    else if b < 0xC2 then (-1, cp)
    else if b < 0xE0 then Tails(s, at, at + 1, b % 0x20, 1)
    else if b < 0xF0 then
      if b == 0xE0 && 0x80 <= Peek(s, at + 1) < 0xA0 then (-1, cp)
      else if b == 0xED && 0xA0 <= Peek(s, at + 1) < 0xC0 then (-1, cp)
      else Tails(s, at, at + 1, b % 0x10, 2)
    else if b < 0xF5 then
      if b == 0xF0 && 0x80 <= Peek(s, at + 1) < 0x90 then (-1, cp)
      else if b == 0xF4 && Peek(s, at + 1) > 0x8F then (-1, cp)
      else Tails(s, at, at + 1, b % 8, 3)
    else (-1, cp)
  }

  /** Whether the encoding of `cp` stands at `at`. */
  ghost predicate EncodedAt(s: seq<Byte>, at: nat, cp: int) {
    IsScalar(cp) && at + |Encode(cp)| <= |s| && s[at..at + |Encode(cp)|] == Encode(cp)
  }

  lemma Digits(x: nat, y: nat)
    requires y < 64
    ensures (x * 64 + y) / 64 == x && (x * 64 + y) % 64 == y
  {
  }

  lemma DigitsOf3(x: nat, y: nat, z: nat)
    requires y < 64 && z < 64
    ensures var cp := (x * 64 + y) * 64 + z; cp / 4096 == x && cp / 64 % 64 == y && cp % 64 == z
  {
    Digits(x * 64 + y, z);
    Digits(x, y);
  }

  lemma DigitsOf4(w: nat, x: nat, y: nat, z: nat)
    requires x < 64 && y < 64 && z < 64
    ensures
      var cp := ((w * 64 + x) * 64 + y) * 64 + z;
      cp / 0x4_0000 == w && cp / 4096 % 64 == x && cp / 64 % 64 == y && cp % 64 == z
  {
    DigitsOf3(w * 64 + x, y, z);
    Digits(w, x);
  }

  /** All continuation bytes are there. */
  ghost predicate HasTails(s: seq<Byte>, i: nat, n: nat) {
    i + n <= |s| && forall k :: i <= k < i + n ==> IsTail(s[k])
  }

  lemma TailsOf2(s: seq<Byte>, at: nat, cp: nat)
    requires at < |s| && IsCString(s)
    ensures
      if HasTails(s, at + 1, 1) then Tails(s, at, at + 1, cp, 1) == (2, cp * 64 + s[at + 1] % 64)
      else Tails(s, at, at + 1, cp, 1).0 == -1
  {
    TailAt(s, at + 1);
  }

  lemma TailsOf3(s: seq<Byte>, at: nat, cp: nat)
    requires at < |s| && IsCString(s)
    ensures
      if HasTails(s, at + 1, 2) then
        Tails(s, at, at + 1, cp, 2) == (3, (cp * 64 + s[at + 1] % 64) * 64 + s[at + 2] % 64)
      else Tails(s, at, at + 1, cp, 2).0 == -1
  {
    TailAt(s, at + 1);
    if HasTails(s, at + 1, 1) {
      TailAt(s, at + 2);
    }
  }

  lemma TailsOf4(s: seq<Byte>, at: nat, cp: nat)
    requires at < |s| && IsCString(s)
    ensures
      if HasTails(s, at + 1, 3) then
        Tails(s, at, at + 1, cp, 3)
          == (4, ((cp * 64 + s[at + 1] % 64) * 64 + s[at + 2] % 64) * 64 + s[at + 3] % 64)
      else Tails(s, at, at + 1, cp, 3).0 == -1
  {
    TailAt(s, at + 1);
    if HasTails(s, at + 1, 1) {
      TailAt(s, at + 2);
      if HasTails(s, at + 1, 2) {
        TailAt(s, at + 3);
      }
    }
  }

  /** The terminating NUL is no continuation byte. */
  lemma TailAt(s: seq<Byte>, i: nat)
    requires i <= |s|
    ensures IsTail(Peek(s, i)) <==> i < |s| && IsTail(s[i])
  {
  }

  /** The bytes that may start a character, with the second bytes that the first one allows. */
  predicate Starts2(b: Byte) {
    0xC2 <= b < 0xE0
  }

  predicate Starts3(b: Byte, c: Byte) {
    0xE0 <= b < 0xF0 && (b == 0xE0 ==> c >= 0xA0) && (b == 0xED ==> c < 0xA0)
  }

  predicate Starts4(b: Byte, c: Byte) {
    0xF0 <= b < 0xF5 && (b == 0xF0 ==> c >= 0x90) && (b == 0xF4 ==> c < 0x90)
  }

  function Assemble2(b: int, c: int): int {
    b % 0x20 * 64 + c % 64
  }

  function Assemble3(b: int, c: int, d: int): int {
    (b % 0x10 * 64 + c % 64) * 64 + d % 64
  }

  function Assemble4(b: int, c: int, d: int, e: int): int {
    ((b % 8 * 64 + c % 64) * 64 + d % 64) * 64 + e % 64
  }

  lemma Bytes2(b: Byte, c: Byte, cp: int)
    requires 0x80 <= cp < 0x800
    ensures Encode(cp) == [b, c] <==> Starts2(b) && IsTail(c) && cp == Assemble2(b, c)
  {
    if Starts2(b) && IsTail(c) && cp == Assemble2(b, c) {
      Digits(b % 0x20, c % 64);
    }
    if Encode(cp) == [b, c] {
      assert b == 0xC0 + cp / 64 && c == 0x80 + cp % 64;
    }
  }

  lemma Bytes3(b: Byte, c: Byte, d: Byte, cp: int)
    requires 0x800 <= cp < 0x1_0000 && IsScalar(cp)
    ensures Encode(cp) == [b, c, d]
      <==> (Starts3(b, c) && IsTail(c) && IsTail(d) && cp == Assemble3(b, c, d))
  {
    if Starts3(b, c) && IsTail(c) && IsTail(d) && cp == Assemble3(b, c, d) {
      DigitsOf3(b % 0x10, c % 64, d % 64);
      assert b == 0xE0 + b % 0x10 && c == 0x80 + c % 64 && d == 0x80 + d % 64;
    }
    if Encode(cp) == [b, c, d] {
      Assembled3(b, c, d, cp);
    }
  }

  lemma Assembled3(b: Byte, c: Byte, d: Byte, cp: int)
    requires 0x800 <= cp < 0x1_0000 && IsScalar(cp)
    requires b == 0xE0 + cp / 4096 && c == 0x80 + cp / 64 % 64 && d == 0x80 + cp % 64
    ensures Starts3(b, c) && IsTail(c) && IsTail(d) && cp == Assemble3(b, c, d)
  {
    var x := cp / 64;
    assert x / 64 == cp / 4096;
    assert cp == x * 64 + cp % 64 && x == x / 64 * 64 + x % 64;
    assert b % 0x10 == x / 64 && c % 64 == x % 64 && d % 64 == cp % 64;
  }

  lemma Bytes4(b: Byte, c: Byte, d: Byte, e: Byte, cp: int)
    requires 0x1_0000 <= cp < 0x11_0000
    ensures Encode(cp) == [b, c, d, e]
      <==> (Starts4(b, c) && IsTail(c) && IsTail(d) && IsTail(e) && cp == Assemble4(b, c, d, e))
  {
    if Starts4(b, c) && IsTail(c) && IsTail(d) && IsTail(e) && cp == Assemble4(b, c, d, e) {
      DigitsOf4(b % 8, c % 64, d % 64, e % 64);
      assert b == 0xF0 + b % 8 && c == 0x80 + c % 64 && d == 0x80 + d % 64 && e == 0x80 + e % 64;
    }
    if Encode(cp) == [b, c, d, e] {
      Assembled4(b, c, d, e, cp);
    }
  }

  lemma Assembled4(b: Byte, c: Byte, d: Byte, e: Byte, cp: int)
    requires 0x1_0000 <= cp < 0x11_0000
    requires b == 0xF0 + cp / 0x4_0000 && c == 0x80 + cp / 4096 % 64 && d == 0x80 + cp / 64 % 64 && e == 0x80 + cp % 64
    ensures Starts4(b, c) && IsTail(c) && IsTail(d) && IsTail(e) && cp == Assemble4(b, c, d, e)
  {
    var x, y := cp / 64, cp / 4096;
    assert x / 64 == y && y / 64 == cp / 0x4_0000;
    assert cp == x * 64 + cp % 64 && x == y * 64 + x % 64 && y == y / 64 * 64 + y % 64;
    assert b % 8 == y / 64 && c % 64 == y % 64 && d % 64 == x % 64 && e % 64 == cp % 64;
  }

  /** Bytes that look like a character assemble to a code point of that length. */
  lemma Ranges(b: Byte, c: Byte, d: Byte, e: Byte)
    requires IsTail(c)
    ensures Starts2(b) ==> 0x80 <= Assemble2(b, c) < 0x800
    ensures Starts3(b, c) ==> 0x800 <= Assemble3(b, c, d) < 0x1_0000 && IsScalar(Assemble3(b, c, d))
    ensures Starts4(b, c) ==> 0x1_0000 <= Assemble4(b, c, d, e) < 0x11_0000
  {
  }

  lemma SliceOf2(s: seq<Byte>, at: nat)
    requires at + 2 <= |s|
    ensures s[at..at + 2] == [s[at], s[at + 1]]
  {
  }

  lemma SliceOf3(s: seq<Byte>, at: nat)
    requires at + 3 <= |s|
    ensures s[at..at + 3] == [s[at], s[at + 1], s[at + 2]]
  {
  }

  lemma SliceOf4(s: seq<Byte>, at: nat)
    requires at + 4 <= |s|
    ensures s[at..at + 4] == [s[at], s[at + 1], s[at + 2], s[at + 3]]
  {
  }

  /** What is decoded is the encoding of a code point. */
  lemma DecodeSound(s: seq<Byte>, at: nat, cp: nat)
    requires at < |s| && IsCString(s) && Decode(s, at, cp).0 >= 0
    ensures
      var (len, found) := Decode(s, at, cp);
      EncodedAt(s, at, found) && len == |Encode(found)|
  {
    var b := s[at];
    assert b in s;
    if b < 0x80 {
      assert s[at..at + 1] == [b];
    } else if b < 0xE0 {
      TailsOf2(s, at, b % 0x20);
      SliceOf2(s, at);
      Ranges(b, s[at + 1], 0, 0);
      Bytes2(b, s[at + 1], Assemble2(b, s[at + 1]));
    } else if b < 0xF0 {
      TailsOf3(s, at, b % 0x10);
      SliceOf3(s, at);
      Ranges(b, s[at + 1], s[at + 2], 0);
      Bytes3(b, s[at + 1], s[at + 2], Assemble3(b, s[at + 1], s[at + 2]));
    } else {
      TailsOf4(s, at, b % 8);
      SliceOf4(s, at);
      Ranges(b, s[at + 1], s[at + 2], s[at + 3]);
      Bytes4(b, s[at + 1], s[at + 2], s[at + 3], Assemble4(b, s[at + 1], s[at + 2], s[at + 3]));
    }
  }

  /** Every code point that is encoded there is decoded. */
  lemma DecodeComplete(s: seq<Byte>, at: nat, cp: nat, there: int)
    requires EncodedAt(s, at, there) && IsCString(s)
    ensures Decode(s, at, cp) == (|Encode(there)|, there)
  {
    var b := s[at];
    assert b == s[at..at + |Encode(there)|][0];
    if there < 0x80 {
    } else if there < 0x800 {
      SliceOf2(s, at);
      Bytes2(b, s[at + 1], there);
      TailsOf2(s, at, b % 0x20);
    } else if there < 0x1_0000 {
      SliceOf3(s, at);
      Bytes3(b, s[at + 1], s[at + 2], there);
      TailsOf3(s, at, b % 0x10);
    } else {
      SliceOf4(s, at);
      Bytes4(b, s[at + 1], s[at + 2], s[at + 3], there);
      TailsOf4(s, at, b % 8);
    }
  }

  /** The first bytes pass all guards, so the decoder has assigned the code point and looks for the rest. */
  predicate Committed(s: seq<Byte>, at: nat)
    requires at < |s|
  {
    var b, c := s[at], Peek(s, at + 1);
    && 0xC2 <= b < 0xF5
    && !(b == 0xE0 && 0x80 <= c < 0xA0)
    && !(b == 0xED && 0xA0 <= c < 0xC0)
    && !(b == 0xF0 && 0x80 <= c < 0x90)
    && !(b == 0xF4 && c > 0x8F)
  }

  /**
   * When decoding fails, the code point keeps its value, whatever that was, exactly when the decoder was
   * not committed; otherwise what it becomes does not depend on what it was.
   */
  lemma KeptOnFailure(s: seq<Byte>, at: nat)
    requires at < |s| && IsCString(s) && Decode(s, at, 0).0 < 0
    ensures (forall cp: nat :: Decode(s, at, cp) == (-1, cp)) <==> !Committed(s, at)
    ensures Committed(s, at) ==> forall cp: nat :: Decode(s, at, cp) == Decode(s, at, 0)
  {
    hide Tails;
    assert s[at] in s;
    TailsFail(s, at, s[at] % 0x20, 1);
    TailsFail(s, at, s[at] % 0x10, 2);
    TailsFail(s, at, s[at] % 8, 3);
    if Committed(s, at) {
      assert Decode(s, at, 0) == Decode(s, at, 0x20_0000);
      assert Decode(s, at, 0).1 != 0 || Decode(s, at, 1).1 != 1;
    }
  }

  lemma TailsFail(s: seq<Byte>, at: nat, cp: nat, n: nat)
    requires at < |s|
    ensures Tails(s, at, at + 1, cp, n).0 >= 0 || Tails(s, at, at + 1, cp, n).0 == -1
  {
    TailsResult(s, at, at + 1, cp, n);
  }

  lemma {:induction false} TailsResult(s: seq<Byte>, at: nat, i: nat, cp: nat, n: nat)
    requires at <= i <= |s|
    ensures Tails(s, at, i, cp, n).0 >= 0 || Tails(s, at, i, cp, n).0 == -1
    decreases n
  {
    if n > 0 && IsTail(Peek(s, i)) {
      TailsResult(s, at, i + 1, cp * 64 + Peek(s, i) % 64, n - 1);
    }
  }

  /** What the comment before u8decode excludes: the code point is changed by invalid input. */
  lemma DecodeChangesOnFailure(cp: nat)
    ensures Decode([0xC3], 0, cp) == (-1, 3)
  {
  }

  method U8decode(s: seq<Byte>, at: nat, before: nat) returns (len: int, cp: nat)
    requires at <= |s| && IsCString(s)
    ensures (len, cp) == Decode(s, at, before)
    ensures len == -1 || at + len <= |s|
    ensures at < |s| ==> len != 0
  {
    cp := before;
    var b := Peek(s, at);
    var tails := 0;
    if b == 0 {
      assert at < |s| ==> b in s;
      return 0, 0;
    }
    if b < 0x80 {
      return 1, b;
    }
    if b < 0xC2 {
      return -1, cp;
    }
    if b < 0xE0 {
      cp, tails := b % 0x20, 1;
    } else if b < 0xF0 {
      if (b == 0xE0 && 0x80 <= Peek(s, at + 1) < 0xA0) || (b == 0xED && 0xA0 <= Peek(s, at + 1) < 0xC0) {
        return -1, cp;
      }
      cp, tails := b % 0x10, 2;
    } else if b < 0xF5 {
      if (b == 0xF0 && 0x80 <= Peek(s, at + 1) < 0x90) || (b == 0xF4 && Peek(s, at + 1) > 0x8F) {
        return -1, cp;
      }
      cp, tails := b % 8, 3;
    } else {
      return -1, cp;
    }
    var i := at + 1;
    while tails > 0
      invariant at < i <= |s|
      invariant Tails(s, at, i, cp, tails) == Decode(s, at, before)
      decreases tails
    {
      if !IsTail(Peek(s, i)) {
        return -1, cp;
      }
      cp := cp * 64 + Peek(s, i) % 64;
      i, tails := i + 1, tails - 1;
    }
    len := i - at;
  }

  /** The length of the character at `at`, or -1. */
  function CharLen(s: seq<Byte>, at: nat): (l: int)
    requires at < |s| && IsCString(s)
    ensures l == -1 || 1 <= l <= |s| - at
  {
    var l := Decode(s, at, 0).0;
    if l < 0 then -1
    else
      DecodeSound(s, at, 0);
      l
  }

  lemma EncodeHigh(cp: int)
    requires IsScalar(cp)
    ensures if Encode(cp)[0] < 0x80 then |Encode(cp)| == 1 else forall i :: 0 <= i < |Encode(cp)| ==> Encode(cp)[i] >= 0x80
  {
  }

  lemma CharAt(s: seq<Byte>, at: nat) returns (cp: int)
    requires at < |s| && IsCString(s) && CharLen(s, at) > 0
    ensures IsScalar(cp) && s[at..at + CharLen(s, at)] == Encode(cp)
  {
    hide Decode, Encode;
    DecodeSound(s, at, 0);
    cp := Decode(s, at, 0).1;
  }

  /** The bytes of a character are a valid string, and ASCII only where they are a single byte. */
  lemma CharIsValid(s: seq<Byte>, at: nat)
    requires at < |s| && IsCString(s) && CharLen(s, at) > 0
    ensures ValidUtf8(s[at..at + CharLen(s, at)])
    ensures s[at] < 0x80 ==> CharLen(s, at) == 1
    ensures s[at] >= 0x80 ==> forall i :: at <= i < at + CharLen(s, at) ==> s[i] >= 0x80
  {
    hide *;
    var cp := CharAt(s, at);
    var c := s[at..at + CharLen(s, at)];
    ValidOne(cp);
    EncodeHigh(cp);
    assert forall i :: at <= i < at + CharLen(s, at) ==> s[i] == c[i - at];
  }
}
