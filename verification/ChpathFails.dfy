/**
 * Prefixes for which a file is restored although the new prefix is found at a wrong place.
 */
module ChpathFails {
  import opened Bytes
  import opened Chpath
  import opened ChpathBack
  import opened ChpathWrong
  import opened Wrappers

  // ----- tools -----

  lemma Mismatch(data: seq<Byte>, pat: seq<Byte>, at: nat, y: nat)
    requires y < |pat| && (at + y < |data| ==> data[at + y] != pat[y])
    ensures !Occurs(data, pat, at)
  {
    if at + |pat| <= |data| {
      assert data[at..at + |pat|][y] == data[at + y];
    }
  }

  lemma Stands(data: seq<Byte>, pat: seq<Byte>, at: nat)
    requires at + |pat| <= |data| && forall h :: at <= h < at + |pat| ==> data[h] == pat[h - at]
    ensures Occurs(data, pat, at)
  {
    var part := data[at..at + |pat|];
    assert forall y :: 0 <= y < |pat| ==> part[y] == pat[y];
  }

  /** Behind slashes only, from `pos` on, the new prefix is found where its first other byte allows. */
  lemma FoundBehindSlashes(data: seq<Byte>, dst: seq<Byte>, pos: nat, at: nat)
    requires Lead(dst) < |dst| && pos <= at && at + |dst| <= |data|
    requires forall h :: at <= h < at + |dst| ==> data[h] == dst[h - at]
    requires forall h :: pos + Lead(dst) <= h < at + Lead(dst) ==> data[h] == SLASH
    ensures Find(data, dst, pos) == Some(at)
  {
    Stands(data, dst, at);
    forall p: nat | pos <= p < at
      ensures !Occurs(data, dst, p)
    {
      Mismatch(data, dst, p, Lead(dst));
    }
    FirstAt(data, dst, pos, at);
  }

  /** The same from the start of a file that begins with another byte. */
  lemma FoundFirst(data: seq<Byte>, dst: seq<Byte>, at: nat)
    requires Lead(dst) < |dst| && 0 < at && at + |dst| <= |data|
    requires data[0] != SLASH && data[0] != dst[Lead(dst)]
    requires forall h :: at <= h < at + |dst| ==> data[h] == dst[h - at]
    requires forall h :: 1 <= h < at + Lead(dst) ==> data[h] == SLASH
    ensures Find(data, dst, 0) == Some(at)
  {
    FoundBehindSlashes(data, dst, 1, at);
    Mismatch(data, dst, 0, 0);
  }

  /** A replacement, given the file afterwards. */
  lemma ReplacedBytes(data: seq<Byte>, at: nat, src: seq<Byte>, dst: seq<Byte>, next: seq<Byte>, q: nat)
    requires |dst| < |src| && at + |dst| <= |data| && SlashRun(data, at) < at
    requires q == at - if SlashRun(data, at) < |src| - |dst| then SlashRun(data, at) else |src| - |dst|
    requires q + |src| <= |next| == |data|
    requires forall h :: 0 <= h < |data| ==> next[h] == if q <= h < q + |src| then src[h - q] else data[h]
    ensures Replaced(false, data, at, dst, src) == (next, q + |src|)
  {
    var p := Putting(data, at, src, dst);
    hide SlashRun, Replaced;
    var (r, stop) := Replaced(false, data, at, dst, src);
    assert |r| == |next| && forall h :: 0 <= h < |next| ==> r[h] == next[h];
    assert r == next;
  }

  /** A conversion with one match. */
  lemma OneStep(orig: seq<Byte>, src: seq<Byte>, dst: seq<Byte>, start: nat)
    requires |dst| <= |src| && Find(orig, src, 0) == Some(start) && SlashRun(orig, start) < start
    requires |orig| < start + |src| + |src|
    ensures
      Rewrite(false, orig, 0, src, dst)
        == Outcome(orig[..start] + Padded(src, dst) + orig[start + |src|..], [start], false)
    ensures Scan(orig, src, 0) == [start]
  {
    hide *;
    var end, data := start + |src|, orig[..start] + Padded(src, dst) + orig[start + |src|..];
    OccursAt(orig, 0, src, start);
    OneReplaced(orig, start, src, dst);
    RewriteFirst(false, orig, 0, src, dst, start);
    NoneLeft(data, src, end);
    NoneLeft(orig, src, end);
    NothingToRewrite(false, data, end, src, dst);
    NothingToRewriteScan(orig, end, src);
    assert [start] + [] == [start];
  }

  /** A conversion back with two matches, the second of which ends the file. */
  lemma TwoSteps(data: seq<Byte>, mid: seq<Byte>, last: seq<Byte>, src: seq<Byte>, dst: seq<Byte>, first: nat, end: nat, second: nat)
    requires Find(data, dst, 0) == Some(first) && SlashRun(data, first) < first
    requires Replaced(false, data, first, dst, src) == (mid, end)
    requires Find(mid, dst, end) == Some(second) && SlashRun(mid, second) < second
    requires Replaced(false, mid, second, dst, src) == (last, |last|)
    ensures Rewrite(false, data, 0, dst, src).data == last && !Rewrite(false, data, 0, dst, src).failed
  {
    hide *;
    RewriteFirst(false, data, 0, dst, src, first);
    RewriteFirst(false, mid, end, dst, src, second);
    PastEnd(last, |last|, dst, src);
  }

  /** The converted file, byte by byte. */
  lemma ConvertedBytes(orig: seq<Byte>, src: seq<Byte>, dst: seq<Byte>, start: nat) returns (data: seq<Byte>)
    requires 0 < |dst| <= |src| && start + |src| <= |orig|
    ensures data == orig[..start] + Padded(src, dst) + orig[start + |src|..] && |data| == |orig|
    ensures
      var w := start + |src| - |dst|;
      && (forall h :: 0 <= h < start ==> data[h] == orig[h])
      && (forall h :: start <= h < w ==> data[h] == SLASH)
      && (forall h :: w <= h < w + |dst| ==> data[h] == dst[h - w])
      && (forall h :: start + |src| <= h < |orig| ==> data[h] == orig[h])
  {
    SlashesAre(|src| - |dst|);
    PaddedIs(src, dst);
    data := orig[..start] + Padded(src, dst) + orig[start + |src|..];
  }

  // ----- the new prefix is cut off by the next one -----

  /** A byte that is neither a slash nor the first other byte of the old prefix. */
  predicate Apart(x: Byte, src: seq<Byte>) {
    x != SLASH && (Lead(src) < |src| ==> x != src[Lead(src)])
  }

  /** The old prefix without so many slashes at its end as it begins with, and one more, then the old prefix. */
  function CutFile(src: seq<Byte>, x: Byte): seq<Byte> {
    if Lead(src) < |src| then [x] + src[..|src| - Lead(src) - 1] + src else []
  }

  lemma CutFileBytes(src: seq<Byte>, x: Byte) returns (cut: nat)
    requires Lead(src) < |src|
    ensures cut == |src| - Lead(src) - 1
    ensures
      var orig := CutFile(src, x);
      && |orig| == 1 + cut + |src|
      && orig[0] == x
      && (forall h :: 1 <= h < 1 + cut ==> orig[h] == src[h - 1])
      && (forall h :: 1 + cut <= h < |orig| ==> orig[h] == src[h - 1 - cut])
  {
    cut := |src| - Lead(src) - 1;
  }

  lemma CutFileByte(src: seq<Byte>, x: Byte, h: nat)
    requires Lead(src) < |src| && h < |src| - Lead(src) - 1 + |src|
    ensures |CutFile(src, x)| == |src| - Lead(src) + |src|
    ensures
      var cut := |src| - Lead(src) - 1;
      CutFile(src, x)[1 + h] == if h < cut then src[h] else src[h - cut]
  {
    var cut := CutFileBytes(src, x);
  }

  /** The old prefix does not stand before its end there: one of its first or last bytes would be off. */
  lemma CutFileNotBefore(src: seq<Byte>, x: Byte, p: nat)
    requires Lead(src) < Trail(src) && Trail(src) < |src| && Apart(x, src) && p < |src| - Lead(src)
    ensures !Occurs(CutFile(src, x), src, p)
  {
    var j, cut := Lead(src), |src| - Lead(src) - 1;
    LeadBeforeTrail(src);
    if p == 0 {
      CutFileStarts(src, x);
      Mismatch(CutFile(src, x), src, 0, 0);
    } else {
      var h: nat := p - 1;
      var y: nat := if h <= j then cut + j - h else if h + j < cut && src[h + j] != SLASH then cut + j else j;
      CutFileByte(src, x, h + y);
      CutFileOff(src, h, y);
      hide *;
      Mismatch(CutFile(src, x), src, p, y);
    }
  }

  lemma CutFileStarts(src: seq<Byte>, x: Byte)
    requires Lead(src) < |src| && Apart(x, src)
    ensures CutFile(src, x) != [] && CutFile(src, x)[0] != src[0]
  {
  }

  lemma CutFileOff(src: seq<Byte>, h: nat, y: nat)
    requires Lead(src) < Trail(src) && Lead(src) < |src| - Trail(src) && h < |src| - Lead(src) - 1
    requires
      var j, cut := Lead(src), |src| - Lead(src) - 1;
      y == if h <= j then cut + j - h else if h + j < cut && src[h + j] != SLASH then cut + j else j
    ensures var cut := |src| - Lead(src) - 1; src[y] != if h + y < cut then src[h + y] else src[h + y - cut]
  {
    TrailIs(src);
    hide Trail;
  }

  /** So the conversion has one match. */
  lemma CutFileConverted(src: seq<Byte>, dst: seq<Byte>, x: Byte) returns (data: seq<Byte>)
    requires 0 < |dst| < |src| && Lead(src) < Trail(src) && Trail(src) < |src| && Apart(x, src) && Lead(src) + |dst| < |src|
    ensures CutData(data, src, dst, x) && |data| == |CutFile(src, x)|
    ensures Rewrite(false, CutFile(src, x), 0, src, dst) == Outcome(data, [|src| - Lead(src)], false)
    ensures Scan(CutFile(src, x), src, 0) == [|src| - Lead(src)]
  {
    var orig, start := CutFile(src, x), |src| - Lead(src);
    LeadBeforeTrail(src);
    var cut := CutFileBytes(src, x);
    forall p: nat | p < start
      ensures !Occurs(orig, src, p)
    {
      CutFileNotBefore(src, x, p);
    }
    assert x != SLASH;
    data := ConvertedBytes(orig, src, dst, start);
    assert CutData(data, src, dst, x);
    hide *;
    Stands(orig, src, start);
    FirstAt(orig, src, 0, start);
    NotOnlySlashes(orig, start);
    OneStep(orig, src, dst, start);
  }

  lemma NotOnlySlashes(data: seq<Byte>, at: nat)
    requires 0 < at <= |data| && data[0] != SLASH
    ensures SlashRun(data, at) < at
  {
    SlashRunIs(data, at);
  }

  /** The converted file: the old prefix without its last slashes, the slashes written, the new prefix. */
  ghost predicate CutData(data: seq<Byte>, src: seq<Byte>, dst: seq<Byte>, x: Byte) {
    var cut, w := |src| - Lead(src) - 1, |src| - Lead(src) + |src| - |dst|;
    && Lead(src) < |src| && Lead(src) + |dst| < |src|
    && |data| == 1 + cut + |src|
    && data[0] == x
    && (forall h :: 1 <= h < 1 + cut ==> data[h] == src[h - 1])
    && (forall h :: 1 + cut <= h < w ==> data[h] == SLASH)
    && (forall h :: w <= h < |data| ==> data[h] == dst[h - w])
  }

  /** It holds the whole old prefix in front. */
  lemma CutDataFront(data: seq<Byte>, src: seq<Byte>, dst: seq<Byte>, x: Byte)
    requires CutData(data, src, dst, x) && Lead(src) < Trail(src)
    ensures 1 + |src| <= |data| && forall h :: 1 <= h < 1 + |src| ==> data[h] == src[h - 1]
  {
    TrailIs(src);
    hide Trail;
  }

  lemma PrefixByte(src: seq<Byte>, dst: seq<Byte>, y: nat)
    requires Begins(src, dst) && y < |dst|
    ensures Lead(src) - Lead(dst) + y < |src| && dst[y] == src[Lead(src) - Lead(dst) + y]
  {
    var k := y - Lead(dst);
    if k >= 0 {
      assert dst[Lead(dst)..][k] == src[Lead(src)..][k];
    }
  }

  /** The new prefix stands in the place of the old one, behind all slashes but those it has itself. */
  lemma CutFront(src: seq<Byte>, dst: seq<Byte>, data: seq<Byte>, x: Byte)
    requires 0 < |dst| < |src| && Cut(src, dst) && Apart(x, src) && CutData(data, src, dst, x)
    ensures
      var first := 1 + Lead(src) - Lead(dst);
      && Lead(src) < |src| && Lead(dst) < |dst| && 1 + |src| <= |data|
      && 0 < first && first + |dst| <= |data|
      && data[0] != SLASH && data[0] != dst[Lead(dst)]
      && (forall h :: first <= h < first + |dst| ==> data[h] == dst[h - first])
      && (forall h :: 1 <= h < 1 + Lead(src) ==> data[h] == SLASH)
      && (forall h :: 1 <= h < 1 + |src| ==> data[h] == src[h - 1])
  {
    var first := 1 + Lead(src) - Lead(dst);
    CutHasOthers(src, dst);
    CutDataFront(data, src, dst, x);
    assert data[0] == x;
    hide Cut, CutData, Trail;
    CutPrefix(src, dst, data);
  }

  lemma CutPrefix(src: seq<Byte>, dst: seq<Byte>, data: seq<Byte>)
    requires Cut(src, dst) && |dst| < |src| && 1 + |src| <= |data|
    requires forall h :: 1 <= h < 1 + |src| ==> data[h] == src[h - 1]
    ensures
      var first := 1 + Lead(src) - Lead(dst);
      first + |dst| <= |data| && forall h :: first <= h < first + |dst| ==> data[h] == dst[h - first]
  {
    var first := 1 + Lead(src) - Lead(dst);
    CutHasOthers(src, dst);
    hide *;
    forall h | first <= h < first + |dst|
      ensures data[h] == dst[h - first]
    {
      PrefixByte(src, dst, h - first);
    }
  }

  lemma CutFirstFound(src: seq<Byte>, dst: seq<Byte>, data: seq<Byte>, x: Byte)
    requires 0 < |dst| < |src| && Cut(src, dst) && Apart(x, src) && CutData(data, src, dst, x)
    ensures Find(data, dst, 0) == Some(1 + Lead(src) - Lead(dst))
  {
    hide *;
    CutHasOthers(src, dst);
    CutFront(src, dst, data, x);
    FoundFirst(data, dst, 1 + Lead(src) - Lead(dst));
  }

  /** The old prefix is put where it stands. */
  lemma CutFirstReplaced(src: seq<Byte>, dst: seq<Byte>, data: seq<Byte>, x: Byte)
    requires 0 < |dst| < |src| && Cut(src, dst) && Apart(x, src) && CutData(data, src, dst, x)
    ensures
      var first := 1 + Lead(src) - Lead(dst);
      SlashRun(data, first) < first && Replaced(false, data, first, dst, src) == (data, 1 + |src|)
  {
    hide *;
    var first := 1 + Lead(src) - Lead(dst);
    CutHasOthers(src, dst);
    CutFront(src, dst, data, x);
    SlashRunUnique(data, first, Lead(src) - Lead(dst));
    ReplacedBytes(data, first, src, dst, data, 1);
  }

  lemma CutBack(src: seq<Byte>, dst: seq<Byte>, data: seq<Byte>, x: Byte)
    requires 0 < |dst| < |src| && Lead(dst) < |dst| && Apart(x, src) && CutData(data, src, dst, x)
    ensures
      var w := |data| - |dst|;
      && |src| - Lead(src) <= |src| < w && data[0] != SLASH
      && (forall h :: |src| - Lead(src) <= h < w + Lead(dst) ==> data[h] == SLASH)
      && (forall h :: w <= h < w + |dst| ==> data[h] == dst[h - w])
  {
    var w := |data| - |dst|;
    assert forall h :: w <= h < w + Lead(dst) ==> data[h] == dst[h - w] == SLASH;
  }

  lemma CutSecondFound(src: seq<Byte>, dst: seq<Byte>, data: seq<Byte>, x: Byte)
    requires 0 < |dst| < |src| && Lead(dst) < |dst| && Apart(x, src) && CutData(data, src, dst, x)
    ensures Find(data, dst, 1 + |src|) == Some(|data| - |dst|)
  {
    hide *;
    CutBack(src, dst, data, x);
    FoundBehindSlashes(data, dst, 1 + |src|, |data| - |dst|);
  }

  lemma CutSecondRun(src: seq<Byte>, dst: seq<Byte>, data: seq<Byte>, x: Byte)
    requires 0 < |dst| < |src| && Lead(dst) < |dst| && Apart(x, src) && CutData(data, src, dst, x)
    ensures |dst| <= |data| && |src| - |dst| <= SlashRun(data, |data| - |dst|) < |data| - |dst|
  {
    hide *;
    CutBack(src, dst, data, x);
    NotOnlySlashes(data, |data| - |dst|);
    CutDataLength(src, dst, data, x);
    RunOnwards(data, |src| - Lead(src), |data| - |dst|);
  }

  lemma CutDataLength(src: seq<Byte>, dst: seq<Byte>, data: seq<Byte>, x: Byte)
    requires CutData(data, src, dst, x)
    ensures |data| == |src| - Lead(src) + |src| && Lead(src) < |src|
  {
  }

  lemma CutSame(src: seq<Byte>, dst: seq<Byte>, data: seq<Byte>, x: Byte)
    requires CutData(data, src, dst, x)
    ensures |CutFile(src, x)| == |data|
    ensures
      var q := |src| - Lead(src);
      forall h :: 0 <= h < |data| ==> CutFile(src, x)[h] == if q <= h < q + |src| then src[h - q] else data[h]
  {
    var cut := CutFileBytes(src, x);
  }

  /** The slashes before the place where the new prefix was written are taken. */
  lemma CutSecondReplaced(src: seq<Byte>, dst: seq<Byte>, data: seq<Byte>, x: Byte)
    requires 0 < |dst| < |src| && Lead(dst) < |dst| && Apart(x, src) && CutData(data, src, dst, x)
    ensures
      var w: int := |data| - |dst|;
      0 <= w && SlashRun(data, w) < w && Replaced(false, data, w, dst, src) == (CutFile(src, x), |data|)
  {
    hide *;
    CutSecondRun(src, dst, data, x);
    CutDataLength(src, dst, data, x);
    CutSame(src, dst, data, x);
    ReplacedBytes(data, |data| - |dst|, src, dst, CutFile(src, x), |src| - Lead(src));
  }

  /** The scan of the converted file does not begin where the new prefix was written. */
  lemma ScansElsewhere(orig: seq<Byte>, data: seq<Byte>, src: seq<Byte>, dst: seq<Byte>, start: nat, first: nat)
    requires 0 < |dst| <= |src| && Rewrite(false, orig, 0, src, dst).data == data
    requires Scan(orig, src, 0) == [start] && Find(data, dst, 0) == Some(first) && first != start + |src| - |dst|
    ensures !FoundWhereWrittenOnly(orig, src, dst)
  {
    hide Rewrite, Find;
    assert Written([start], |src| - |dst|)[0] == start + |src| - |dst|;
  }

  /**
   * When the new prefix begins the old one and the old one ends with more slashes than it begins with,
   * and than the new one may need, a file is restored although the new prefix is found at a wrong place.
   */
  lemma CutDoesNotTell(src: seq<Byte>, dst: seq<Byte>, x: Byte)
    requires 0 < |dst| < |src| && Cut(src, dst) && Apart(x, src)
    ensures
      var orig := CutFile(src, x);
      && !Rewrite(false, orig, 0, src, dst).failed
      && RoundTrips(orig, src, dst) && !FoundWhereWrittenOnly(orig, src, dst)
  {
    hide *;
    CutHasOthers(src, dst);
    var data := CutFileConverted(src, dst, x);
    CutRestored(src, dst, data, x);
    CutFirstFound(src, dst, data, x);
    RoundTripsIs(CutFile(src, x), data, src, dst);
    ScansElsewhere(CutFile(src, x), data, src, dst, |src| - Lead(src), 1 + Lead(src) - Lead(dst));
  }

  lemma CutRestored(src: seq<Byte>, dst: seq<Byte>, data: seq<Byte>, x: Byte)
    requires 0 < |dst| < |src| && Cut(src, dst) && Apart(x, src) && CutData(data, src, dst, x)
    ensures Rewrite(false, data, 0, dst, src).data == CutFile(src, x) && !Rewrite(false, data, 0, dst, src).failed
  {
    hide *;
    CutHasOthers(src, dst);
    CutFirstFound(src, dst, data, x);
    CutFirstReplaced(src, dst, data, x);
    CutSecondFound(src, dst, data, x);
    CutSecondReplaced(src, dst, data, x);
    CutSame(src, dst, data, x);
    TwoSteps(data, data, CutFile(src, x), src, dst, 1 + Lead(src) - Lead(dst), 1 + |src|, |data| - |dst|);
  }

  lemma RoundTripsIs(orig: seq<Byte>, data: seq<Byte>, src: seq<Byte>, dst: seq<Byte>)
    requires Rewrite(false, orig, 0, src, dst).data == data
    requires Rewrite(false, data, 0, dst, src).data == orig && !Rewrite(false, data, 0, dst, src).failed
    ensures RoundTrips(orig, src, dst)
  {
  }

  lemma CutHasOthers(src: seq<Byte>, dst: seq<Byte>)
    requires Cut(src, dst)
    ensures Begins(src, dst) && Alike(src, dst) && Lead(src) < Trail(src) < |src| && Lead(src) + |dst| < |src| && Lead(dst) < |dst|
  {
    TrailIs(src);
    hide Trail;
  }

  // ----- the next old prefix shares slashes -----

  /** How many slashes the two share. */
  ghost function Overlap(src: seq<Byte>, dst: seq<Byte>): nat {
    if |src| - |dst| == Lead(src) - Lead(dst) then 1 else Trail(src)
  }

  /** The old prefix twice, so that the second one begins with slashes that end the first. */
  function SharedFile(src: seq<Byte>, x: Byte, c: nat): seq<Byte> {
    if c <= |src| then [x] + src + src[c..] else []
  }

  lemma SharedMeans(src: seq<Byte>, dst: seq<Byte>)
    requires 0 < |dst| < |src| && Shared(src, dst) && Begins(src, dst)
    ensures
      var i, j, c, slack := Lead(dst), Lead(src), Overlap(src, dst), |src| - |dst|;
      && i < |dst| && j < |src| && src[j] == dst[i]
      && 1 <= c <= Trail(src) < |src| && c + i <= j <= i + slack
      && (slack == j - i || Trail(src) - c == 0)
  {
    TrailIs(src);
    hide Trail;
    assert |dst[Lead(dst)..]| <= |src[Lead(src)..]|;
  }

  lemma SharedFileBytes(src: seq<Byte>, x: Byte, c: nat)
    requires c <= |src|
    ensures
      var orig := SharedFile(src, x, c);
      && |orig| == 1 + |src| + |src| - c
      && orig[0] == x
      && (forall h :: 1 <= h < 1 + |src| ==> orig[h] == src[h - 1])
      && (forall h :: 1 + |src| <= h < |orig| ==> orig[h] == src[h - 1 - |src| + c])
  {
  }

  /** The converted file: slashes and the new prefix, and the rest of the second old one. */
  ghost predicate SharedData(data: seq<Byte>, src: seq<Byte>, dst: seq<Byte>, x: Byte, c: nat) {
    && c <= |src| && |dst| < |src|
    && |data| == 1 + |src| + |src| - c
    && data[0] == x
    && (forall h :: 1 <= h < 1 + |src| - |dst| ==> data[h] == SLASH)
    && (forall h :: 1 + |src| - |dst| <= h < 1 + |src| ==> data[h] == dst[h - (1 + |src| - |dst|)])
    && (forall h :: 1 + |src| <= h < |data| ==> data[h] == src[h - 1 - |src| + c])
  }

  lemma SharedConverted(src: seq<Byte>, dst: seq<Byte>, x: Byte, c: nat) returns (data: seq<Byte>)
    requires 0 < |dst| < |src| && 0 < Lead(src) && 0 < c <= |src| && Apart(x, src)
    ensures SharedData(data, src, dst, x, c)
    ensures Rewrite(false, SharedFile(src, x, c), 0, src, dst) == Outcome(data, [1], false)
    ensures Scan(SharedFile(src, x, c), src, 0) == [1]
  {
    var orig := SharedFile(src, x, c);
    SharedFileBytes(src, x, c);
    assert x != SLASH == src[0];
    data := ConvertedBytes(orig, src, dst, 1);
    assert SharedData(data, src, dst, x, c);
    hide *;
    Stands(orig, src, 1);
    Mismatch(orig, src, 0, 0);
    FirstAt(orig, src, 0, 1);
    NotOnlySlashes(orig, 1);
    OneStep(orig, src, dst, 1);
  }

  /** The new prefix is found where it was written, and the old one put there. */
  lemma SharedFirstFound(src: seq<Byte>, dst: seq<Byte>, data: seq<Byte>, x: Byte, c: nat)
    requires 0 < |dst| < |src| && Alike(src, dst) && Apart(x, src) && SharedData(data, src, dst, x, c)
    ensures Find(data, dst, 0) == Some(1 + |src| - |dst|)
  {
    var w := 1 + |src| - |dst|;
    assert forall h :: w <= h < w + Lead(dst) ==> data[h] == dst[h - w] == SLASH;
    assert data[0] == x != SLASH && x != dst[Lead(dst)] && w + |dst| <= |data|;
    assert Lead(dst) < |dst|;
    hide Find, Lead, Alike, Apart;
    FoundFirst(data, dst, w);
  }

  lemma SharedFirstReplaced(src: seq<Byte>, dst: seq<Byte>, data: seq<Byte>, x: Byte, c: nat)
    requires 0 < |dst| < |src| && Apart(x, src) && SharedData(data, src, dst, x, c)
    ensures
      var w := 1 + |src| - |dst|;
      && SlashRun(data, w) < w
      && Replaced(false, data, w, dst, src) == (SharedFile(src, x, c), 1 + |src|)
  {
    var w := 1 + |src| - |dst|;
    SharedFileBytes(src, x, c);
    assert x != SLASH;
    hide SlashRun, Replaced, Apart, SharedFile;
    SlashRunUnique(data, w, |src| - |dst|);
    ReplacedBytes(data, w, src, dst, SharedFile(src, x, c), 1);
  }

  /** In what is left of the second old prefix the new one is found, too. */
  lemma SharedSecondFound(src: seq<Byte>, dst: seq<Byte>, data: seq<Byte>, c: nat)
    requires 0 < |dst| < |src| && Begins(src, dst) && c + Lead(dst) <= Lead(src) <= Lead(dst) + |src| - |dst|
    requires |data| == 1 + |src| + |src| - c
    requires forall h :: 1 + |src| <= h < |data| ==> data[h] == src[h - 1 - |src| + c]
    ensures Find(data, dst, 1 + |src|) == Some(1 + |src| + Lead(src) - c - Lead(dst))
  {
    hide *;
    BeginsFits(src, dst);
    SharedSlashes(src, data, c, Lead(dst));
    SharedPrefix(src, dst, data, c);
    FoundBehindSlashes(data, dst, 1 + |src|, 1 + |src| + Lead(src) - c - Lead(dst));
  }

  lemma BeginsFits(src: seq<Byte>, dst: seq<Byte>)
    requires Begins(src, dst)
    ensures Lead(dst) < |dst| && Lead(src) < |src| && |dst| - Lead(dst) <= |src| - Lead(src) && src[Lead(src)] == dst[Lead(dst)]
  {
    assert |dst[Lead(dst)..]| <= |src[Lead(src)..]|;
  }

  lemma SharedSlashes(src: seq<Byte>, data: seq<Byte>, c: nat, i: nat)
    requires c + i <= Lead(src) < |src| && |data| == 1 + |src| + |src| - c
    requires forall h :: 1 + |src| <= h < |data| ==> data[h] == src[h - 1 - |src| + c]
    ensures forall h :: 1 + |src| + i <= h < 1 + |src| + Lead(src) - c ==> data[h] == SLASH
  {
  }

  lemma SharedPrefix(src: seq<Byte>, dst: seq<Byte>, data: seq<Byte>, c: nat)
    requires |dst| < |src| && Begins(src, dst) && c + Lead(dst) <= Lead(src) <= Lead(dst) + |src| - |dst|
    requires |data| == 1 + |src| + |src| - c
    requires forall h :: 1 + |src| <= h < |data| ==> data[h] == src[h - 1 - |src| + c]
    ensures
      var at := 1 + |src| + Lead(src) - c - Lead(dst);
      at + |dst| <= |data| && forall h :: at <= h < at + |dst| ==> data[h] == dst[h - at]
  {
    hide *;
    var at := 1 + |src| + Lead(src) - c - Lead(dst);
    forall h | at <= h < at + |dst|
      ensures data[h] == dst[h - at]
    {
      PrefixByte(src, dst, h - at);
    }
  }

  /** There the old prefix stands already. */
  lemma SharedSecondReplaced(src: seq<Byte>, dst: seq<Byte>, x: Byte)
    requires 0 < |dst| < |src| && Shared(src, dst) && Begins(src, dst) && Apart(x, src)
    ensures
      var c := Overlap(src, dst);
      var orig, at := SharedFile(src, x, c), 1 + |src| + Lead(src) - c - Lead(dst);
      && 0 <= at && at + |dst| <= |orig|
      && SlashRun(orig, at) < at
      && Replaced(false, orig, at, dst, src) == (orig, |orig|)
  {
    hide *;
    SharedMeans(src, dst);
    var c := Overlap(src, dst);
    var orig, at := SharedFile(src, x, c), 1 + |src| + Lead(src) - c - Lead(dst);
    SharedFileBytes(src, x, c);
    ApartIs(x, src);
    SharedRun(src, orig, c, at);
    SharedSame(src, orig, c);
    NotOnlySlashes(orig, at);
    ReplacedBytes(orig, at, src, dst, orig, 1 + |src| - c);
  }

  lemma ApartIs(x: Byte, src: seq<Byte>)
    requires Apart(x, src)
    ensures x != SLASH
  {
  }

  lemma SharedRun(src: seq<Byte>, orig: seq<Byte>, c: nat, at: nat)
    requires Trail(src) < |src| && c <= Lead(src) && |orig| == 1 + |src| + |src| - c
    requires 1 + |src| <= at <= 1 + |src| + Lead(src) - c
    requires forall h :: 1 <= h < 1 + |src| ==> orig[h] == src[h - 1]
    requires forall h :: 1 + |src| <= h < |orig| ==> orig[h] == src[h - 1 - |src| + c]
    ensures SlashRun(orig, at) == at - 1 - |src| + Trail(src)
  {
    var part := orig[1..1 + |src|];
    assert forall y :: 0 <= y < |src| ==> part[y] == src[y];
    assert part == src;
    assert Behind(orig, 1 + |src|, src);
    RunBehind(orig, 1 + |src|, src);
    hide SlashRun, Trail;
    RunOnwards(orig, 1 + |src|, at);
  }

  lemma SharedSame(src: seq<Byte>, orig: seq<Byte>, c: nat)
    requires c <= Lead(src) && c <= Trail(src) && |orig| == 1 + |src| + |src| - c
    requires forall h :: 1 <= h < 1 + |src| ==> orig[h] == src[h - 1]
    requires forall h :: 1 + |src| <= h < |orig| ==> orig[h] == src[h - 1 - |src| + c]
    ensures forall h :: 1 + |src| - c <= h < |orig| ==> orig[h] == src[h - (1 + |src| - c)]
  {
    TrailIs(src);
    hide Trail;
    forall h | 1 + |src| - c <= h < |orig|
      ensures orig[h] == src[h - (1 + |src| - c)]
    {
      if h < 1 + |src| {
        assert orig[h] == src[h - 1] == SLASH;
      }
    }
  }

  /** Two places are found where one was written. */
  lemma ScansTwice(orig: seq<Byte>, data: seq<Byte>, src: seq<Byte>, dst: seq<Byte>, start: nat, first: nat, second: nat)
    requires 0 < |dst| <= |src| && Rewrite(false, orig, 0, src, dst).data == data
    requires Scan(orig, src, 0) == [start] && Find(data, dst, 0) == Some(first) && Find(data, dst, first + |dst|) == Some(second)
    ensures !FoundWhereWrittenOnly(orig, src, dst)
  {
    hide Rewrite, Find;
    assert |Scan(data, dst, 0)| >= 2;
    assert |Written([start], |src| - |dst|)| == 1;
  }

  /**
   * When the new prefix begins the old one and the next old one may share slashes with the one before it,
   * a file is restored although the new prefix is found once more than it was written.
   */
  lemma SharedDoesNotTell(src: seq<Byte>, dst: seq<Byte>, x: Byte)
    requires 0 < |dst| < |src| && Shared(src, dst) && Begins(src, dst) && Apart(x, src)
    ensures
      var orig := SharedFile(src, x, Overlap(src, dst));
      && !Rewrite(false, orig, 0, src, dst).failed
      && RoundTrips(orig, src, dst) && !FoundWhereWrittenOnly(orig, src, dst)
  {
    hide *;
    SharedMeans(src, dst);
    var c := Overlap(src, dst);
    var orig, w, at := SharedFile(src, x, c), 1 + |src| - |dst|, 1 + |src| + Lead(src) - c - Lead(dst);
    var data := SharedConverted(src, dst, x, c);
    SharedTails(src, dst, data, x, c);
    SharedFirstFound(src, dst, data, x, c);
    SharedFirstReplaced(src, dst, data, x, c);
    SharedSecondReplaced(src, dst, x);
    TwoSteps(data, orig, orig, src, dst, w, 1 + |src|, at);
    RoundTripsIs(orig, data, src, dst);
    ScansTwice(orig, data, src, dst, 1, w, at);
  }

  lemma SharedTails(src: seq<Byte>, dst: seq<Byte>, data: seq<Byte>, x: Byte, c: nat)
    requires 0 < |dst| < |src| && Begins(src, dst) && c + Lead(dst) <= Lead(src) <= Lead(dst) + |src| - |dst|
    requires SharedData(data, src, dst, x, c)
    ensures
      var at := 1 + |src| + Lead(src) - c - Lead(dst);
      Find(data, dst, 1 + |src|) == Some(at) && Find(SharedFile(src, x, c), dst, 1 + |src|) == Some(at)
    ensures Alike(src, dst)
  {
    SharedFileBytes(src, x, c);
    hide Find, SharedFile, Lead;
    SharedSecondFound(src, dst, data, c);
    SharedSecondFound(src, dst, SharedFile(src, x, c), c);
  }

  // ----- a shorter new prefix of slashes -----

  lemma SlashesOccur(data: seq<Byte>, n: nat, at: nat)
    requires at + n <= |data| && forall i :: at <= i < at + n ==> data[i] == SLASH
    ensures Occurs(data, Slashes(n), at)
  {
    SlashesAre(n);
    assert data[at..at + n] == Slashes(n);
  }

  /** One match, behind one other byte, at the end of the file. */
  lemma OneMatchAtEnd(data: seq<Byte>, src: seq<Byte>, dst: seq<Byte>)
    requires |data| == 1 + |src| && |dst| <= |src| && Find(data, src, 0) == Some(1) && SlashRun(data, 1) == 0
    ensures Rewrite(false, data, 0, src, dst) == Outcome(data[..1] + Padded(src, dst), [1], false)
    ensures Scan(data, src, 0) == [1]
  {
    hide *;
    var end := 1 + |src|;
    var next := data[..1] + Padded(src, dst);
    assert data[end..] == [] && next + [] == next;
    OneReplaced(data, 1, src, dst);
    RewriteFirst(false, data, 0, src, dst, 1);
    PastEnd(next, end, src, dst);
    PastEnd(data, end, src, dst);
    assert [1] + [] == [1];
  }

  lemma FindIs(data: seq<Byte>, pat: seq<Byte>, at: nat)
    requires pat != [] && Occurs(data, pat, at) && at <= 1 && (at == 1 ==> !Occurs(data, pat, 0))
    ensures Find(data, pat, 0) == Some(at)
  {
    FindIsFirst(data, pat, 0);
  }

  /** A byte that is no slash, then the old prefix: converted to slashes. */
  lemma SlashesThere(src: seq<Byte>, n: nat, x: Byte)
    requires 0 < n < |src| && x != SLASH && x != src[0]
    ensures
      var orig, there := [x] + src, [x] + Slashes(|src|);
      Rewrite(false, orig, 0, src, Slashes(n)) == Outcome(there, [1], false) && Scan(orig, src, 0) == [1]
  {
    var orig, lo := [x] + src, |src|;
    assert orig[1..1 + lo] == src && orig[0..lo][0] == x;
    FindIs(orig, src, 1);
    SlashRunUnique(orig, 1, 0);
    SlashesSplit(lo - n, n);
    PaddedIs(src, Slashes(n));
    hide *;
    assert orig[..1] == [x];
    OneMatchAtEnd(orig, src, Slashes(n));
  }

  /** And back, although the first slashes are found and not the last. */
  lemma SlashesBack(src: seq<Byte>, n: nat, x: Byte)
    requires 0 < n < |src| && x != SLASH
    ensures
      var orig, there := [x] + src, [x] + Slashes(|src|);
      Rewrite(false, there, 0, Slashes(n), src) == Outcome(orig, [1], false) && Find(there, Slashes(n), 0) == Some(1)
  {
    var orig, there, lo := [x] + src, [x] + Slashes(|src|), |src|;
    SlashesAre(lo);
    SlashesAre(n);
    SlashesOccur(there, n, 1);
    assert there[0..n][0] == x;
    FindIs(there, Slashes(n), 1);
    SlashRunUnique(there, 1, 0);
    assert Slashes(n - lo) == [] && [] + src == src && there[..1] == [x] && there[1 + lo..] == [];
    hide *;
    ReplacedIs(there, 1, Slashes(n), src);
    OverwriteIs(there, 1, src);
    assert [x] + src + [] == orig;
    RewriteFirst(false, there, 0, Slashes(n), src, 1);
    PastEnd(orig, 1 + lo, Slashes(n), src);
  }

  /**
   * For a new prefix of fewer slashes only, the converse fails: there is a file that is restored although
   * the scan finds the new prefix elsewhere.
   */
  lemma SlashesDoNotTell(src: seq<Byte>, n: nat, x: Byte)
    requires 0 < n < |src| && x != SLASH && x != src[0]
    ensures
      var orig, dst := [x] + src, Slashes(n);
      !Rewrite(false, orig, 0, src, dst).failed && RoundTrips(orig, src, dst) && !FoundWhereWrittenOnly(orig, src, dst)
  {
    SlashesThere(src, n, x);
    SlashesBack(src, n, x);
    hide Rewrite, Find, Slashes;
    RewriteScan([x] + Slashes(|src|), 0, Slashes(n), 1);
    assert Written([1], |src| - n)[0] == 1 + |src| - n;
  }
}
