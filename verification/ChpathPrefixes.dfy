/**
 * For which prefixes a file is restored only where the new prefix is found exactly where it was written.
 */
module ChpathPrefixes {
  import opened Bytes
  import opened Chpath
  import opened ChpathBack
  import opened ChpathFails
  import opened ChpathWrong
  import opened Sequences
  import opened Wrappers

  // ----- prefixes of one length -----

  lemma ReplacedEnd(data: seq<Byte>, at: nat, src: seq<Byte>, dst: seq<Byte>)
    requires |dst| <= |src| && at + |dst| <= |data| && SlashRun(data, at) < at
    ensures
      var (next, stop) := Replaced(false, data, at, dst, src);
      && |src| <= stop && at - SlashRun(data, at) <= stop - |src| <= at
      && |next| == (if stop > |data| then stop else |data|)
      && next[stop - |src|..stop] == src
      && next[..at - SlashRun(data, at)] == data[..at - SlashRun(data, at)]
  {
    var k := SlashRun(data, at);
    var pad := Slashes(k + |dst| - |src|);
    ReplacedIs(data, at, dst, src);
    hide *;
    var next := Overwrite(data, at - k, pad + src);
    var stop := at - k + |pad + src|;
    var rest := next[stop..];
    assert next[..at - k] == data[..at - k];
    assert next == data[..at - k] + (pad + src) + rest;
    AppendAssoc(data[..at - k], pad, src);
    Parts(data[..at - k] + pad, src, rest);
  }

  /** With prefixes of one length, searching back and padding write the slashes that are there. */
  lemma ReplacedInPlace(data: seq<Byte>, at: nat, src: seq<Byte>, dst: seq<Byte>)
    requires |dst| == |src| && at + |dst| <= |data| && SlashRun(data, at) < at
    ensures Replaced(false, data, at, dst, src).0[..at] == data[..at]
  {
    hide *;
    var k := SlashRun(data, at);
    ReplacedIs(data, at, dst, src);
    RunSlice(data, at);
    OverwriteIs(data, at - k, Slashes(k) + src);
    AppendAssoc(data[..at - k], Slashes(k), src);
    SplitSlice(data, 0, at - k, at);
    assert data[0..at - k] == data[..at - k] && data[0..at] == data[..at] && k + |dst| - |src| == k;
    Parts(data[..at], src, data[at + |src|..]);
  }

  lemma ReplacedStop(data: seq<Byte>, at: nat, src: seq<Byte>, dst: seq<Byte>)
    requires |dst| == |src| && at + |dst| <= |data| && SlashRun(data, at) < at
    ensures Replaced(false, data, at, dst, src).1 == at + |src|
  {
  }

  /** With prefixes of one length, rewriting never changes what is before its start. */
  lemma {:induction false} KeepsBefore(data: seq<Byte>, pos: nat, src: seq<Byte>, dst: seq<Byte>)
    requires pos <= |data| && 0 < |dst| == |src|
    ensures
      var r := Rewrite(false, data, pos, dst, src).data;
      pos <= |r| && r[..pos] == data[..pos]
    decreases |data| - pos
  {
    hide *;
    match Find(data, dst, pos)
    case None =>
      NothingToRewrite(false, data, pos, dst, src);
    case Some(at) =>
      OccursAt(data, pos, dst, at);
      FindAfter(data, dst, pos);
      if SlashRun(data, at) < at {
        var (next, stop) := Replaced(false, data, at, dst, src);
        RewriteFirst(false, data, pos, dst, src, at);
        ReplacedEnd(data, at, src, dst);
        ReplacedInPlace(data, at, src, dst);
        ReplacedStop(data, at, src, dst);
        KeepsBefore(next, stop, src, dst);
        var r := Rewrite(false, next, stop, dst, src).data;
        PrefixOf(next, data, pos, at);
        PrefixOf(r, next, pos, stop);
      } else {
        BinaryFails(data, pos, dst, src, at);
      }
  }

  /** So a replacement at a wrong place leaves the old prefix there. */
  lemma WrongWhenSameLength(orig: seq<Byte>, data: seq<Byte>, pos: nat, src: seq<Byte>, dst: seq<Byte>, at: nat)
    requires pos <= |data| && 0 < |dst| == |src|
    requires Find(data, dst, pos) == Some(at) && SlashRun(data, at) < at
    requires Rewrite(false, data, pos, dst, src).data == orig
    ensures Find(orig, src, pos).Some? && Find(orig, src, pos).value <= at
  {
    hide *;
    var (next, stop) := Replaced(false, data, at, dst, src);
    OccursAt(data, pos, dst, at);
    FindAfter(data, dst, pos);
    RewriteFirst(false, data, pos, dst, src, at);
    ReplacedEnd(data, at, src, dst);
    ReplacedStop(data, at, src, dst);
    KeepsBefore(next, stop, src, dst);
    assert orig[at..stop] == orig[..stop][at..] == next[..stop][at..] == src;
    IsOccurrence(orig, src, at);
    FoundUpToWritten(orig, src, pos, at);
  }

  // ----- a byte of its own -----

  /** A byte that rewriting back never puts down. */
  ghost predicate Foreign(src: seq<Byte>, b: Byte) {
    b != SLASH && b !in src
  }

  /** The new prefix has such a byte: a wrong replacement loses it for ever. */
  ghost predicate Marked(src: seq<Byte>, dst: seq<Byte>) {
    exists i :: 0 <= i < |dst| && Foreign(src, dst[i])
  }

  lemma ForeignIs(src: seq<Byte>)
    ensures forall b: Byte :: Foreign(src, b) <==> b != SLASH && b !in src
  {
  }

  /** The first byte of the new prefix that the old one does not have. */
  lemma {:induction false} FirstMark(src: seq<Byte>, dst: seq<Byte>, n: nat) returns (i: nat)
    requires n < |dst| && Foreign(src, dst[n])
    ensures i < |dst| && Foreign(src, dst[i]) && forall j :: 0 <= j < i ==> !Foreign(src, dst[j])
  {
    if m :| 0 <= m < n && Foreign(src, dst[m]) {
      i := FirstMark(src, dst, m);
    } else {
      i := n;
    }
  }

  lemma MatchByte(data: seq<Byte>, pos: nat, pat: seq<Byte>, at: nat, i: nat)
    requires Find(data, pat, pos) == Some(at) && i < |pat|
    ensures at + |pat| <= |data| && data[at + i] == pat[i]
  {
    OccursAt(data, pos, pat, at);
    assert data[at + i] == data[at..at + |pat|][i];
  }

  /** A replacement writes slashes and bytes of the old prefix over the match, and changes nothing else to other bytes. */
  lemma NothingForeign(data: seq<Byte>, at: nat, src: seq<Byte>, dst: seq<Byte>)
    requires |dst| <= |src| && at + |dst| <= |data| && SlashRun(data, at) < at
    ensures
      var (next, stop) := Replaced(false, data, at, dst, src);
      && at + |dst| <= stop <= |next| && |data| <= |next|
      && (forall p :: 0 <= p < |data| && !Foreign(src, data[p]) ==> !Foreign(src, next[p]))
      && (forall p :: at <= p < stop ==> !Foreign(src, next[p]))
  {
    var k := SlashRun(data, at);
    var pad := Slashes(k + |dst| - |src|);
    SlashesAre(k + |dst| - |src|);
    ReplacedIs(data, at, dst, src);
    ForeignIs(src);
    var bytes := pad + src;
    var next, stop := Overwrite(data, at - k, bytes), at - k + |bytes|;
    hide *;
    forall p | 0 <= p < |bytes|
      ensures !Foreign(src, bytes[p])
    {
      assert bytes[p] in pad || bytes[p] in src;
    }
    forall p | 0 <= p < |next|
      ensures next[p] == if at - k <= p < stop then bytes[p - (at - k)] else data[p]
    {
      OverwriteAt(data, at - k, bytes, p);
    }
  }

  /** A place that holds no byte of the new prefix's own does not get one by rewriting back. */
  lemma {:induction false} NeverComesBack(data: seq<Byte>, pos: nat, src: seq<Byte>, dst: seq<Byte>, p: nat)
    requires pos <= |data| && 0 < |dst| <= |src| && p < |data| && !Foreign(src, data[p])
    ensures
      var r := Rewrite(false, data, pos, dst, src).data;
      p < |r| && !Foreign(src, r[p])
    decreases |data| - pos
  {
    hide *;
    match Find(data, dst, pos)
    case None =>
      NothingToRewrite(false, data, pos, dst, src);
    case Some(at) =>
      if SlashRun(data, at) < at {
        var (next, stop) := Replaced(false, data, at, dst, src);
        RewriteFirst(false, data, pos, dst, src, at);
        ReplacedEnd(data, at, src, dst);
        NothingForeign(data, at, src, dst);
        NeverComesBack(next, stop, src, dst, p);
      } else {
        BinaryFails(data, pos, dst, src, at);
      }
  }

  /** Wherever the new prefix is found and replaced, its mark is missing from the result. */
  lemma MarkLost(data: seq<Byte>, pos: nat, src: seq<Byte>, dst: seq<Byte>, at: nat, i: nat)
    requires pos <= |data| && 0 < |dst| <= |src| && Find(data, dst, pos) == Some(at) && SlashRun(data, at) < at
    requires i < |dst|
    ensures at + i < |data| && data[at + i] == dst[i]
    ensures
      var r := Rewrite(false, data, pos, dst, src).data;
      at + i < |r| && !Foreign(src, r[at + i])
  {
    hide *;
    MatchByte(data, pos, dst, at, i);
    var (next, stop) := Replaced(false, data, at, dst, src);
    RewriteFirst(false, data, pos, dst, src, at);
    NothingForeign(data, at, src, dst);
    NeverComesBack(next, stop, src, dst, at + i);
  }

  /** Up to the end of the next converted match, the first mark stands where the new prefix was written. */
  lemma MarkPlace(orig: seq<Byte>, data: seq<Byte>, src: seq<Byte>, dst: seq<Byte>, start: nat, at: nat, i: nat)
    requires |dst| <= |src| && start + |src| <= |orig| == |data| && data[..start] == orig[..start]
    requires data[start..start + |src|] == Padded(src, dst)
    requires i < |dst| && Foreign(src, dst[i]) && forall j :: 0 <= j < i ==> !Foreign(src, dst[j])
    requires at < start + |src| - |dst| && data[at + i] == dst[i]
    ensures Foreign(src, orig[at + i])
  {
    var pad, p := |src| - |dst|, at + i;
    PadHoldsSlashes(data, start, src, dst);
    assert forall j :: start + pad <= j < start + |src| ==> data[j] == data[start + pad..start + |src|][j - start - pad];
    if p < start {
      assert data[..start][p] == orig[..start][p];
    }
  }

  /** With a marked prefix too, a replacement at a wrong place does not restore the file. */
  lemma WrongWhenMarked(orig: seq<Byte>, data: seq<Byte>, pos: nat, src: seq<Byte>, dst: seq<Byte>, at: nat)
    requires Synced(orig, data, pos, src, dst) && Marked(src, dst) && 0 < |dst| <= |src|
    requires Find(data, dst, pos) == Some(at) && SlashRun(data, at) < at
    requires Rewrite(false, data, pos, dst, src).data == orig
    ensures Find(orig, src, pos).Some? && at >= Find(orig, src, pos).value + |src| - |dst|
  {
    var n :| 0 <= n < |dst| && Foreign(src, dst[n]);
    var i := FirstMark(src, dst, n);
    SyncedLengths(orig, data, pos, src, dst);
    MarkLost(data, pos, src, dst, at, i);
    hide *;
    match Find(orig, src, pos)
    case None =>
      SyncedDone(orig, data, pos, src, dst);
    case Some(start) =>
      var pad := |src| - |dst|;
      SyncedAt(orig, data, pos, src, dst, start);
      if at < start + pad {
        MarkPlace(orig, data, src, dst, start, at, i);
      }
  }

  // ----- telling prefixes -----

  /**
   * Prefixes for which a replacement at a wrong place shows: of one length, or the new one has a byte that
   * the old one lacks, or it is not all slashes and the two are in neither of the two relations.
   */
  ghost predicate Telling(src: seq<Byte>, dst: seq<Byte>) {
    || |src| == |dst|
    || Marked(src, dst)
    || (Lead(dst) < |dst| && !Shared(src, dst) && !Cut(src, dst))
  }

  /** Unless the new prefix is marked, its first byte that is no slash is one of the old prefix. */
  lemma NotAllSlashes(src: seq<Byte>, dst: seq<Byte>)
    requires Lead(dst) < |dst| && !Marked(src, dst)
    ensures Trail(src) < |src|
  {
    assert !Foreign(src, dst[Lead(dst)]);
    TrailIs(src);
  }

  /** With telling prefixes, a restored file had no replacement before the place of the next one. */
  lemma WrongPlace(orig: seq<Byte>, data: seq<Byte>, pos: nat, src: seq<Byte>, dst: seq<Byte>, at: nat)
    requires Synced(orig, data, pos, src, dst) && Behind(orig, pos, src) && 0 < |dst| <= |src| && Telling(src, dst)
    requires Find(data, dst, pos) == Some(at) && SlashRun(data, at) < at
    requires Rewrite(false, data, pos, dst, src).data == orig && !Rewrite(false, data, pos, dst, src).failed
    ensures Find(orig, src, pos).Some? && at >= Find(orig, src, pos).value + |src| - |dst|
  {
    hide Find, Synced, Rewrite, SlashRun, Marked, Shared, Cut, Lead, Behind;
    SyncedLengths(orig, data, pos, src, dst);
    if |src| == |dst| {
      WrongWhenSameLength(orig, data, pos, src, dst, at);
    } else if Marked(src, dst) {
      WrongWhenMarked(orig, data, pos, src, dst, at);
    } else if Find(orig, src, pos) == None || at < Find(orig, src, pos).value + |src| - |dst| {
      NotAllSlashes(src, dst);
      WrongMeans(orig, data, pos, src, dst, at);
    }
  }

  /** While orig has another match, the scan finds it first exactly where it was written. */
  lemma FoundWhereWritten(orig: seq<Byte>, data: seq<Byte>, pos: nat, src: seq<Byte>, dst: seq<Byte>, start: nat)
    requires Synced(orig, data, pos, src, dst) && 0 < |dst| <= |src| && Find(orig, src, pos) == Some(start)
    requires Behind(orig, pos, src) && Telling(src, dst)
    requires Rewrite(false, data, pos, dst, src).data == orig && !Rewrite(false, data, pos, dst, src).failed
    ensures Find(data, dst, pos) == Some(start + |src| - |dst|)
  {
    hide *;
    SyncedAt(orig, data, pos, src, dst, start);
    FoundUpToWritten(data, dst, pos, start + |src| - |dst|);
    var at := Find(data, dst, pos).value;
    SyncedLengths(orig, data, pos, src, dst);
    NotFailed(data, pos, src, dst, at);
    WrongPlace(orig, data, pos, src, dst, at);
  }

  lemma {:induction false} RestoresOnlyIf(orig: seq<Byte>, data: seq<Byte>, pos: nat, src: seq<Byte>, dst: seq<Byte>)
    requires Synced(orig, data, pos, src, dst) && 0 < |dst| <= |src|
    requires Behind(orig, pos, src) && Telling(src, dst)
    requires Find(orig, src, pos).Some? ==> SlashRun(orig, Find(orig, src, pos).value) < Find(orig, src, pos).value
    requires Rewrite(false, data, pos, dst, src).data == orig && !Rewrite(false, data, pos, dst, src).failed
    ensures Scan(data, dst, pos) == Written(Scan(orig, src, pos), |src| - |dst|)
    decreases |orig| - pos
  {
    hide *;
    SyncedLengths(orig, data, pos, src, dst);
    match Find(orig, src, pos)
    case None =>
      NothingToRewrite(false, orig, pos, src, dst);
      if Find(data, dst, pos).Some? {
        NotFailed(data, pos, src, dst, Find(data, dst, pos).value);
        WrongPlace(orig, data, pos, src, dst, Find(data, dst, pos).value);
      } else {
        NothingToRewrite(false, data, pos, dst, src);
      }
    case Some(start) =>
      var end, at := start + |src|, start + |src| - |dst|;
      FoundWhereWritten(orig, data, pos, src, dst, start);
      SyncStep(orig, data, pos, src, dst, start);
      var (next, stop) := Replaced(false, data, at, dst, src);
      RewriteFirst(false, data, pos, dst, src, at);
      RewriteScan(orig, pos, src, start);
      SyncedLengths(orig, next, end, src, dst);
      OccursAt(orig, pos, src, start);
      assert Behind(orig, end, src) by {
        BehindNext(orig, start, src);
      }
      ScanOfTail(data, next, end, dst);
      NextFree(orig, start, end, src);
      RestoresOnlyIf(orig, next, end, src, dst);
      WrittenFirst(start, Scan(orig, src, end), |src| - |dst|);
  }

  lemma BehindNext(orig: seq<Byte>, start: nat, src: seq<Byte>)
    requires start + |src| <= |orig| && orig[start..start + |src|] == src
    ensures Behind(orig, start + |src|, src)
  {
  }

  /** For telling prefixes, those files are the only ones that are restored. */
  lemma RoundTripExactly(orig: seq<Byte>, src: seq<Byte>, dst: seq<Byte>)
    requires 0 < |dst| <= |src| && !Rewrite(false, orig, 0, src, dst).failed && Telling(src, dst)
    ensures RoundTrips(orig, src, dst) <==> FoundWhereWrittenOnly(orig, src, dst)
  {
    hide Rewrite, Synced, Find, Telling;
    RoundTripStarts(orig, src, dst);
    if FoundWhereWrittenOnly(orig, src, dst) {
      RoundTrip(orig, src, dst);
    }
    if RoundTrips(orig, src, dst) {
      RestoresOnlyIf(orig, Rewrite(false, orig, 0, src, dst).data, 0, src, dst);
    }
  }

  // ----- all prefixes -----

  /** For every file that can be converted, it is restored exactly where the new prefix is found where it was written. */
  ghost predicate Tells(src: seq<Byte>, dst: seq<Byte>)
    requires 0 < |dst| <= |src|
  {
    forall orig :: !Rewrite(false, orig, 0, src, dst).failed ==>
      (RoundTrips(orig, src, dst) <==> FoundWhereWrittenOnly(orig, src, dst))
  }

  /** The next old prefix may share slashes, but the new one does not go on like the old one. */
  ghost predicate Unclear(src: seq<Byte>, dst: seq<Byte>) {
    |dst| < |src| && Shared(src, dst) && !Begins(src, dst) && !Marked(src, dst)
  }

  lemma OneFile(orig: seq<Byte>, src: seq<Byte>, dst: seq<Byte>)
    requires 0 < |dst| <= |src| && !Rewrite(false, orig, 0, src, dst).failed
    requires RoundTrips(orig, src, dst) && !FoundWhereWrittenOnly(orig, src, dst)
    ensures !Tells(src, dst)
  {
  }

  lemma TellingTells(src: seq<Byte>, dst: seq<Byte>)
    requires 0 < |dst| <= |src| && Telling(src, dst)
    ensures Tells(src, dst)
  {
    hide Rewrite, RoundTrips, FoundWhereWrittenOnly, Telling;
    forall orig | !Rewrite(false, orig, 0, src, dst).failed
      ensures RoundTrips(orig, src, dst) <==> FoundWhereWrittenOnly(orig, src, dst)
    {
      RoundTripExactly(orig, src, dst);
    }
  }

  lemma AllSlashes(s: seq<Byte>)
    requires Lead(s) == |s|
    ensures s == Slashes(|s|)
  {
    SlashesAre(|s|);
  }

  function AnyApart(src: seq<Byte>): (x: Byte)
    ensures Apart(x, src) && x != SLASH && (src != [] ==> x != src[0])
  {
    if Lead(src) < |src| && src[Lead(src)] == 1 then 2 else 1
  }

  lemma NotTellingFails(src: seq<Byte>, dst: seq<Byte>)
    requires 0 < |dst| <= |src| && !Telling(src, dst) && !Unclear(src, dst)
    ensures !Tells(src, dst)
  {
    hide Rewrite, RoundTrips, FoundWhereWrittenOnly, Tells, Shared, Cut, Marked, Begins;
    var x := AnyApart(src);
    if Lead(dst) == |dst| {
      AllSlashes(dst);
      SlashesDoNotTell(src, |dst|, x);
      OneFile([x] + src, src, dst);
    } else if Cut(src, dst) {
      CutDoesNotTell(src, dst, x);
      OneFile(CutFile(src, x), src, dst);
    } else {
      SharedDoesNotTell(src, dst, x);
      OneFile(SharedFile(src, x, Overlap(src, dst)), src, dst);
    }
  }

  /** Which prefixes tell: exactly the telling ones, unless that is unclear. */
  lemma TellsExactly(src: seq<Byte>, dst: seq<Byte>)
    requires 0 < |dst| <= |src| && !Unclear(src, dst)
    ensures Tells(src, dst) <==> Telling(src, dst)
  {
    hide *;
    if Telling(src, dst) {
      TellingTells(src, dst);
    } else {
      NotTellingFails(src, dst);
    }
  }

  /** Paths that begin with one slash and end with at most one tell, whatever they are. */
  lemma PathsTell(src: seq<Byte>, dst: seq<Byte>)
    requires 1 < |dst| <= |src| && Lead(src) == 1 && Lead(dst) == 1 && Trail(src) <= 1
    ensures Tells(src, dst)
  {
    TellingTells(src, dst) by {
      assert Telling(src, dst);
    }
  }

  /** An old prefix that ends with a slash and begins with none does not tell from what begins it. */
  lemma PrefixDoesNotTell(src: seq<Byte>, n: nat)
    requires 0 < n < |src| && src[0] != SLASH && src[|src| - 1] == SLASH
    ensures !Tells(src, src[..n])
  {
    var dst := src[..n];
    TrailIs(src);
    hide Trail, Tells, Marked;
    assert dst[0..] == dst && src[0..] == src;
    assert Cut(src, dst);
    PrefixUnmarked(src, n);
    NotTellingFails(src, dst);
  }

  lemma PrefixUnmarked(src: seq<Byte>, n: nat)
    requires n <= |src|
    ensures !Marked(src, src[..n])
  {
  }

  /** Nor does a new prefix that ends with a slash, from a slash and itself, unless it is all slashes. */
  lemma SlashAtEndDoesNotTell(dst: seq<Byte>)
    requires Lead(dst) < |dst| && dst[|dst| - 1] == SLASH
    ensures !Tells([SLASH] + dst, dst)
  {
    var src := [SLASH] + dst;
    TailShared(dst);
    TailUnmarked(dst);
    hide *;
    assert Lead(dst) < |dst|;
    NotShorterTelling(src, dst);
    NotTellingFails(src, dst);
  }

  lemma TailShared(dst: seq<Byte>)
    requires Lead(dst) < |dst| && dst[|dst| - 1] == SLASH
    ensures Shared([SLASH] + dst, dst) && Begins([SLASH] + dst, dst)
  {
    var src := [SLASH] + dst;
    LeadBehindSlash(dst);
    EndsWithSlash(src);
    hide Trail, Lead;
    assert src[1 + Lead(dst)] == dst[Lead(dst)];
    assert src[1 + Lead(dst)..] == dst[Lead(dst)..];
  }

  lemma LeadBehindSlash(dst: seq<Byte>)
    ensures Lead([SLASH] + dst) == 1 + Lead(dst)
  {
    assert ([SLASH] + dst)[1..] == dst;
  }

  lemma EndsWithSlash(s: seq<Byte>)
    requires s != [] && s[|s| - 1] == SLASH
    ensures 0 < Trail(s)
  {
  }

  lemma NotShorterTelling(src: seq<Byte>, dst: seq<Byte>)
    requires |dst| < |src| && Shared(src, dst) && Begins(src, dst) && !Marked(src, dst)
    ensures !Telling(src, dst) && !Unclear(src, dst)
  {
  }

  lemma TailUnmarked(dst: seq<Byte>)
    ensures !Marked([SLASH] + dst, dst)
  {
    assert forall i :: 0 <= i < |dst| ==> ([SLASH] + dst)[i + 1] == dst[i];
  }
}
