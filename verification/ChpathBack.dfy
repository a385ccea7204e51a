/**
 * Rewriting a binary file back: it is restored where the new prefix is found exactly where it was written.
 */
module ChpathBack {
  import opened Bytes
  import opened Chpath
  import opened Sequences
  import opened Wrappers

  // ----- rewriting back -----

  /** `data` is `orig` with the matches from `pos` on converted; what is before `pos` is restored already. */
  ghost predicate Synced(orig: seq<Byte>, data: seq<Byte>, pos: nat, src: seq<Byte>, dst: seq<Byte>) {
    && pos <= |orig| == |data|
    && data[..pos] == orig[..pos]
    && data[pos..] == ReplaceAll(orig[pos..], src, Padded(src, dst))
  }

  /** Where the new prefix was written for the matches at `starts`: at their ends. */
  ghost function Written(starts: seq<nat>, pad: nat): (r: seq<nat>)
    ensures |r| == |starts| && forall j :: 0 <= j < |r| ==> r[j] == starts[j] + pad
  {
    seq(|starts|, j requires 0 <= j < |starts| => starts[j] + pad)
  }

  lemma SyncedParts(orig: seq<Byte>, data: seq<Byte>, pos: nat, src: seq<Byte>, dst: seq<Byte>)
    requires Synced(orig, data, pos, src, dst)
    ensures pos <= |orig| == |data| && data == orig[..pos] + ReplaceAll(orig[pos..], src, Padded(src, dst))
  {
    SplitAt(data, pos);
  }

  /** The file up to the next match, that match converted, and what follows. */
  lemma SyncedSplit(orig: seq<Byte>, data: seq<Byte>, pos: nat, src: seq<Byte>, dst: seq<Byte>, start: nat)
    requires Synced(orig, data, pos, src, dst) && 0 < |dst| <= |src| && Find(orig, src, pos) == Some(start)
    ensures start + |src| <= |orig| == |data|
    ensures data == orig[..start] + Padded(src, dst) + ReplaceAll(orig[start + |src|..], src, Padded(src, dst))
  {
    SyncedParts(orig, data, pos, src, dst);
    hide *;
    var end, rep := start + |src|, Padded(src, dst);
    var tail := ReplaceAll(orig[end..], src, rep);
    OccursAt(orig, pos, src, start);
    ReplaceAllAt(orig, pos, src, rep, start);
    AppendAssoc(orig[..pos], orig[pos..start], rep);
    AppendAssoc(orig[..pos], orig[pos..start] + rep, tail);
    SplitSlice(orig, 0, pos, start);
    assert orig[0..pos] == orig[..pos] && orig[0..start] == orig[..start];
  }

  /** The next match, converted: up to `start` nothing changed, then slashes, then the new prefix. */
  lemma SyncedAt(orig: seq<Byte>, data: seq<Byte>, pos: nat, src: seq<Byte>, dst: seq<Byte>, start: nat)
    requires Synced(orig, data, pos, src, dst) && 0 < |dst| <= |src| && Find(orig, src, pos) == Some(start)
    ensures
      var end := start + |src|;
      && end <= |orig| == |data|
      && data[..start] == orig[..start]
      && data[start..end] == Padded(src, dst)
      && data[end..] == ReplaceAll(orig[end..], src, Padded(src, dst))
      && Occurs(data, dst, end - |dst|)
  {
    hide *;
    var end, rep, pad := start + |src|, Padded(src, dst), |src| - |dst|;
    var tail := ReplaceAll(orig[end..], src, rep);
    SyncedSplit(orig, data, pos, src, dst, start);
    Parts(orig[..start], rep, tail);
    PaddedIs(src, dst);
    AppendAssoc(orig[..start], Slashes(pad), dst);
    Parts(orig[..start] + Slashes(pad), dst, tail);
    IsOccurrence(data, dst, start + pad);
  }

  lemma PadHoldsSlashes(data: seq<Byte>, start: nat, src: seq<Byte>, dst: seq<Byte>)
    requires start + |src| <= |data| && |dst| <= |src| && data[start..start + |src|] == Padded(src, dst)
    ensures forall j :: start <= j < start + |src| - |dst| ==> data[j] == SLASH
    ensures data[start + |src| - |dst|..start + |src|] == dst
  {
    var pad := |src| - |dst|;
    SlashesAre(pad);
    forall j | start <= j < start + pad
      ensures data[j] == SLASH
    {
      assert data[j] == data[start..start + |src|][j - start] == Padded(src, dst)[j - start] == Slashes(pad)[j - start];
    }
    assert data[start + pad..start + |src|] == data[start..start + |src|][pad..] == Padded(src, dst)[pad..];
  }

  lemma RunThroughPad(orig: seq<Byte>, data: seq<Byte>, start: nat, pad: nat, k: nat)
    requires start + pad <= |data| && start <= |orig| && data[..start] == orig[..start]
    requires forall i :: start <= i < start + pad ==> data[i] == SLASH
    requires k == SlashRun(orig, start) < start
    ensures SlashRun(data, start + pad) == k + pad
  {
    SlashRunIs(orig, start);
    forall i | start - k <= i < start + pad
      ensures data[i] == SLASH
    {
      if i < start {
        assert data[i] == data[..start][i] == orig[..start][i];
      }
    }
    assert data[start - k - 1] == data[..start][start - k - 1] == orig[..start][start - k - 1];
    SlashRunUnique(data, start + pad, k + pad);
  }

  /** The old prefix, after as many slashes as were there before, fills the place of the match exactly. */
  lemma PutBack(orig: seq<Byte>, data: seq<Byte>, start: nat, end: nat)
    requires start <= end <= |orig| == |data| && data[..start] == orig[..start]
    ensures
      var k := SlashRun(orig, start);
      var next := Overwrite(data, start - k, Slashes(k) + orig[start..end]);
      next[..end] == orig[..end] && next[end..] == data[end..]
  {
    hide *;
    var k := SlashRun(orig, start);
    RunSlice(orig, start);
    SplitSlice(orig, start - k, start, end);
    OverwriteIs(data, start - k, Slashes(k) + orig[start..end]);
    PrefixOf(data, orig, start - k, start);
    SplitSlice(orig, 0, start - k, end);
    assert orig[0..start - k] == orig[..start - k] && orig[0..end] == orig[..end];
    Parts(orig[..end], data[end..], []);
    assert orig[..end] + data[end..] + [] == orig[..end] + data[end..];
  }

  lemma SyncRun(orig: seq<Byte>, data: seq<Byte>, pos: nat, src: seq<Byte>, dst: seq<Byte>, start: nat)
    requires Synced(orig, data, pos, src, dst) && 0 < |dst| <= |src| && Find(orig, src, pos) == Some(start)
    requires SlashRun(orig, start) < start
    ensures start + |src| <= |data|
    ensures SlashRun(data, start + |src| - |dst|) == SlashRun(orig, start) + |src| - |dst|
  {
    hide *;
    SyncedLengths(orig, data, pos, src, dst);
    SyncedAt(orig, data, pos, src, dst, start);
    PadHoldsSlashes(data, start, src, dst);
    RunThroughPad(orig, data, start, |src| - |dst|, SlashRun(orig, start));
  }

  /** Before the end of the next match nothing changed but the match; behind it the conversion goes on. */
  lemma SyncedAround(orig: seq<Byte>, data: seq<Byte>, pos: nat, src: seq<Byte>, dst: seq<Byte>, start: nat)
    requires Synced(orig, data, pos, src, dst) && 0 < |dst| <= |src| && Find(orig, src, pos) == Some(start)
    ensures
      var end := start + |src|;
      && end <= |orig| == |data| && orig[start..end] == src && data[..start] == orig[..start]
      && data[end..] == ReplaceAll(orig[end..], src, Padded(src, dst))
  {
    hide *;
    SyncedLengths(orig, data, pos, src, dst);
    SyncedAt(orig, data, pos, src, dst, start);
    OccursAt(orig, pos, src, start);
  }

  /** The file with the old prefix put back over the next match. */
  ghost function Restored(orig: seq<Byte>, data: seq<Byte>, start: nat, src: seq<Byte>): (next: seq<Byte>)
    requires start <= |orig| == |data|
  {
    var k := SlashRun(orig, start);
    Overwrite(data, start - k, Slashes(k) + src)
  }

  lemma SyncPut(orig: seq<Byte>, data: seq<Byte>, pos: nat, src: seq<Byte>, dst: seq<Byte>, start: nat)
    requires Synced(orig, data, pos, src, dst) && 0 < |dst| <= |src| && Find(orig, src, pos) == Some(start)
    ensures start + |src| <= |orig| == |data|
    ensures Synced(orig, Restored(orig, data, start, src), start + |src|, src, dst)
    ensures |Restored(orig, data, start, src)| == |data|
    ensures Restored(orig, data, start, src)[start + |src|..] == data[start + |src|..]
  {
    hide ReplaceAll, SlashRun, Slashes, Overwrite, Find, Padded;
    SyncedAround(orig, data, pos, src, dst, start);
    PutBack(orig, data, start, start + |src|);
  }

  lemma ReplacedRestores(orig: seq<Byte>, data: seq<Byte>, at: nat, src: seq<Byte>, dst: seq<Byte>, start: nat)
    requires |dst| <= |src| && start + |src| <= |orig| == |data| && at == start + |src| - |dst|
    requires SlashRun(data, at) == SlashRun(orig, start) + |src| - |dst| && SlashRun(orig, start) < start
    ensures SlashRun(data, at) < at && Replaced(false, data, at, dst, src) == (Restored(orig, data, start, src), start + |src|)
  {
    hide SlashRun, Slashes, Overwrite;
    ReplacedIs(data, at, dst, src);
    assert SlashRun(data, at) + |dst| - |src| == SlashRun(orig, start);
  }

  /** Replacing the new prefix where it was written puts the old prefix back where it was. */
  lemma SyncStep(orig: seq<Byte>, data: seq<Byte>, pos: nat, src: seq<Byte>, dst: seq<Byte>, start: nat)
    requires Synced(orig, data, pos, src, dst) && 0 < |dst| <= |src| && Find(orig, src, pos) == Some(start)
    requires SlashRun(orig, start) < start
    ensures
      var end := start + |src|;
      && end <= |data|
      && SlashRun(data, end - |dst|) < end - |dst|
      && var (next, stop) := Replaced(false, data, end - |dst|, dst, src);
      stop == end && Synced(orig, next, end, src, dst) && next[end..] == data[end..]
  {
    hide *;
    SyncPut(orig, data, pos, src, dst, start);
    SyncRun(orig, data, pos, src, dst, start);
    ReplacedRestores(orig, data, start + |src| - |dst|, src, dst, start);
  }

  /** Where the scan finds the new prefix exactly where it was written, rewriting back restores the file. */
  lemma {:induction false} Restores(orig: seq<Byte>, data: seq<Byte>, pos: nat, src: seq<Byte>, dst: seq<Byte>)
    requires Synced(orig, data, pos, src, dst) && 0 < |dst| <= |src|
    requires Find(orig, src, pos).Some? ==> SlashRun(orig, Find(orig, src, pos).value) < Find(orig, src, pos).value
    requires Scan(data, dst, pos) == Written(Scan(orig, src, pos), |src| - |dst|)
    ensures Rewrite(false, data, pos, dst, src).data == orig && !Rewrite(false, data, pos, dst, src).failed
    decreases |orig| - pos
  {
    hide *;
    match Find(orig, src, pos)
    case None =>
      SyncedDone(orig, data, pos, src, dst);
      NothingWritten(orig, data, pos, src, dst);
      NothingToRewrite(false, data, pos, dst, src);
    case Some(start) =>
      var end, at := start + |src|, start + |src| - |dst|;
      FirstWritten(orig, data, pos, src, dst, start);
      SyncStep(orig, data, pos, src, dst, start);
      var (next, stop) := Replaced(false, data, at, dst, src);
      RewriteFirst(false, data, pos, dst, src, at);
      SyncedLengths(orig, data, pos, src, dst);
      SyncedLengths(orig, next, end, src, dst);
      ScanOfTail(data, next, end, dst);
      NextFree(orig, start, end, src);
      Restores(orig, next, end, src, dst);
  }

  lemma SyncedLengths(orig: seq<Byte>, data: seq<Byte>, pos: nat, src: seq<Byte>, dst: seq<Byte>)
    requires Synced(orig, data, pos, src, dst)
    ensures pos <= |orig| == |data|
  {
  }

  lemma SyncedDone(orig: seq<Byte>, data: seq<Byte>, pos: nat, src: seq<Byte>, dst: seq<Byte>)
    requires Synced(orig, data, pos, src, dst) && Find(orig, src, pos) == None
    ensures data == orig && pos <= |data|
  {
    ReplaceAllNothing(orig, pos, src, Padded(src, dst));
    assert data == data[..pos] + data[pos..] && orig == orig[..pos] + orig[pos..];
  }

  lemma NothingWritten(orig: seq<Byte>, data: seq<Byte>, pos: nat, src: seq<Byte>, dst: seq<Byte>)
    requires Find(orig, src, pos) == None && |dst| <= |src|
    requires Scan(data, dst, pos) == Written(Scan(orig, src, pos), |src| - |dst|)
    ensures Find(data, dst, pos) == None
  {
  }

  lemma FirstWritten(orig: seq<Byte>, data: seq<Byte>, pos: nat, src: seq<Byte>, dst: seq<Byte>, start: nat)
    requires Find(orig, src, pos) == Some(start) && 0 < |dst| <= |src|
    requires Scan(data, dst, pos) == Written(Scan(orig, src, pos), |src| - |dst|)
    ensures Find(data, dst, pos) == Some(start + |src| - |dst|)
    ensures Scan(data, dst, start + |src|) == Written(Scan(orig, src, start + |src|), |src| - |dst|)
  {
    hide Find;
    var pad, end := |src| - |dst|, start + |src|;
    var rest := Scan(orig, src, end);
    assert Scan(orig, src, pos) == [start] + rest;
    assert Written([start] + rest, pad) == [start + pad] + Written(rest, pad);
    assert Scan(data, dst, pos)[0] == start + pad;
    assert Scan(data, dst, pos) == [start + pad] + Scan(data, dst, end);
    assert Scan(data, dst, pos)[1..] == Scan(data, dst, end);
    assert ([start + pad] + Written(rest, pad))[1..] == Written(rest, pad);
  }

  /** Once some byte before the first match is not a slash, the same holds for all later ones. */
  lemma NextFree(orig: seq<Byte>, start: nat, end: nat, src: seq<Byte>)
    requires start < end <= |orig| && SlashRun(orig, start) < start
    ensures Find(orig, src, end).Some? ==> SlashRun(orig, Find(orig, src, end).value) < Find(orig, src, end).value
  {
    StillNotOnlySlashes(orig, orig, start, end, src);
  }

  lemma WrittenFirst(start: nat, later: seq<nat>, pad: nat)
    ensures Written([start] + later, pad) == [start + pad] + Written(later, pad)
  {
  }

  // ----- the round trip -----

  /** The new prefix is found in the converted file exactly where it was written. */
  ghost predicate FoundWhereWrittenOnly(orig: seq<Byte>, src: seq<Byte>, dst: seq<Byte>)
    requires |dst| <= |src|
  {
    Scan(Rewrite(false, orig, 0, src, dst).data, dst, 0) == Written(Scan(orig, src, 0), |src| - |dst|)
  }

  /** Whether rewriting to the new prefix and back to the old one succeeds and restores the file. */
  ghost predicate RoundTrips(orig: seq<Byte>, src: seq<Byte>, dst: seq<Byte>) {
    var there := Rewrite(false, orig, 0, src, dst);
    var back := Rewrite(false, there.data, 0, dst, src);
    !back.failed && back.data == orig
  }

  lemma RoundTripStarts(orig: seq<Byte>, src: seq<Byte>, dst: seq<Byte>)
    requires 0 < |dst| <= |src| && !Rewrite(false, orig, 0, src, dst).failed
    ensures Synced(orig, Rewrite(false, orig, 0, src, dst).data, 0, src, dst)
    ensures Find(orig, src, 0).Some? ==> SlashRun(orig, Find(orig, src, 0).value) < Find(orig, src, 0).value
  {
    hide Find, ReplaceAll, Scan;
    if Find(orig, src, 0).Some? {
      assert SlashRun(orig, Find(orig, src, 0).value) < Find(orig, src, 0).value;
    }
    BinaryReplacesAll(orig, 0, src, dst);
    OnlyMatchesChange(orig, 0, src, Padded(src, dst));
    hide Rewrite;
    var data := Rewrite(false, orig, 0, src, dst).data;
    assert orig[0..] == orig && data[0..] == data && orig[..0] + ReplaceAll(orig, src, Padded(src, dst)) == ReplaceAll(orig, src, Padded(src, dst));
  }

  /** A file whose conversion holds the new prefix only where it was written is restored. */
  lemma RoundTrip(orig: seq<Byte>, src: seq<Byte>, dst: seq<Byte>)
    requires 0 < |dst| <= |src| && !Rewrite(false, orig, 0, src, dst).failed
    requires FoundWhereWrittenOnly(orig, src, dst)
    ensures RoundTrips(orig, src, dst)
  {
    hide Rewrite, Synced, Find;
    RoundTripStarts(orig, src, dst);
    Restores(orig, Rewrite(false, orig, 0, src, dst).data, 0, src, dst);
  }

  // ----- a condition a reader can see in the file -----

  /** When the new prefix occurs at no other place at all, the scan finds it where it was written. */
  lemma {:induction false} OccurrencesFound(orig: seq<Byte>, data: seq<Byte>, pos: nat, src: seq<Byte>, dst: seq<Byte>)
    requires Synced(orig, data, pos, src, dst) && 0 < |dst| <= |src|
    requires Find(orig, src, pos).Some? ==> SlashRun(orig, Find(orig, src, pos).value) < Find(orig, src, pos).value
    requires forall at :: at >= pos && Occurs(data, dst, at) ==> at in Written(Scan(orig, src, pos), |src| - |dst|)
    ensures Scan(data, dst, pos) == Written(Scan(orig, src, pos), |src| - |dst|)
    decreases |orig| - pos
  {
    hide *;
    var pad := |src| - |dst|;
    FindIsFirst(data, dst, pos);
    SyncedLengths(orig, data, pos, src, dst);
    NothingToRewriteScan(orig, pos, src);
    NothingToRewriteScan(data, pos, dst);
    match Find(orig, src, pos)
    case None =>
      assert Find(data, dst, pos) == None;
    case Some(start) =>
      var end, at := start + |src|, start + pad;
      SyncedAt(orig, data, pos, src, dst, start);
      FoundUpToWritten(data, dst, pos, at);
      RewriteScan(orig, pos, src, start);
      WrittenFirst(start, Scan(orig, src, end), pad);
      ScanFrom(orig, end, src);
      assert forall x :: x in Written(Scan(orig, src, end), pad) ==> x >= end;
      assert Find(data, dst, pos) == Some(at);
      RewriteScan(data, pos, dst, at);
      SyncStep(orig, data, pos, src, dst, start);
      var (next, stop) := Replaced(false, data, at, dst, src);
      SyncedLengths(orig, next, end, src, dst);
      ScanOfTail(data, next, end, dst);
      NextFree(orig, start, end, src);
      forall x | x >= end && Occurs(next, dst, x)
        ensures x in Written(Scan(orig, src, end), pad)
      {
        OccursSame(next, data, end, dst, x);
      }
      OccurrencesFound(orig, next, end, src, dst);
  }

  /** A file whose conversion has the new prefix at no place but those where it was written is restored. */
  lemma RoundTripByOccurrence(orig: seq<Byte>, src: seq<Byte>, dst: seq<Byte>)
    requires 0 < |dst| <= |src| && !Rewrite(false, orig, 0, src, dst).failed
    requires forall at :: Occurs(Rewrite(false, orig, 0, src, dst).data, dst, at) ==>
      at in Written(Scan(orig, src, 0), |src| - |dst|)
    ensures RoundTrips(orig, src, dst)
  {
    hide Rewrite, Synced, Find, Occurs;
    RoundTripStarts(orig, src, dst);
    OccurrencesFound(orig, Rewrite(false, orig, 0, src, dst).data, 0, src, dst);
    RoundTrip(orig, src, dst);
  }
}
