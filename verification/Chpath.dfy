/**
 * chpath_inplace: rewriting an installation prefix in the bytes of a file, in place. In a binary file
 * the length is kept by leading slashes, in a text file it changes.
 */
module Chpath {
  import opened Bytes
  import opened Sequences
  import opened Wrappers

  const SLASH: Byte := 47

  ghost predicate Occurs(data: seq<Byte>, pat: seq<Byte>, at: nat) {
    at + |pat| <= |data| && data[at..at + |pat|] == pat
  }

  /** The first place, from `pos` on, where `pat` occurs; the empty pattern is never found. */
  ghost function Find(data: seq<Byte>, pat: seq<Byte>, pos: nat): (r: Option<nat>)
    ensures r.Some? ==> pat != [] && pos <= r.value && r.value + |pat| <= |data|
    decreases |data| - pos
  {
    if pat == [] || pos + |pat| > |data| then None
    else if Occurs(data, pat, pos) then Some(pos)
    else Find(data, pat, pos + 1)
  }

  lemma {:induction false} FindIsFirst(data: seq<Byte>, pat: seq<Byte>, pos: nat)
    requires pat != []
    ensures
      match Find(data, pat, pos)
      case Some(found) => Occurs(data, pat, found) && forall at :: pos <= at < found ==> !Occurs(data, pat, at)
      case None => forall at :: pos <= at ==> !Occurs(data, pat, at)
    decreases |data| - pos
  {
    if pos + |pat| <= |data| && !Occurs(data, pat, pos) {
      FindIsFirst(data, pat, pos + 1);
    }
  }

  /** How many slashes stand directly before `at`. */
  ghost function SlashRun(data: seq<Byte>, at: nat): (k: nat)
    requires at <= |data|
    ensures k <= at
  {
    if at == 0 || data[at - 1] != SLASH then 0 else 1 + SlashRun(data, at - 1)
  }

  lemma {:induction false} SlashRunIs(data: seq<Byte>, at: nat)
    requires at <= |data|
    ensures
      var k := SlashRun(data, at);
      (forall i :: at - k <= i < at ==> data[i] == SLASH) && (k < at ==> data[at - k - 1] != SLASH)
  {
    if at > 0 && data[at - 1] == SLASH {
      SlashRunIs(data, at - 1);
    }
  }

  function Slashes(n: int): (r: seq<Byte>)
    ensures |r| == if n > 0 then n else 0
  {
    if n <= 0 then [] else Slashes(n - 1) + [SLASH]
  }

  lemma {:induction false} SlashesAre(n: int)
    ensures forall i :: 0 <= i < |Slashes(n)| ==> Slashes(n)[i] == SLASH
  {
    if n > 0 {
      SlashesAre(n - 1);
    }
  }

  /** What a file holds after a write: what is there is overwritten, the end may move up. */
  function Overwrite(data: seq<Byte>, at: nat, bytes: seq<Byte>): (r: seq<Byte>)
    requires at <= |data|
    ensures |r| == if at + |bytes| > |data| then at + |bytes| else |data|
  {
    data[..at] + bytes + if at + |bytes| > |data| then [] else data[at + |bytes|..]
  }

  /** The file afterwards, where matches were found, and whether a seek before the start failed. */
  datatype Outcome = Outcome(data: seq<Byte>, starts: seq<nat>, failed: bool)

  /** One replacement of the match at `start`: the new contents and the position after it. */
  ghost function Replaced(text: bool, data: seq<Byte>, start: nat, src: seq<Byte>, dst: seq<Byte>): (r: (seq<Byte>, nat))
    requires start + |src| <= |data|
    requires !text ==> SlashRun(data, start) < start
    ensures r.1 <= |r.0|
  {
    if text then
      var rest := data[start + |src|..];
      (if rest == [] then Overwrite(data, start, dst) else data[..start] + dst + rest, start + |dst|)
    else
      var k := SlashRun(data, start);
      var bytes := Slashes(k + |src| - |dst|) + dst;
      (Overwrite(data, start - k, bytes), start - k + |bytes|)
  }

  /**
   * The whole rewriting from `pos` on. An empty replacement of a match that ends a text file leaves the
   * match and the position as they are, so the rewriting would not end.
   */
  ghost function Rewrite(text: bool, data: seq<Byte>, pos: nat, src: seq<Byte>, dst: seq<Byte>): Outcome
    requires pos <= |data| && (text && dst == [] ==> !MatchAtEnd(data, pos, src))
    decreases |data| - pos
  {
    match Find(data, src, pos)
    case None => Outcome(data, [], false)
    case Some(start) =>
      if !text && SlashRun(data, start) == start then Outcome(data, [start], true)
      else
        EmptyReplaced(data, pos, src, start);
        var (next, end) := Replaced(text, data, start, src, dst);
        var r := Rewrite(text, next, end, src, dst);
        r.(starts := [start] + r.starts)
  }

  // ----- what rewriting means -----

  /** Every match from the left replaced, the rest unchanged: the reference for both kinds of file. */
  ghost function ReplaceAll(data: seq<Byte>, src: seq<Byte>, rep: seq<Byte>): seq<Byte>
    decreases |data|
  {
    match Find(data, src, 0)
    case None => data
    case Some(at) => data[..at] + rep + ReplaceAll(data[at + |src|..], src, rep)
  }

  /** The places that a scan from `pos` finds, from the left and without overlap. */
  ghost function Scan(data: seq<Byte>, pat: seq<Byte>, pos: nat): seq<nat>
    decreases |data| - pos
  {
    match Find(data, pat, pos)
    case None => []
    case Some(at) => [at] + Scan(data, pat, at + |pat|)
  }

  /** From `pos` on, `a` holds what `b` holds `shift` bytes earlier. */
  ghost predicate SameTail(a: seq<Byte>, b: seq<Byte>, pos: nat, shift: nat) {
    && shift <= pos <= |a| && |a| == |b| + shift
    && forall i :: pos <= i < |a| ==> a[i] == b[i - shift]
  }

  lemma OccursInTail(a: seq<Byte>, b: seq<Byte>, pos: nat, shift: nat, pat: seq<Byte>, at: nat)
    requires SameTail(a, b, pos, shift) && pos <= at
    ensures Occurs(a, pat, at) <==> Occurs(b, pat, at - shift)
  {
    if at + |pat| <= |a| {
      var s, t := a[at..at + |pat|], b[at - shift..at - shift + |pat|];
      assert forall i :: 0 <= i < |pat| ==> s[i] == a[at + i] && t[i] == b[at + i - shift];
      assert s == t;
    }
  }

  /** What is found from `pos` on depends only on what stands there. */
  lemma {:induction false} FindInTail(a: seq<Byte>, b: seq<Byte>, pos: nat, shift: nat, pat: seq<Byte>)
    requires SameTail(a, b, pos, shift)
    ensures
      var f, g := Find(a, pat, pos), Find(b, pat, pos - shift);
      f.Some? == g.Some? && (f.Some? ==> f.value == g.value + shift)
    decreases |a| - pos
  {
    OccursInTail(a, b, pos, shift, pat, pos);
    hide Occurs;
    if pat != [] && pos + |pat| <= |a| && !Occurs(a, pat, pos) {
      FindInTail(a, b, pos + 1, shift, pat);
    }
  }

  lemma {:induction false} ScanInTail(a: seq<Byte>, b: seq<Byte>, pos: nat, pat: seq<Byte>)
    requires SameTail(a, b, pos, 0)
    ensures Scan(a, pat, pos) == Scan(b, pat, pos)
    decreases |a| - pos
  {
    hide Find, Occurs, Scan;
    FindInTail(a, b, pos, 0, pat);
    NothingToRewriteScan(a, pos, pat);
    NothingToRewriteScan(b, pos, pat);
    var f := Find(a, pat, pos);
    if f.Some? {
      RewriteScan(a, pos, pat, f.value);
      RewriteScan(b, pos, pat, f.value);
      ScanInTail(a, b, f.value + |pat|, pat);
    }
  }

  lemma FindOfTail(data: seq<Byte>, pos: nat, pat: seq<Byte>)
    requires pos <= |data|
    ensures
      var f, g := Find(data, pat, pos), Find(data[pos..], pat, 0);
      f.Some? == g.Some? && (f.Some? ==> f.value == g.value + pos)
  {
    hide Find;
    FindInTail(data, data[pos..], pos, pos, pat);
  }

  lemma ScanOfTail(data: seq<Byte>, next: seq<Byte>, end: nat, pat: seq<Byte>)
    requires end <= |data| == |next| && data[end..] == next[end..]
    ensures Scan(next, pat, end) == Scan(data, pat, end)
  {
    hide Scan;
    forall i | end <= i < |data|
      ensures next[i] == data[i]
    {
      assert next[end..][i - end] == data[end..][i - end];
    }
    ScanInTail(next, data, end, pat);
  }

  /** ReplaceAll of a tail, by positions in the whole file. */
  lemma ReplaceAllAt(data: seq<Byte>, pos: nat, src: seq<Byte>, rep: seq<Byte>, at: nat)
    requires pos <= |data| && Find(data, src, pos) == Some(at)
    ensures ReplaceAll(data[pos..], src, rep) == data[pos..at] + rep + ReplaceAll(data[at + |src|..], src, rep)
  {
    hide *;
    FindOfTail(data, pos, src);
    var tail, k := data[pos..], at - pos;
    ReplaceAllFirst(tail, src, rep, k);
    assert tail[..k] == data[pos..at];
    assert tail[k + |src|..] == data[at + |src|..];
  }

  lemma ReplaceAllFirst(data: seq<Byte>, src: seq<Byte>, rep: seq<Byte>, at: nat)
    requires Find(data, src, 0) == Some(at)
    ensures ReplaceAll(data, src, rep) == data[..at] + rep + ReplaceAll(data[at + |src|..], src, rep)
  {
  }

  lemma ReplaceAllNothing(data: seq<Byte>, pos: nat, src: seq<Byte>, rep: seq<Byte>)
    requires pos <= |data| && Find(data, src, pos) == None
    ensures ReplaceAll(data[pos..], src, rep) == data[pos..]
  {
    FindOfTail(data, pos, src);
  }

  function Padded(src: seq<Byte>, dst: seq<Byte>): (r: seq<Byte>)
    ensures |dst| <= |src| ==> |r| == |src|
  {
    Slashes(|src| - |dst|) + dst
  }

  lemma RunSlice(data: seq<Byte>, at: nat)
    requires at <= |data|
    ensures var k := SlashRun(data, at); data[at - k..at] == Slashes(k)
  {
    SlashRunIs(data, at);
    SlashesAre(SlashRun(data, at));
  }

  lemma OverwriteIs(data: seq<Byte>, at: nat, bytes: seq<Byte>)
    requires at + |bytes| <= |data|
    ensures Overwrite(data, at, bytes) == data[..at] + bytes + data[at + |bytes|..]
  {
    assert data[at + |bytes|..] + [] == data[at + |bytes|..];
  }

  /** With a shorter replacement, one step turns the match alone into slashes and the replacement. */
  lemma OneReplaced(data: seq<Byte>, start: nat, src: seq<Byte>, dst: seq<Byte>)
    requires start + |src| <= |data| && |dst| <= |src| && SlashRun(data, start) < start
    ensures Replaced(false, data, start, src, dst)
      == (data[..start] + Padded(src, dst) + data[start + |src|..], start + |src|)
  {
    hide *;
    var k, pad := SlashRun(data, start), |src| - |dst|;
    var bytes := Slashes(k + pad) + dst;
    RunSlice(data, start);
    ReplacedIs(data, start, src, dst);
    assert k + |src| - |dst| == k + pad;
    assert bytes == Slashes(k) + Padded(src, dst) by {
      SlashesSplit(k, pad);
      PaddedIs(src, dst);
      AppendAssoc(Slashes(k), Slashes(pad), dst);
    }
    assert |bytes| == k + |src|;
    OverwriteIs(data, start - k, bytes);
    assert start - k + |bytes| == start + |src|;
    Regrouped(data, start - k, start, start + |src|, Slashes(k), Padded(src, dst));
  }

  lemma PaddedIs(src: seq<Byte>, dst: seq<Byte>)
    requires |dst| <= |src|
    ensures Padded(src, dst) == Slashes(|src| - |dst|) + dst
  {
  }

  lemma Regrouped(data: seq<Byte>, at: nat, start: nat, end: nat, slashes: seq<Byte>, p: seq<Byte>)
    requires at <= start <= end <= |data| && data[at..start] == slashes
    ensures data[..at] + (slashes + p) + data[end..] == data[..start] + p + data[end..]
  {
    SplitSlice(data, 0, at, start);
    AppendAssoc(data[..at], slashes, p);
    assert data[..at] == data[0..at] && data[..start] == data[0..start];
  }

  lemma SlashRunFull(data: seq<Byte>, at: nat, i: nat)
    requires i < at <= |data| && data[i] != SLASH
    ensures SlashRun(data, at) < at
  {
    SlashRunIs(data, at);
  }

  /**
   * A binary file is rewritten to the file with every match replaced by the padded new prefix, unless
   * its first match has nothing but slashes before it: then a seek fails.
   */
  lemma {:induction false} BinaryReplacesAll(data: seq<Byte>, pos: nat, src: seq<Byte>, dst: seq<Byte>)
    requires pos <= |data| && |dst| <= |src|
    requires Find(data, src, pos).Some? ==> SlashRun(data, Find(data, src, pos).value) < Find(data, src, pos).value
    ensures Rewrite(false, data, pos, src, dst)
      == Outcome(data[..pos] + ReplaceAll(data[pos..], src, Padded(src, dst)), Scan(data, src, pos), false)
    decreases |data| - pos
  {
    hide *;
    var rep := Padded(src, dst);
    match Find(data, src, pos)
    case None =>
      NothingToRewrite(false, data, pos, src, dst);
      ReplaceAllNothing(data, pos, src, rep);
      assert data[..pos] + data[pos..] == data;
    case Some(start) =>
      var end := start + |src|;
      var next := data[..start] + rep + data[end..];
      OneReplaced(data, start, src, dst);
      RewriteFirst(false, data, pos, src, dst, start);
      StillNotOnlySlashes(data, next, start, end, src);
      assert next[end..] == data[end..];
      ScanOfTail(data, next, end, src);
      BinaryReplacesAll(next, end, src, dst);
      var tail := ReplaceAll(data[end..], src, rep);
      ReplaceAllAt(data, pos, src, rep, start);
      assert next[..end] + tail == data[..pos] + (data[pos..start] + rep + tail);
  }

  lemma NothingToRewrite(text: bool, data: seq<Byte>, pos: nat, src: seq<Byte>, dst: seq<Byte>)
    requires pos <= |data| && (text && dst == [] ==> !MatchAtEnd(data, pos, src)) && Find(data, src, pos) == None
    ensures Rewrite(text, data, pos, src, dst) == Outcome(data, [], false) && Scan(data, src, pos) == []
  {
  }

  lemma RewriteFirst(text: bool, data: seq<Byte>, pos: nat, src: seq<Byte>, dst: seq<Byte>, start: nat)
    requires pos <= |data| && (text && dst == [] ==> !MatchAtEnd(data, pos, src)) && Find(data, src, pos) == Some(start)
    requires !text ==> SlashRun(data, start) < start
    ensures
      var (next, end) := Replaced(text, data, start, src, dst);
      && (text && dst == [] ==> !MatchAtEnd(next, end, src))
      && var r := Rewrite(text, next, end, src, dst);
      Rewrite(text, data, pos, src, dst) == Outcome(r.data, [start] + r.starts, r.failed)
    ensures Scan(data, src, pos) == [start] + Scan(data, src, start + |src|)
  {
    RewriteScan(data, pos, src, start);
    EmptyReplaced(data, pos, src, start);
    hide Find, SlashRun, Replaced, Scan, MatchAtEnd;
  }

  lemma StillNotOnlySlashes(data: seq<Byte>, next: seq<Byte>, start: nat, end: nat, src: seq<Byte>)
    requires start < end <= |data| == |next| && data[..start] == next[..start] && SlashRun(data, start) < start
    ensures Find(next, src, end).Some? ==> SlashRun(next, Find(next, src, end).value) < Find(next, src, end).value
  {
    SlashRunIs(data, start);
    var i := start - SlashRun(data, start) - 1;
    assert next[..start][i] == data[..start][i];
    var f := Find(next, src, end);
    if f.Some? {
      SlashRunFull(next, f.value, i);
    }
  }

  /** With nothing but slashes before the first match, the search for leading slashes seeks before the start. */
  lemma BinaryFails(data: seq<Byte>, pos: nat, src: seq<Byte>, dst: seq<Byte>, start: nat)
    requires pos <= |data| && Find(data, src, pos) == Some(start) && SlashRun(data, start) == start
    ensures Rewrite(false, data, pos, src, dst) == Outcome(data, [start], true)
  {
  }

  /** Byte `i` is in one of the matches. */
  ghost predicate InMatch(starts: seq<nat>, n: nat, i: nat) {
    exists j :: 0 <= j < |starts| && starts[j] <= i < starts[j] + n
  }

  /** `data` with the matches from `pos` on replaced. */
  ghost function ReplaceFrom(data: seq<Byte>, pos: nat, src: seq<Byte>, rep: seq<Byte>): seq<Byte>
    requires pos <= |data|
  {
    data[..pos] + ReplaceAll(data[pos..], src, rep)
  }

  /** `r` is `data` with exactly the matches that start at `starts` changed to `rep`. */
  ghost predicate OnlyChanged(data: seq<Byte>, r: seq<Byte>, starts: seq<nat>, rep: seq<Byte>) {
    && |r| == |data|
    && (forall j :: 0 <= j < |starts| ==> starts[j] + |rep| <= |r| && r[starts[j]..starts[j] + |rep|] == rep)
    && (forall i: nat :: i < |data| && !InMatch(starts, |rep|, i) ==> r[i] == data[i])
  }

  lemma OneMoreChanged(data: seq<Byte>, rest: seq<Byte>, r: seq<Byte>, start: nat, later: seq<nat>, rep: seq<Byte>)
    requires OnlyChanged(data, rest, later, rep) && forall j :: 0 <= j < |later| ==> start + |rep| <= later[j]
    requires start + |rep| <= |r| == |data| && r[start..start + |rep|] == rep && r[..start] == data[..start]
    requires r[start + |rep|..] == rest[start + |rep|..]
    ensures OnlyChanged(data, r, [start] + later, rep)
  {
    var starts, end := [start] + later, start + |rep|;
    forall i | end <= i < |r|
      ensures r[i] == rest[i]
    {
      assert r[end..][i - end] == rest[end..][i - end];
    }
    forall j | 0 <= j < |starts|
      ensures starts[j] + |rep| <= |r| && r[starts[j]..starts[j] + |rep|] == rep
    {
      if j > 0 {
        assert starts[j] == later[j - 1];
        assert r[starts[j]..starts[j] + |rep|] == rest[starts[j]..starts[j] + |rep|];
      }
    }
    forall i: nat | i < |data| && !InMatch(starts, |rep|, i)
      ensures r[i] == data[i]
    {
      assert starts[0] == start && forall j :: 0 <= j < |later| ==> starts[j + 1] == later[j];
      if i < start {
        assert r[..start][i] == data[..start][i];
      } else {
        assert !InMatch(later, |rep|, i);
      }
    }
  }

  /** A replacement of the same length keeps the length, and changes the matches and nothing else. */
  lemma {:induction false} OnlyMatchesChange(data: seq<Byte>, pos: nat, src: seq<Byte>, rep: seq<Byte>)
    requires pos <= |data| && |rep| == |src|
    ensures OnlyChanged(data, ReplaceFrom(data, pos, src, rep), Scan(data, src, pos), rep)
    ensures forall j :: 0 <= j < |Scan(data, src, pos)| ==> pos <= Scan(data, src, pos)[j]
    decreases |data| - pos
  {
    hide Find, Occurs, ReplaceAll, Scan, OnlyChanged;
    match Find(data, src, pos)
    case None =>
      NothingToRewrite(false, data, pos, src, []);
      ReplaceAllNothing(data, pos, src, rep);
      NothingChanged(data, pos, rep);
    case Some(start) =>
      var end := start + |src|;
      RewriteScan(data, pos, src, start);
      OnlyMatchesChange(data, end, src, rep);
      ReplaceAllAt(data, pos, src, rep, start);
      var r, rest := ReplaceFrom(data, pos, src, rep), ReplaceFrom(data, end, src, rep);
      ChangedLength(data, rest, Scan(data, src, end), rep);
      SplicedAt(data, pos, start, end, rep, ReplaceAll(data[end..], src, rep));
      OneMoreChanged(data, rest, r, start, Scan(data, src, end), rep);
  }

  lemma NothingChanged(data: seq<Byte>, pos: nat, rep: seq<Byte>)
    requires pos <= |data|
    ensures OnlyChanged(data, data[..pos] + data[pos..], [], rep)
  {
  }

  lemma ChangedLength(data: seq<Byte>, r: seq<Byte>, starts: seq<nat>, rep: seq<Byte>)
    requires OnlyChanged(data, r, starts, rep)
    ensures |r| == |data|
  {
  }

  lemma RewriteScan(data: seq<Byte>, pos: nat, src: seq<Byte>, start: nat)
    requires Find(data, src, pos) == Some(start)
    ensures Scan(data, src, pos) == [start] + Scan(data, src, start + |src|)
  {
  }

  lemma SplicedAt(data: seq<Byte>, pos: nat, start: nat, end: nat, rep: seq<Byte>, tail: seq<Byte>)
    requires pos <= start <= end <= |data| && |rep| == end - start && |tail| == |data| - end
    ensures
      var r, rest := data[..pos] + (data[pos..start] + rep + tail), data[..end] + tail;
      |r| == |rest| && r[start..end] == rep && r[..start] == data[..start] && r[end..] == rest[end..]
  {
  }

  // ----- text files -----

  /** The last match ends where the file ends. */
  ghost predicate MatchAtEnd(data: seq<Byte>, pos: nat, src: seq<Byte>) {
    var starts := Scan(data, src, pos);
    starts != [] && starts[|starts| - 1] + |src| == |data|
  }

  /** What one replacement in a text file leaves, unless it leaves the tail of a match at the end. */
  lemma TextReplaced(data: seq<Byte>, start: nat, src: seq<Byte>, dst: seq<Byte>)
    requires start + |src| <= |data| && (start + |src| == |data| ==> |src| <= |dst|)
    ensures Replaced(true, data, start, src, dst) == (data[..start] + dst + data[start + |src|..], start + |dst|)
  {
  }

  lemma ScanShift(data: seq<Byte>, next: seq<Byte>, end: nat, at: nat, pat: seq<Byte>)
    requires end <= |data| && at <= |next| && data[end..] == next[at..]
    ensures Find(data, pat, end).Some? == Find(next, pat, at).Some?
    ensures MatchAtEnd(data, end, pat) == MatchAtEnd(next, at, pat)
  {
    hide *;
    FindOfTail(data, end, pat);
    FindOfTail(next, at, pat);
    AtEndOfTail(data, end, pat);
    AtEndOfTail(next, at, pat);
  }

  lemma {:induction false} AtEndOfTail(data: seq<Byte>, pos: nat, pat: seq<Byte>)
    requires pos <= |data|
    ensures MatchAtEnd(data, pos, pat) == MatchAtEnd(data[pos..], 0, pat)
    decreases |data| - pos
  {
    hide Find, Occurs;
    var tail := data[pos..];
    FindOfTail(data, pos, pat);
    match Find(data, pat, pos)
    case None =>
    case Some(at) =>
      var end := at + |pat|;
      AtEndLater(data, pos, pat, at);
      AtEndLater(tail, 0, pat, at - pos);
      AtEndOfTail(data, end, pat);
      AtEndOfTail(tail, end - pos, pat);
      assert tail[end - pos..] == data[end..];
  }

  lemma AtEndLater(data: seq<Byte>, pos: nat, pat: seq<Byte>, at: nat)
    requires Find(data, pat, pos) == Some(at)
    ensures MatchAtEnd(data, pos, pat) <==> at + |pat| == |data| || MatchAtEnd(data, at + |pat|, pat)
  {
    RewriteScan(data, pos, pat, at);
    var later := Scan(data, pat, at + |pat|);
    if at + |pat| == |data| {
      assert later == [];
    }
  }

  lemma NoMatchAtEnd(data: seq<Byte>, pos: nat, pat: seq<Byte>)
    requires Find(data, pat, pos) == None
    ensures !MatchAtEnd(data, pos, pat)
  {
  }

  lemma ReplaceFromIs(data: seq<Byte>, pos: nat, src: seq<Byte>, rep: seq<Byte>)
    requires pos <= |data|
    ensures ReplaceFrom(data, pos, src, rep) == data[..pos] + ReplaceAll(data[pos..], src, rep)
  {
  }

  /** A shorter prefix written over a match at the end leaves the rest of the match behind. */
  lemma TailLeft(data: seq<Byte>, start: nat, src: seq<Byte>, dst: seq<Byte>)
    requires start + |src| == |data| && dst != [] && |dst| < |src|
    ensures
      var next := Overwrite(data, start, dst);
      && Replaced(true, data, start, src, dst) == (next, start + |dst|) && |next| == |data|
      && Rewrite(true, next, start + |dst|, src, dst) == Outcome(next, [], false)
    ensures ReplaceAll(data[start + |src|..], src, dst) == []
  {
  }

  /** Dropping a match that does not end the file drops bytes, and no later match ends it either. */
  lemma EmptyReplaced(data: seq<Byte>, pos: nat, src: seq<Byte>, start: nat)
    requires Find(data, src, pos) == Some(start)
    ensures !MatchAtEnd(data, pos, src) ==>
      var (next, end) := Replaced(true, data, start, src, []);
      |next| - end < |data| - pos && !MatchAtEnd(next, end, src)
  {
    if !MatchAtEnd(data, pos, src) {
      var end := start + |src|;
      AtEndLater(data, pos, src, start);
      TextReplaced(data, start, src, []);
      var next := data[..start] + data[end..];
      assert data[..start] + [] == data[..start];
      assert next[start..] == data[end..];
      hide MatchAtEnd;
      ScanShift(data, next, end, start, src);
    }
  }

  /**
   * A text file is rewritten to the file with every match replaced by the new prefix, exactly when its
   * last match does not end the file or the new prefix is not shorter: the file is not truncated there.
   */
  lemma {:induction false} TextReplacesAll(data: seq<Byte>, pos: nat, src: seq<Byte>, dst: seq<Byte>)
    requires pos <= |data| && (dst == [] ==> !MatchAtEnd(data, pos, src))
    ensures !Rewrite(true, data, pos, src, dst).failed
    ensures Rewrite(true, data, pos, src, dst).data == ReplaceFrom(data, pos, src, dst)
      <==> !(MatchAtEnd(data, pos, src) && |dst| < |src|)
    ensures |Rewrite(true, data, pos, src, dst).data| >= |ReplaceFrom(data, pos, src, dst)|
    decreases |data| - pos
  {
    hide *;
    match Find(data, src, pos)
    case None =>
      NothingToRewrite(true, data, pos, src, dst);
      ReplaceAllNothing(data, pos, src, dst);
      NoMatchAtEnd(data, pos, src);
      ReplaceFromIs(data, pos, src, dst);
      assert data[..pos] + data[pos..] == data;
    case Some(start) =>
      var end := start + |src|;
      RewriteFirst(true, data, pos, src, dst, start);
      ReplaceAllAt(data, pos, src, dst, start);
      ReplaceFromIs(data, pos, src, dst);
      AtEndLater(data, pos, src, start);
      if end == |data| && |dst| < |src| {
        TailLeft(data, start, src, dst);
      } else {
        TextReplaced(data, start, src, dst);
        var next := data[..start] + dst + data[end..];
        TextReplacesAll(next, start + |dst|, src, dst);
        ReplaceFromIs(next, start + |dst|, src, dst);
        assert next[start + |dst|..] == data[end..];
        ScanShift(data, next, end, start + |dst|, src);
        var tail := ReplaceAll(data[end..], src, dst);
        assert next[..start + |dst|] + tail == data[..pos] + (data[pos..start] + dst + tail);
      }
  }

  /**
   * One replacement by an empty new prefix of the match that ends a text file leaves file and position as
   * they are, and the same match is found again: there the rewriting does not end.
   */
  lemma EmptyReplacementRepeats(data: seq<Byte>, pos: nat, src: seq<Byte>, start: nat)
    requires Find(data, src, pos) == Some(start) && start + |src| == |data|
    ensures Replaced(true, data, start, src, []) == (data, start) && Find(data, src, start) == Some(start)
  {
    OccursAt(data, pos, src, start);
    assert data[..start] + [] + data[start..] == data;
  }

  // ----- places and replacements -----

  lemma {:induction false} SlashRunUnique(data: seq<Byte>, at: nat, k: nat)
    requires k < at <= |data| && data[at - k - 1] != SLASH
    requires forall i :: at - k <= i < at ==> data[i] == SLASH
    ensures SlashRun(data, at) == k
  {
    if k > 0 {
      SlashRunUnique(data, at - 1, k - 1);
    }
  }

  lemma ReplacedIs(data: seq<Byte>, at: nat, src: seq<Byte>, dst: seq<Byte>)
    requires at + |src| <= |data| && SlashRun(data, at) < at
    ensures
      var k := SlashRun(data, at);
      var bytes := Slashes(k + |src| - |dst|) + dst;
      Replaced(false, data, at, src, dst) == (Overwrite(data, at - k, bytes), at - k + |bytes|)
  {
  }

  lemma OccursAt(data: seq<Byte>, pos: nat, pat: seq<Byte>, start: nat)
    requires Find(data, pat, pos) == Some(start)
    ensures start + |pat| <= |data| && data[start..start + |pat|] == pat
  {
    FindIsFirst(data, pat, pos);
  }

  lemma IsOccurrence(data: seq<Byte>, pat: seq<Byte>, at: nat)
    requires at + |pat| <= |data| && data[at..at + |pat|] == pat
    ensures Occurs(data, pat, at)
  {
  }

  /** The first match of the new prefix is at or before the place where it was written. */
  lemma FoundUpToWritten(data: seq<Byte>, dst: seq<Byte>, pos: nat, at: nat)
    requires dst != [] && pos <= at && Occurs(data, dst, at)
    ensures Find(data, dst, pos).Some? && Find(data, dst, pos).value <= at
  {
    FindIsFirst(data, dst, pos);
  }

  lemma FirstAt(data: seq<Byte>, pat: seq<Byte>, pos: nat, at: nat)
    requires pat != [] && pos <= at && Occurs(data, pat, at) && forall p: nat :: pos <= p < at ==> !Occurs(data, pat, p)
    ensures Find(data, pat, pos) == Some(at)
  {
    FindIsFirst(data, pat, pos);
  }

  lemma NoneLeft(data: seq<Byte>, pat: seq<Byte>, pos: nat)
    requires |data| < pos + |pat|
    ensures Find(data, pat, pos) == None
  {
  }

  lemma PastEnd(data: seq<Byte>, pos: nat, src: seq<Byte>, dst: seq<Byte>)
    requires pos == |data|
    ensures Rewrite(false, data, pos, src, dst) == Outcome(data, [], false) && Scan(data, src, pos) == []
  {
  }

  lemma OverwriteAt(data: seq<Byte>, at: nat, bytes: seq<Byte>, p: nat)
    requires at <= |data| && p < |Overwrite(data, at, bytes)|
    ensures at <= p < at + |bytes| ==> Overwrite(data, at, bytes)[p] == bytes[p - at]
    ensures !(at <= p < at + |bytes|) ==> p < |data| && Overwrite(data, at, bytes)[p] == data[p]
  {
  }

  lemma NotFailed(data: seq<Byte>, pos: nat, src: seq<Byte>, dst: seq<Byte>, at: nat)
    requires pos <= |data| && Find(data, dst, pos) == Some(at) && !Rewrite(false, data, pos, dst, src).failed
    ensures SlashRun(data, at) < at
  {
  }

  lemma NothingToRewriteScan(data: seq<Byte>, pos: nat, pat: seq<Byte>)
    ensures Find(data, pat, pos) == None ==> Scan(data, pat, pos) == []
  {
  }

  lemma ScanFrom(data: seq<Byte>, pos: nat, pat: seq<Byte>)
    requires pos <= |data|
    ensures forall j :: 0 <= j < |Scan(data, pat, pos)| ==> pos <= Scan(data, pat, pos)[j]
  {
    hide Scan;
    OnlyMatchesChange(data, pos, pat, pat);
  }

  lemma OccursSame(a: seq<Byte>, b: seq<Byte>, end: nat, pat: seq<Byte>, at: nat)
    requires end <= |a| == |b| && a[end..] == b[end..] && end <= at
    ensures Occurs(a, pat, at) <==> Occurs(b, pat, at)
  {
    if at + |pat| <= |a| {
      forall i | at <= i < at + |pat|
        ensures a[i] == b[i]
      {
        assert a[end..][i - end] == b[end..][i - end];
      }
      assert a[at..at + |pat|] == b[at..at + |pat|];
    }
  }

  lemma {:induction false} SlashesSplit(a: nat, b: nat)
    ensures Slashes(a) + Slashes(b) == Slashes(a + b)
  {
    if b == 0 {
      assert Slashes(a) + [] == Slashes(a);
    } else {
      SlashesSplit(a, b - 1);
      AppendAssoc(Slashes(a), Slashes(b - 1), [SLASH]);
    }
  }
}

/** The file and the loop that rewrites it byte by byte. */
module ChpathTool {
  import opened Bytes
  import opened Chpath
  import opened Sequences
  import opened Wrappers

  /** A seek before the start of the file. */
  datatype Error = InvalidSeek

  /** An unbuffered file that is open for reading and writing. */
  class File {
    var data: seq<Byte>
    var pos: nat

    constructor (contents: seq<Byte>)
      ensures data == contents && pos == 0
    {
      data, pos := contents, 0;
    }

    method Read() returns (b: Option<Byte>)
      modifies this
      ensures data == old(data)
      ensures b == if old(pos) < |data| then Some(data[old(pos)]) else None
      ensures pos == if old(pos) < |data| then old(pos) + 1 else old(pos)
    {
      if pos < |data| {
        b := Some(data[pos]);
        pos := pos + 1;
      } else {
        b := None;
      }
    }

    method ReadRest() returns (rest: seq<Byte>)
      requires pos <= |data|
      modifies this
      ensures data == old(data) && rest == data[old(pos)..] && pos == |data|
    {
      rest := data[pos..];
      pos := |data|;
    }

    method Seek(target: int) returns (ok: bool)
      modifies this
      ensures data == old(data)
      ensures ok <==> target >= 0
      ensures pos == if ok then target else old(pos)
    {
      ok := target >= 0;
      if ok {
        pos := target;
      }
    }

    method Write(bytes: seq<Byte>)
      requires pos <= |data|
      modifies this
      ensures data == Overwrite(old(data), old(pos), bytes) && pos == old(pos) + |bytes|
    {
      data := Overwrite(data, pos, bytes);
      pos := pos + |bytes|;
    }

    method Truncate()
      requires pos <= |data|
      modifies this
      ensures pos == old(pos) && data == old(data)[..old(pos)]
    {
      data := data[..pos];
    }
  }

  lemma SlashRunAll(data: seq<Byte>, at: nat)
    requires at <= |data| && forall i :: 0 <= i < at ==> data[i] == SLASH
    ensures SlashRun(data, at) == at
  {
    SlashRunIs(data, at);
  }

  /** Moves the position to the front of the slashes that precede it. */
  method SeekBack(f: File, start: nat) returns (ok: bool, slashes: nat)
    requires start <= f.pos <= |f.data|
    modifies f
    ensures f.data == old(f.data) && slashes == SlashRun(f.data, start)
    ensures ok <==> slashes < start
    ensures ok ==> f.pos == start - slashes
  {
    slashes := 0;
    ok := f.Seek(start - 1);
    if !ok {
      return;
    }
    var b := f.Read();
    while b == Some(SLASH)
      invariant f.data == old(f.data) && f.pos == start - slashes > 0
      invariant b == Some(f.data[f.pos - 1]) && ok
      invariant forall i :: f.pos <= i < start ==> f.data[i] == SLASH
      decreases f.pos
    {
      slashes := slashes + 1;
      ok := f.Seek(f.pos - 2);
      if !ok {
        SlashRunAll(f.data, start);
        return;
      }
      b := f.Read();
    }
    SlashRunUnique(f.data, start, slashes);
  }

  /** A shorter new prefix is written behind enough slashes to keep the length. */
  method PadAndWrite(f: File, count: nat, dst: seq<Byte>)
    requires f.pos <= |f.data|
    modifies f
    ensures
      var bytes := Slashes(count - |dst|) + dst;
      f.data == Overwrite(old(f.data), old(f.pos), bytes) && f.pos == old(f.pos) + |bytes|
  {
    hide *;
    var left: int := count;
    ghost var start, was, written := f.pos, f.data, [];
    NothingWrittenYet(was, start, Slashes(count - |dst|));
    while left > |dst|
      invariant f.pos == start + |written| <= |f.data| && start <= |was|
      invariant f.data == Overwrite(was, start, written)
      invariant written + Slashes(left - |dst|) == Slashes(count - |dst|)
      invariant left >= |dst| || left == count
    {
      OverwriteMore(was, start, written, [SLASH]);
      OverwriteMoreLength(was, start, written + [SLASH]);
      SlashesFirst(left - |dst|);
      f.Write([SLASH]);
      assert written + [SLASH] + Slashes(left - 1 - |dst|) == written + ([SLASH] + Slashes(left - 1 - |dst|));
      written := written + [SLASH];
      left := left - 1;
    }
    NoSlashes(left - |dst|);
    assert written + [] == written;
    OverwriteMore(was, start, written, dst);
    f.Write(dst);
  }

  lemma NothingWrittenYet(data: seq<Byte>, at: nat, slashes: seq<Byte>)
    requires at <= |data|
    ensures Overwrite(data, at, []) == data && [] + slashes == slashes
  {
  }

  lemma OverwriteMoreLength(data: seq<Byte>, at: nat, bytes: seq<Byte>)
    requires at <= |data|
    ensures at + |bytes| <= |Overwrite(data, at, bytes)|
  {
  }

  lemma NoSlashes(n: int)
    requires n <= 0
    ensures Slashes(n) == []
  {
  }

  /** The match at `start` ends at the position: go back over leading slashes, pad, and write. */
  method ReplaceInBinary(f: File, start: nat, src: seq<Byte>, dst: seq<Byte>) returns (ok: bool)
    requires start + |src| == f.pos <= |f.data|
    modifies f
    ensures ok <==> SlashRun(old(f.data), start) < start
    ensures !ok ==> f.data == old(f.data)
    ensures ok ==> (f.data, f.pos) == Replaced(false, old(f.data), start, src, dst)
  {
    var slashes;
    ok, slashes := SeekBack(f, start);
    if ok {
      PadAndWrite(f, |src| + slashes, dst);
    }
  }

  /** Writing on where the last write ended. */
  lemma OverwriteMore(data: seq<Byte>, at: nat, a: seq<Byte>, b: seq<Byte>)
    requires at <= |data|
    ensures
      var first := Overwrite(data, at, a);
      at + |a| <= |first| && Overwrite(first, at + |a|, b) == Overwrite(data, at, a + b)
  {
    var first := Overwrite(data, at, a);
    var x, y := Overwrite(first, at + |a|, b), Overwrite(data, at, a + b);
    forall i | 0 <= i < |x|
      ensures x[i] == y[i]
    {
      if at <= i < at + |a| {
        assert first[at + (i - at)] == a[i - at] && y[at + (i - at)] == (a + b)[i - at];
      } else if at + |a| <= i < at + |a| + |b| {
        assert x[at + |a| + (i - at - |a|)] == b[i - at - |a|] && y[at + (i - at)] == (a + b)[i - at];
      }
    }
  }

  lemma {:induction false} SlashesFirst(n: int)
    requires n > 0
    ensures Slashes(n) == [SLASH] + Slashes(n - 1)
  {
    if n > 1 {
      SlashesFirst(n - 1);
      AppendAssoc([SLASH], Slashes(n - 2), [SLASH]);
    }
  }

  /** The match at `start` ends at the position: the rest of the file moves behind the new prefix. */
  method ReplaceInText(f: File, start: nat, src: seq<Byte>, dst: seq<Byte>)
    requires start + |src| == f.pos <= |f.data|
    modifies f
    ensures (f.data, f.pos) == Replaced(true, old(f.data), start, src, dst)
  {
    var remainder := f.ReadRest();
    var ok := f.Seek(start);
    f.Write(dst);
    if remainder != [] {
      f.Write(remainder);
      f.Truncate();
      ok := f.Seek(start + |dst|);
    }
  }

  lemma NoMatchHere(text: bool, data: seq<Byte>, pos: nat, src: seq<Byte>, dst: seq<Byte>)
    requires pos < |data| && (text && dst == [] ==> !MatchAtEnd(data, pos, src)) && (src == [] || !Occurs(data, src, pos))
    ensures text && dst == [] ==> !MatchAtEnd(data, pos + 1, src)
    ensures Rewrite(text, data, pos, src, dst) == Rewrite(text, data, pos + 1, src, dst)
  {
  }

  lemma NoRoom(text: bool, data: seq<Byte>, pos: nat, src: seq<Byte>, dst: seq<Byte>)
    requires pos <= |data| && (text && dst == [] ==> !MatchAtEnd(data, pos, src)) && (src == [] || |data| < pos + |src|)
    ensures Rewrite(text, data, pos, src, dst) == Outcome(data, [], false)
  {
  }

  /** An outcome with more matches found before it. */
  ghost function Behind(found: seq<nat>, o: Outcome): Outcome {
    o.(starts := found + o.starts)
  }

  /** One complete match: replace it, or fail to. */
  method ReplaceMatch(f: File, text: bool, src: seq<Byte>, dst: seq<Byte>) returns (ok: bool)
    requires |src| <= f.pos <= |f.data|
    modifies f
    ensures ok <==> text || SlashRun(old(f.data), old(f.pos) - |src|) < old(f.pos) - |src|
    ensures !ok ==> f.data == old(f.data)
    ensures ok ==> (f.data, f.pos) == Replaced(text, old(f.data), old(f.pos) - |src|, src, dst)
  {
    if text {
      ReplaceInText(f, f.pos - |src|, src, dst);
      ok := true;
    } else {
      ok := ReplaceInBinary(f, f.pos - |src|, src, dst);
    }
  }

  lemma MatchGrows(data: seq<Byte>, start: nat, matched: nat, src: seq<Byte>)
    requires start + matched < |data| && matched < |src| && data[start..start + matched] == src[..matched]
    requires data[start + matched] == src[matched]
    ensures data[start..start + matched + 1] == src[..matched + 1]
    ensures matched + 1 == |src| ==> Occurs(data, src, start)
  {
    assert src[..matched + 1] == src[..matched] + [src[matched]];
    assert matched + 1 == |src| ==> src[..matched + 1] == src;
  }

  lemma MatchBreaks(data: seq<Byte>, start: nat, matched: nat, src: seq<Byte>)
    requires start + matched < |data| && (matched < |src| ==> data[start + matched] != src[matched])
    requires if src == [] then matched == 0 else matched < |src|
    ensures src == [] || !Occurs(data, src, start)
  {
    if src != [] && start + |src| <= |data| {
      assert data[start..start + |src|][matched] == data[start + matched];
    }
  }

  /** Whether the file was modified; the file is rewritten from its start. */
  method ChpathInplace(f: File, text: bool, src: seq<Byte>, dst: seq<Byte>) returns (r: Result<bool, Error>)
    requires f.pos == 0 && (text && dst == [] ==> !MatchAtEnd(f.data, 0, src))
    modifies f
    ensures
      var o := Rewrite(text, old(f.data), 0, src, dst);
      f.data == o.data && r == if o.failed then Err(InvalidSeek) else Ok(o.starts != [])
  {
    hide *;
    var modified, matched := false, 0;
    ghost var found: seq<nat> := [];
    ghost var whole := Rewrite(text, f.data, 0, src, dst);
    NothingFound(whole);
    while true
      invariant matched <= f.pos <= |f.data| && (if src == [] then matched == 0 else matched < |src|)
      invariant f.data[f.pos - matched..f.pos] == src[..matched]
      invariant text && dst == [] ==> !MatchAtEnd(f.data, f.pos - matched, src)
      invariant whole == Behind(found, Rewrite(text, f.data, f.pos - matched, src, dst))
      invariant modified <==> found != []
      decreases |f.data| - (f.pos - matched), |src| - matched
    {
      ghost var start, data := f.pos - matched, f.data;
      var b := f.Read();
      if b == None {
        NoRoom(text, data, start, src, dst);
        BehindIs(found, Outcome(data, [], false));
        break;
      }
      if matched < |src| && b.value == src[matched] {
        MatchGrows(data, start, matched, src);
        matched := matched + 1;
        if matched == |src| {
          MatchHere(text, data, start, src, dst);
          modified, matched := true, 0;
          var ok := ReplaceMatch(f, text, src, dst);
          if !ok {
            BehindIs(found, Outcome(data, [start], true));
            return Err(InvalidSeek);
          }
          BehindBehind(found, [start], Rewrite(text, f.data, f.pos, src, dst));
          found := found + [start];
        }
      } else {
        MatchBreaks(data, start, matched, src);
        NoMatchHere(text, data, start, src, dst);
        if matched > 0 {
          var ok := f.Seek(f.pos - matched);
          matched := 0;
        }
      }
    }
    r := Ok(modified);
  }

  lemma NothingFound(o: Outcome)
    ensures Behind([], o) == o
  {
    assert [] + o.starts == o.starts;
  }

  lemma BehindIs(found: seq<nat>, o: Outcome)
    ensures Behind(found, o) == Outcome(o.data, found + o.starts, o.failed)
  {
  }

  lemma MatchHere(text: bool, data: seq<Byte>, start: nat, src: seq<Byte>, dst: seq<Byte>)
    requires src != [] && Occurs(data, src, start) && (text && dst == [] ==> !MatchAtEnd(data, start, src))
    ensures
      if text || SlashRun(data, start) < start then
        var (next, stop) := Replaced(text, data, start, src, dst);
        && stop <= |next| && |next| - stop < |data| - start
        && (text && dst == [] ==> !MatchAtEnd(next, stop, src))
        && Rewrite(text, data, start, src, dst) == Behind([start], Rewrite(text, next, stop, src, dst))
      else Rewrite(text, data, start, src, dst) == Outcome(data, [start], true)
  {
    if text && dst == [] {
      EmptyReplaced(data, start, src, start);
    }
  }

  lemma BehindBehind(a: seq<nat>, b: seq<nat>, o: Outcome)
    ensures Behind(a, Behind(b, o)) == Behind(a + b, o)
  {
    assert a + (b + o.starts) == a + b + o.starts;
  }
}
