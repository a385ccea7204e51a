/**
 * What follows from a replacement of the new prefix at a wrong place, when the file is restored all the
 * same: both prefixes must share their slashes and beginnings in one of two ways.
 */
module ChpathWrong {
  import opened Bytes
  import opened Chpath
  import opened ChpathBack
  import opened Wrappers

  /** How many slashes a prefix begins with. */
  function Lead(s: seq<Byte>): (k: nat)
    ensures k <= |s| && (forall i :: 0 <= i < k ==> s[i] == SLASH) && (k < |s| ==> s[k] != SLASH)
  {
    if s != [] && s[0] == SLASH then 1 + Lead(s[1..]) else 0
  }

  /** How many slashes a prefix ends with. */
  ghost function Trail(s: seq<Byte>): (k: nat)
    ensures k <= |s|
  {
    SlashRun(s, |s|)
  }

  // ----- bytes -----

  lemma ByteOf(s: seq<Byte>, from: nat, part: seq<Byte>, h: nat)
    requires from + |part| <= |s| && s[from..from + |part|] == part && h < |part|
    ensures s[from + h] == part[h]
  {
    assert s[from..from + |part|][h] == s[from + h];
  }

  /** One replacement of a shorter prefix by a longer one, byte by byte: where the longer one stands afterwards. */
  lemma Putting(data: seq<Byte>, at: nat, src: seq<Byte>, dst: seq<Byte>) returns (q: nat)
    requires |dst| < |src| && at + |dst| <= |data| && SlashRun(data, at) < at
    ensures
      var k, slack := SlashRun(data, at), |src| - |dst|;
      q == at - if k < slack then k else slack
    ensures
      var (next, stop) := Replaced(false, data, at, dst, src);
      && stop == q + |src| && |next| == (if stop > |data| then stop else |data|)
      && (forall h :: 0 <= h < q ==> next[h] == data[h])
      && (forall h :: q <= h < stop ==> next[h] == src[h - q])
      && (forall h :: stop <= h < |data| ==> next[h] == data[h])
  {
    var k, slack := SlashRun(data, at), |src| - |dst|;
    q := at - if k < slack then k else slack;
    var pad := Slashes(k + |dst| - |src|);
    SlashesAre(k + |dst| - |src|);
    SlashRunIs(data, at);
    ReplacedIs(data, at, dst, src);
    var bytes, from := pad + src, at - k;
    var next := Overwrite(data, from, bytes);
    hide *;
    assert from + |pad| == q;
    forall h | 0 <= h < |next|
      ensures next[h] == if from <= h < from + |bytes| then bytes[h - from] else data[h]
    {
      OverwriteAt(data, from, bytes, h);
    }
  }

  /** Rewriting never changes what stands before a byte that is no slash and already passed. */
  lemma {:induction false} Kept(data: seq<Byte>, pos: nat, src: seq<Byte>, dst: seq<Byte>, y: nat)
    requires 0 < |dst| < |src| && y < pos <= |data| && data[y] != SLASH
    ensures
      var r := Rewrite(false, data, pos, dst, src).data;
      |data| <= |r| && forall h :: 0 <= h <= y ==> r[h] == data[h]
    decreases |data| - pos
  {
    hide *;
    match Find(data, dst, pos)
    case None =>
      NothingToRewrite(false, data, pos, dst, src);
    case Some(at) =>
      OccursAt(data, pos, dst, at);
      FindAfter(data, dst, pos);
      SlashRunIs(data, at);
      if SlashRun(data, at) < at {
        var q := Putting(data, at, src, dst);
        var (next, stop) := Replaced(false, data, at, dst, src);
        RewriteFirst(false, data, pos, dst, src, at);
        Kept(next, stop, src, dst, y);
      } else {
        BinaryFails(data, pos, dst, src, at);
      }
  }

  lemma FindAfter(data: seq<Byte>, pat: seq<Byte>, pos: nat)
    ensures Find(data, pat, pos).Some? ==> pos <= Find(data, pat, pos).value
  {
  }

  // ----- the next replacement -----

  /** The next replacement reaches back into the slashes before `stop` and puts the old prefix at `q`. */
  ghost predicate ReachesBack(r: seq<Byte>, z: nat, stop: nat, src: seq<Byte>, dst: seq<Byte>, q: nat) {
    && Trail(src) < |src|
    && z <= q && q + Lead(src) < stop <= q + |src| - |dst|
    && q + |src| - Trail(src) <= |r|
    && (forall h :: z <= h < q ==> r[h] == SLASH)
    && (forall h :: 0 <= h < |src| - Trail(src) ==> r[q + h] == src[h])
  }

  /** The slashes before `stop` stay, or the next replacement reaches back into them. */
  lemma NextReplacement(data: seq<Byte>, z: nat, stop: nat, src: seq<Byte>, dst: seq<Byte>)
    requires 0 < |dst| < |src| && Trail(src) < |src| && 0 < z <= stop <= |data| && data[z - 1] != SLASH
    requires forall h :: z <= h < stop ==> data[h] == SLASH
    requires !Rewrite(false, data, stop, dst, src).failed
    ensures
      var r := Rewrite(false, data, stop, dst, src).data;
      && |data| <= |r|
      && ((forall h :: z <= h < stop ==> r[h] == SLASH)
          || exists q: nat :: ReachesBack(r, z, stop, src, dst, q))
  {
    hide *;
    match Find(data, dst, stop)
    case None =>
      NothingToRewrite(false, data, stop, dst, src);
    case Some(at) =>
      OccursAt(data, stop, dst, at);
      FindAfter(data, dst, stop);
      NotFailed(data, stop, src, dst, at);
      SlashRunIs(data, at);
      var q := Putting(data, at, src, dst);
      var (next, past) := Replaced(false, data, at, dst, src);
      RewriteFirst(false, data, stop, dst, src, at);
      TrailIs(src);
      var last := q + |src| - Trail(src) - 1;
      assert z <= at - SlashRun(data, at);
      Kept(next, past, src, dst, last);
      var r := Rewrite(false, data, stop, dst, src).data;
      assert forall h :: 0 <= h <= last ==> r[h] == next[h];
      LeadBeforeTrail(src);
      if q + Lead(src) < stop {
        assert ReachesBack(r, z, stop, src, dst, q) by {
          ReachesBackIs(r, z, stop, src, dst, q);
        }
      }
  }

  lemma TrailIs(src: seq<Byte>)
    ensures forall h :: |src| - Trail(src) <= h < |src| ==> src[h] == SLASH
    ensures Trail(src) < |src| ==> src[|src| - Trail(src) - 1] != SLASH
  {
    SlashRunIs(src, |src|);
  }

  lemma LeadBeforeTrail(src: seq<Byte>)
    requires Trail(src) < |src|
    ensures Lead(src) < |src| - Trail(src)
  {
    TrailIs(src);
    hide Trail;
  }

  lemma ReachesBackIs(r: seq<Byte>, z: nat, stop: nat, src: seq<Byte>, dst: seq<Byte>, q: nat)
    requires Trail(src) < |src|
    requires z <= q && q + Lead(src) < stop <= q + |src| - |dst| && q + |src| - Trail(src) <= |r|
    requires forall h :: z <= h < q ==> r[h] == SLASH
    requires forall h :: 0 <= h < |src| - Trail(src) ==> r[q + h] == src[h]
    ensures ReachesBack(r, z, stop, src, dst, q)
  {
  }

  // ----- a wrong replacement in a file that is restored -----

  /** Up to `lim` nothing is converted; there the next match of the old prefix is, or the file ends. */
  ghost predicate PlainUpTo(orig: seq<Byte>, data: seq<Byte>, lim: nat, src: seq<Byte>, dst: seq<Byte>) {
    && lim <= |orig| == |data|
    && |dst| <= |src|
    && (forall h :: 0 <= h < lim ==> data[h] == orig[h])
    && (lim < |orig| ==>
          var w := lim + |src| - |dst|;
          && lim + |src| <= |orig|
          && (forall h :: lim <= h < w ==> data[h] == SLASH)
          && (forall h :: w <= h < w + |dst| ==> data[h] == dst[h - w])
          && (forall h :: lim <= h < lim + |src| ==> orig[h] == src[h - lim]))
  }

  function Limit(orig: seq<Byte>, found: Option<nat>): nat {
    match found
    case None => |orig|
    case Some(start) => start
  }

  lemma SyncedBytes(orig: seq<Byte>, data: seq<Byte>, pos: nat, src: seq<Byte>, dst: seq<Byte>)
    requires Synced(orig, data, pos, src, dst) && 0 < |dst| <= |src|
    ensures PlainUpTo(orig, data, Limit(orig, Find(orig, src, pos)), src, dst)
  {
    hide Synced, Find, Padded;
    match Find(orig, src, pos)
    case None =>
      SyncedDone(orig, data, pos, src, dst);
    case Some(start) =>
      var w := start + |src| - |dst|;
      SyncedAt(orig, data, pos, src, dst, start);
      PadHoldsSlashes(data, start, src, dst);
      OccursAt(orig, pos, src, start);
      forall h | 0 <= h < start
        ensures data[h] == orig[h]
      {
        assert data[..start][h] == orig[..start][h];
      }
      forall h | w <= h < w + |dst|
        ensures data[h] == dst[h - w]
      {
        ByteOf(data, w, dst, h - w);
      }
      forall h | start <= h < start + |src|
        ensures orig[h] == src[h - start]
      {
        ByteOf(orig, start, src, h - start);
      }
  }

  /** The new prefix stands at `at`, too early for the next place where it was written. */
  ghost predicate TooEarly(orig: seq<Byte>, data: seq<Byte>, lim: nat, src: seq<Byte>, dst: seq<Byte>, at: nat) {
    && PlainUpTo(orig, data, lim, src, dst)
    && at + |dst| <= |data|
    && (forall h :: at <= h < at + |dst| ==> data[h] == dst[h - at])
    && (lim < |orig| ==> at < lim + |src| - |dst|)
  }

  /** Then its first byte that is no slash stands before the next match, and slashes before it. */
  lemma FirstByteBefore(orig: seq<Byte>, data: seq<Byte>, lim: nat, src: seq<Byte>, dst: seq<Byte>, at: nat)
    requires TooEarly(orig, data, lim, src, dst, at) && Lead(dst) < |dst|
    ensures at + Lead(dst) < lim <= |orig| && orig[at + Lead(dst)] == dst[Lead(dst)]
    ensures forall h :: at - SlashRun(data, at) <= h < at + Lead(dst) ==> orig[h] == SLASH
  {
    var f := at + Lead(dst);
    SlashRunIs(data, at);
    assert data[f] == dst[Lead(dst)];
    assert forall h :: at <= h < f ==> data[h] == dst[h - at] == SLASH;
    hide SlashRun;
  }

  /** The replacement puts the old prefix at `q`; all but its last slashes is in the restored file. */
  ghost predicate PutAt(orig: seq<Byte>, data: seq<Byte>, src: seq<Byte>, q: nat) {
    && Trail(src) < |src|
    && q + |src| - Trail(src) <= |orig|
    && q <= |data|
    && (forall h :: 0 <= h < q ==> orig[h] == data[h])
    && (forall h :: 0 <= h < |src| - Trail(src) ==> orig[q + h] == src[h])
  }

  lemma FirstBytePut(orig: seq<Byte>, data: seq<Byte>, src: seq<Byte>, q: nat)
    requires PutAt(orig, data, src, q)
    ensures Lead(src) < |src| && q + Lead(src) < |orig| && orig[q + Lead(src)] == src[Lead(src)]
    ensures forall h :: q <= h < q + Lead(src) ==> orig[h] == SLASH
  {
    LeadBeforeTrail(src);
    hide Trail;
    forall h | q <= h < q + Lead(src)
      ensures orig[h] == SLASH
    {
      assert orig[q + (h - q)] == src[h - q];
    }
  }

  /** Both prefixes then have their first byte that is no slash at one place. */
  lemma Aligned(orig: seq<Byte>, data: seq<Byte>, lim: nat, src: seq<Byte>, dst: seq<Byte>, at: nat, q: nat)
    requires TooEarly(orig, data, lim, src, dst, at) && Lead(dst) < |dst| && PutAt(orig, data, src, q)
    requires at - SlashRun(data, at) <= q <= at
    ensures q + Lead(src) == at + Lead(dst) && Lead(src) < |src| && src[Lead(src)] == dst[Lead(dst)]
  {
    FirstByteBefore(orig, data, lim, src, dst, at);
    FirstBytePut(orig, data, src, q);
    hide SlashRun, TooEarly, PutAt;
  }

  // ----- what that says of the prefixes -----

  /** Behind their first slashes, of which the new prefix has no more, both begin with the same byte. */
  ghost predicate Alike(src: seq<Byte>, dst: seq<Byte>) {
    && Lead(dst) <= Lead(src) < |src|
    && Lead(dst) < |dst|
    && src[Lead(src)] == dst[Lead(dst)]
  }

  /** And the new one goes on like the old one to its end. */
  ghost predicate Begins(src: seq<Byte>, dst: seq<Byte>) {
    Alike(src, dst) && dst[Lead(dst)..] <= src[Lead(src)..]
  }

  /**
   * The new prefix begins the old one, but for some of its first slashes, and so many slashes end the old
   * one that the next one, written over them, need not leave a slash.
   */
  ghost predicate Cut(src: seq<Byte>, dst: seq<Byte>) {
    Begins(src, dst) && Lead(src) < Trail(src) && Lead(src) + |dst| < |src|
  }

  /** The old prefix ends with slashes that may also be the first ones of the next one. */
  ghost predicate Shared(src: seq<Byte>, dst: seq<Byte>) {
    && Alike(src, dst)
    && Lead(dst) < Lead(src)
    && 0 < Trail(src)
    && (Trail(src) <= Lead(src) - Lead(dst) || |src| - |dst| == Lead(src) - Lead(dst))
  }

  /** Right before `pos` the old prefix was put back, unless it is the start of the file. */
  ghost predicate Behind(orig: seq<Byte>, pos: nat, src: seq<Byte>) {
    pos == 0 || (|src| <= pos <= |orig| && orig[pos - |src|..pos] == src)
  }

  lemma {:induction false} RunOnwards(data: seq<Byte>, pos: nat, at: nat)
    requires pos <= at <= |data| && forall h :: pos <= h < at ==> data[h] == SLASH
    ensures SlashRun(data, at) == at - pos + SlashRun(data, pos)
  {
    if pos < at {
      RunOnwards(data, pos, at - 1);
    }
  }

  lemma RunBehind(orig: seq<Byte>, pos: nat, src: seq<Byte>)
    requires Behind(orig, pos, src) && 0 < pos && Trail(src) < |src|
    ensures pos <= |orig| && SlashRun(orig, pos) == Trail(src)
  {
    TrailIs(src);
    forall h | pos - |src| <= h < pos
      ensures orig[h] == src[h - (pos - |src|)]
    {
      ByteOf(orig, pos - |src|, src, h - (pos - |src|));
    }
    hide Trail;
    SlashRunUnique(orig, pos, Trail(src));
  }

  lemma SameRun(a: seq<Byte>, b: seq<Byte>, at: nat)
    requires at <= |a| && at <= |b| && forall h :: 0 <= h < at ==> a[h] == b[h]
    ensures SlashRun(a, at) == SlashRun(b, at)
    decreases at
  {
  }

  /** The old prefix stands at `q` in the restored file: then it shares slashes with the one before it. */
  lemma StandsEarlier(orig: seq<Byte>, data: seq<Byte>, pos: nat, src: seq<Byte>, dst: seq<Byte>, at: nat, q: nat)
    requires 0 < |dst| < |src| && pos <= at <= |data| && Behind(orig, pos, src) && Trail(src) < |src|
    requires TooEarly(orig, data, Limit(orig, Find(orig, src, pos)), src, dst, at) && Lead(dst) < |dst|
    requires PutAt(orig, data, src, q) && q + |src| <= |orig|
    requires forall h :: q + |src| - Trail(src) <= h < q + |src| ==> orig[h] == SLASH
    requires q == at - if SlashRun(data, at) < |src| - |dst| then SlashRun(data, at) else |src| - |dst|
    ensures Shared(src, dst)
  {
    hide *;
    var lim := Limit(orig, Find(orig, src, pos));
    Aligned(orig, data, lim, src, dst, at, q);
    FirstByteBefore(orig, data, lim, src, dst, at);
    if pos <= q {
      StandsFull(orig, data, src, q);
      FoundUpToWritten(orig, src, pos, q);
      LimitUpTo(orig, src, pos, q);
    }
    SlashRunIs(data, at);
    EqualUpTo(orig, data, lim, src, dst, at);
    SameRun(data, orig, at);
    BehindEnds(orig, pos, src);
    RunBehind(orig, pos, src);
    RunOnwards(orig, pos, at);
    SlashRunIs(orig, pos);
    SharedIs(src, dst, SlashRun(data, at));
  }

  lemma StandsFull(orig: seq<Byte>, data: seq<Byte>, src: seq<Byte>, q: nat)
    requires PutAt(orig, data, src, q) && q + |src| <= |orig|
    requires forall h :: q + |src| - Trail(src) <= h < q + |src| ==> orig[h] == SLASH
    ensures Occurs(orig, src, q)
  {
    TrailIs(src);
    hide Trail;
    assert forall y :: 0 <= y < |src| - Trail(src) ==> orig[q + y] == src[y];
    assert forall y :: |src| - Trail(src) <= y < |src| ==> orig[q + y] == src[y];
    assert forall y :: 0 <= y < |src| ==> orig[q..q + |src|][y] == src[y];
  }

  lemma LimitUpTo(orig: seq<Byte>, src: seq<Byte>, pos: nat, q: nat)
    requires Find(orig, src, pos).Some? && Find(orig, src, pos).value <= q
    ensures Limit(orig, Find(orig, src, pos)) <= q
  {
  }

  lemma EqualUpTo(orig: seq<Byte>, data: seq<Byte>, lim: nat, src: seq<Byte>, dst: seq<Byte>, at: nat)
    requires TooEarly(orig, data, lim, src, dst, at) && at < lim
    ensures at <= |orig| && forall h :: 0 <= h < at ==> data[h] == orig[h]
  {
  }

  lemma BehindEnds(orig: seq<Byte>, pos: nat, src: seq<Byte>)
    requires Behind(orig, pos, src)
    ensures pos == 0 || pos <= |orig|
  {
  }

  lemma SharedIs(src: seq<Byte>, dst: seq<Byte>, k: nat)
    requires 0 < |dst| < |src| && Lead(dst) <= Lead(src) < |src| && Lead(dst) < |dst| && src[Lead(src)] == dst[Lead(dst)]
    requires Lead(src) - Lead(dst) == (if k < |src| - |dst| then k else |src| - |dst|)
    requires 0 < Trail(src) <= k
    ensures Shared(src, dst)
  {
    hide Lead, Trail;
  }

  /** From `q` up to the first byte of the next one, the restored file holds the old prefix. */
  lemma HoldsOld(orig: seq<Byte>, data: seq<Byte>, src: seq<Byte>, dst: seq<Byte>, q: nat, next: nat)
    requires PutAt(orig, data, src, q) && ReachesBack(orig, q + |src| - Trail(src), q + |src|, src, dst, next)
    ensures next + Lead(src) < |orig| && next + Lead(src) < q + |src|
    ensures forall h :: q <= h < next + Lead(src) ==> orig[h] == src[h - q]
    ensures forall h :: q + |src| - Trail(src) <= h < next + Lead(src) ==> orig[h] == SLASH
  {
    TrailIs(src);
    LeadBeforeTrail(src);
    hide Trail;
    forall h | q <= h < next + Lead(src)
      ensures orig[h] == src[h - q]
      ensures q + |src| - Trail(src) <= h ==> orig[h] == SLASH
    {
      if h < q + |src| - Trail(src) {
        assert orig[q + (h - q)] == src[h - q];
      } else if next <= h {
        assert orig[next + (h - next)] == src[h - next];
      }
    }
  }

  /** A byte of the old prefix before the next one stands there as well. */
  lemma FoundAgain(orig: seq<Byte>, data: seq<Byte>, src: seq<Byte>, dst: seq<Byte>, q: nat, next: nat, h: nat)
    requires PutAt(orig, data, src, q) && ReachesBack(orig, q + |src| - Trail(src), q + |src|, src, dst, next)
    requires q <= h < next + Lead(src) && h < |orig| && orig[h] != SLASH
    ensures next + (h - q) < |orig| && orig[next + (h - q)] == orig[h]
  {
    HoldsOld(orig, data, src, dst, q, next);
    hide Trail, Lead;
  }

  /** So the next match of the old prefix begins with its slashes at most within the new prefix. */
  lemma BeginsLate(orig: seq<Byte>, data: seq<Byte>, src: seq<Byte>, dst: seq<Byte>, q: nat, next: nat, start: nat)
    requires PutAt(orig, data, src, q) && ReachesBack(orig, q + |src| - Trail(src), q + |src|, src, dst, next)
    requires q <= start && start + |src| <= |orig|
    requires forall h :: start <= h < start + |src| ==> orig[h] == src[h - start]
    ensures next <= start || start == q
  {
    TrailIs(src);
    LeadBeforeTrail(src);
    HoldsOld(orig, data, src, dst, q, next);
    hide Trail;
    var j, late := Lead(src), next + Lead(src) - q;
    assert orig[start + late] == src[late] == SLASH;
    var first: nat := start + j;
    assert orig[first] == src[j] != SLASH;
    if q < start < next {
      FoundAgain(orig, data, src, dst, q, next, first);
    }
  }

  lemma AlikeAt(orig: seq<Byte>, data: seq<Byte>, lim: nat, src: seq<Byte>, dst: seq<Byte>, at: nat, q: nat, h: nat)
    requires TooEarly(orig, data, lim, src, dst, at) && |dst| < |src|
    requires q + Lead(src) == at + Lead(dst) && at <= q + |src| - |dst|
    requires at <= h < at + |dst| && q <= h < q + |src| && h < |orig| && orig[h] == src[h - q]
    requires lim < |orig| ==> h < lim + Lead(src)
    ensures dst[h - at] == src[h - q]
  {
    var w := lim + |src| - |dst|;
    assert data[h] == dst[h - at];
    if lim <= h {
      assert orig[h] == src[h - lim] == SLASH;
      assert h < w ==> data[h] == SLASH;
      assert w <= h ==> data[h] == dst[h - w] == SLASH;
    }
  }

  /** The new prefix, where it stands too early, begins the old one. */
  lemma BeginsAlike(orig: seq<Byte>, data: seq<Byte>, lim: nat, src: seq<Byte>, dst: seq<Byte>, at: nat, q: nat)
    requires TooEarly(orig, data, lim, src, dst, at) && Lead(dst) < |dst| < |src| && Lead(src) < |src|
    requires q + Lead(src) == at + Lead(dst) && q <= at <= q + |src| - |dst|
    requires forall h :: q <= h < at + |dst| ==> orig[h] == src[h - q]
    requires lim < |orig| ==> at + |dst| <= lim + Lead(src)
    ensures dst[Lead(dst)..] <= src[Lead(src)..]
  {
    var a, b := dst[Lead(dst)..], src[Lead(src)..];
    forall y | 0 <= y < |a|
      ensures a[y] == b[y]
    {
      AlikeAt(orig, data, lim, src, dst, at, q, at + Lead(dst) + y);
    }
  }

  /** The next replacement reaches back to `next`: then the new prefix begins the old one. */
  lemma CutOff(orig: seq<Byte>, data: seq<Byte>, lim: nat, src: seq<Byte>, dst: seq<Byte>, at: nat, q: nat, next: nat)
    requires 0 < |dst| < |src| && Trail(src) < |src|
    requires TooEarly(orig, data, lim, src, dst, at) && Lead(dst) < |dst| && PutAt(orig, data, src, q)
    requires at - SlashRun(data, at) <= q <= at <= q + |src| - |dst|
    requires ReachesBack(orig, q + |src| - Trail(src), q + |src|, src, dst, next)
    ensures Cut(src, dst)
  {
    Aligned(orig, data, lim, src, dst, at, q);
    FirstByteBefore(orig, data, lim, src, dst, at);
    HoldsOld(orig, data, src, dst, q, next);
    if lim < |orig| {
      BeginsLate(orig, data, src, dst, q, next, lim);
    }
    hide SlashRun, Trail, Lead;
    BeginsAlike(orig, data, lim, src, dst, at, q);
  }

  /** A replacement too early leaves the file restored only between such prefixes. */
  lemma WrongMeans(orig: seq<Byte>, data: seq<Byte>, pos: nat, src: seq<Byte>, dst: seq<Byte>, at: nat)
    requires Synced(orig, data, pos, src, dst) && Behind(orig, pos, src)
    requires 0 < |dst| < |src| && Lead(dst) < |dst| && Trail(src) < |src|
    requires Find(data, dst, pos) == Some(at) && SlashRun(data, at) < at
    requires Rewrite(false, data, pos, dst, src).data == orig && !Rewrite(false, data, pos, dst, src).failed
    requires var s := Find(orig, src, pos); s.Some? ==> at < s.value + |src| - |dst|
    ensures Shared(src, dst) || Cut(src, dst)
  {
    hide *;
    var lim := Limit(orig, Find(orig, src, pos));
    WrongSetting(orig, data, pos, src, dst, at);
    var q := Putting(data, at, src, dst);
    var (next, stop) := Replaced(false, data, at, dst, src);
    RewriteFirst(false, data, pos, dst, src, at);
    var z := stop - Trail(src);
    TrailIs(src);
    assert next[z - 1] == src[|src| - Trail(src) - 1];
    Kept(next, stop, src, dst, z - 1);
    assert PutAt(orig, data, src, q) by {
      PutAtIs(orig, data, next, src, q);
    }
    NextReplacement(next, z, stop, src, dst);
    if n: nat :| ReachesBack(orig, z, stop, src, dst, n) {
      CutOff(orig, data, lim, src, dst, at, q, n);
    } else {
      StandsEarlier(orig, data, pos, src, dst, at, q);
    }
  }

  lemma WrongSetting(orig: seq<Byte>, data: seq<Byte>, pos: nat, src: seq<Byte>, dst: seq<Byte>, at: nat)
    requires Synced(orig, data, pos, src, dst) && 0 < |dst| < |src|
    requires Find(data, dst, pos) == Some(at)
    requires var s := Find(orig, src, pos); s.Some? ==> at < s.value + |src| - |dst|
    ensures TooEarly(orig, data, Limit(orig, Find(orig, src, pos)), src, dst, at) && pos <= at
  {
    hide Synced, Find;
    SyncedBytes(orig, data, pos, src, dst);
    FindAfter(data, dst, pos);
    OccursAt(data, pos, dst, at);
    forall h | at <= h < at + |dst|
      ensures data[h] == dst[h - at]
    {
      ByteOf(data, at, dst, h - at);
    }
  }

  lemma PutAtIs(orig: seq<Byte>, data: seq<Byte>, next: seq<Byte>, src: seq<Byte>, q: nat)
    requires Trail(src) < |src| && q + |src| <= |next| <= |orig| && q <= |data|
    requires forall h :: 0 <= h < q + |src| - Trail(src) ==> orig[h] == next[h]
    requires forall h :: 0 <= h < q ==> next[h] == data[h]
    requires forall h :: q <= h < q + |src| ==> next[h] == src[h - q]
    ensures PutAt(orig, data, src, q)
  {
    hide Trail;
  }
}
