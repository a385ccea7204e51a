/**
 * The values behind PackageVirtualDbapi: two indexes of packages and a cache of answers. A `Db` is
 * what one database holds; the functions are what its operations do.
 */
module VirtualDb {
  import opened Sorting
  import opened Wrappers

  /** A package name with its version; `rank` orders the versions of one package. */
  datatype Cpv = Cpv(cp: nat, version: nat, rank: int)

  /** A Package object. `ident` is what its hash key holds beside the cpv; the metadata belong to the object. */
  datatype Pkg = Pkg(obj: nat, cpv: Cpv, ident: nat, slot: nat)

  /** Package.__eq__: equal hash keys. */
  predicate Same(a: Pkg, b: Pkg) {
    a.cpv == b.cpv && a.ident == b.ident
  }

  /** An atom; None for a plain "category/name", whose cache key is that of the cp itself. */
  datatype Atom = Atom(cp: nat, cond: Option<nat>)

  type Metadata = map<nat, int>

  /** Whether a package with the given metadata satisfies the condition of an atom. */
  type Matcher = (nat, Pkg, int) -> bool

  datatype Db = Db(cpMap: map<nat, seq<Pkg>>, cpvMap: map<Cpv, Pkg>, cache: map<Atom, seq<Cpv>>) {
    function CpPackages(cp: nat): seq<Pkg> {
      if cp in cpMap then cpMap[cp] else []
    }

    function ClearCache(): Db {
      this.(cache := map[])
    }
  }

  const Empty := Db(map[], map[], map[])

  datatype Error = KeyError | ValueError

  /** The database after an operation, and the exception that ended it, if any. */
  datatype Outcome = Outcome(db: Db, error: Option<Error>)

  // ----- changes -----

  /** list.remove(pkg), with the equality of packages. */
  function RemoveSame(s: seq<Pkg>, p: Pkg): (r: Option<seq<Pkg>>)
    ensures r.None? <==> forall q :: q in s ==> !Same(q, p)
  {
    if s == [] then None
    else if Same(s[0], p) then Some(s[1..])
    else
      assert s == [s[0]] + s[1..];
      match RemoveSame(s[1..], p)
      case None => None
      case Some(rest) => Some([s[0]] + rest)
  }

  function CpvRemove(db: Db, p: Pkg): Outcome {
    if p.cpv !in db.cpvMap || !Same(db.cpvMap[p.cpv], p) then Outcome(db, Some(KeyError))
    else if p.cpv.cp !in db.cpMap then Outcome(db, Some(KeyError))
    else
      match RemoveSame(db.cpMap[p.cpv.cp], p)
      case None => Outcome(db, Some(ValueError))
      case Some(rest) =>
        var cpMap := if rest == [] then db.cpMap - {p.cpv.cp} else db.cpMap[p.cpv.cp := rest];
        Outcome(Db(cpMap, db.cpvMap - {p.cpv}, map[]), None)
  }

  /** The first package of the list in the slot of `p`. */
  function InSlot(s: seq<Pkg>, p: Pkg): (r: Option<Pkg>)
    ensures r.Some? ==> r.value in s && r.value.slot == p.slot
    ensures r.None? ==> forall q :: q in s ==> q.slot != p.slot
  {
    if s == [] then None
    else if s[0].slot == p.slot then Some(s[0])
    else
      assert s == [s[0]] + s[1..];
      InSlot(s[1..], p)
  }

  /**
   * Appending to the list object that the injection fetched at its start. `held` is what that object
   * holds: once a removal has emptied it and dropped it from the index, it is no part of the database.
   */
  function Append(db: Db, held: seq<Pkg>, p: Pkg): Db {
    Db(
      if p.cpv.cp in db.cpMap then db.cpMap[p.cpv.cp := held + [p]] else db.cpMap,
      db.cpvMap[p.cpv := p],
      map[])
  }

  /** The part of cpv_inject behind the removal of a package with the same cpv. */
  function InjectSlot(db: Db, held: seq<Pkg>, p: Pkg): Outcome {
    match InSlot(held, p)
    case None => Outcome(Append(db, held, p), None)
    case Some(e) =>
      if Same(e, p) then Outcome(db, None)
      else
        var r := CpvRemove(db, e);
        if r.error.Some? then r
        else Outcome(Append(r.db, RemoveSame(held, e).value, p), None)
  }

  function CpvInject(db: Db, p: Pkg): Outcome {
    var held := db.CpPackages(p.cpv.cp);
    var listed := db.(cpMap := db.cpMap[p.cpv.cp := held]);
    if p.cpv !in db.cpvMap then InjectSlot(listed, held, p)
    else
      var e := db.cpvMap[p.cpv];
      if Same(e, p) then Outcome(listed, None)
      else
        var r := CpvRemove(listed, e);
        if r.error.Some? then r
        else InjectSlot(r.db, if RemoveSame(held, e).Some? then RemoveSame(held, e).value else held, p)
  }

  function Clear(db: Db): Db {
    if db.cpvMap != map[] then Empty else db
  }

  // ----- agreement of the indexes -----

  /** One list of the index by cp: its packages belong there, one for each slot and each cpv. */
  ghost predicate ListOk(cp: nat, s: seq<Pkg>) {
    && s != []
    && (forall i :: 0 <= i < |s| ==> s[i].cpv.cp == cp)
    && OneEach(s)
  }

  ghost predicate OneEach(s: seq<Pkg>) {
    forall i, j :: 0 <= i < j < |s| ==> s[i].slot != s[j].slot && s[i].cpv != s[j].cpv
  }

  /** Both indexes hold the same packages, each once, one for each slot. */
  ghost predicate Agree(db: Db) {
    && (forall cp :: cp in db.cpMap ==> ListOk(cp, db.cpMap[cp]))
    && (forall cp, p :: cp in db.cpMap && p in db.cpMap[cp] ==> p.cpv in db.cpvMap && db.cpvMap[p.cpv] == p)
    && (forall c :: c in db.cpvMap ==>
          db.cpvMap[c].cpv == c && c.cp in db.cpMap && db.cpvMap[c] in db.cpMap[c.cp])
  }

  /** The packages that an injection replaces: the same cpv or the same slot. */
  predicate Replaced(e: Pkg, p: Pkg) {
    e.cpv == p.cpv || e.slot == p.slot
  }

  /** The injection removes all the packages of its list, but is no injection of what is there already. */
  ghost predicate Detaches(db: Db, p: Pkg) {
    && p.cpv.cp in db.cpMap
    && (forall e :: e in db.cpMap[p.cpv.cp] ==> Replaced(e, p))
    && !(p.cpv in db.cpvMap && Same(db.cpvMap[p.cpv], p))
  }

  /** The list without the package of one cpv. */
  function Drop(s: seq<Pkg>, c: Cpv): (r: seq<Pkg>)
    ensures forall q :: q in r <==> q in s && q.cpv != c
  {
    if s == [] then []
    else
      assert s == [s[0]] + s[1..];
      (if s[0].cpv != c then [s[0]] else []) + Drop(s[1..], c)
  }

  lemma {:induction false} DropNothing(s: seq<Pkg>, c: Cpv)
    requires forall q :: q in s ==> q.cpv != c
    ensures Drop(s, c) == s
  {
    if s != [] {
      DropNothing(s[1..], c);
      assert s == [s[0]] + s[1..];
    }
  }

  lemma {:induction false} DropOneEach(s: seq<Pkg>, c: Cpv)
    requires OneEach(s)
    ensures OneEach(Drop(s, c))
  {
    if s != [] {
      DropOneEach(s[1..], c);
      var rest := Drop(s[1..], c);
      assert forall i :: 0 <= i < |rest| ==> rest[i] in s[1..];
      assert forall q :: q in s[1..] ==> s[0].slot != q.slot && s[0].cpv != q.cpv;
    }
  }

  lemma {:induction false} RemoveSameIs(s: seq<Pkg>, p: Pkg, q: Pkg)
    requires OneEach(s) && q in s && Same(q, p)
    ensures RemoveSame(s, p) == Some(Drop(s, p.cpv))
  {
    if s[0] == q {
      assert forall x :: x in s[1..] ==> x.cpv != q.cpv;
      DropNothing(s[1..], p.cpv);
      assert [] + s[1..] == s[1..];
    } else {
      assert s == [s[0]] + s[1..];
      assert s[0].cpv != q.cpv;
      RemoveSameIs(s[1..], p, q);
    }
  }

  /** Both indexes without the package of one cpv. */
  ghost predicate IsWithout(db: Db, r: Db, c: Cpv) {
    && r.cpvMap == db.cpvMap - {c}
    && (forall cp :: cp != c.cp ==> (cp in r.cpMap <==> cp in db.cpMap) && r.CpPackages(cp) == db.CpPackages(cp))
    && r.CpPackages(c.cp) == Drop(db.CpPackages(c.cp), c)
    && (c.cp in r.cpMap <==> Drop(db.CpPackages(c.cp), c) != [])
  }

  /** Removing a package that is there takes it, and nothing else, out of both indexes. */
  lemma RemoveIs(db: Db, p: Pkg)
    requires Agree(db) && p.cpv in db.cpvMap && Same(db.cpvMap[p.cpv], p)
    ensures
      var r := CpvRemove(db, p);
      r.error == None && r.db.cache == map[] && IsWithout(db, r.db, p.cpv)
  {
    assert ListOk(p.cpv.cp, db.cpMap[p.cpv.cp]);
    RemoveSameIs(db.cpMap[p.cpv.cp], p, db.cpvMap[p.cpv]);
  }

  lemma WithoutList(db: Db, r: Db, c: Cpv, cp: nat)
    requires Agree(db) && IsWithout(db, r, c) && cp in r.cpMap
    ensures ListOk(cp, r.cpMap[cp])
  {
    hide OneEach;
    assert r.cpMap[cp] == r.CpPackages(cp);
    assert db.CpPackages(cp) != [] && ListOk(cp, db.cpMap[cp]);
    if cp == c.cp {
      DropOneEach(db.cpMap[cp], c);
    }
  }

  lemma ListedUnder(db: Db, cp: nat, p: Pkg)
    requires Agree(db) && p in db.CpPackages(cp)
    ensures cp in db.cpMap && p in db.cpMap[cp] && p.cpv.cp == cp
  {
    assert ListOk(cp, db.cpMap[cp]);
  }

  lemma WithoutAgrees(db: Db, r: Db, c: Cpv)
    requires Agree(db) && IsWithout(db, r, c)
    ensures Agree(r)
  {
    hide ListOk;
    forall cp | cp in r.cpMap
      ensures ListOk(cp, r.cpMap[cp])
    {
      WithoutList(db, r, c, cp);
    }
    forall cp, p | cp in r.cpMap && p in r.cpMap[cp]
      ensures p.cpv in r.cpvMap && r.cpvMap[p.cpv] == p
    {
      assert p in r.CpPackages(cp) && p in db.CpPackages(cp);
      ListedUnder(db, cp, p);
    }
    forall d | d in r.cpvMap
      ensures r.cpvMap[d].cpv == d && d.cp in r.cpMap && r.cpvMap[d] in r.cpMap[d.cp]
    {
      assert d in db.cpvMap && d.cp in db.cpMap && db.cpvMap[d] in db.cpMap[d.cp];
      assert db.cpvMap[d] in r.CpPackages(d.cp);
    }
  }

  /** Removal keeps the indexes in agreement; what is not there is a KeyError and changes nothing. */
  lemma RemoveKeepsAgreement(db: Db, p: Pkg)
    requires Agree(db)
    ensures
      var r := CpvRemove(db, p);
      if p.cpv in db.cpvMap && Same(db.cpvMap[p.cpv], p) then
        r.error == None && Agree(r.db) && r.db.cpvMap == db.cpvMap - {p.cpv} && r.db.cache == map[]
      else r == Outcome(db, Some(KeyError))
  {
    if p.cpv in db.cpvMap && Same(db.cpvMap[p.cpv], p) {
      RemoveIs(db, p);
      WithoutAgrees(db, CpvRemove(db, p).db, p.cpv);
    }
  }

  // ----- injection -----

  /** `r` holds `p` beside what `db` holds, but for what `p` replaces. */
  ghost predicate Injected(db: Db, r: Db, p: Pkg) {
    && (forall c :: c in r.cpvMap <==> c == p.cpv || (c in db.cpvMap && !(c.cp == p.cpv.cp && Replaced(db.cpvMap[c], p))))
    && (forall c :: c in r.cpvMap ==> r.cpvMap[c] == if c == p.cpv then p else db.cpvMap[c])
  }

  /** Appending to a list that is still in the index. */
  lemma AppendAgrees(db: Db, held: seq<Pkg>, p: Pkg)
    requires Agree(db) && p.cpv.cp in db.cpMap && db.cpMap[p.cpv.cp] == held && p.cpv !in db.cpvMap
    requires forall q :: q in held ==> !Replaced(q, p)
    ensures Agree(Append(db, held, p))
  {
    var r, cp := Append(db, held, p), p.cpv.cp;
    assert ListOk(cp, held);
    forall c | c in r.cpMap
      ensures ListOk(c, r.cpMap[c])
    {
      if c != cp {
        assert ListOk(c, db.cpMap[c]);
      } else {
        assert forall i :: 0 <= i < |held| ==> held[i] in held;
      }
    }
  }

  /** Appending to a list that has left the index. */
  lemma AppendDetached(db: Db, held: seq<Pkg>, p: Pkg)
    requires p.cpv.cp !in db.cpMap
    ensures !Agree(Append(db, held, p))
  {
    assert p.cpv in Append(db, held, p).cpvMap;
  }

  /** The first package of a cp. */
  lemma AppendNew(db: Db, p: Pkg)
    requires Agree(db) && p.cpv.cp !in db.cpMap
    ensures p.cpv !in db.cpvMap
    ensures Agree(Append(db.(cpMap := db.cpMap[p.cpv.cp := []]), [], p))
  {
    var listed := db.(cpMap := db.cpMap[p.cpv.cp := []]);
    var r := Append(listed, [], p);
    assert [] + [p] == [p];
    assert r.cpMap == db.cpMap[p.cpv.cp := [p]];
    forall c | c in r.cpMap
      ensures ListOk(c, r.cpMap[c])
    {
      if c != p.cpv.cp {
        assert ListOk(c, db.cpMap[c]);
      }
    }
  }

  /** Removing the package in the slot of `p` leaves, of its list, what `p` does not replace. */
  lemma InjectSlotIs(db: Db, held: seq<Pkg>, p: Pkg) returns (last: Db, kept: seq<Pkg>)
    requires Agree(db) && db.CpPackages(p.cpv.cp) == held && p.cpv !in db.cpvMap
    ensures InjectSlot(db, held, p) == Outcome(Append(last, kept, p), None)
    ensures Cleared(db, last, kept, p)
    ensures forall q :: q in kept <==> q in held && !Replaced(q, p)
  {
    hide OneEach;
    assert forall q :: q in held ==> q.cpv in db.cpvMap && db.cpvMap[q.cpv] == q && q.cpv != p.cpv;
    match InSlot(held, p)
    case None =>
      last, kept := db, held;
    case Some(e) =>
      RemoveIs(db, e);
      last, kept := CpvRemove(db, e).db, Drop(held, e.cpv);
      WithoutAgrees(db, last, e.cpv);
      assert ListOk(p.cpv.cp, held);
      RemoveSameIs(held, e, e);
      OneInSlot(held, e, p);
      forall c
        ensures c in last.cpvMap <==> c in db.cpvMap && !(c.cp == p.cpv.cp && Replaced(db.cpvMap[c], p))
      {
        if c in db.cpvMap && c.cp == p.cpv.cp {
          assert db.cpvMap[c] in held;
        }
      }
  }

  /** Among packages with different cpvs, only the first in the slot is replaced. */
  lemma OneInSlot(s: seq<Pkg>, e: Pkg, p: Pkg)
    requires OneEach(s) && e in s && e.slot == p.slot && forall q :: q in s ==> q.cpv != p.cpv
    ensures forall q :: q in s ==> (Replaced(q, p) <==> q.cpv == e.cpv)
  {
  }

  /**
   * Injecting what is there already changes nothing. Otherwise the package replaces those with its cpv
   * or in its slot, and the indexes go on to agree if and only if the list keeps some other package.
   */
  lemma InjectOutcome(db: Db, p: Pkg)
    requires Agree(db)
    ensures CpvInject(db, p).error == None
    ensures
      var r := CpvInject(db, p).db;
      if p.cpv in db.cpvMap && Same(db.cpvMap[p.cpv], p) then r == db
      else Injected(db, r, p) && r.cache == map[] && (Agree(r) <==> !Detaches(db, p))
  {
    hide OneEach, ListOk;
    var cp, held := p.cpv.cp, db.CpPackages(p.cpv.cp);
    if cp !in db.cpMap {
      AppendNew(db, p);
      InjectFirst(db, p);
    } else {
      assert db.cpMap[cp := held] == db.cpMap;
      if p.cpv !in db.cpvMap {
        var last, kept := InjectSlotIs(db, held, p);
        InjectEnds(db, last, kept, p);
      } else if !Same(db.cpvMap[p.cpv], p) {
        InjectOverCpv(db, p);
      }
    }
  }

  lemma InjectFirst(db: Db, p: Pkg)
    requires Agree(db) && p.cpv.cp !in db.cpMap
    ensures
      var r := CpvInject(db, p);
      r == Outcome(Append(db.(cpMap := db.cpMap[p.cpv.cp := []]), [], p), None) && Injected(db, r.db, p)
  {
    AppendNew(db, p);
    assert forall c :: c in db.cpvMap ==> c.cp in db.cpMap;
  }

  /** `last` holds what `db` holds but for what `p` replaces, and `kept` is its list. */
  ghost predicate Cleared(db: Db, last: Db, kept: seq<Pkg>, p: Pkg) {
    && Agree(last) && last.CpPackages(p.cpv.cp) == kept
    && (forall c :: c in last.cpvMap <==> c in db.cpvMap && !(c.cp == p.cpv.cp && Replaced(db.cpvMap[c], p)))
    && (forall c :: c in last.cpvMap ==> last.cpvMap[c] == db.cpvMap[c])
  }

  lemma ClearedLacks(db: Db, last: Db, kept: seq<Pkg>, p: Pkg)
    requires Agree(db) && Cleared(db, last, kept, p)
    ensures p.cpv !in last.cpvMap && Injected(db, Append(last, kept, p), p)
  {
    assert p.cpv in db.cpvMap ==> db.cpvMap[p.cpv].cpv == p.cpv;
  }

  /** The last step of an injection that replaced something, or found nothing to replace. */
  lemma InjectEnds(db: Db, last: Db, kept: seq<Pkg>, p: Pkg)
    requires Agree(db) && p.cpv.cp in db.cpMap && !(p.cpv in db.cpvMap && Same(db.cpvMap[p.cpv], p))
    requires forall q :: q in kept <==> q in db.cpMap[p.cpv.cp] && !Replaced(q, p)
    requires Cleared(db, last, kept, p)
    ensures Injected(db, Append(last, kept, p), p)
    ensures Agree(Append(last, kept, p)) <==> !Detaches(db, p)
  {
    hide OneEach, Injected;
    ClearedLacks(db, last, kept, p);
    if p.cpv.cp in last.cpMap {
      assert ListOk(p.cpv.cp, kept);
      hide Agree;
      assert kept[0] in kept;
      AppendAgrees(last, kept, p);
    } else {
      hide Agree;
      assert forall q :: q !in kept;
      AppendDetached(last, kept, p);
    }
  }

  /** The package with the same cpv goes first, then the one in the same slot. */
  lemma InjectOverCpv(db: Db, p: Pkg)
    requires Agree(db) && p.cpv in db.cpvMap && !Same(db.cpvMap[p.cpv], p) && p.cpv.cp in db.cpMap
    ensures CpvInject(db, p).error == None
    ensures
      var r := CpvInject(db, p).db;
      Injected(db, r, p) && r.cache == map[] && (Agree(r) <==> !Detaches(db, p))
  {
    hide OneEach, Injected, Detaches, Replaced;
    var cp, held, e := p.cpv.cp, db.cpMap[p.cpv.cp], db.cpvMap[p.cpv];
    assert db.cpMap[cp := held] == db.cpMap;
    assert ListOk(cp, held);
    assert e.cpv == p.cpv && e in held;
    RemoveIs(db, e);
    RemoveSameIs(held, e, e);
    var db1 := CpvRemove(db, e).db;
    WithoutAgrees(db, db1, p.cpv);
    hide Agree, ListOk, CpvRemove, RemoveSame;
    var last, kept := InjectSlotIs(db1, Drop(held, p.cpv), p);
    ClearedThrough(db, db1, last, kept, p);
    InjectEnds(db, last, kept, p);
  }

  lemma ClearedThrough(db: Db, db1: Db, last: Db, kept: seq<Pkg>, p: Pkg)
    requires Agree(db) && p.cpv in db.cpvMap && IsWithout(db, db1, p.cpv) && Cleared(db1, last, kept, p)
    requires p.cpv.cp in db.cpMap
    requires forall q :: q in kept <==> q in Drop(db.cpMap[p.cpv.cp], p.cpv) && !Replaced(q, p)
    ensures Cleared(db, last, kept, p)
    ensures forall q :: q in kept <==> q in db.cpMap[p.cpv.cp] && !Replaced(q, p)
  {
    hide OneEach, ListOk;
    assert db.cpvMap[p.cpv].cpv == p.cpv;
  }

  // ----- answers -----

  function CpvsOf(s: seq<Pkg>): seq<Cpv> {
    if s == [] then [] else [s[0].cpv] + CpvsOf(s[1..])
  }

  function Rank(c: Cpv): int {
    c.rank
  }

  /** The versions of a package in ascending order. */
  function CpList(db: Db, cp: nat): seq<Cpv> {
    SortBy(Rank, CpvsOf(db.CpPackages(cp)))
  }

  function MetadataOf(meta: Metadata, p: Pkg): int {
    if p.obj in meta then meta[p.obj] else 0
  }

  /** _iter_match: those of the list that satisfy the atom, in order. */
  function Matching(sat: Matcher, db: Db, meta: Metadata, atom: Atom, s: seq<Cpv>): seq<Cpv> {
    if atom.cond == None || s == [] then s
    else
      var fits := s[0] in db.cpvMap && sat(atom.cond.value, db.cpvMap[s[0]], MetadataOf(meta, db.cpvMap[s[0]]));
      (if fits then [s[0]] else []) + Matching(sat, db, meta, atom, s[1..])
  }

  /** What an atom matches, computed from the indexes. */
  function Recompute(sat: Matcher, db: Db, meta: Metadata, atom: Atom): seq<Cpv> {
    Matching(sat, db, meta, atom, CpList(db, atom.cp))
  }

  /** cp_list(): from the cache, or computed and put there. */
  function AskCp(db: Db, cp: nat): (seq<Cpv>, Db) {
    var key := Atom(cp, None);
    if key in db.cache then (db.cache[key], db)
    else (CpList(db, cp), db.(cache := db.cache[key := CpList(db, cp)]))
  }

  /** match() */
  function Ask(sat: Matcher, db: Db, meta: Metadata, atom: Atom): (seq<Cpv>, Db) {
    if atom in db.cache then (db.cache[atom], db)
    else
      var (list, next) := AskCp(db, atom.cp);
      var result := Matching(sat, next, meta, atom, list);
      (result, next.(cache := next.cache[atom := result]))
  }

  /** Every cached answer is what the indexes give. */
  ghost predicate CacheOk(sat: Matcher, db: Db, meta: Metadata) {
    forall atom :: atom in db.cache ==> db.cache[atom] == Recompute(sat, db, meta, atom)
  }

  /** cp_list() gives every version that is listed, in ascending order. */
  lemma VersionsAscending(db: Db, cp: nat)
    ensures multiset(CpList(db, cp)) == multiset(CpvsOf(db.CpPackages(cp)))
    ensures forall i, j :: 0 <= i < j < |CpList(db, cp)| ==> CpList(db, cp)[i].rank <= CpList(db, cp)[j].rank
  {
    var s := CpList(db, cp);
    SortBySorted(Rank, CpvsOf(db.CpPackages(cp)));
    hide SortBy;
    forall i, j | 0 <= i < j < |s|
      ensures s[i].rank <= s[j].rank
    {
      assert Rank(s[i]) <= Rank(s[j]);
    }
  }

  /** A plain atom matches all versions; another one those that satisfy it, which the database holds. */
  lemma {:induction false} MatchesSatisfy(sat: Matcher, db: Db, meta: Metadata, atom: Atom, s: seq<Cpv>, c: Cpv)
    ensures c in Matching(sat, db, meta, atom, s) <==>
      c in s && (atom.cond.Some? ==> c in db.cpvMap && sat(atom.cond.value, db.cpvMap[c], MetadataOf(meta, db.cpvMap[c])))
  {
    if atom.cond.Some? && s != [] {
      MatchesSatisfy(sat, db, meta, atom, s[1..], c);
      assert s == [s[0]] + s[1..];
    }
  }

  lemma {:induction false} MatchingSame(sat: Matcher, a: Db, m: Metadata, b: Db, n: Metadata, atom: Atom, s: seq<Cpv>)
    requires atom.cond.Some? ==> forall c :: c in s ==>
      (c in a.cpvMap <==> c in b.cpvMap)
      && (c in a.cpvMap ==> a.cpvMap[c] == b.cpvMap[c] && MetadataOf(m, a.cpvMap[c]) == MetadataOf(n, a.cpvMap[c]))
    ensures Matching(sat, a, m, atom, s) == Matching(sat, b, n, atom, s)
    decreases |s|
  {
    if atom.cond.Some? && s != [] {
      MatchingSame(sat, a, m, b, n, atom, s[1..]);
    }
  }

  /** The cache is no part of what is computed. */
  lemma CacheDoesNotMatter(sat: Matcher, db: Db, meta: Metadata, cache: map<Atom, seq<Cpv>>, atom: Atom)
    ensures Recompute(sat, db.(cache := cache), meta, atom) == Recompute(sat, db, meta, atom)
  {
    var other := db.(cache := cache);
    assert other.CpPackages(atom.cp) == db.CpPackages(atom.cp);
    MatchingSame(sat, other, meta, db, meta, atom, CpList(db, atom.cp));
  }

  lemma CacheMore(sat: Matcher, db: Db, meta: Metadata, key: Atom, answer: seq<Cpv>)
    requires CacheOk(sat, db, meta) && answer == Recompute(sat, db, meta, key)
    ensures CacheOk(sat, db.(cache := db.cache[key := answer]), meta)
  {
    hide Recompute;
    var cache := db.cache[key := answer];
    forall a | a in cache
      ensures cache[a] == Recompute(sat, db.(cache := cache), meta, a)
    {
      CacheDoesNotMatter(sat, db, meta, cache, a);
    }
  }

  lemma CpListAnswers(sat: Matcher, db: Db, meta: Metadata, cp: nat)
    requires CacheOk(sat, db, meta)
    ensures
      var (list, next) := AskCp(db, cp);
      list == CpList(db, cp) && CacheOk(sat, next, meta)
  {
    hide CpList;
    var key := Atom(cp, None);
    assert Recompute(sat, db, meta, key) == CpList(db, cp);
    if key !in db.cache {
      CacheMore(sat, db, meta, key, CpList(db, cp));
    }
  }

  /** An answer is what the indexes give, and leaves a cache of such answers. */
  lemma AnswersRecompute(sat: Matcher, db: Db, meta: Metadata, atom: Atom)
    requires CacheOk(sat, db, meta)
    ensures
      var (answer, next) := Ask(sat, db, meta, atom);
      answer == Recompute(sat, db, meta, atom) && CacheOk(sat, next, meta)
  {
    hide CacheOk, CpList, Matching;
    if atom in db.cache {
      CachedIs(sat, db, meta, atom);
    } else {
      CpListAnswers(sat, db, meta, atom.cp);
      var (list, mid) := AskCp(db, atom.cp);
      assert mid == db.(cache := mid.cache);
      CacheDoesNotMatter(sat, db, meta, mid.cache, atom);
      CpListDoesNotMatter(db, mid.cache, atom.cp);
      CacheMore(sat, mid, meta, atom, Matching(sat, mid, meta, atom, list));
    }
  }

  lemma CachedIs(sat: Matcher, db: Db, meta: Metadata, atom: Atom)
    requires CacheOk(sat, db, meta) && atom in db.cache
    ensures db.cache[atom] == Recompute(sat, db, meta, atom)
  {
  }

  lemma CpListDoesNotMatter(db: Db, cache: map<Atom, seq<Cpv>>, cp: nat)
    ensures CpList(db.(cache := cache), cp) == CpList(db, cp)
  {
    assert db.(cache := cache).CpPackages(cp) == db.CpPackages(cp);
  }

  // ----- runs -----

  /** Any number of databases over shared Package objects. */
  datatype World = World(dbs: seq<Db>, meta: Metadata)

  datatype Action =
    | Inject(i: nat, p: Pkg)
    | Remove(i: nat, p: Pkg)
    | ClearAll(i: nat)
    | Copy(i: nat)
    | CpListOf(i: nat, cp: nat)
    | Match(i: nat, atom: Atom)
    | AuxUpdate(i: nat, cpv: Cpv, values: int)

  /** One operation of one database; a copy is a new database. */
  function Step(sat: Matcher, w: World, a: Action): World {
    if a.i >= |w.dbs| then w
    else
      var db := w.dbs[a.i];
      match a
      case Inject(i, p) => w.(dbs := w.dbs[i := CpvInject(db, p).db])
      case Remove(i, p) => w.(dbs := w.dbs[i := CpvRemove(db, p).db])
      case ClearAll(i) => w.(dbs := w.dbs[i := Clear(db)])
      case Copy(i) => w.(dbs := w.dbs + [db])
      case CpListOf(i, cp) => w.(dbs := w.dbs[i := AskCp(db, cp).1])
      case Match(i, atom) => w.(dbs := w.dbs[i := Ask(sat, db, w.meta, atom).1])
      case AuxUpdate(i, cpv, values) =>
        if cpv !in db.cpvMap then w
        else World(w.dbs[i := db.ClearCache()], w.meta[db.cpvMap[cpv].obj := values])
  }

  function Run(sat: Matcher, meta: Metadata, actions: seq<Action>): World
    decreases |actions|
  {
    if actions == [] then World([Empty], meta)
    else Step(sat, Run(sat, meta, actions[..|actions| - 1]), actions[|actions| - 1])
  }

  /** Another database has cached which versions of a cp satisfy a condition, and holds this object there. */
  ghost predicate Shares(db: Db, obj: nat) {
    exists atom, c :: atom in db.cache && atom.cond.Some? && c in CpList(db, atom.cp) && c in db.cpvMap && db.cpvMap[c].obj == obj
  }

  /** The update changes metadata that a cached answer of another database depends on. */
  ghost predicate Stales(w: World, a: Action) {
    a.AuxUpdate? && a.i < |w.dbs| && a.cpv in w.dbs[a.i].cpvMap
    && exists j :: 0 <= j < |w.dbs| && j != a.i && Shares(w.dbs[j], w.dbs[a.i].cpvMap[a.cpv].obj)
  }

  ghost predicate CachesOk(sat: Matcher, w: World) {
    forall j :: 0 <= j < |w.dbs| ==> CacheOk(sat, w.dbs[j], w.meta)
  }

  lemma UnsharedKeeps(sat: Matcher, db: Db, meta: Metadata, obj: nat, values: int)
    requires CacheOk(sat, db, meta) && !Shares(db, obj)
    ensures CacheOk(sat, db, meta[obj := values])
  {
    hide SortBy;
    forall atom | atom in db.cache
      ensures db.cache[atom] == Recompute(sat, db, meta[obj := values], atom)
    {
      MatchingSame(sat, db, meta, db, meta[obj := values], atom, CpList(db, atom.cp));
    }
  }

  /** `r` has an empty cache, or the same contents and cache as `db`. */
  ghost predicate Fresh(db: Db, r: Db) {
    r.cache == map[]
    || (r.cache == db.cache && r.cpvMap == db.cpvMap && forall cp :: r.CpPackages(cp) == db.CpPackages(cp))
  }

  lemma SameRecompute(sat: Matcher, db: Db, r: Db, meta: Metadata, atom: Atom)
    requires r.cpvMap == db.cpvMap && r.CpPackages(atom.cp) == db.CpPackages(atom.cp)
    ensures Recompute(sat, r, meta, atom) == Recompute(sat, db, meta, atom)
  {
    hide SortBy;
    assert CpList(r, atom.cp) == CpList(db, atom.cp);
    MatchingSame(sat, db, meta, r, meta, atom, CpList(db, atom.cp));
  }

  lemma FreshKeeps(sat: Matcher, db: Db, r: Db, meta: Metadata)
    requires CacheOk(sat, db, meta) && Fresh(db, r)
    ensures CacheOk(sat, r, meta)
  {
    hide Recompute;
    forall atom | atom in r.cache
      ensures r.cache[atom] == Recompute(sat, r, meta, atom)
    {
      assert db.cache[atom] == Recompute(sat, db, meta, atom);
      SameRecompute(sat, db, r, meta, atom);
    }
  }

  lemma RemoveFresh(db: Db, p: Pkg)
    ensures Fresh(db, CpvRemove(db, p).db)
    ensures CpvRemove(db, p).error.Some? ==> CpvRemove(db, p).db == db
  {
  }

  lemma InjectSlotFresh(db: Db, held: seq<Pkg>, p: Pkg)
    ensures Fresh(db, InjectSlot(db, held, p).db)
  {
    var e := InSlot(held, p);
    if e.Some? {
      RemoveFresh(db, e.value);
    }
  }

  /** Whatever an injection meets, it clears the cache or keeps the contents. */
  lemma InjectFresh(db: Db, p: Pkg)
    ensures Fresh(db, CpvInject(db, p).db)
  {
    var held := db.CpPackages(p.cpv.cp);
    var listed := db.(cpMap := db.cpMap[p.cpv.cp := held]);
    assert Fresh(db, listed);
    if p.cpv !in db.cpvMap {
      InjectSlotFresh(listed, held, p);
    } else if !Same(db.cpvMap[p.cpv], p) {
      var e := db.cpvMap[p.cpv];
      RemoveFresh(listed, e);
      var r := CpvRemove(listed, e);
      if r.error == None {
        InjectSlotFresh(r.db, if RemoveSame(held, e).Some? then RemoveSame(held, e).value else held, p);
      }
    }
  }

  /** Changing the indexes, or failing to, leaves a cache that is right. */
  lemma ChangesClear(sat: Matcher, db: Db, meta: Metadata, p: Pkg)
    requires CacheOk(sat, db, meta)
    ensures CacheOk(sat, CpvRemove(db, p).db, meta) && CacheOk(sat, CpvInject(db, p).db, meta)
  {
    hide *;
    RemoveFresh(db, p);
    InjectFresh(db, p);
    FreshKeeps(sat, db, CpvRemove(db, p).db, meta);
    FreshKeeps(sat, db, CpvInject(db, p).db, meta);
  }

  /** Every step but a staling update keeps all caches right. */
  lemma StepKeepsCaches(sat: Matcher, w: World, a: Action)
    requires CachesOk(sat, w) && !Stales(w, a)
    ensures CachesOk(sat, Step(sat, w, a))
  {
    hide CacheOk, Shares;
    if a.i < |w.dbs| {
      var db := w.dbs[a.i];
      match a
      case Inject(i, p) => ChangesClear(sat, db, w.meta, p);
      case Remove(i, p) => ChangesClear(sat, db, w.meta, p);
      case ClearAll(i) => ClearedOk(sat, db, w.meta);
      case Copy(i) =>
      case CpListOf(i, cp) => CpListAnswers(sat, db, w.meta, cp);
      case Match(i, atom) => AnswersRecompute(sat, db, w.meta, atom);
      case AuxUpdate(i, cpv, values) =>
        if cpv in db.cpvMap {
          var obj := db.cpvMap[cpv].obj;
          ClearedOk(sat, db, w.meta[obj := values]);
          forall j | 0 <= j < |w.dbs| && j != i
            ensures CacheOk(sat, w.dbs[j], w.meta[obj := values])
          {
            UnsharedKeeps(sat, w.dbs[j], w.meta, obj, values);
          }
        }
    }
  }

  lemma ClearedOk(sat: Matcher, db: Db, meta: Metadata)
    ensures CacheOk(sat, db.ClearCache(), meta)
    ensures CacheOk(sat, db, meta) ==> CacheOk(sat, Clear(db), meta)
  {
  }

  /** `sat` for metadata as they were, turned round for the object `obj` where its metadata are `now`. */
  function Turned(sat: Matcher, obj: nat, was: int, now: int): Matcher {
    (cond: nat, p: Pkg, m: int) => if p.obj == obj && m == now then !sat(cond, p, was) else sat(cond, p, m)
  }

  lemma {:induction false} TurnedSame(sat: Matcher, db: Db, meta: Metadata, obj: nat, was: int, now: int, atom: Atom, s: seq<Cpv>)
    requires was != now && forall p: Pkg :: p.obj == obj ==> MetadataOf(meta, p) == was
    ensures Matching(Turned(sat, obj, was, now), db, meta, atom, s) == Matching(sat, db, meta, atom, s)
    decreases |s|
  {
    if atom.cond.Some? && s != [] {
      TurnedSame(sat, db, meta, obj, was, now, atom, s[1..]);
    }
  }

  lemma TurnedCacheOk(sat: Matcher, db: Db, meta: Metadata, obj: nat, was: int, now: int)
    requires was != now && forall p: Pkg :: p.obj == obj ==> MetadataOf(meta, p) == was
    requires CacheOk(sat, db, meta)
    ensures CacheOk(Turned(sat, obj, was, now), db, meta)
  {
    hide Matching, CpList;
    forall atom | atom in db.cache
      ensures db.cache[atom] == Recompute(Turned(sat, obj, was, now), db, meta, atom)
    {
      TurnedSame(sat, db, meta, obj, was, now, atom, CpList(db, atom.cp));
    }
  }

  /** Where a cached answer depends on the object, the turned matcher gives another answer after the update. */
  lemma TurnedStale(sat: Matcher, db: Db, meta: Metadata, obj: nat, was: int, now: int)
    requires was != now && forall p: Pkg :: p.obj == obj ==> MetadataOf(meta, p) == was
    requires CacheOk(sat, db, meta) && Shares(db, obj)
    ensures !CacheOk(Turned(sat, obj, was, now), db, meta[obj := now])
  {
    hide Matching, CpList;
    var atom, c :| atom in db.cache && atom.cond.Some? && c in CpList(db, atom.cp) && c in db.cpvMap && db.cpvMap[c].obj == obj;
    var turned, after := Turned(sat, obj, was, now), meta[obj := now];
    MatchesSatisfy(sat, db, meta, atom, CpList(db, atom.cp), c);
    MatchesSatisfy(turned, db, after, atom, CpList(db, atom.cp), c);
    assert turned(atom.cond.value, db.cpvMap[c], now) == !sat(atom.cond.value, db.cpvMap[c], was);
    assert db.cache[atom] == Recompute(sat, db, meta, atom);
    assert c in db.cache[atom] <==> c !in Recompute(turned, db, after, atom);
  }

  lemma SameObject(meta: Metadata, p: Pkg)
    ensures forall q: Pkg :: q.obj == p.obj ==> MetadataOf(meta, q) == MetadataOf(meta, p)
  {
  }

  lemma AllTurned(sat: Matcher, w: World, obj: nat, was: int, now: int)
    requires was != now && forall p: Pkg :: p.obj == obj ==> MetadataOf(w.meta, p) == was
    requires CachesOk(sat, w)
    ensures CachesOk(Turned(sat, obj, was, now), w)
  {
    hide CacheOk, Turned;
    forall k | 0 <= k < |w.dbs|
      ensures CacheOk(Turned(sat, obj, was, now), w.dbs[k], w.meta)
    {
      TurnedCacheOk(sat, w.dbs[k], w.meta, obj, was, now);
    }
  }

  /** An update leaves the other databases as they are, but not the metadata that they look at. */
  lemma UpdatedBeside(sat: Matcher, w: World, i: nat, cpv: Cpv, values: int, j: nat)
    requires i < |w.dbs| && cpv in w.dbs[i].cpvMap && j < |w.dbs| && j != i
    ensures
      var t := Step(sat, w, AuxUpdate(i, cpv, values));
      |t.dbs| == |w.dbs| && t.dbs[j] == w.dbs[j] && t.meta == w.meta[w.dbs[i].cpvMap[cpv].obj := values]
  {
  }

  /**
   * An update behind a cached answer of another database, to metadata that differ from the present ones,
   * makes a right cache wrong for some matcher.
   */
  lemma StaleUpdateBreaks(sat: Matcher, w: World, i: nat, cpv: Cpv, values: int)
    requires CachesOk(sat, w) && Stales(w, AuxUpdate(i, cpv, values))
    requires values != MetadataOf(w.meta, w.dbs[i].cpvMap[cpv])
    ensures
      var p := w.dbs[i].cpvMap[cpv];
      var turned := Turned(sat, p.obj, MetadataOf(w.meta, p), values);
      CachesOk(turned, w) && !CachesOk(turned, Step(turned, w, AuxUpdate(i, cpv, values)))
  {
    var p := w.dbs[i].cpvMap[cpv];
    var was := MetadataOf(w.meta, p);
    SameObject(w.meta, p);
    AllTurned(sat, w, p.obj, was, values);
    var j :| 0 <= j < |w.dbs| && j != i && Shares(w.dbs[j], p.obj);
    TurnedStale(sat, w.dbs[j], w.meta, p.obj, was, values);
    hide CacheOk, Shares, Turned;
    UpdatedBeside(Turned(sat, p.obj, was, values), w, i, cpv, values, j);
  }

  /** Whatever the matcher and the new metadata are, the update leaves right caches right. */
  ghost predicate SafeUpdate(w: World, i: nat, cpv: Cpv) {
    forall sat: Matcher, values: int :: CachesOk(sat, w) ==> CachesOk(sat, Step(sat, w, AuxUpdate(i, cpv, values)))
  }

  /** Updating a package is safe exactly when no other database has a cached answer that depends on its object. */
  lemma UpdateSafeExactly(sat: Matcher, w: World, i: nat, cpv: Cpv)
    requires CachesOk(sat, w)
    ensures SafeUpdate(w, i, cpv) <==> !Stales(w, AuxUpdate(i, cpv, 0))
  {
    hide CachesOk, Step;
    if Stales(w, AuxUpdate(i, cpv, 0)) {
      var p := w.dbs[i].cpvMap[cpv];
      var values := MetadataOf(w.meta, p) + 1;
      assert Stales(w, AuxUpdate(i, cpv, values));
      StaleUpdateBreaks(sat, w, i, cpv, values);
      var turned := Turned(sat, p.obj, MetadataOf(w.meta, p), values);
      assert CachesOk(turned, w) && !CachesOk(turned, Step(turned, w, AuxUpdate(i, cpv, values)));
    } else {
      forall other: Matcher, values: int | CachesOk(other, w)
        ensures CachesOk(other, Step(other, w, AuxUpdate(i, cpv, values)))
      {
        StepKeepsCaches(other, w, AuxUpdate(i, cpv, values));
      }
    }
  }

  ghost predicate NoStaleUpdates(sat: Matcher, meta: Metadata, actions: seq<Action>) {
    forall k: nat :: k < |actions| ==> !Stales(Run(sat, meta, actions[..k]), actions[k])
  }

  lemma {:induction false} RunCachesOk(sat: Matcher, meta: Metadata, actions: seq<Action>)
    requires NoStaleUpdates(sat, meta, actions)
    ensures CachesOk(sat, Run(sat, meta, actions))
    decreases |actions|
  {
    if actions != [] {
      var n := |actions| - 1;
      var before := actions[..n];
      forall k: nat | k < n
        ensures !Stales(Run(sat, meta, before[..k]), before[k])
      {
        assert before[..k] == actions[..k] && before[k] == actions[k];
      }
      RunCachesOk(sat, meta, before);
      StepKeepsCaches(sat, Run(sat, meta, before), actions[n]);
    }
  }

  /**
   * After any sequence of injections, removals, copies, queries and updates that change no metadata
   * behind another database's answers, every answer is what the indexes give.
   */
  lemma RunAnswers(sat: Matcher, meta: Metadata, actions: seq<Action>, j: nat, atom: Atom)
    requires NoStaleUpdates(sat, meta, actions) && j < |Run(sat, meta, actions).dbs|
    ensures
      var w := Run(sat, meta, actions);
      && Ask(sat, w.dbs[j], w.meta, atom).0 == Recompute(sat, w.dbs[j], w.meta, atom)
      && AskCp(w.dbs[j], atom.cp).0 == CpList(w.dbs[j], atom.cp)
  {
    RunCachesOk(sat, meta, actions);
    var w := Run(sat, meta, actions);
    AnswersRecompute(sat, w.dbs[j], w.meta, atom);
    CpListAnswers(sat, w.dbs[j], w.meta, atom.cp);
  }

  ghost predicate NoDetaching(sat: Matcher, meta: Metadata, actions: seq<Action>) {
    forall k: nat :: k < |actions| && actions[k].Inject? && actions[k].i < |Run(sat, meta, actions[..k]).dbs| ==>
      !Detaches(Run(sat, meta, actions[..k]).dbs[actions[k].i], actions[k].p)
  }

  lemma StepKeepsAgreement(sat: Matcher, w: World, a: Action)
    requires forall j :: 0 <= j < |w.dbs| ==> Agree(w.dbs[j])
    requires a.Inject? && a.i < |w.dbs| ==> !Detaches(w.dbs[a.i], a.p)
    ensures forall j :: 0 <= j < |Step(sat, w, a).dbs| ==> Agree(Step(sat, w, a).dbs[j])
  {
    if a.i < |w.dbs| {
      var db := w.dbs[a.i];
      AgreeIgnoresCache(db);
      match a
      case Inject(i, p) => InjectOutcome(db, p);
      case Remove(i, p) => RemoveKeepsAgreement(db, p);
      case _ =>
    }
  }

  lemma AgreeIgnoresCache(db: Db)
    requires Agree(db)
    ensures forall cache :: Agree(db.(cache := cache))
    ensures Agree(Empty)
  {
  }

  /** In every run whose injections leave no list empty, the indexes of all databases agree. */
  lemma {:induction false} RunAgrees(sat: Matcher, meta: Metadata, actions: seq<Action>)
    requires NoDetaching(sat, meta, actions)
    ensures forall j :: 0 <= j < |Run(sat, meta, actions).dbs| ==> Agree(Run(sat, meta, actions).dbs[j])
    decreases |actions|
  {
    hide Agree, Detaches;
    if actions == [] {
      EmptyAgrees();
    } else {
      var n := |actions| - 1;
      var before := actions[..n];
      forall k: nat | k < n && before[k].Inject? && before[k].i < |Run(sat, meta, before[..k]).dbs|
        ensures !Detaches(Run(sat, meta, before[..k]).dbs[before[k].i], before[k].p)
      {
        assert before[..k] == actions[..k] && before[k] == actions[k];
      }
      RunAgrees(sat, meta, before);
      StepKeepsAgreement(sat, Run(sat, meta, before), actions[n]);
    }
  }

  lemma EmptyAgrees()
    ensures Agree(Empty)
  {
  }

  lemma InjectOne(p: Pkg)
    ensures CpvInject(Empty, p) == Outcome(Db(map[p.cpv.cp := [p]], map[p.cpv := p], map[]), None)
  {
    assert [] + [p] == [p];
  }

  /** An upgrade of the only package of its cp, in its slot, hides the new package from its cp. */
  lemma UpgradeDetaches(first: Pkg, second: Pkg)
    requires first.cpv.cp == second.cpv.cp && first.slot == second.slot && first.cpv != second.cpv
    ensures
      var r := CpvInject(CpvInject(Empty, first).db, second);
      r.error == None && r.db.cpvMap == map[second.cpv := second] && r.db.CpPackages(second.cpv.cp) == []
  {
    var one := Db(map[first.cpv.cp := [first]], map[first.cpv := first], map[]);
    InjectOne(first);
    assert [first][1..] == [];
    assert RemoveSame([first], first) == Some([]);
    assert one.cpMap[first.cpv.cp := [first]] == one.cpMap;
    var r := CpvRemove(one, first);
    assert r == Outcome(Empty, None);
    assert InSlot([first], second) == Some(first);
    assert [] + [second] == [second];
    assert CpvInject(one, second) == Outcome(Append(Empty, [], second), None);
  }

  function IsOne(cond: nat, p: Pkg, meta: int): bool {
    meta == 1
  }

  function OneOf(p: Pkg): Db {
    Db(map[p.cpv.cp := [p]], map[p.cpv := p], map[])
  }

  lemma OneList(p: Pkg, cache: map<Atom, seq<Cpv>>)
    ensures CpList(OneOf(p).(cache := cache), p.cpv.cp) == [p.cpv]
  {
    assert [p][1..] == [] && [p.cpv][1..] == [];
    assert CpvsOf([p]) == [p.cpv] + CpvsOf([]) == [p.cpv];
    assert SortBy(Rank, [p.cpv]) == InsertBy(Rank, p.cpv, SortBy(Rank, []));
  }

  lemma OneMatching(p: Pkg, cond: nat, cache: map<Atom, seq<Cpv>>, value: int)
    ensures
      var db := OneOf(p).(cache := cache);
      Matching(IsOne, db, map[p.obj := value], Atom(p.cpv.cp, Some(cond)), [p.cpv]) == if value == 1 then [p.cpv] else []
  {
    assert [p.cpv][1..] == [];
  }

  /** Where the metadata are 0, the condition has no match, and that is cached. */
  lemma OneAsked(p: Pkg, cond: nat)
    ensures
      var atom := Atom(p.cpv.cp, Some(cond));
      var two := Ask(IsOne, OneOf(p), map[p.obj := 0], atom).1;
      two == OneOf(p).(cache := two.cache) && atom in two.cache && two.cache[atom] == []
  {
    OneList(p, map[]);
    OneMatching(p, cond, AskCp(OneOf(p), p.cpv.cp).1.cache, 0);
    hide CpList, Matching;
  }

  lemma CopyOfOne(p: Pkg, meta: Metadata)
    ensures Step(IsOne, Step(IsOne, World([Empty], meta), Inject(0, p)), Copy(0)) == World([OneOf(p), OneOf(p)], meta)
  {
    InjectOne(p);
    hide CpvInject;
  }

  lemma SecondAsked(a: Db, b: Db, meta: Metadata, atom: Atom)
    ensures Step(IsOne, World([a, b], meta), Match(1, atom)) == World([a, Ask(IsOne, b, meta, atom).1], meta)
  {
    hide Ask;
  }

  lemma FirstUpdated(a: Db, b: Db, meta: Metadata, p: Pkg, values: int)
    requires p.cpv in a.cpvMap && a.cpvMap[p.cpv] == p
    ensures
      var w := Step(IsOne, World([a, b], meta), AuxUpdate(0, p.cpv, values));
      |w.dbs| == 2 && w.dbs[1] == b && w.meta == meta[p.obj := values]
  {
  }

  lemma OneRecomputed(p: Pkg, cond: nat, cache: map<Atom, seq<Cpv>>)
    ensures Recompute(IsOne, OneOf(p).(cache := cache), map[p.obj := 1], Atom(p.cpv.cp, Some(cond))) == [p.cpv]
  {
    OneList(p, cache);
    OneMatching(p, cond, cache, 1);
    hide CpList, Matching;
  }

  lemma CachedAnswer(db: Db, meta: Metadata, atom: Atom)
    requires atom in db.cache
    ensures Ask(IsOne, db, meta, atom).0 == db.cache[atom]
  {
  }

  /** Two databases that share a package: an update in one makes a cached answer of its copy wrong. */
  lemma SharedUpdateStales(p: Pkg, cond: nat)
    ensures
      var atom := Atom(p.cpv.cp, Some(cond));
      var w1 := Step(IsOne, Step(IsOne, World([Empty], map[p.obj := 0]), Inject(0, p)), Copy(0));
      var w := Step(IsOne, Step(IsOne, w1, Match(1, atom)), AuxUpdate(0, p.cpv, 1));
      && |w.dbs| == 2
      && Ask(IsOne, w.dbs[1], w.meta, atom).0 == [] && Recompute(IsOne, w.dbs[1], w.meta, atom) == [p.cpv]
  {
    var atom, m0: Metadata, m1: Metadata, one := Atom(p.cpv.cp, Some(cond)), map[p.obj := 0], map[p.obj := 1], OneOf(p);
    var two := Ask(IsOne, one, m0, atom).1;
    assert m0[p.obj := 1] == m1 && one.cpvMap[p.cpv] == p;
    hide *;
    CopyOfOne(p, m0);
    OneAsked(p, cond);
    SecondAsked(one, one, m0, atom);
    FirstUpdated(one, two, m0, p, 1);
    OneRecomputed(p, cond, two.cache);
    CachedAnswer(two, m1, atom);
  }
}
