/**
 * PackageVirtualDbapi with its lists as objects: the lists of the cp index, which an injection keeps
 * hold of, the cached lists, which copies of a database share, and the lists given to callers.
 */
module VirtualDbapi {
  import opened VirtualDb
  import opened Wrappers

  /** A Python list of packages. */
  class PkgList {
    var elems: seq<Pkg>

    constructor (s: seq<Pkg>)
      ensures elems == s
    {
      elems := s;
    }
  }

  /** A Python list of cpvs. */
  class CpvList {
    var elems: seq<Cpv>

    constructor (s: seq<Cpv>)
      ensures elems == s
    {
      elems := s;
    }
  }

  /** The metadata of the Package objects, which databases share. */
  class PackageObjects {
    var metadata: Metadata

    constructor (m: Metadata)
      ensures metadata == m
    {
      metadata := m;
    }
  }

  class PackageVirtualDbapi {
    const objects: PackageObjects
    const sat: Matcher
    var cpMap: map<nat, PkgList>
    var cpvMap: map<Cpv, Pkg>
    var matchCache: map<Atom, CpvList>

    /** The lists of the cp index are different objects, and packages are filed under what they are. */
    ghost predicate Valid()
      reads this`cpMap, this`cpvMap, cpMap.Values
    {
      && (forall a, b :: a in cpMap && b in cpMap && a != b ==> cpMap[a] != cpMap[b])
      && (forall cp, p :: cp in cpMap && p in cpMap[cp].elems ==> p.cpv.cp == cp)
      && (forall c :: c in cpvMap ==> cpvMap[c].cpv == c)
    }

    ghost function CpModel(): map<nat, seq<Pkg>>
      reads this`cpMap, cpMap.Values
    {
      map cp | cp in cpMap :: cpMap[cp].elems
    }

    ghost function CacheModel(): map<Atom, seq<Cpv>>
      reads this`matchCache, matchCache.Values
    {
      map k | k in matchCache :: matchCache[k].elems
    }

    ghost function Model(): Db
      reads this, cpMap.Values, matchCache.Values
    {
      Db(CpModel(), cpvMap, CacheModel())
    }

    constructor (objects: PackageObjects, sat: Matcher)
      ensures cpMap == map[]
      ensures Valid() && Model() == Empty && this.objects == objects && this.sat == sat
    {
      this.objects, this.sat := objects, sat;
      cpMap, cpvMap, matchCache := map[], map[], map[];
    }

    method ClearAll()
      requires Valid()
      modifies this
      ensures Valid() && Model() == Clear(old(Model())) && cpMap.Values <= old(cpMap.Values)
    {
      if cpvMap != map[] {
        cpMap, cpvMap, matchCache := map[], map[], map[];
      }
    }

    /** The copy has its own lists of packages but shares the cached lists. */
    method Copy() returns (obj: PackageVirtualDbapi)
      requires Valid()
      ensures fresh(obj) && obj.Valid() && obj.Model() == Model() && obj.objects == objects && obj.sat == sat
      ensures fresh(obj.cpMap.Values) && obj.matchCache == matchCache
    {
      obj := new PackageVirtualDbapi(objects, sat);
      var lists := CopyLists(cpMap);
      obj.cpMap, obj.cpvMap, obj.matchCache := lists, cpvMap, matchCache;
      assert obj.CpModel() == CpModel();
    }

    /** A list object goes into the cache. */
    method Cache(key: Atom, answer: seq<Cpv>)
      requires Valid()
      modifies this`matchCache
      ensures Valid() && Model() == old(Model()).(cache := old(Model()).cache[key := answer])
      ensures forall l :: l in matchCache.Values ==> l in old(matchCache.Values) || fresh(l)
    {
      ghost var was := CacheModel();
      var cached := new CpvList(answer);
      matchCache := matchCache[key := cached];
      assert CacheModel() == was[key := answer];
    }

    /** cp_list(): the caller gets a list of its own. */
    method CpListOf(cp: nat) returns (list: CpvList)
      requires Valid()
      modifies this`matchCache
      ensures Valid() && fresh(list) && list !in matchCache.Values
      ensures (list.elems, Model()) == AskCp(old(Model()), cp)
      ensures forall l :: l in matchCache.Values ==> l in old(matchCache.Values) || fresh(l)
    {
      hide Valid, CpModel, CpList;
      var key := Atom(cp, None);
      var answer;
      if key in matchCache {
        answer := matchCache[key].elems;
      } else {
        answer := ListVersions(cp);
        Cache(key, answer);
      }
      list := new CpvList(answer);
    }

    method ListVersions(cp: nat) returns (s: seq<Cpv>)
      ensures s == CpList(Model(), cp)
    {
      if cp in cpMap {
        assert CpModel()[cp] == cpMap[cp].elems;
        s := SortedCpvs(cpMap[cp].elems);
      } else {
        s := SortedCpvs([]);
      }
    }

    /** match(): likewise. */
    method Match(atom: Atom) returns (list: CpvList)
      requires Valid()
      modifies this`matchCache
      ensures Valid() && fresh(list) && list !in matchCache.Values
      ensures (list.elems, Model()) == Ask(sat, old(Model()), objects.metadata, atom)
      ensures forall l :: l in matchCache.Values ==> l in old(matchCache.Values) || fresh(l)
    {
      hide Valid, CpModel, CpList, Matching;
      var answer;
      if atom in matchCache {
        answer := matchCache[atom].elems;
      } else {
        var candidates := CpListOf(atom.cp);
        answer := Select(atom, candidates.elems);
        Cache(atom, answer);
      }
      list := new CpvList(answer);
    }

    /** _iter_match */
    method Select(atom: Atom, candidates: seq<Cpv>) returns (result: seq<Cpv>)
      ensures result == Matching(sat, Model(), objects.metadata, atom, candidates)
    {
      if atom.cond == None {
        return candidates;
      }
      hide Matching, CpModel, CacheModel;
      result := [];
      MatchingEnds(sat, Model(), objects.metadata, atom, candidates);
      for k := 0 to |candidates|
        invariant result + Matching(sat, Model(), objects.metadata, atom, candidates[k..])
          == Matching(sat, Model(), objects.metadata, atom, candidates)
      {
        MatchingStep(sat, Model(), objects.metadata, atom, candidates, k, result);
        var c := candidates[k];
        if c in cpvMap && sat(atom.cond.value, cpvMap[c], MetadataOf(objects.metadata, cpvMap[c])) {
          result := result + [c];
        }
      }
      assert result + [] == result;
    }

    /** The list of a cp is shortened in place, and leaves the index when it is empty. */
    method Shorten(cp: nat, rest: seq<Pkg>)
      requires Valid() && cp in cpMap && forall p :: p in rest ==> p.cpv.cp == cp
      modifies this`cpMap, cpMap.Values
      ensures Valid() && cpMap.Values <= old(cpMap.Values)
      ensures CpModel() == if rest == [] then old(CpModel()) - {cp} else old(CpModel())[cp := rest]
      ensures old(cpMap[cp]).elems == rest
      ensures if cp in cpMap then cpMap[cp] == old(cpMap[cp]) else old(cpMap[cp]) !in cpMap.Values
    {
      ghost var was := CpModel();
      cpMap[cp].elems := rest;
      assert forall c :: c in cpMap && c != cp ==> cpMap[c].elems == was[c];
      assert CpModel() == was[cp := rest];
      if rest == [] {
        cpMap := cpMap - {cp};
        assert CpModel() == was - {cp};
      }
    }

    /** cpv_remove(): also what becomes of the list object, whether or not it stays in the index. */
    method CpvRemove(p: Pkg) returns (error: Option<Error>)
      requires Valid()
      modifies this, cpMap.Values
      ensures Valid() && Outcome(Model(), error) == VirtualDb.CpvRemove(old(Model()), p)
      ensures cpMap.Values <= old(cpMap.Values)
      ensures error == None ==>
        && p.cpv.cp in old(cpMap)
        && Some(old(cpMap[p.cpv.cp]).elems) == RemoveSame(old(cpMap[p.cpv.cp].elems), p)
        && (if p.cpv.cp in cpMap then cpMap[p.cpv.cp] == old(cpMap[p.cpv.cp])
            else old(cpMap[p.cpv.cp]) !in cpMap.Values)
    {
      ghost var was := Model();
      RemoveFails(was, p);
      if p.cpv !in cpvMap || !Same(cpvMap[p.cpv], p) {
        return Some(KeyError);
      }
      if p.cpv.cp !in cpMap {
        return Some(KeyError);
      }
      assert was.cpMap[p.cpv.cp] == cpMap[p.cpv.cp].elems;
      var rest := RemoveSame(cpMap[p.cpv.cp].elems, p);
      if rest == None {
        return Some(ValueError);
      }
      RemoveSameMembers(cpMap[p.cpv.cp].elems, p);
      RemoveDone(was, p, rest.value);
      hide RemoveSame, VirtualDb.CpvRemove;
      error := None;
      TakeOut(p, rest.value);
    }

    method TakeOut(p: Pkg, rest: seq<Pkg>)
      requires Valid() && p.cpv.cp in cpMap && forall q :: q in rest ==> q.cpv.cp == p.cpv.cp
      modifies this, cpMap.Values
      ensures Valid() && cpMap.Values <= old(cpMap.Values)
      ensures
        var was := old(Model());
        Model() == Db(
          if rest == [] then was.cpMap - {p.cpv.cp} else was.cpMap[p.cpv.cp := rest],
          was.cpvMap - {p.cpv},
          map[])
      ensures old(cpMap[p.cpv.cp]).elems == rest
      ensures if p.cpv.cp in cpMap then cpMap[p.cpv.cp] == old(cpMap[p.cpv.cp])
              else old(cpMap[p.cpv.cp]) !in cpMap.Values
    {
      Shorten(p.cpv.cp, rest);
      cpvMap := cpvMap - {p.cpv};
      matchCache := map[];
      assert CacheModel() == map[];
    }

    /** The list object gets the package at its end, whether or not it is in the index. */
    method AppendTo(cpList: PkgList, p: Pkg)
      requires Valid() && (p.cpv.cp in cpMap ==> cpMap[p.cpv.cp] == cpList)
      requires p.cpv.cp !in cpMap ==> cpList !in cpMap.Values
      modifies this, cpList
      ensures Valid() && cpMap == old(cpMap)
      ensures Model() == Append(old(Model()), old(cpList.elems), p)
    {
      ghost var was, held := CpModel(), cpList.elems;
      cpList.elems := cpList.elems + [p];
      cpvMap := cpvMap[p.cpv := p];
      matchCache := map[];
      assert CacheModel() == map[];
      assert forall c :: c in cpMap && c != p.cpv.cp ==> cpMap[c].elems == was[c];
      assert CpModel() == if p.cpv.cp in was then was[p.cpv.cp := held + [p]] else was;
    }

    /** The loop of cpv_inject() over the list that it holds, and what follows. */
    method InjectInto(cpList: PkgList, p: Pkg) returns (error: Option<Error>)
      requires Valid() && (p.cpv.cp in cpMap ==> cpMap[p.cpv.cp] == cpList)
      requires p.cpv.cp !in cpMap ==> cpList !in cpMap.Values
      requires forall q :: q in cpList.elems ==> q.cpv.cp == p.cpv.cp
      modifies this, cpMap.Values, cpList
      ensures Valid() && cpMap.Values <= old(cpMap.Values)
      ensures Outcome(Model(), error) == InjectSlot(old(Model()), old(cpList.elems), p)
    {
      ghost var held := cpList.elems;
      assert held[0..] == held;
      for k := 0 to |cpList.elems|
        invariant InSlot(held[k..], p) == InSlot(held, p) && Model() == old(Model()) && cpList.elems == held
      {
        var e := cpList.elems[k];
        assert held[k..][1..] == held[k + 1..];
        if e.slot == p.slot {
          if Same(e, p) {
            return None;
          }
          error := CpvRemove(e);
          if error == None {
            AppendTo(cpList, p);
          }
          return;
        }
      }
      AppendTo(cpList, p);
      error := None;
    }

    /** The list of a cp, a new one in the index if there is none. */
    method FetchList(cp: nat) returns (cpList: PkgList)
      requires Valid()
      modifies this`cpMap
      ensures Valid() && cp in cpMap && cpMap[cp] == cpList
      ensures Model() == old(Model()).(cpMap := old(Model()).cpMap[cp := old(Model()).CpPackages(cp)])
      ensures cpList.elems == old(Model()).CpPackages(cp)
      ensures forall l :: l in cpMap.Values ==> l in old(cpMap.Values) || fresh(l)
    {
      ghost var was := CpModel();
      if cp in cpMap {
        cpList := cpMap[cp];
        assert was[cp := was[cp]] == was;
      } else {
        cpList := new PkgList([]);
        cpMap := cpMap[cp := cpList];
        assert CpModel() == was[cp := []];
      }
    }

    method CpvInject(p: Pkg) returns (error: Option<Error>)
      requires Valid()
      modifies this, cpMap.Values
      ensures Valid() && Outcome(Model(), error) == VirtualDb.CpvInject(old(Model()), p)
      ensures forall l :: l in cpMap.Values ==> l in old(cpMap.Values) || fresh(l)
    {
      hide InjectSlot, VirtualDb.CpvRemove, CpModel, CacheModel, RemoveSame;
      var cpList := FetchList(p.cpv.cp);
      assert forall q :: q in cpList.elems ==> q.cpv.cp == p.cpv.cp;
      error := None;
      if p.cpv in cpvMap {
        var e := cpvMap[p.cpv];
        if Same(e, p) {
          return None;
        }
        RemoveSameMembers(cpList.elems, e);
        error := CpvRemove(e);
        if error != None {
          return;
        }
      }
      error := InjectInto(cpList, p);
    }

    method AuxUpdate(cpv: Cpv, values: int) returns (error: Option<Error>)
      requires Valid()
      modifies this`matchCache, objects
      ensures Valid()
      ensures
        if cpv in cpvMap then
          error == None && Model() == old(Model()).ClearCache()
          && objects.metadata == old(objects.metadata)[cpvMap[cpv].obj := values]
        else error == Some(KeyError) && Model() == old(Model()) && objects.metadata == old(objects.metadata)
    {
      if cpv !in cpvMap {
        return Some(KeyError);
      }
      objects.metadata := objects.metadata[cpvMap[cpv].obj := values];
      matchCache := map[];
      assert CacheModel() == map[];
      error := None;
    }
  }

  /** A new list object for each list. */
  method CopyLists(lists: map<nat, PkgList>) returns (r: map<nat, PkgList>)
    ensures r.Keys == lists.Keys && fresh(r.Values)
    ensures forall cp :: cp in r ==> r[cp].elems == lists[cp].elems
    ensures forall a, b :: a in r && b in r && a != b ==> r[a] != r[b]
  {
    r := map[];
    var todo := lists.Keys;
    while todo != {}
      invariant todo <= lists.Keys && r.Keys == lists.Keys - todo
      invariant forall cp :: cp in r ==> fresh(r[cp]) && r[cp].elems == lists[cp].elems
      invariant forall a, b :: a in r && b in r && a != b ==> r[a] != r[b]
    {
      var cp :| cp in todo;
      var list := new PkgList(lists[cp].elems);
      r := r[cp := list];
      todo := todo - {cp};
    }
  }

  /** [pkg.cpv for pkg in cp_list], sorted. */
  method SortedCpvs(packages: seq<Pkg>) returns (s: seq<Cpv>)
    ensures s == Sorting.SortBy(Rank, CpvsOf(packages))
  {
    s := [];
    assert packages[0..] == packages;
    for k := 0 to |packages|
      invariant s + CpvsOf(packages[k..]) == CpvsOf(packages)
    {
      assert packages[k..][1..] == packages[k + 1..];
      s := s + [packages[k].cpv];
    }
    assert packages[|packages|..] == [] && s + [] == s;
    s := Sorting.SortBy(Rank, s);
  }

  lemma MatchingEnds(sat: Matcher, db: Db, meta: Metadata, atom: Atom, s: seq<Cpv>)
    requires atom.cond.Some?
    ensures [] + Matching(sat, db, meta, atom, s[0..]) == Matching(sat, db, meta, atom, s)
    ensures Matching(sat, db, meta, atom, s[|s|..]) == []
  {
    assert s[0..] == s;
  }

  lemma MatchingStep(sat: Matcher, db: Db, meta: Metadata, atom: Atom, s: seq<Cpv>, k: nat, result: seq<Cpv>)
    requires atom.cond.Some? && k < |s|
    ensures
      var fits := s[k] in db.cpvMap && sat(atom.cond.value, db.cpvMap[s[k]], MetadataOf(meta, db.cpvMap[s[k]]));
      result + Matching(sat, db, meta, atom, s[k..])
        == (if fits then result + [s[k]] else result) + Matching(sat, db, meta, atom, s[k + 1..])
  {
    assert s[k..][1..] == s[k + 1..];
    var later := Matching(sat, db, meta, atom, s[k + 1..]);
    assert result + ([s[k]] + later) == result + [s[k]] + later && [] + later == later;
  }

  /** What a removal that finds the package does, given what is left of the list. */
  lemma RemoveDone(db: Db, p: Pkg, rest: seq<Pkg>)
    requires p.cpv in db.cpvMap && Same(db.cpvMap[p.cpv], p) && p.cpv.cp in db.cpMap
    requires RemoveSame(db.cpMap[p.cpv.cp], p) == Some(rest)
    ensures
      var cpMap := if rest == [] then db.cpMap - {p.cpv.cp} else db.cpMap[p.cpv.cp := rest];
      VirtualDb.CpvRemove(db, p) == Outcome(Db(cpMap, db.cpvMap - {p.cpv}, map[]), None)
  {
  }

  lemma RemoveFails(db: Db, p: Pkg)
    ensures p.cpv !in db.cpvMap || !Same(db.cpvMap[p.cpv], p) || p.cpv.cp !in db.cpMap ==>
      VirtualDb.CpvRemove(db, p) == Outcome(db, Some(KeyError))
    ensures
      (p.cpv in db.cpvMap && Same(db.cpvMap[p.cpv], p) && p.cpv.cp in db.cpMap && RemoveSame(db.cpMap[p.cpv.cp], p) == None) ==>
      VirtualDb.CpvRemove(db, p) == Outcome(db, Some(ValueError))
  {
  }

  lemma {:induction false} RemoveSameMembers(s: seq<Pkg>, p: Pkg)
    ensures RemoveSame(s, p).Some? ==> forall q :: q in RemoveSame(s, p).value ==> q in s
  {
    if s != [] {
      RemoveSameMembers(s[1..], p);
    }
  }

  // ----- several databases beside each other -----

  /**
   * The databases are what `w` says: different objects over the same Package objects, none of which
   * holds a list of another's index.
   */
  ghost predicate Represents(dbs: seq<PackageVirtualDbapi>, objects: PackageObjects, sat: Matcher, w: World)
    reads objects, dbs
    reads set db, l | db in dbs && l in db.cpMap.Values :: l
    reads set db, l | db in dbs && l in db.matchCache.Values :: l
  {
    && |w.dbs| == |dbs|
    && w.meta == objects.metadata
    && (forall i :: 0 <= i < |dbs| ==>
          dbs[i].Valid() && dbs[i].objects == objects && dbs[i].sat == sat && dbs[i].Model() == w.dbs[i])
    && (forall i, j :: 0 <= i < j < |dbs| ==> dbs[i] != dbs[j] && dbs[i].cpMap.Values !! dbs[j].cpMap.Values)
  }

  /** The lists of all indexes. */
  ghost function Lists(dbs: seq<PackageVirtualDbapi>): set<PkgList>
    reads dbs
  {
    set db, l | db in dbs && l in db.cpMap.Values :: l
  }

  method InjectBeside(dbs: seq<PackageVirtualDbapi>, objects: PackageObjects, sat: Matcher, ghost w: World, i: nat, p: Pkg)
    requires i < |dbs| && Represents(dbs, objects, sat, w)
    modifies dbs[i], dbs[i].cpMap.Values
    ensures Represents(dbs, objects, sat, Step(sat, w, Inject(i, p)))
    ensures forall l :: l in dbs[i].cpMap.Values ==> l in old(dbs[i].cpMap.Values) || fresh(l)
  {
    hide VirtualDb.CpvInject, PackageVirtualDbapi.Valid, PackageVirtualDbapi.Model, PackageVirtualDbapi.CpModel, PackageVirtualDbapi.CacheModel;
    var error := dbs[i].CpvInject(p);
  }

  method RemoveBeside(dbs: seq<PackageVirtualDbapi>, objects: PackageObjects, sat: Matcher, ghost w: World, i: nat, p: Pkg)
    requires i < |dbs| && Represents(dbs, objects, sat, w)
    modifies dbs[i], dbs[i].cpMap.Values
    ensures Represents(dbs, objects, sat, Step(sat, w, Remove(i, p)))
    ensures forall l :: l in dbs[i].cpMap.Values ==> l in old(dbs[i].cpMap.Values) || fresh(l)
  {
    hide VirtualDb.CpvRemove, PackageVirtualDbapi.Valid, PackageVirtualDbapi.Model, PackageVirtualDbapi.CpModel, PackageVirtualDbapi.CacheModel;
    var error := dbs[i].CpvRemove(p);
  }

  method ListBeside(dbs: seq<PackageVirtualDbapi>, objects: PackageObjects, sat: Matcher, ghost w: World, i: nat, cp: nat, scribble: seq<Cpv>)
    requires i < |dbs| && Represents(dbs, objects, sat, w)
    modifies dbs[i]
    ensures Represents(dbs, objects, sat, Step(sat, w, CpListOf(i, cp)))
    ensures forall l :: l in dbs[i].cpMap.Values ==> l in old(dbs[i].cpMap.Values) || fresh(l)
  {
    hide AskCp, PackageVirtualDbapi.Valid, PackageVirtualDbapi.Model, PackageVirtualDbapi.CpModel, PackageVirtualDbapi.CacheModel;
    var list := dbs[i].CpListOf(cp);
    list.elems := scribble;
  }

  method MatchBeside(dbs: seq<PackageVirtualDbapi>, objects: PackageObjects, sat: Matcher, ghost w: World, i: nat, atom: Atom, scribble: seq<Cpv>)
    requires i < |dbs| && Represents(dbs, objects, sat, w)
    modifies dbs[i]
    ensures Represents(dbs, objects, sat, Step(sat, w, Match(i, atom)))
    ensures forall l :: l in dbs[i].cpMap.Values ==> l in old(dbs[i].cpMap.Values) || fresh(l)
  {
    hide Ask, PackageVirtualDbapi.Valid, PackageVirtualDbapi.Model, PackageVirtualDbapi.CpModel, PackageVirtualDbapi.CacheModel;
    var list := dbs[i].Match(atom);
    list.elems := scribble;
  }

  method UpdateBeside(dbs: seq<PackageVirtualDbapi>, objects: PackageObjects, sat: Matcher, ghost w: World, i: nat, cpv: Cpv, values: int)
    requires i < |dbs| && Represents(dbs, objects, sat, w)
    modifies objects, dbs[i]
    ensures Represents(dbs, objects, sat, Step(sat, w, AuxUpdate(i, cpv, values)))
    ensures forall l :: l in dbs[i].cpMap.Values ==> l in old(dbs[i].cpMap.Values) || fresh(l)
  {
    var error := dbs[i].AuxUpdate(cpv, values);
  }

  method ClearBeside(dbs: seq<PackageVirtualDbapi>, objects: PackageObjects, sat: Matcher, ghost w: World, i: nat)
    requires i < |dbs| && Represents(dbs, objects, sat, w)
    modifies dbs[i]
    ensures Represents(dbs, objects, sat, Step(sat, w, ClearAll(i)))
    ensures forall l :: l in dbs[i].cpMap.Values ==> l in old(dbs[i].cpMap.Values) || fresh(l)
  {
    hide Clear, PackageVirtualDbapi.Valid, PackageVirtualDbapi.Model, PackageVirtualDbapi.CpModel, PackageVirtualDbapi.CacheModel;
    dbs[i].ClearAll();
  }

  method CopyBeside(dbs: seq<PackageVirtualDbapi>, objects: PackageObjects, sat: Matcher, ghost w: World, i: nat)
    returns (copy: PackageVirtualDbapi)
    requires i < |dbs| && Represents(dbs, objects, sat, w)
    ensures Represents(dbs + [copy], objects, sat, Step(sat, w, Copy(i)))
    ensures fresh(copy) && fresh(copy.cpMap.Values)
  {
    hide PackageVirtualDbapi.Valid, PackageVirtualDbapi.Model, PackageVirtualDbapi.CpModel, PackageVirtualDbapi.CacheModel;
    copy := dbs[i].Copy();
  }

  /** One call of one of the databases; the caller overwrites the list that it is given. */
  method Perform(dbs: seq<PackageVirtualDbapi>, objects: PackageObjects, sat: Matcher, ghost w: World, a: Action, scribble: seq<Cpv>)
    returns (r: seq<PackageVirtualDbapi>)
    requires Represents(dbs, objects, sat, w)
    modifies objects, dbs, Lists(dbs)
    ensures Represents(r, objects, sat, Step(sat, w, a))
    ensures forall j :: 0 <= j < |r| ==> r[j] in dbs || fresh(r[j])
    ensures forall l :: l in Lists(r) ==> l in old(Lists(dbs)) || fresh(l)
  {
    hide Step, Represents;
    r := dbs;
    if a.i >= |dbs| {
      NoSuchDatabase(dbs, objects, sat, w, a);
      return;
    }
    match a
    case Inject(i, p) => InjectBeside(dbs, objects, sat, w, i, p);
    case Remove(i, p) => RemoveBeside(dbs, objects, sat, w, i, p);
    case ClearAll(i) => ClearBeside(dbs, objects, sat, w, i);
    case Copy(i) =>
      var copy := CopyBeside(dbs, objects, sat, w, i);
      r := dbs + [copy];
    case CpListOf(i, cp) => ListBeside(dbs, objects, sat, w, i, cp, scribble);
    case Match(i, atom) => MatchBeside(dbs, objects, sat, w, i, atom, scribble);
    case AuxUpdate(i, cpv, values) => UpdateBeside(dbs, objects, sat, w, i, cpv, values);
  }

  lemma NoSuchDatabase(dbs: seq<PackageVirtualDbapi>, objects: PackageObjects, sat: Matcher, w: World, a: Action)
    requires Represents(dbs, objects, sat, w) && a.i >= |dbs|
    ensures Step(sat, w, a) == w
  {
  }

  /**
   * Any calls of any number of databases and copies, in any order, where each list that a caller is
   * given is overwritten: the objects always are what the same operations on values give. So no
   * database sees what is done to another one, or to an answer.
   */
  method Session(meta: Metadata, sat: Matcher, actions: seq<Action>, scribbles: seq<seq<Cpv>>)
    returns (objects: PackageObjects, dbs: seq<PackageVirtualDbapi>)
    requires |scribbles| == |actions|
    ensures Represents(dbs, objects, sat, Run(sat, meta, actions))
  {
    hide Represents, Step;
    objects := new PackageObjects(meta);
    var db := new PackageVirtualDbapi(objects, sat);
    dbs := [db];
    FirstDatabase(db, objects, sat);
    for k := 0 to |actions|
      invariant Represents(dbs, objects, sat, Run(sat, meta, actions[..k]))
      invariant fresh(objects) && fresh(Lists(dbs))
      invariant forall j :: 0 <= j < |dbs| ==> fresh(dbs[j])
    {
      assert actions[..k + 1][..k] == actions[..k];
      dbs := Perform(dbs, objects, sat, Run(sat, meta, actions[..k]), actions[k], scribbles[k]);
    }
    assert actions[..|actions|] == actions;
  }

  lemma FirstDatabase(db: PackageVirtualDbapi, objects: PackageObjects, sat: Matcher)
    requires db.Valid() && db.Model() == Empty && db.objects == objects && db.sat == sat
    ensures Represents([db], objects, sat, World([Empty], objects.metadata))
  {
  }
}
