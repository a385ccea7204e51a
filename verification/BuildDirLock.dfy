/**
 * The two-level build directory lock: EbuildBuildDir takes the lock of the category directory, then
 * that of the build directory, by AsynchronousLock objects that try directly and otherwise leave the
 * waiting to a helper process. Any number of agents, one step of one process at a time.
 */
module BuildDirLock {

  /** A build directory in its category directory. */
  datatype Dir = Dir(cat: nat, name: nat)

  datatype Lock = CatLock(cat: nat) | BuildLock(dir: Dir)

  /**
   * An AsynchronousLock. `Direct` was taken without a helper; `ByHelper` is held by a helper whose
   * byte was read. After unlocking, `DirectReleased` and `HelperReleased` wait for their future.
   */
  datatype Handle =
    | NoHandle
    | Waiting
    | HelperHolds
    | Signalled
    | ByHelper
    | Direct
    | DirectReleased
    | UnlockSent
    | HelperReleased
  {
    /** The process behind the handle holds the lock file. */
    predicate Holds() {
      HelperHolds? || Signalled? || ByHelper? || Direct? || UnlockSent?
    }

    /** The return code is set: exit listeners run. */
    predicate Acquired() {
      ByHelper? || Direct?
    }

    predicate Acquiring() {
      Waiting? || HelperHolds? || Signalled? || Acquired()
    }

    predicate Releasing() {
      DirectReleased? || UnlockSent? || HelperReleased?
    }
  }

  /** Where an agent is in async_lock() or async_unlock(). A `Leaked` agent has failed with the category locked. */
  datatype Stage =
    | Idle
    | CatForLock
    | BuildForLock
    | CatUnlock
    | Owner
    | BuildUnlock
    | CatForUnlock
    | CatUnlockAgain
    | Leaked

  /** `locked` is the attribute of that name; `errors` counts assertions and missing directories. */
  datatype Agent = Agent(stage: Stage, dir: Dir, cat: Handle, build: Handle, locked: bool, errors: nat)

  /** `owners` are the locks held in the file system, `dirs` the category directories that exist. */
  datatype State = State(agents: seq<Agent>, owners: map<Lock, nat>, dirs: set<nat>)

  datatype Action =
    | AsyncLock(a: nat, dir: Dir)
    | HelperGets(a: nat, cat: bool)
    | HelperWrites(a: nat, cat: bool)
    | ParentReads(a: nat, cat: bool)
    | HelperDies(a: nat)
    | CatdirLocked(a: nat, made: bool)
    | BuilddirLocked(a: nat)
    | HelperReleases(a: nat, cat: bool)
    | FutureDone(a: nat)
    | AsyncUnlock(a: nat)
    | CatdirLockedAgain(a: nat, empty: bool)

  function LockOf(k: Agent, cat: bool): Lock {
    if cat then CatLock(k.dir.cat) else BuildLock(k.dir)
  }

  function HandleOf(k: Agent, cat: bool): Handle {
    if cat then k.cat else k.build
  }

  function WithHandle(k: Agent, cat: bool, h: Handle): Agent {
    if cat then k.(cat := h) else k.(build := h)
  }

  function Put(s: State, a: nat, k: Agent): State
    requires a < |s.agents|
  {
    s.(agents := s.agents[a := k])
  }

  /** AsynchronousLock.start(): a non-blocking attempt, then a helper. */
  function StartLock(s: State, a: nat, cat: bool): State
    requires a < |s.agents|
  {
    var k := s.agents[a];
    if LockOf(k, cat) in s.owners then Put(s, a, WithHandle(k, cat, Waiting))
    else Put(s, a, WithHandle(k, cat, Direct)).(owners := s.owners[LockOf(k, cat) := a])
  }

  /** AsynchronousLock.async_unlock(): an assertion fails unless the lock was acquired. */
  function Unlock(s: State, a: nat, cat: bool): State
    requires a < |s.agents|
  {
    var k := s.agents[a];
    match HandleOf(k, cat)
    case Direct => Put(s, a, WithHandle(k, cat, DirectReleased)).(owners := s.owners - {LockOf(k, cat)})
    case ByHelper => Put(s, a, WithHandle(k, cat, UnlockSent))
    case _ => Put(s, a, k.(errors := k.errors + 1))
  }

  function Enabled(s: State, x: Action): bool {
    x.a < |s.agents| &&
    var k := s.agents[x.a];
    match x
    case AsyncLock(_, _) => k.stage == Idle
    case HelperGets(_, cat) => HandleOf(k, cat) == Waiting && LockOf(k, cat) !in s.owners
    case HelperWrites(_, cat) => HandleOf(k, cat) == HelperHolds
    case ParentReads(_, cat) => HandleOf(k, cat) == Signalled
    case HelperDies(_) => (k.stage == CatForLock || k.stage == CatForUnlock) && (k.cat == Waiting || k.cat == HelperHolds)
    case CatdirLocked(_, _) => k.stage == CatForLock && k.cat.Acquired()
    case BuilddirLocked(_) => k.stage == BuildForLock && k.build.Acquired()
    case HelperReleases(_, cat) => HandleOf(k, cat) == UnlockSent
    case FutureDone(_) =>
      var h := if k.stage == BuildUnlock then k.build else k.cat;
      h == DirectReleased || h == HelperReleased
    case AsyncUnlock(_) => k.stage == Owner
    case CatdirLockedAgain(_, _) => k.stage == CatForUnlock && k.cat.Acquired()
  }

  /** catdir_locked of async_lock(): make the directory, then start the build directory lock. */
  function LockBuild(s: State, a: nat, made: bool): State
    requires a < |s.agents|
  {
    var k := s.agents[a];
    if !made && k.dir.cat !in s.dirs then Put(s, a, k.(stage := Leaked))
    else
      var t := s.(dirs := if made then s.dirs + {k.dir.cat} else s.dirs);
      StartLock(Put(t, a, k.(stage := BuildForLock)), a, false)
  }

  /** catdir_locked of async_unlock(): remove the directory if nothing is in it. */
  function RemoveCat(s: State, a: nat, empty: bool): State
    requires a < |s.agents|
  {
    var k := s.agents[a];
    var occupied := !empty || exists l | l in s.owners.Keys :: l.BuildLock? && l.dir.cat == k.dir.cat;
    Unlock(Put(s, a, k.(stage := CatUnlockAgain)).(dirs := if occupied then s.dirs else s.dirs - {k.dir.cat}), a, true)
  }

  /** The callback of an unlock future. */
  function Resolved(s: State, a: nat): State
    requires a < |s.agents|
  {
    var k := s.agents[a];
    match k.stage
    case CatUnlock => Put(s, a, k.(stage := Owner, cat := NoHandle))
    case BuildUnlock => StartLock(Put(s, a, k.(stage := CatForUnlock, build := NoHandle, locked := false)), a, true)
    case _ => Put(s, a, k.(stage := Idle, cat := NoHandle))
  }

  /** A step that is not possible changes nothing. */
  function Step(s: State, x: Action): State {
    if !Enabled(s, x) then s
    else
      var k := s.agents[x.a];
      match x
      case AsyncLock(a, dir) => StartLock(Put(s, a, k.(stage := CatForLock, dir := dir)), a, true)
      case HelperGets(a, cat) =>
        // The lock file of a build directory is made in its category directory.
        if !cat && k.dir.cat !in s.dirs then Put(s, a, k.(errors := k.errors + 1))
        else Put(s, a, WithHandle(k, cat, HelperHolds)).(owners := s.owners[LockOf(k, cat) := a])
      case HelperWrites(a, cat) => Put(s, a, WithHandle(k, cat, Signalled))
      case ParentReads(a, cat) => Put(s, a, WithHandle(k, cat, ByHelper))
      case HelperDies(a) =>
        // The kernel releases the locks of a dead process.
        Put(s, a, k.(stage := Idle, cat := NoHandle)).(owners :=
          if k.cat == HelperHolds then s.owners - {LockOf(k, true)} else s.owners)
      case CatdirLocked(a, made) => LockBuild(s, a, made)
      case BuilddirLocked(a) => Unlock(Put(s, a, k.(stage := CatUnlock, locked := true)), a, true)
      case HelperReleases(a, cat) =>
        Put(s, a, WithHandle(k, cat, HelperReleased)).(owners := s.owners - {LockOf(k, cat)})
      case FutureDone(a) => Resolved(s, a)
      case AsyncUnlock(a) => Unlock(Put(s, a, k.(stage := BuildUnlock)), a, false)
      case CatdirLockedAgain(a, empty) => RemoveCat(s, a, empty)
  }

  /** `n` agents that hold nothing, and the category directories that happen to exist. */
  function Start(n: nat, dirs: set<nat>): State {
    State(seq(n, _ => Agent(Idle, Dir(0, 0), NoHandle, NoHandle, false, 0)), map[], dirs)
  }

  function Run(n: nat, dirs: set<nat>, actions: seq<Action>): State
    decreases |actions|
  {
    if actions == [] then Start(n, dirs)
    else Step(Run(n, dirs, actions[..|actions| - 1]), actions[|actions| - 1])
  }

  // ----- the invariant -----

  /** What an agent's two locks can be in each stage. */
  ghost predicate AgentOk(k: Agent) {
    && k.errors == 0
    && (k.locked <==> k.stage in {CatUnlock, Owner, BuildUnlock})
    && match k.stage
       case Idle => k.cat == NoHandle && k.build == NoHandle
       case CatForLock => k.cat.Acquiring() && k.build == NoHandle
       case BuildForLock => k.cat.Acquired() && k.build.Acquiring()
       case CatUnlock => k.cat.Releasing() && k.build.Acquired()
       case Owner => k.cat == NoHandle && k.build.Acquired()
       case BuildUnlock => k.cat == NoHandle && k.build.Releasing()
       case CatForUnlock => k.cat.Acquiring() && k.build == NoHandle
       case CatUnlockAgain => k.cat.Releasing() && k.build == NoHandle
       case Leaked => k.cat.Acquired() && k.build == NoHandle
  }

  /** Agent `a` holds exactly the locks that its handles say. */
  ghost predicate HoldsOk(owners: map<Lock, nat>, a: nat, k: Agent) {
    && (k.cat.Holds() ==> CatLock(k.dir.cat) in owners && owners[CatLock(k.dir.cat)] == a)
    && (k.build.Holds() ==> BuildLock(k.dir) in owners && owners[BuildLock(k.dir)] == a)
  }

  ghost predicate OwnerOk(agents: seq<Agent>, owners: map<Lock, nat>, l: Lock)
    requires l in owners
  {
    var a := owners[l];
    a < |agents| && l == LockOf(agents[a], l.CatLock?) && HandleOf(agents[a], l.CatLock?).Holds()
  }

  ghost predicate DirsOk(s: State) {
    && (forall l :: l in s.owners && l.BuildLock? ==> l.dir.cat in s.dirs)
    && (forall a: nat :: a < |s.agents| && s.agents[a].stage == BuildForLock ==> s.agents[a].dir.cat in s.dirs)
  }

  ghost predicate AgentsOk(s: State) {
    forall a: nat :: a < |s.agents| ==> AgentOk(s.agents[a])
  }

  ghost predicate LocksOk(s: State) {
    && (forall a: nat :: a < |s.agents| ==> HoldsOk(s.owners, a, s.agents[a]))
    && (forall l :: l in s.owners ==> OwnerOk(s.agents, s.owners, l))
  }

  ghost predicate Inv(s: State) {
    AgentsOk(s) && LocksOk(s) && DirsOk(s)
  }

  lemma AsyncLockAgents(s: State, x: Action)
    requires Inv(s) && Enabled(s, x) && x.AsyncLock?
    ensures AgentsOk(Step(s, x))
  {
    hide LocksOk, DirsOk;
  }

  lemma AsyncLockLocks(s: State, x: Action)
    requires Inv(s) && Enabled(s, x) && x.AsyncLock?
    ensures LocksOk(Step(s, x))
  {
    hide DirsOk;
  }

  lemma AsyncLockDirs(s: State, x: Action)
    requires Inv(s) && Enabled(s, x) && x.AsyncLock?
    ensures DirsOk(Step(s, x))
  {
  }

  lemma AsyncLockKeepsInv(s: State, x: Action)
    requires Inv(s) && Enabled(s, x) && x.AsyncLock?
    ensures Inv(Step(s, x))
  {
    AsyncLockAgents(s, x);
    AsyncLockLocks(s, x);
    AsyncLockDirs(s, x);
    hide AgentsOk, LocksOk, DirsOk, Step, Enabled;
  }

  lemma HelperGetsKeepsInv(s: State, x: Action)
    requires Inv(s) && Enabled(s, x) && x.HelperGets?
    ensures Inv(Step(s, x))
  {
  }

  lemma HelperWritesKeepsInv(s: State, x: Action)
    requires Inv(s) && Enabled(s, x) && x.HelperWrites?
    ensures Inv(Step(s, x))
  {
  }

  lemma ParentReadsKeepsInv(s: State, x: Action)
    requires Inv(s) && Enabled(s, x) && x.ParentReads?
    ensures Inv(Step(s, x))
  {
  }

  lemma HelperDiesKeepsInv(s: State, x: Action)
    requires Inv(s) && Enabled(s, x) && x.HelperDies?
    ensures Inv(Step(s, x))
  {
  }

  lemma CatdirLockedAgents(s: State, x: Action)
    requires Inv(s) && Enabled(s, x) && x.CatdirLocked?
    ensures AgentsOk(Step(s, x))
  {
    hide LocksOk, DirsOk;
  }

  lemma CatdirLockedLocks(s: State, x: Action)
    requires Inv(s) && Enabled(s, x) && x.CatdirLocked?
    ensures LocksOk(Step(s, x))
  {
    hide DirsOk;
  }

  lemma CatdirLockedDirs(s: State, x: Action)
    requires Inv(s) && Enabled(s, x) && x.CatdirLocked?
    ensures DirsOk(Step(s, x))
  {
  }

  lemma CatdirLockedKeepsInv(s: State, x: Action)
    requires Inv(s) && Enabled(s, x) && x.CatdirLocked?
    ensures Inv(Step(s, x))
  {
    CatdirLockedAgents(s, x);
    CatdirLockedLocks(s, x);
    CatdirLockedDirs(s, x);
    hide AgentsOk, LocksOk, DirsOk, Step, Enabled;
  }

  lemma BuilddirLockedAgents(s: State, x: Action)
    requires Inv(s) && Enabled(s, x) && x.BuilddirLocked?
    ensures AgentsOk(Step(s, x))
  {
    hide LocksOk, DirsOk;
  }

  lemma BuilddirLockedLocks(s: State, x: Action)
    requires Inv(s) && Enabled(s, x) && x.BuilddirLocked?
    ensures LocksOk(Step(s, x))
  {
    hide DirsOk;
  }

  lemma BuilddirLockedDirs(s: State, x: Action)
    requires Inv(s) && Enabled(s, x) && x.BuilddirLocked?
    ensures DirsOk(Step(s, x))
  {
  }

  lemma BuilddirLockedKeepsInv(s: State, x: Action)
    requires Inv(s) && Enabled(s, x) && x.BuilddirLocked?
    ensures Inv(Step(s, x))
  {
    BuilddirLockedAgents(s, x);
    BuilddirLockedLocks(s, x);
    BuilddirLockedDirs(s, x);
    hide AgentsOk, LocksOk, DirsOk, Step, Enabled;
  }

  lemma HelperReleasesKeepsInv(s: State, x: Action)
    requires Inv(s) && Enabled(s, x) && x.HelperReleases?
    ensures Inv(Step(s, x))
  {
  }

  lemma FutureDoneAgents(s: State, x: Action)
    requires Inv(s) && Enabled(s, x) && x.FutureDone?
    ensures AgentsOk(Step(s, x))
  {
    hide LocksOk, DirsOk;
  }

  lemma FutureDoneLocks(s: State, x: Action)
    requires Inv(s) && Enabled(s, x) && x.FutureDone?
    ensures LocksOk(Step(s, x))
  {
    hide DirsOk;
  }

  lemma FutureDoneDirs(s: State, x: Action)
    requires Inv(s) && Enabled(s, x) && x.FutureDone?
    ensures DirsOk(Step(s, x))
  {
  }

  lemma FutureDoneKeepsInv(s: State, x: Action)
    requires Inv(s) && Enabled(s, x) && x.FutureDone?
    ensures Inv(Step(s, x))
  {
    FutureDoneAgents(s, x);
    FutureDoneLocks(s, x);
    FutureDoneDirs(s, x);
    hide AgentsOk, LocksOk, DirsOk, Step, Enabled;
  }

  lemma AsyncUnlockAgents(s: State, x: Action)
    requires Inv(s) && Enabled(s, x) && x.AsyncUnlock?
    ensures AgentsOk(Step(s, x))
  {
    hide LocksOk, DirsOk;
  }

  lemma AsyncUnlockLocks(s: State, x: Action)
    requires Inv(s) && Enabled(s, x) && x.AsyncUnlock?
    ensures LocksOk(Step(s, x))
  {
    hide DirsOk;
  }

  lemma AsyncUnlockDirs(s: State, x: Action)
    requires Inv(s) && Enabled(s, x) && x.AsyncUnlock?
    ensures DirsOk(Step(s, x))
  {
  }

  lemma AsyncUnlockKeepsInv(s: State, x: Action)
    requires Inv(s) && Enabled(s, x) && x.AsyncUnlock?
    ensures Inv(Step(s, x))
  {
    AsyncUnlockAgents(s, x);
    AsyncUnlockLocks(s, x);
    AsyncUnlockDirs(s, x);
    hide AgentsOk, LocksOk, DirsOk, Step, Enabled;
  }

  lemma CatdirLockedAgainAgents(s: State, x: Action)
    requires Inv(s) && Enabled(s, x) && x.CatdirLockedAgain?
    ensures AgentsOk(Step(s, x))
  {
    hide LocksOk, DirsOk;
  }

  lemma CatdirLockedAgainLocks(s: State, x: Action)
    requires Inv(s) && Enabled(s, x) && x.CatdirLockedAgain?
    ensures LocksOk(Step(s, x))
  {
    hide DirsOk;
  }

  lemma CatdirLockedAgainDirs(s: State, x: Action)
    requires Inv(s) && Enabled(s, x) && x.CatdirLockedAgain?
    ensures DirsOk(Step(s, x))
  {
  }

  lemma CatdirLockedAgainKeepsInv(s: State, x: Action)
    requires Inv(s) && Enabled(s, x) && x.CatdirLockedAgain?
    ensures Inv(Step(s, x))
  {
    CatdirLockedAgainAgents(s, x);
    CatdirLockedAgainLocks(s, x);
    CatdirLockedAgainDirs(s, x);
    hide AgentsOk, LocksOk, DirsOk, Step, Enabled;
  }

  lemma StepKeepsInv(s: State, x: Action)
    requires Inv(s)
    ensures Inv(Step(s, x))
  {
    if Enabled(s, x) {
      hide Inv, Enabled;
      match x
      case AsyncLock(_, _) => AsyncLockKeepsInv(s, x);
      case HelperGets(_, _) => HelperGetsKeepsInv(s, x);
      case HelperWrites(_, _) => HelperWritesKeepsInv(s, x);
      case ParentReads(_, _) => ParentReadsKeepsInv(s, x);
      case HelperDies(_) => HelperDiesKeepsInv(s, x);
      case CatdirLocked(_, _) => CatdirLockedKeepsInv(s, x);
      case BuilddirLocked(_) => BuilddirLockedKeepsInv(s, x);
      case HelperReleases(_, _) => HelperReleasesKeepsInv(s, x);
      case FutureDone(_) => FutureDoneKeepsInv(s, x);
      case AsyncUnlock(_) => AsyncUnlockKeepsInv(s, x);
      case CatdirLockedAgain(_, _) => CatdirLockedAgainKeepsInv(s, x);
    }
  }

  lemma StartInv(n: nat, dirs: set<nat>)
    ensures Inv(Start(n, dirs))
  {
  }

  lemma StepKeepsAgents(s: State, x: Action)
    ensures |Step(s, x).agents| == |s.agents|
  {
  }

  lemma {:induction false} RunInv(n: nat, dirs: set<nat>, actions: seq<Action>)
    ensures Inv(Run(n, dirs, actions)) && |Run(n, dirs, actions).agents| == n
  {
    if actions == [] {
      StartInv(n, dirs);
    } else {
      hide Inv, Step;
      var before := Run(n, dirs, actions[..|actions| - 1]);
      RunInv(n, dirs, actions[..|actions| - 1]);
      StepKeepsInv(before, actions[|actions| - 1]);
      StepKeepsAgents(before, actions[|actions| - 1]);
    }
  }

  // ----- what every run keeps -----

  /**
   * No two processes hold the lock of one build directory, and an agent whose async_lock() is done
   * really holds it until it calls async_unlock().
   */
  lemma MutualExclusion(n: nat, dirs: set<nat>, actions: seq<Action>, a: nat, b: nat)
    requires a < n && b < n
    ensures
      var s := Run(n, dirs, actions);
      && |s.agents| == n
      && (s.agents[a].stage == Owner ==> s.agents[a].locked && s.agents[a].build.Holds())
      && (s.agents[a].dir == s.agents[b].dir && s.agents[a].build.Holds() && s.agents[b].build.Holds() ==> a == b)
      && (s.agents[a].dir.cat == s.agents[b].dir.cat && s.agents[a].cat.Holds() && s.agents[b].cat.Holds() ==> a == b)
  {
    RunInv(n, dirs, actions);
  }

  /** The category directory exists while a build directory lock under it is held, and no assertion fails. */
  lemma CategoryStays(n: nat, dirs: set<nat>, actions: seq<Action>, a: nat)
    requires a < n
    ensures
      var s := Run(n, dirs, actions);
      && |s.agents| == n
      && s.agents[a].errors == 0
      && (s.agents[a].build.Holds() || s.agents[a].stage == BuildForLock ==> s.agents[a].dir.cat in s.dirs)
  {
    RunInv(n, dirs, actions);
    var s := Run(n, dirs, actions);
    assert s.agents[a].build.Holds() ==> BuildLock(s.agents[a].dir) in s.owners;
  }

  /** An unlock future can only be done when its agent no longer holds that lock. */
  lemma FutureAfterRelease(n: nat, dirs: set<nat>, actions: seq<Action>, a: nat)
    requires a < n && Enabled(Run(n, dirs, actions), FutureDone(a))
    ensures
      var s := Run(n, dirs, actions);
      && |s.agents| == n
      && var k := s.agents[a];
      && k.stage in {CatUnlock, BuildUnlock, CatUnlockAgain}
      && var l := LockOf(k, k.stage != BuildUnlock);
      l in s.owners ==> s.owners[l] != a
  {
    RunInv(n, dirs, actions);
    var s := Run(n, dirs, actions);
    var l := LockOf(s.agents[a], s.agents[a].stage != BuildUnlock);
    assert AgentOk(s.agents[a]);
    assert l in s.owners ==> OwnerOk(s.agents, s.owners, l);
  }

  /** Agent `a` waits for a lock that agent `b` holds. */
  ghost predicate Waits(s: State, a: nat, b: nat) {
    a < |s.agents| && b < |s.agents| &&
    exists cat :: HandleOf(s.agents[a], cat) == Waiting
      && LockOf(s.agents[a], cat) in s.owners && s.owners[LockOf(s.agents[a], cat)] == b
  }

  ghost function Rank(k: Agent): nat {
    if k.cat == Waiting then 0 else if k.build == Waiting then 1 else 2
  }

  lemma WaitsForHigher(s: State, a: nat, b: nat)
    requires Inv(s) && Waits(s, a, b)
    ensures Rank(s.agents[a]) < Rank(s.agents[b])
  {
    var cat :| HandleOf(s.agents[a], cat) == Waiting
      && LockOf(s.agents[a], cat) in s.owners && s.owners[LockOf(s.agents[a], cat)] == b;
    assert OwnerOk(s.agents, s.owners, LockOf(s.agents[a], cat));
    assert AgentOk(s.agents[a]) && AgentOk(s.agents[b]);
  }

  ghost predicate WaitPath(s: State, path: seq<nat>) {
    forall i :: 0 <= i < |path| - 1 ==> Waits(s, path[i], path[i + 1])
  }

  lemma {:induction false} RankGrows(s: State, path: seq<nat>)
    requires Inv(s) && WaitPath(s, path) && |path| >= 2
    ensures path[0] < |s.agents| && path[|path| - 1] < |s.agents|
    ensures Rank(s.agents[path[0]]) < Rank(s.agents[path[|path| - 1]])
  {
    assert Waits(s, path[0], path[1]);
    WaitsForHigher(s, path[0], path[1]);
    if |path| > 2 {
      forall i | 0 <= i < |path[1..]| - 1
        ensures Waits(s, path[1..][i], path[1..][i + 1])
      {
        assert Waits(s, path[i + 1], path[i + 1 + 1]);
      }
      RankGrows(s, path[1..]);
    }
  }

  /** There is never a cycle of agents that wait for each other. */
  lemma NoWaitCycle(n: nat, dirs: set<nat>, actions: seq<Action>, path: seq<nat>)
    requires WaitPath(Run(n, dirs, actions), path) && |path| >= 2
    ensures path[0] != path[|path| - 1]
  {
    RunInv(n, dirs, actions);
    RankGrows(Run(n, dirs, actions), path);
  }

  /** What an agent does next, as far as it depends on itself and its helpers. */
  ghost function Next(k: Agent, a: nat): Action {
    var cat := k.stage != BuildForLock && k.stage != BuildUnlock;
    match HandleOf(k, cat)
    case Waiting => HelperGets(a, cat)
    case HelperHolds => HelperWrites(a, cat)
    case Signalled => ParentReads(a, cat)
    case UnlockSent => HelperReleases(a, cat)
    case DirectReleased => FutureDone(a)
    case HelperReleased => FutureDone(a)
    case _ =>
      if k.stage == CatForLock then CatdirLocked(a, true)
      else if k.stage == BuildForLock then BuilddirLocked(a)
      else CatdirLockedAgain(a, true)
  }

  lemma MovesOrWaits(s: State, a: nat)
    requires Inv(s) && a < |s.agents| && s.agents[a].stage !in {Idle, Owner, Leaked}
    ensures Enabled(s, Next(s.agents[a], a)) || exists b :: Waits(s, a, b)
  {
    var k := s.agents[a];
    assert AgentOk(k);
    var cat := k.stage != BuildForLock && k.stage != BuildUnlock;
    if HandleOf(k, cat) == Waiting && LockOf(k, cat) in s.owners {
      assert OwnerOk(s.agents, s.owners, LockOf(k, cat));
      assert Waits(s, a, s.owners[LockOf(k, cat)]);
    }
  }

  /**
   * An agent under way is never stuck: it can move, or waits, perhaps behind others, for one that can
   * move, that has a finished lock which its caller must release, or that failed with the category locked.
   */
  lemma {:induction false} NeverStuck(s: State, a: nat) returns (path: seq<nat>)
    requires Inv(s) && a < |s.agents| && s.agents[a].stage != Idle
    ensures path != [] && path[0] == a && WaitPath(s, path)
    ensures
      var b := path[|path| - 1];
      b < |s.agents| && (s.agents[b].stage in {Owner, Leaked} || Enabled(s, Next(s.agents[b], b)))
    decreases 2 - Rank(s.agents[a])
  {
    var k := s.agents[a];
    if k.stage in {Owner, Leaked} || Enabled(s, Next(k, a)) {
      path := [a];
    } else {
      MovesOrWaits(s, a);
      var b: nat :| Waits(s, a, b);
      WaitsForHigher(s, a, b);
      HoldersAreBusy(s, a, b);
      var rest := NeverStuck(s, b);
      path := [a] + rest;
    }
  }

  lemma HoldersAreBusy(s: State, a: nat, b: nat)
    requires Inv(s) && Waits(s, a, b)
    ensures s.agents[b].stage != Idle
  {
    var cat :| HandleOf(s.agents[a], cat) == Waiting
      && LockOf(s.agents[a], cat) in s.owners && s.owners[LockOf(s.agents[a], cat)] == b;
    assert OwnerOk(s.agents, s.owners, LockOf(s.agents[a], cat));
    assert AgentOk(s.agents[b]);
  }

  lemma LeakedUnchanged(s: State, x: Action, a: nat)
    requires a < |s.agents| && AgentOk(s.agents[a]) && s.agents[a].stage == Leaked
    ensures a < |Step(s, x).agents| && Step(s, x).agents[a] == s.agents[a]
  {
  }

  /** When the category directory cannot be made, its lock is never released. */
  lemma LeakedForever(s: State, x: Action, a: nat)
    requires Inv(s) && a < |s.agents| && s.agents[a].stage == Leaked
    ensures
      var t := Step(s, x);
      && a < |t.agents| == |s.agents| && t.agents[a] == s.agents[a]
      && CatLock(s.agents[a].dir.cat) in t.owners && t.owners[CatLock(s.agents[a].dir.cat)] == a
  {
    StepKeepsInv(s, x);
    StepKeepsAgents(s, x);
    LeakedUnchanged(s, x, a);
    hide Step;
    assert AgentOk(s.agents[a]) && HoldsOk(Step(s, x).owners, a, s.agents[a]);
  }

  /** Agent `a` has the category lock, but making the category directory fails and it does not exist. */
  predicate MkdirFails(s: State, x: Action, a: nat) {
    x == CatdirLocked(a, false) && Enabled(s, x) && s.agents[a].dir.cat !in s.dirs
  }

  /** Only that takes an agent into the leaked stage. */
  lemma OnlyMkdirLeaks(s: State, x: Action, a: nat)
    requires a < |s.agents| && s.agents[a].stage != Leaked
    ensures |Step(s, x).agents| == |s.agents|
    ensures Step(s, x).agents[a].stage == Leaked <==> MkdirFails(s, x, a)
  {
    StepKeepsAgents(s, x);
  }

  /** Making the directory has failed for agent `a` at some step of the run. */
  ghost predicate MkdirFailed(n: nat, dirs: set<nat>, actions: seq<Action>, a: nat) {
    exists k: nat :: k < |actions| && MkdirFails(Run(n, dirs, actions[..k]), actions[k], a)
  }

  lemma MkdirFailedSoFar(n: nat, dirs: set<nat>, before: seq<Action>, x: Action, a: nat)
    ensures MkdirFailed(n, dirs, before + [x], a)
      <==> MkdirFailed(n, dirs, before, a) || MkdirFails(Run(n, dirs, before), x, a)
  {
    hide MkdirFails, Run;
    var actions, m := before + [x], |before|;
    assert actions[..m] == before && actions[m] == x;
    assert forall k: nat :: k < m ==> actions[..k] == before[..k] && actions[k] == before[k];
    if k: nat :| k < m && MkdirFails(Run(n, dirs, before[..k]), before[k], a) {
      assert MkdirFails(Run(n, dirs, actions[..k]), actions[k], a);
    }
    if MkdirFails(Run(n, dirs, before), x, a) {
      assert MkdirFails(Run(n, dirs, actions[..m]), actions[m], a);
    }
  }

  /**
   * In every run an agent has leaked exactly when making its category directory has failed at some step,
   * and then it holds the category lock.
   */
  lemma {:induction false} LeakedExactly(n: nat, dirs: set<nat>, actions: seq<Action>, a: nat)
    requires a < n
    ensures |Run(n, dirs, actions).agents| == n
    ensures Run(n, dirs, actions).agents[a].stage == Leaked <==> MkdirFailed(n, dirs, actions, a)
    decreases |actions|
  {
    RunInv(n, dirs, actions);
    if actions != [] {
      var m := |actions| - 1;
      var before, x := actions[..m], actions[m];
      var s := Run(n, dirs, before);
      assert Run(n, dirs, actions) == Step(s, x);
      LeakedExactly(n, dirs, before, a);
      RunInv(n, dirs, before);
      MkdirFailedSoFar(n, dirs, before, x, a);
      assert before + [x] == actions;
      if s.agents[a].stage == Leaked {
        LeakedForever(s, x, a);
      } else {
        OnlyMkdirLeaks(s, x, a);
      }
    }
  }

  /** A leaked agent holds its category lock. */
  lemma LeakedHolds(n: nat, dirs: set<nat>, actions: seq<Action>, a: nat)
    requires a < n && MkdirFailed(n, dirs, actions, a)
    ensures
      var s := Run(n, dirs, actions);
      |s.agents| == n && CatLock(s.agents[a].dir.cat) in s.owners && s.owners[CatLock(s.agents[a].dir.cat)] == a
  {
    LeakedExactly(n, dirs, actions, a);
    RunInv(n, dirs, actions);
    var s := Run(n, dirs, actions);
    assert AgentOk(s.agents[a]) && HoldsOk(s.owners, a, s.agents[a]);
  }

  /** Two steps of one agent lead there when the directory does not exist. */
  lemma LeakReachable(dir: Dir)
    ensures MkdirFailed(1, {}, [AsyncLock(0, dir), CatdirLocked(0, false)], 0)
  {
    var start, first, second := Start(1, {}), AsyncLock(0, dir), CatdirLocked(0, false);
    assert [first, second][..1] == [first] && [first][..0] == [];
    assert Run(1, {}, []) == start;
    assert Run(1, {}, [first]) == Step(start, first);
    assert MkdirFails(Run(1, {}, [first, second][..1]), [first, second][1], 0);
  }
}
