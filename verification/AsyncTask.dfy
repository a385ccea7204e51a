/**
 * The exit listeners of an AsynchronousTask and the callbacks that it puts on a FIFO event loop.
 * `Task` is the abstract value of the class below; the functions are what one call does.
 */
module AsyncTasks {
  import opened Sequences
  import opened Wrappers

  type Listener = nat

  /** A call_soon(_exit_listener_cb, listener); `id` identifies its handle. */
  datatype Callback = Callback(id: nat, listener: Listener)

  /**
   * `listeners` is None when there is no list. `handles` gives the handle of each listener that is
   * scheduled, `loop` the callbacks on the event loop in order, `called` the calls made so far.
   */
  datatype Task = Task(
    returncode: Option<int>,
    listeners: Option<seq<Listener>>,
    handles: map<Listener, nat>,
    loop: seq<Callback>,
    cancelled: set<nat>,
    nextId: nat,
    called: seq<Listener>)
  {
    function Waiting(): seq<Listener> {
      if listeners.Some? then listeners.value else []
    }

    /** Everything that is registered and still to be called. */
    ghost function Pending(): seq<Listener> {
      Live(loop, cancelled) + Waiting()
    }
  }

  const Fresh := Task(None, None, map[], [], {}, 0, [])

  /** The listeners whose callbacks are on the loop and not cancelled. */
  function Live(loop: seq<Callback>, cancelled: set<nat>): seq<Listener> {
    if loop == [] then []
    else (if loop[0].id in cancelled then [] else [loop[0].listener]) + Live(loop[1..], cancelled)
  }

  /** The loop of _wait_hook: schedule each listener that has no handle. */
  function ScheduleAll(t: Task, todo: seq<Listener>): Task
    decreases |todo|
  {
    if todo == [] then t
    else if todo[0] in t.handles then ScheduleAll(t, todo[1..])
    else ScheduleAll(ScheduleOne(t, todo[0]), todo[1..])
  }

  function ScheduleOne(t: Task, f: Listener): Task {
    t.(handles := t.handles[f := t.nextId], loop := t.loop + [Callback(t.nextId, f)], nextId := t.nextId + 1)
  }

  function WaitHook(t: Task): Task {
    if t.returncode.Some? && t.listeners.Some? then ScheduleAll(t.(listeners := None), t.listeners.value) else t
  }

  function AddExitListener(t: Task, f: Listener): Task {
    var u := t.(listeners := Some(t.Waiting() + [f]));
    if t.returncode.Some? then WaitHook(u) else u
  }

  function RemoveExitListener(t: Task, f: Listener): Task {
    var u := if t.listeners.Some? then t.(listeners := Some(RemoveFirst(t.listeners.value, f))) else t;
    if f in t.handles then u.(handles := t.handles - {f}, cancelled := t.cancelled + {t.handles[f]}) else u
  }

  /** The event loop runs its next callback, unless its handle was cancelled. */
  function RunNext(t: Task): Task {
    if t.loop == [] then t
    else if t.loop[0].id in t.cancelled then t.(loop := t.loop[1..])
    else
      var f := t.loop[0].listener;
      t.(loop := t.loop[1..], handles := t.handles - {f}, called := t.called + [f])
  }

  // ----- runs -----

  /** What other code may do: the listeners themselves act between two RunNext steps. */
  datatype Action =
    | Add(f: Listener)
    | Remove(f: Listener)
    | SetReturncode(code: int)
    | Hook
    | Dispatch

  function Act(t: Task, a: Action): Task {
    match a
    case Add(f) => AddExitListener(t, f)
    case Remove(f) => RemoveExitListener(t, f)
    case SetReturncode(code) => t.(returncode := Some(code))
    case Hook => WaitHook(t)
    case Dispatch => RunNext(t)
  }

  /**
   * A task with its past: all registrations in order, those of a listener that was not pending, and
   * the removals that left their listener no longer pending.
   */
  datatype System = System(task: Task, registered: seq<Listener>, begun: multiset<Listener>, dropped: multiset<Listener>)

  ghost function Step(s: System, a: Action): System {
    var next := Act(s.task, a);
    match a
    case Add(f) =>
      System(next, s.registered + [f], if f in s.task.Pending() then s.begun else s.begun + multiset{f}, s.dropped)
    case Remove(f) =>
      var gone := f in s.task.Pending() && f !in next.Pending();
      s.(task := next, dropped := if gone then s.dropped + multiset{f} else s.dropped)
    case _ => s.(task := next)
  }

  ghost function Run(actions: seq<Action>): System
    decreases |actions|
  {
    if actions == [] then System(Fresh, [], multiset{}, multiset{})
    else Step(Run(actions[..|actions| - 1]), actions[|actions| - 1])
  }

  /** The callback `c` is live: it was not cancelled, and it is the one its listener's handle names. */
  predicate Owned(handles: map<Listener, nat>, cancelled: set<nat>, c: Callback) {
    c.id !in cancelled ==> c.listener in handles && handles[c.listener] == c.id
  }

  /** Handles and live callbacks correspond one to one; the waiting list is empty once calls are due. */
  ghost predicate Inv(t: Task) {
    && (forall i, j :: 0 <= i < j < |t.loop| ==> t.loop[i].id < t.loop[j].id)
    && (forall i :: 0 <= i < |t.loop| ==> t.loop[i].id < t.nextId && Owned(t.handles, t.cancelled, t.loop[i]))
    && (forall c :: c in t.cancelled ==> c < t.nextId)
    && (forall f :: f in t.handles ==> Callback(t.handles[f], f) in t.loop && t.handles[f] !in t.cancelled)
    && (t.loop != [] || t.called != [] ==> t.listeners == None && t.returncode.Some?)
  }

  lemma {:induction false} LiveMember(loop: seq<Callback>, cancelled: set<nat>, f: Listener)
    ensures f in Live(loop, cancelled) <==> exists c :: c in loop && c.listener == f && c.id !in cancelled
  {
    if loop != [] {
      LiveMember(loop[1..], cancelled, f);
      assert loop == [loop[0]] + loop[1..];
    }
  }

  lemma {:induction false} LiveAppend(loop: seq<Callback>, more: seq<Callback>, cancelled: set<nat>)
    ensures Live(loop + more, cancelled) == Live(loop, cancelled) + Live(more, cancelled)
  {
    if loop == [] {
      assert loop + more == more;
    } else {
      assert (loop + more)[1..] == loop[1..] + more;
      LiveAppend(loop[1..], more, cancelled);
    }
  }

  /** The live callbacks belong to the listeners with a handle. */
  lemma LiveIsHandled(t: Task, f: Listener)
    requires Inv(t)
    ensures f in Live(t.loop, t.cancelled) <==> f in t.handles
  {
    LiveMember(t.loop, t.cancelled, f);
    if f in t.handles {
      assert Callback(t.handles[f], f) in t.loop;
    }
    if c :| c in t.loop && c.listener == f && c.id !in t.cancelled {
      var i :| 0 <= i < |t.loop| && t.loop[i] == c;
      assert Owned(t.handles, t.cancelled, t.loop[i]);
    }
  }

  lemma ScheduleOneKeepsInv(t: Task, f: Listener)
    requires Inv(t) && t.returncode.Some? && t.listeners == None && f !in t.handles
    ensures Inv(ScheduleOne(t, f))
    ensures Live(ScheduleOne(t, f).loop, t.cancelled) == Live(t.loop, t.cancelled) + [f]
  {
    var last := [Callback(t.nextId, f)];
    LiveAppend(t.loop, last, t.cancelled);
    assert Live(last, t.cancelled) == [f];
    hide Live;
    var u := ScheduleOne(t, f);
    forall i | 0 <= i < |u.loop|
      ensures u.loop[i].id < u.nextId && Owned(u.handles, u.cancelled, u.loop[i])
    {
      if i < |t.loop| {
        assert u.loop[i] == t.loop[i] && Owned(t.handles, t.cancelled, t.loop[i]);
      }
    }
    forall g | g in u.handles
      ensures Callback(u.handles[g], g) in u.loop && u.handles[g] !in u.cancelled
    {
      if g != f {
        assert Callback(t.handles[g], g) in t.loop;
      }
    }
  }

  /** Scheduling keeps the invariant and turns exactly the waiting listeners into live ones. */
  lemma {:induction false} ScheduleAllKeepsInv(t: Task, todo: seq<Listener>)
    requires Inv(t) && t.returncode.Some? && t.listeners == None
    ensures Inv(ScheduleAll(t, todo))
    ensures
      var u := ScheduleAll(t, todo);
      && u.called == t.called && u.returncode == t.returncode && u.listeners == None && u.cancelled == t.cancelled
      && (forall f :: f in u.handles <==> f in t.handles || f in todo)
      && (Distinct(todo) && (forall f :: f in todo ==> f !in t.handles) ==>
            Live(u.loop, u.cancelled) == Live(t.loop, t.cancelled) + todo)
    decreases |todo|
  {
    hide Inv, Live;
    if todo != [] {
      assert todo == [todo[0]] + todo[1..];
      if todo[0] in t.handles {
        ScheduleAllKeepsInv(t, todo[1..]);
      } else {
        ScheduleOneKeepsInv(t, todo[0]);
        ScheduleAllKeepsInv(ScheduleOne(t, todo[0]), todo[1..]);
        assert Distinct(todo) ==> todo[0] !in todo[1..] && Distinct(todo[1..]);
      }
    } else {
      assert Live(t.loop, t.cancelled) + todo == Live(t.loop, t.cancelled);
    }
  }

  /** The hook makes no pending listener appear or disappear, and keeps the order of different ones. */
  lemma HookKeeps(t: Task)
    requires Inv(t)
    ensures Inv(WaitHook(t))
    ensures WaitHook(t).called == t.called && WaitHook(t).returncode == t.returncode
    ensures t.returncode.Some? ==> WaitHook(t).listeners == None
    ensures forall f :: f in WaitHook(t).Pending() <==> f in t.Pending()
    ensures Distinct(t.Pending()) ==> WaitHook(t).Pending() == t.Pending()
  {
    if t.returncode.Some? && t.listeners.Some? {
      var v := t.(listeners := None);
      ScheduleAllKeepsInv(v, t.listeners.value);
      assert t.loop == [];
      assert forall f :: f !in t.handles;
      forall f
        ensures f in WaitHook(t).Pending() <==> f in t.Pending()
      {
        LiveIsHandled(WaitHook(t), f);
      }
      assert t.Pending() == t.listeners.value;
    }
  }

  lemma AddKeeps(t: Task, f: Listener)
    requires Inv(t)
    ensures Inv(AddExitListener(t, f))
    ensures AddExitListener(t, f).called == t.called
    ensures forall g :: g in AddExitListener(t, f).Pending() <==> g in t.Pending() || g == f
    ensures Distinct(t.Pending()) && f !in t.Pending() ==> AddExitListener(t, f).Pending() == t.Pending() + [f]
  {
    var u := t.(listeners := Some(t.Waiting() + [f]));
    assert u.Pending() == t.Pending() + [f];
    if t.loop == [] && t.called == [] {
      HookKeeps(u);
    } else {
      assert u.(listeners := None) == t && t.Waiting() + [f] == [f];
      ScheduleAllKeepsInv(t, [f]);
      LiveIsHandled(t, f);
      forall g
        ensures g in ScheduleAll(t, [f]).Pending() <==> g in t.Pending() || g == f
      {
        LiveIsHandled(t, g);
        LiveIsHandled(ScheduleAll(t, [f]), g);
      }
    }
  }

  function Except(s: seq<Listener>, f: Listener): seq<Listener> {
    Filter(g => g != f, s)
  }

  /** Cancelling the one live callback of `f` takes `f` out of the live listeners. */
  lemma {:induction false} LiveCancelled(loop: seq<Callback>, cancelled: set<nat>, id: nat, f: Listener)
    requires forall i :: 0 <= i < |loop| && loop[i].id !in cancelled ==> (loop[i].id == id <==> loop[i].listener == f)
    ensures Live(loop, cancelled + {id}) == Except(Live(loop, cancelled), f)
  {
    if loop != [] {
      LiveCancelled(loop[1..], cancelled, id, f);
      FilterAppend(g => g != f, if loop[0].id in cancelled then [] else [loop[0].listener], Live(loop[1..], cancelled));
    }
  }

  lemma ExceptAround(before: seq<Listener>, f: Listener, after: seq<Listener>)
    requires f !in before && f !in after
    ensures Except(before + [f] + after, f) == before + after
  {
    assert before + [f] + after == before + ([f] + after);
    var keep := g => g != f;
    assert Filter(keep, [f]) == [];
    FilterAll(keep, before);
    FilterAll(keep, after);
    hide Filter;
    FilterAppend(keep, before, [f] + after);
    FilterAppend(keep, [f], after);
    assert [] + after == after;
  }

  lemma RemoveFirstExcept(s: seq<Listener>, f: Listener)
    requires Distinct(s)
    ensures RemoveFirst(s, f) == Except(s, f)
  {
    var i := IndexOf(s, f);
    if i == |s| {
      FilterAll(g => g != f, s);
    } else {
      assert f !in s[i + 1..];
      assert s == s[..i] + [f] + s[i + 1..];
      hide Distinct;
      ExceptAround(s[..i], f, s[i + 1..]);
    }
  }

  lemma DistinctParts(s: seq<Listener>, t: seq<Listener>)
    requires Distinct(s + t)
    ensures Distinct(t)
    ensures forall f :: f in t ==> f !in s
  {
    assert forall i :: 0 <= i < |s| ==> s[i] == (s + t)[i];
    forall i, j | 0 <= i < |s| && 0 <= j < |t|
      ensures s[i] != t[j]
    {
      assert t[j] == (s + t)[|s| + j];
    }
    assert forall i :: 0 <= i < |t| ==> t[i] == (s + t)[|s| + i];
  }

  /** Before any call is due, removal takes the first registration off the list. */
  lemma RemoveWaiting(t: Task, f: Listener)
    requires Inv(t) && t.loop == []
    ensures Inv(RemoveExitListener(t, f))
    ensures RemoveExitListener(t, f).Pending() == RemoveFirst(t.Pending(), f)
  {
    hide RemoveFirst;
    assert forall g :: g !in t.handles;
    assert forall s: seq<Listener> :: [] + s == s;
  }

  /** Later, removal cancels the callback. */
  lemma RemoveScheduled(t: Task, f: Listener)
    requires Inv(t) && t.loop != []
    ensures Inv(RemoveExitListener(t, f))
    ensures RemoveExitListener(t, f).Pending() == Except(t.Pending(), f)
  {
    var u := RemoveExitListener(t, f);
    assert t.Pending() == Live(t.loop, t.cancelled) && u.Pending() == Live(t.loop, u.cancelled);
    if f in t.handles {
      assert Callback(t.handles[f], f) in t.loop;
      forall i | 0 <= i < |t.loop|
        ensures t.loop[i].id !in t.cancelled ==> (t.loop[i].id == t.handles[f] <==> t.loop[i].listener == f)
        ensures Owned(u.handles, u.cancelled, t.loop[i])
      {
        assert Owned(t.handles, t.cancelled, t.loop[i]);
      }
      LiveCancelled(t.loop, t.cancelled, t.handles[f], f);
      HandlesDiffer(t, f);
    } else {
      LiveIsHandled(t, f);
      FilterAll(g => g != f, t.Pending());
    }
  }

  lemma HandlesDiffer(t: Task, f: Listener)
    requires Inv(t) && f in t.handles
    ensures forall g :: g in t.handles && g != f ==> t.handles[g] != t.handles[f]
  {
    forall g | g in t.handles && g != f
      ensures t.handles[g] != t.handles[f]
    {
      assert Callback(t.handles[g], g) in t.loop && Callback(t.handles[f], f) in t.loop;
    }
  }

  lemma RemoveKeeps(t: Task, f: Listener)
    requires Inv(t)
    ensures Inv(RemoveExitListener(t, f))
    ensures RemoveExitListener(t, f).called == t.called
    ensures forall g :: g in RemoveExitListener(t, f).Pending() ==> g in t.Pending()
    ensures forall g :: g in t.Pending() && g != f ==> g in RemoveExitListener(t, f).Pending()
    ensures Distinct(t.Pending()) ==> RemoveExitListener(t, f).Pending() == Except(t.Pending(), f)
  {
    if t.loop == [] {
      RemoveWaiting(t, f);
      if Distinct(t.Pending()) {
        RemoveFirstExcept(t.Pending(), f);
      }
    } else {
      RemoveScheduled(t, f);
    }
  }

  /** The loop goes on with the other callbacks, and the handle of the first one is gone. */
  lemma DispatchInv(t: Task)
    requires Inv(t) && t.loop != []
    ensures Inv(RunNext(t))
    ensures t.loop[0].id !in t.cancelled ==> t.loop[0].listener in t.handles
  {
    var u := RunNext(t);
    assert t.loop == [t.loop[0]] + u.loop;
    assert Owned(t.handles, t.cancelled, t.loop[0]);
    forall i | 0 <= i < |u.loop|
      ensures u.loop[i].id < u.nextId && Owned(u.handles, u.cancelled, u.loop[i])
    {
      assert u.loop[i] == t.loop[i + 1] && Owned(t.handles, t.cancelled, t.loop[i + 1]);
    }
    forall f | f in u.handles
      ensures Callback(u.handles[f], f) in u.loop && u.handles[f] !in u.cancelled
    {
      assert Callback(t.handles[f], f) in t.loop;
    }
  }

  /** The callback finds its handle, and its listener is not pending any more once it was called. */
  lemma DispatchKeeps(t: Task)
    requires Inv(t)
    ensures Inv(RunNext(t))
    ensures t.loop != [] && t.loop[0].id !in t.cancelled ==>
      var f := t.loop[0].listener;
      && t.returncode.Some? && f in t.handles
      && RunNext(t).called == t.called + [f]
      && t.Pending() == [f] + RunNext(t).Pending() && f !in RunNext(t).Pending()
    ensures t.loop == [] || t.loop[0].id in t.cancelled ==>
      RunNext(t).called == t.called && RunNext(t).Pending() == t.Pending()
  {
    if t.loop != [] {
      DispatchInv(t);
      if t.loop[0].id !in t.cancelled {
        LiveIsHandled(RunNext(t), t.loop[0].listener);
      }
      assert t.listeners == None;
      hide Inv;
    }
  }

  // ----- over whole runs -----

  lemma {:induction false} RunInv(actions: seq<Action>)
    ensures Inv(Run(actions).task)
  {
    if actions != [] {
      var before, a := actions[..|actions| - 1], actions[|actions| - 1];
      RunInv(before);
      ActKeepsInv(Run(before).task, a);
    }
  }

  lemma ActKeepsInv(t: Task, a: Action)
    requires Inv(t)
    ensures Inv(Act(t, a))
  {
    hide Inv;
    match a
    case Add(f) => AddKeeps(t, f);
    case Remove(f) => RemoveKeeps(t, f);
    case SetReturncode(code) => SetReturncodeKeeps(t, code);
    case Hook => HookKeeps(t);
    case Dispatch => DispatchKeeps(t);
  }

  lemma SetReturncodeKeeps(t: Task, code: int)
    requires Inv(t)
    ensures Inv(t.(returncode := Some(code)))
  {
  }

  /** No listener is ever called before the return code is set, and a callback always finds its handle. */
  lemma CalledAfterReturncode(actions: seq<Action>)
    ensures
      var t := Run(actions).task;
      && (t.called != [] ==> t.returncode.Some?)
      && (t.loop != [] && t.loop[0].id !in t.cancelled ==> t.loop[0].listener in t.handles)
  {
    RunInv(actions);
    var t := Run(actions).task;
    if t.loop != [] {
      assert Owned(t.handles, t.cancelled, t.loop[0]);
    }
  }

  function One(b: bool): nat {
    if b then 1 else 0
  }

  /** How often `f` was called, removed while pending, or is pending now. */
  ghost function Account(s: System, f: Listener): nat {
    multiset(s.task.called)[f] + One(f in s.task.Pending()) + s.dropped[f]
  }

  lemma StepAccount(s: System, a: Action, f: Listener)
    requires Inv(s.task)
    ensures Account(Step(s, a), f) - Account(s, f) == One(a.Add? && a.f == f && f !in s.task.Pending())
  {
    hide Inv, AddExitListener, RemoveExitListener, WaitHook, RunNext;
    match a
    case Add(g) => AddKeeps(s.task, g);
    case Remove(g) => RemoveKeeps(s.task, g);
    case SetReturncode(code) => assert s.task.(returncode := Some(code)).Pending() == s.task.Pending();
    case Hook => HookKeeps(s.task);
    case Dispatch => DispatchKeeps(s.task);
  }

  /**
   * The account of each listener: every registration that found it not pending is either called
   * once, or removed, or still pending.
   */
  lemma {:induction false} CallsAccounted(actions: seq<Action>, f: Listener)
    ensures Account(Run(actions), f) == Run(actions).begun[f]
  {
    if actions != [] {
      var before, a := actions[..|actions| - 1], actions[|actions| - 1];
      CallsAccounted(before, f);
      RunInv(before);
      hide Account, Inv, Act;
      StepAccount(Run(before), a, f);
      StepBegun(Run(before), a, f);
    } else {
      assert Run([]).task.Pending() == [];
    }
  }

  lemma StepBegun(s: System, a: Action, f: Listener)
    ensures Step(s, a).begun[f] - s.begun[f] == One(a.Add? && a.f == f && f !in s.task.Pending())
  {
    hide Act;
  }

  /** A listener is called exactly when it ceases to be pending without a removal, and pending only when added. */
  lemma StepCalls(s: System, a: Action, f: Listener)
    requires Inv(s.task)
    ensures
      var before, after := f in s.task.Pending(), f in Step(s, a).task.Pending();
      && multiset(Step(s, a).task.called)[f] == multiset(s.task.called)[f] + One(before && !after && a != Remove(f))
      && (!before && after ==> a == Add(f))
      && (a == Add(f) ==> after)
  {
    hide Inv, AddExitListener, RemoveExitListener, WaitHook, RunNext;
    match a
    case Add(g) => AddKeeps(s.task, g);
    case Remove(g) => RemoveKeeps(s.task, g);
    case SetReturncode(code) => assert s.task.(returncode := Some(code)).Pending() == s.task.Pending();
    case Hook => HookKeeps(s.task);
    case Dispatch => DispatchKeeps(s.task);
  }

  ghost predicate PendsAt(actions: seq<Action>, h: nat, f: Listener)
    requires h <= |actions|
  {
    f in Run(actions[..h]).task.Pending()
  }

  ghost function CallsAt(actions: seq<Action>, h: nat, f: Listener): nat
    requires h <= |actions|
  {
    multiset(Run(actions[..h]).task.called)[f]
  }

  /**
   * After a call of `f`, while it was not pending, action `k` adds it again; it stays pending until
   * action `e - 1`, which is not its removal.
   */
  ghost predicate ServedAgain(actions: seq<Action>, f: Listener, k: nat, e: nat) {
    && k < e <= |actions|
    && actions[k] == Add(f)
    && CallsAt(actions, k, f) > 0
    && !PendsAt(actions, k, f)
    && (forall h :: k < h < e ==> PendsAt(actions, h, f))
    && !PendsAt(actions, e, f)
    && actions[e - 1] != Remove(f)
  }

  lemma StepAt(actions: seq<Action>, h: nat, f: Listener)
    requires h < |actions|
    ensures
      && CallsAt(actions, h + 1, f) == CallsAt(actions, h, f)
           + One(PendsAt(actions, h, f) && !PendsAt(actions, h + 1, f) && actions[h] != Remove(f))
      && (!PendsAt(actions, h, f) && PendsAt(actions, h + 1, f) ==> actions[h] == Add(f))
      && (actions[h] == Add(f) ==> PendsAt(actions, h + 1, f))
  {
    hide Step, Inv;
    var now := actions[..h + 1];
    assert now[..h] == actions[..h] && now[h] == actions[h] && |now| == h + 1;
    RunInv(actions[..h]);
    StepCalls(Run(actions[..h]), actions[h], f);
  }

  /** The registration that made `f` pending, from which on it stayed so; no call was made since. */
  lemma {:induction false} PendingSince(actions: seq<Action>, h: nat, f: Listener) returns (k: nat)
    requires h <= |actions| && PendsAt(actions, h, f)
    ensures k < h && actions[k] == Add(f) && !PendsAt(actions, k, f)
    ensures CallsAt(actions, k, f) == CallsAt(actions, h, f)
    ensures forall i :: k < i <= h ==> PendsAt(actions, i, f)
  {
    hide CallsAt, PendsAt;
    if h == 0 {
      NothingAtStart(actions, f);
    } else {
      StepAt(actions, h - 1, f);
      if PendsAt(actions, h - 1, f) {
        k := PendingSince(actions, h - 1, f);
      } else {
        k := h - 1;
      }
    }
  }

  lemma NothingAtStart(actions: seq<Action>, f: Listener)
    ensures !PendsAt(actions, 0, f) && CallsAt(actions, 0, f) == 0
  {
  }

  /** Among the first `h` actions there is the second call. */
  lemma {:induction false} SecondCall(actions: seq<Action>, h: nat, f: Listener) returns (k: nat, e: nat)
    requires h <= |actions| && 2 <= CallsAt(actions, h, f)
    ensures ServedAgain(actions, f, k, e)
  {
    hide CallsAt, PendsAt;
    if h == 0 {
      NothingAtStart(actions, f);
    } else {
      StepAt(actions, h - 1, f);
      if 2 <= CallsAt(actions, h - 1, f) {
        k, e := SecondCall(actions, h - 1, f);
      } else {
        e := h;
        k := PendingSince(actions, h - 1, f);
      }
    }
  }

  lemma {:induction false} CallsGrow(actions: seq<Action>, h: nat, i: nat, f: Listener)
    requires h <= i <= |actions|
    ensures CallsAt(actions, h, f) <= CallsAt(actions, i, f)
    decreases i
  {
    hide CallsAt, PendsAt;
    if h < i {
      StepAt(actions, i - 1, f);
      CallsGrow(actions, h, i - 1, f);
    }
  }

  /** Where it is served again, it is called again. */
  lemma {:induction false} ServedIsCalled(actions: seq<Action>, f: Listener, k: nat, e: nat)
    requires ServedAgain(actions, f, k, e)
    ensures 2 <= CallsAt(actions, |actions|, f)
  {
    hide CallsAt, PendsAt;
    StepAt(actions, k, f);
    StepAt(actions, e - 1, f);
    CallsGrow(actions, k, e - 1, f);
    CallsGrow(actions, e, |actions|, f);
  }

  /**
   * A listener is called more than once exactly when it is added while it is not pending although it
   * was called before, and that registration ends by something else than a removal.
   */
  lemma CalledTwiceExactly(actions: seq<Action>, f: Listener)
    ensures
      2 <= multiset(Run(actions).task.called)[f] <==> exists k: nat, e: nat :: ServedAgain(actions, f, k, e)
  {
    assert actions[..|actions|] == actions;
    hide Run;
    if 2 <= CallsAt(actions, |actions|, f) {
      var k, e := SecondCall(actions, |actions|, f);
    }
    if k: nat, e: nat :| ServedAgain(actions, f, k, e) {
      ServedIsCalled(actions, f, k, e);
    }
  }

  function Kept(registered: seq<Listener>, dropped: multiset<Listener>): seq<Listener> {
    Filter(f => f !in dropped, registered)
  }

  /** Calls follow the order of registration, each listener once. */
  ghost predicate InOrder(s: System) {
    && Distinct(s.registered)
    && (forall f :: f in s.dropped ==> f in s.registered)
    && s.task.called + s.task.Pending() == Kept(s.registered, s.dropped)
  }

  /** Where each listener is registered at most once, calls made and pending are the registrations in order. */
  lemma {:induction false} CallsInOrder(actions: seq<Action>)
    requires Distinct(Run(actions).registered)
    ensures InOrder(Run(actions))
    ensures Distinct(Run(actions).task.called + Run(actions).task.Pending())
  {
    if actions != [] {
      var before, a := actions[..|actions| - 1], actions[|actions| - 1];
      var s := Run(before);
      assert forall i :: 0 <= i < |s.registered| ==> s.registered[i] == Run(actions).registered[i];
      CallsInOrder(before);
      RunInv(before);
      StepInOrder(s, a);
    }
    var s := Run(actions);
    FilterDistinct(f => f !in s.dropped, s.registered);
  }

  lemma KeptMore(registered: seq<Listener>, dropped: multiset<Listener>, f: Listener)
    requires f !in dropped
    ensures Kept(registered + [f], dropped) == Kept(registered, dropped) + [f]
  {
    FilterAppend(g => g !in dropped, registered, [f]);
  }

  lemma AddInOrder(s: System, f: Listener)
    requires Inv(s.task) && InOrder(s) && Distinct(s.registered + [f])
    requires Distinct(s.task.called + s.task.Pending())
    ensures InOrder(Step(s, Add(f)))
  {
    DistinctParts(s.registered, [f]);
    assert f in [f];
    assert f !in s.task.called + s.task.Pending();
    DistinctParts(s.task.called, s.task.Pending());
    AddKeeps(s.task, f);
    hide Distinct, Inv, AddExitListener;
    KeptMore(s.registered, s.dropped, f);
    AppendAssoc(s.task.called, s.task.Pending(), [f]);
  }

  lemma KeptExcept(s: System, f: Listener)
    requires f !in s.task.called
    requires s.task.called + s.task.Pending() == Kept(s.registered, s.dropped)
    ensures s.task.called + Except(s.task.Pending(), f) == Kept(s.registered, s.dropped + multiset{f})
  {
    FilterAppend(g => g != f, s.task.called, s.task.Pending());
    FilterAll(g => g != f, s.task.called);
    FilterTwice(g => g !in s.dropped, g => g != f, g => g !in s.dropped + multiset{f}, s.registered);
  }

  lemma RemoveInOrder(s: System, f: Listener)
    requires Inv(s.task) && InOrder(s) && Distinct(s.task.called + s.task.Pending())
    ensures InOrder(Step(s, Remove(f)))
  {
    hide Inv;
    var pending := s.task.Pending();
    RemoveKeeps(s.task, f);
    DistinctParts(s.task.called, pending);
    hide Distinct, RemoveExitListener;
    if f in pending {
      KeptExcept(s, f);
      assert f in s.task.called + pending;
    } else {
      FilterAll(g => g != f, pending);
    }
  }

  lemma StepInOrder(s: System, a: Action)
    requires Inv(s.task) && InOrder(s) && Distinct(Step(s, a).registered)
    requires Distinct(s.task.called + s.task.Pending())
    ensures InOrder(Step(s, a))
  {
    hide Inv;
    match a
    case Add(f) => AddInOrder(s, f);
    case Remove(f) => RemoveInOrder(s, f);
    case SetReturncode(code) => assert s.task.(returncode := Some(code)).Pending() == s.task.Pending();
    case Hook =>
      DistinctParts(s.task.called, s.task.Pending());
      HookKeeps(s.task);
    case Dispatch => DispatchKeeps(s.task);
  }

  function Drain(t: Task): Task
    decreases |t.loop|
  {
    if t.loop == [] then t else Drain(RunNext(t))
  }

  /** Once the return code is set and the hook ran, an idle event loop has called all that was pending. */
  lemma {:induction false} DrainCallsAll(t: Task)
    requires Inv(t) && t.listeners == None
    ensures Drain(t).called == t.called + t.Pending()
    decreases |t.loop|
  {
    hide Inv;
    if t.loop != [] {
      DispatchKeeps(t);
      DrainCallsAll(RunNext(t));
    }
  }

  /**
   * When every listener is registered at most once, then after the return code is set, the hook is
   * called and the loop is idle, the calls are exactly the registrations not removed, in order.
   */
  lemma ExactlyOnceInOrder(actions: seq<Action>)
    requires Distinct(Run(actions).registered) && Run(actions).task.returncode.Some?
    ensures Drain(WaitHook(Run(actions).task)).called == Kept(Run(actions).registered, Run(actions).dropped)
    ensures Distinct(Drain(WaitHook(Run(actions).task)).called)
  {
    var s := Run(actions);
    RunInv(actions);
    CallsInOrder(actions);
    DistinctParts(s.task.called, s.task.Pending());
    HookKeeps(s.task);
    DrainCallsAll(WaitHook(s.task));
  }

  /** A listener registered with an idle loop is called next, whether or not it was called before. */
  lemma RegisteredAgainCalledAgain(actions: seq<Action>, f: Listener)
    requires
      var t := Run(actions).task;
      t.returncode.Some? && t.listeners == None && t.loop == []
    ensures Run(actions + [Add(f)] + [Dispatch]).task.called == Run(actions).task.called + [f]
  {
    var t := Run(actions).task;
    RunInv(actions);
    RunTask(actions + [Add(f)], Dispatch);
    RunTask(actions, Add(f));
    assert Run(actions + [Add(f)] + [Dispatch]).task == RunNext(AddExitListener(t, f));
    assert forall g :: g !in t.handles;
    assert [] + [f] == [f] && [f][1..] == [] && t.(listeners := Some([f])).(listeners := None) == t;
    assert ScheduleAll(t, [f]) == ScheduleAll(ScheduleOne(t, f), []);
    assert t.nextId !in t.cancelled;
    assert ScheduleAll(ScheduleOne(t, f), []) == ScheduleOne(t, f);
    hide Inv, Run, ScheduleAll;
    assert AddExitListener(t, f) == ScheduleAll(t, [f]);
    assert RunNext(ScheduleOne(t, f)).called == t.called + [f];
  }

  lemma RunTask(actions: seq<Action>, a: Action)
    ensures Run(actions + [a]).task == Act(Run(actions).task, a)
  {
    assert (actions + [a])[..|actions|] == actions;
  }

  lemma {:induction false} ScheduleAllFlags(t: Task, todo: seq<Listener>)
    ensures ScheduleAll(t, todo).listeners == t.listeners && ScheduleAll(t, todo).returncode == t.returncode
    decreases |todo|
  {
    if todo != [] {
      ScheduleAllFlags(if todo[0] in t.handles then t else ScheduleOne(t, todo[0]), todo[1..]);
    }
  }

  lemma NoListenersLeft(t: Task, f: Listener)
    requires t.returncode.Some?
    ensures AddExitListener(t, f).listeners == None
  {
    ScheduleAllFlags(t.(listeners := None), t.Waiting() + [f]);
  }
}

/** The class itself, each method proved to do what AsyncTasks says. */
module AsynchronousTasks {
  import opened AsyncTasks
  import opened Sequences
  import opened Wrappers

  /** The part of the event loop that these callbacks use: a FIFO with cancellable handles. */
  class EventLoop {
    var calls: seq<Callback>
    var cancelled: set<nat>
    var nextId: nat

    constructor ()
      ensures calls == [] && cancelled == {} && nextId == 0
    {
      calls, cancelled, nextId := [], {}, 0;
    }

    method CallSoon(f: Listener) returns (handle: nat)
      modifies this
      ensures handle == old(nextId) && nextId == old(nextId) + 1
      ensures calls == old(calls) + [Callback(handle, f)] && cancelled == old(cancelled)
    {
      handle := nextId;
      calls := calls + [Callback(handle, f)];
      nextId := nextId + 1;
    }

    method Cancel(handle: nat)
      modifies this
      ensures cancelled == old(cancelled) + {handle}
      ensures calls == old(calls) && nextId == old(nextId)
    {
      cancelled := cancelled + {handle};
    }
  }

  class AsynchronousTask {
    const scheduler: EventLoop
    var returncode: Option<int>
    var exitListeners: Option<seq<Listener>>
    var exitListenerHandles: map<Listener, nat>
    ghost var called: seq<Listener>

    ghost function State(): Task
      reads this, scheduler
    {
      Task(returncode, exitListeners, exitListenerHandles, scheduler.calls, scheduler.cancelled, scheduler.nextId, called)
    }

    constructor (loop: EventLoop)
      requires loop.calls == [] && loop.cancelled == {} && loop.nextId == 0
      ensures scheduler == loop && State() == Fresh
    {
      scheduler := loop;
      returncode, exitListeners, exitListenerHandles, called := None, None, map[], [];
    }

    method AddExitListener(f: Listener)
      modifies this, scheduler
      ensures State() == AsyncTasks.AddExitListener(old(State()), f)
    {
      if exitListeners == None {
        exitListeners := Some([]);
      }
      exitListeners := Some(exitListeners.value + [f]);
      if returncode != None {
        WaitHook();
      }
    }

    method RemoveExitListener(f: Listener)
      modifies this, scheduler
      ensures State() == AsyncTasks.RemoveExitListener(old(State()), f)
    {
      if exitListeners != None {
        exitListeners := Some(RemoveFirst(exitListeners.value, f));
      }
      if f in exitListenerHandles {
        var handle := exitListenerHandles[f];
        exitListenerHandles := exitListenerHandles - {f};
        scheduler.Cancel(handle);
      }
    }

    method WaitHook()
      modifies this, scheduler
      ensures State() == AsyncTasks.WaitHook(old(State()))
    {
      if returncode != None && exitListeners != None {
        var listeners := exitListeners.value;
        exitListeners := None;
        for k := 0 to |listeners|
          invariant ScheduleAll(State(), listeners[k..]) == ScheduleAll(old(State()).(listeners := None), listeners)
        {
          var listener := listeners[k];
          assert listeners[k..][1..] == listeners[k + 1..];
          if listener !in exitListenerHandles {
            var handle := scheduler.CallSoon(listener);
            exitListenerHandles := exitListenerHandles[listener := handle];
          }
        }
      }
    }

    /** async_wait: the waiter is notified even when the return code is already set. */
    method AsyncWait(waiter: Listener)
      modifies this, scheduler
      ensures State() == AsyncTasks.AddExitListener(old(State()), waiter)
    {
      AddExitListener(waiter);
      if returncode != None {
        NoListenersLeft(old(State()), waiter);
        WaitHook();
      }
    }

    /** The event loop runs the next callback: _exit_listener_cb, unless it was cancelled. */
    method Dispatch() returns (listener: Option<Listener>)
      requires Inv(State())
      modifies this, scheduler
      ensures State() == RunNext(old(State())) && Inv(State())
      ensures called == if listener.Some? then old(called) + [listener.value] else old(called)
    {
      DispatchKeeps(State());
      if scheduler.calls == [] {
        return None;
      }
      var next := scheduler.calls[0];
      scheduler.calls := scheduler.calls[1..];
      if next.id in scheduler.cancelled {
        return None;
      }
      assert next.listener in exitListenerHandles;
      exitListenerHandles := exitListenerHandles - {next.listener};
      called := called + [next.listener];
      listener := Some(next.listener);
    }
  }
}
