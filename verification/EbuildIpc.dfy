/**
 * The ebuild IPC protocol: any number of ebuild-ipc clients and one daemon talk over a request fifo
 * and a reply fifo, under one lock. Each step is one system call of one process; the effects of the
 * calls on the fifos are those of a POSIX kernel.
 */
module EbuildIpc {
  import opened Sequences

  type Body = int

  /** The `number`-th request of a client. The sender and number are not on the wire: the daemon never looks at them. */
  datatype Message = Message(sender: nat, number: nat, body: Body)

  datatype Reply = Reply(to: Message, result: int)

  datatype Lock = Free | ByClient(c: nat) | ByDaemon

  /** Where a client is in communicate(). */
  datatype ClientPc = Idle | Locked | OutOpen | InOpen | Wrote | Closed | Finished

  /** `errors` counts exchanges that ended without a reply. */
  datatype Client = Client(pc: ClientPc, sent: seq<Body>, buf: seq<Reply>, received: seq<Reply>, errors: nat)

  /** Where the daemon is in _input_handler(); in a gap its read end is closed. */
  datatype Daemon =
    | Ready
    | GotRequest(m: Message)
    | RequestGap(m: Message)
    | Reopened(m: Message)
    | Answered(r: Reply)
    | ReplyOpen(r: Reply)
    | ReplyWritten
    | GotEof
    | EofLocked
    | EofGap
    | EofReopened

  /**
   * `hup` says that the reply fifo had a writer that closed it since the client opened it. `served`
   * are the requests in the order in which their handlers ran; `lost` are requests and replies that
   * vanished: discarded by the kernel, overlooked in a read, or undeliverable.
   */
  datatype State = State(
    lock: Lock,
    clients: seq<Client>,
    daemon: Daemon,
    fifo: seq<Message>,
    out: seq<Reply>,
    hup: bool,
    served: seq<Message>,
    lost: seq<Message>)
  {
    /** Some process holds the request fifo open for writing. */
    predicate HasWriter() {
      exists c :: 0 <= c < |clients| && (clients[c].pc == InOpen || clients[c].pc == Wrote)
    }

    predicate ReaderOpen() {
      !daemon.RequestGap? && !daemon.EofGap?
    }

    /** Some client holds the reply fifo open for reading. */
    predicate ReplyReader() {
      exists c :: 0 <= c < |clients| && clients[c].pc in {OutOpen, InOpen, Wrote, Closed}
    }

    /** When the last end of the request fifo is closed, the kernel discards what it holds. */
    function Discard(): State {
      if HasWriter() || ReaderOpen() then this
      else this.(fifo := [], lost := lost + fifo)
    }
  }

  datatype Action =
    | ClientLock(c: nat, body: Body)
    | ClientOpenOut(c: nat)
    | ClientOpenIn(c: nat)
    | ClientWrite(c: nat)
    | ClientClose(c: nat)
    | ClientRead(c: nat)
    | ClientEof(c: nat)
    | ClientUnlock(c: nat)
    | DaemonRead
    | DaemonClose
    | DaemonReopen
    | DaemonHandle
    | DaemonOpenReply
    | DaemonWriteReply
    | DaemonCloseReply
    | DaemonTryLock
    | DaemonUnlock
  {
    predicate OfClient() {
      ClientLock? || ClientOpenOut? || ClientOpenIn? || ClientWrite? || ClientClose? || ClientRead? || ClientEof?
      || ClientUnlock?
    }
  }

  /** The request that a client is about to make or has made last. */
  function Current(s: State, c: nat): Message
    requires c < |s.clients| && s.clients[c].sent != []
  {
    var k := |s.clients[c].sent| - 1;
    Message(c, k, s.clients[c].sent[k])
  }

  function Enabled(s: State, a: Action): bool {
    match a
    case ClientLock(c, _) => c < |s.clients| && s.clients[c].pc == Idle && s.lock == Free
    case ClientOpenOut(c) => c < |s.clients| && s.clients[c].pc == Locked
    case ClientOpenIn(c) => c < |s.clients| && s.clients[c].pc == OutOpen
    case ClientWrite(c) => c < |s.clients| && s.clients[c].pc == InOpen && s.clients[c].sent != []
    case ClientClose(c) => c < |s.clients| && s.clients[c].pc == Wrote
    case ClientRead(c) => c < |s.clients| && s.clients[c].pc == Closed && s.out != []
    case ClientEof(c) => c < |s.clients| && s.clients[c].pc == Closed && s.out == [] && s.hup
    case ClientUnlock(c) => c < |s.clients| && s.clients[c].pc == Finished
    case DaemonRead => s.daemon == Ready && (s.fifo != [] || !s.HasWriter())
    case DaemonClose => s.daemon.GotRequest? || s.daemon == EofLocked
    case DaemonReopen => !s.ReaderOpen()
    case DaemonHandle => s.daemon.Reopened?
    case DaemonOpenReply => s.daemon.Answered?
    case DaemonWriteReply => s.daemon.ReplyOpen?
    case DaemonCloseReply => s.daemon == ReplyWritten
    case DaemonTryLock => s.daemon == GotEof
    case DaemonUnlock => s.daemon == EofReopened
  }

  function At(s: State, c: nat, pc: ClientPc): State
    requires c < |s.clients|
  {
    s.(clients := s.clients[c := s.clients[c].(pc := pc)])
  }

  function Fails(s: State, c: nat): State
    requires c < |s.clients|
  {
    s.(clients := s.clients[c := s.clients[c].(pc := Finished, errors := s.clients[c].errors + 1)])
  }

  function ClientStep(s: State, a: Action): State
    requires Enabled(s, a)
  {
    match a
    case ClientLock(c, body) =>
      var k := s.clients[c];
      s.(lock := ByClient(c), clients := s.clients[c := k.(pc := Locked, sent := k.sent + [body])])
    case ClientOpenOut(c) => At(s, c, OutOpen).(hup := false)
    case ClientOpenIn(c) =>
      // A write end opened without a reader is refused with ENXIO.
      if s.ReaderOpen() then At(s, c, InOpen) else Fails(s, c)
    case ClientWrite(c) =>
      if s.ReaderOpen() then At(s, c, Wrote).(fifo := s.fifo + [Current(s, c)]) else Fails(s, c)
    case ClientClose(c) => At(s, c, Closed).Discard()
    case ClientRead(c) => s.(clients := s.clients[c := s.clients[c].(buf := s.clients[c].buf + s.out)], out := [])
    case ClientEof(c) =>
      var k := s.clients[c];
      if k.buf == [] then Fails(s, c)
      else s.(clients := s.clients[c := k.(pc := Finished, buf := [], received := k.received + [k.buf[0]])])
    case ClientUnlock(c) => At(s, c, Idle).(lock := Free)
    case _ => s
  }

  function DaemonStep(handler: Body -> int, s: State, a: Action): State
    requires Enabled(s, a)
  {
    match a
    case DaemonRead =>
      // One read takes all that the fifo holds, but only the first request in it is loaded.
      if s.fifo == [] then s.(daemon := GotEof)
      else s.(daemon := GotRequest(s.fifo[0]), fifo := [], lost := s.lost + s.fifo[1..])
    case DaemonClose => s.(daemon := if s.daemon.GotRequest? then RequestGap(s.daemon.m) else EofGap).Discard()
    case DaemonReopen => s.(daemon := if s.daemon.RequestGap? then Reopened(s.daemon.m) else EofReopened)
    case DaemonHandle =>
      var m := s.daemon.m;
      s.(daemon := Answered(Reply(m, handler(m.body))), served := s.served + [m])
    case DaemonOpenReply =>
      if s.ReplyReader() then s.(daemon := ReplyOpen(s.daemon.r)) else s.(daemon := Ready, lost := s.lost + [s.daemon.r.to])
    case DaemonWriteReply => s.(daemon := ReplyWritten, out := s.out + [s.daemon.r])
    case DaemonCloseReply => s.(daemon := Ready, hup := true)
    case DaemonTryLock => if s.lock == Free then s.(daemon := EofLocked, lock := ByDaemon) else s.(daemon := Ready)
    case DaemonUnlock => s.(daemon := Ready, lock := Free)
    case _ => s
  }

  /** A step that is not possible changes nothing. */
  function Step(handler: Body -> int, s: State, a: Action): State {
    if !Enabled(s, a) then s
    else if a.OfClient() then ClientStep(s, a)
    else DaemonStep(handler, s, a)
  }

  function Start(n: nat): State {
    State(Free, seq(n, _ => Client(Idle, [], [], [], 0)), Ready, [], [], false, [], [])
  }

  function Run(handler: Body -> int, n: nat, actions: seq<Action>): State
    decreases |actions|
  {
    if actions == [] then Start(n)
    else Step(handler, Run(handler, n, actions[..|actions| - 1]), actions[|actions| - 1])
  }

  // ----- the invariant -----

  /** The daemon waits for an event, or has just read an end of file. */
  ghost predicate Listening(d: Daemon) {
    d == Ready || d == GotEof
  }

  ghost predicate Reads(d: Daemon, m: Message) {
    d == GotRequest(m) || d == RequestGap(m) || d == Reopened(m)
  }

  ghost predicate Answers(d: Daemon, r: Reply) {
    d == Answered(r) || d == ReplyOpen(r)
  }

  /** Request and reply of the exchange that holds the lock: together they are in exactly one place. */
  ghost predicate Exchange(pc: ClientPc, m: Message, r: Reply, k: Client, s: State) {
    match pc
    case Idle => false
    case Locked => s.fifo == [] && Listening(s.daemon) && s.out == []
    case OutOpen => s.fifo == [] && Listening(s.daemon) && s.out == [] && !s.hup
    case InOpen => s.fifo == [] && Listening(s.daemon) && s.out == [] && !s.hup
    case Wrote => InFlight(m, r, k, s)
    case Closed => InFlight(m, r, k, s)
    case Finished => s.fifo == [] && Listening(s.daemon) && s.out == []
  }

  ghost predicate InFlight(m: Message, r: Reply, k: Client, s: State) {
    || (s.fifo == [m] && Listening(s.daemon) && s.out == [] && k.buf == [] && !s.hup)
    || (s.fifo == [] && (Reads(s.daemon, m) || Answers(s.daemon, r)) && s.out == [] && k.buf == [] && !s.hup)
    || (s.fifo == [] && (if s.hup then Listening(s.daemon) else s.daemon == ReplyWritten) && s.out + k.buf == [r])
  }

  /** The request of the running exchange has reached its handler. */
  ghost predicate IsHandled(pc: ClientPc, s: State) {
    (pc == Wrote || pc == Closed) && s.fifo == []
    && !s.daemon.GotRequest? && !s.daemon.RequestGap? && !s.daemon.Reopened?
  }

  function Busy(pc: ClientPc): nat {
    if pc == Idle || pc == Finished then 0 else 1
  }

  ghost predicate ClientOk(handler: Body -> int, c: nat, k: Client) {
    && k.errors == 0
    && |k.sent| == |k.received| + Busy(k.pc)
    && (k.pc != Closed ==> k.buf == [])
    && forall i :: 0 <= i < |k.received| ==> k.received[i] == Reply(Message(c, i, k.sent[i]), handler(k.sent[i]))
  }

  ghost predicate LockOk(s: State) {
    && (forall c: nat :: c < |s.clients| ==> (s.clients[c].pc == Idle <==> s.lock != ByClient(c)))
    && match s.lock
       case Free => s.fifo == [] && s.out == [] && Listening(s.daemon)
       case ByDaemon => s.fifo == [] && s.out == [] && s.daemon in {EofLocked, EofGap, EofReopened}
       case ByClient(c) => c < |s.clients| && s.clients[c].sent != []
  }

  ghost predicate ExchangeOk(handler: Body -> int, s: State) {
    s.lock.ByClient? && s.lock.c < |s.clients| && s.clients[s.lock.c].sent != [] ==>
      var c, m := s.lock.c, Current(s, s.lock.c);
      Exchange(s.clients[c].pc, m, Reply(m, handler(m.body)), s.clients[c], s)
  }

  /** How many requests of client `c` have reached their handler. */
  ghost function Handled(s: State, c: nat): nat
    requires c < |s.clients|
  {
    |s.clients[c].received| + if IsHandled(s.clients[c].pc, s) then 1 else 0
  }

  ghost predicate ServedOk(s: State) {
    && Distinct(s.served)
    && (forall m :: m in s.served <==>
          m.sender < |s.clients| && m.number < Handled(s, m.sender)
          && m.number < |s.clients[m.sender].sent| && m.body == s.clients[m.sender].sent[m.number])
  }

  /** The invariant but for the record of what was served. */
  ghost predicate Core(handler: Body -> int, s: State) {
    && LockOk(s)
    && (forall c: nat :: c < |s.clients| ==> ClientOk(handler, c, s.clients[c]))
    && ExchangeOk(handler, s)
    && s.lost == []
  }

  ghost predicate Inv(handler: Body -> int, s: State) {
    Core(handler, s) && ServedOk(s)
  }

  /** No request reaches its handler or leaves the record between `s` and `t`. */
  ghost predicate SameHandled(s: State, t: State) {
    && t.served == s.served && |t.clients| == |s.clients|
    && forall c: nat :: c < |s.clients| ==>
         Handled(s, c) <= |s.clients[c].sent| && Handled(t, c) == Handled(s, c) && s.clients[c].sent <= t.clients[c].sent
  }

  lemma ServedSame(s: State, t: State)
    requires ServedOk(s) && SameHandled(s, t)
    ensures ServedOk(t)
  {
    hide Handled;
  }

  /** While the daemon serves a request, the client that holds the lock waits for the reply. */
  lemma HolderWaits(handler: Body -> int, s: State)
    requires Core(handler, s)
    ensures !Listening(s.daemon) && s.daemon !in {EofLocked, EofGap, EofReopened} ==>
      && s.lock.ByClient? && s.lock.c < |s.clients| && s.clients[s.lock.c].pc in {Wrote, Closed}
      && s.clients[s.lock.c].sent != []
  {
  }

  /** A request in the fifo is the only one there. */
  lemma SomeRequest(handler: Body -> int, s: State)
    requires Core(handler, s) && s.fifo != []
    ensures s.lock.ByClient? && s.lock.c < |s.clients| && s.clients[s.lock.c].sent != []
    ensures s.fifo == [Current(s, s.lock.c)] && s.out == [] && Listening(s.daemon)
  {
  }

  lemma DiscardNothing(s: State)
    requires s.ReaderOpen() || s.fifo == []
    ensures s.Discard() == s
  {
    assert s.lost + [] == s.lost;
  }

  lemma LockCore(handler: Body -> int, s: State, c: nat, body: Body)
    requires Core(handler, s) && Enabled(s, ClientLock(c, body))
    ensures Core(handler, ClientStep(s, ClientLock(c, body)))
  {
  }

  lemma LockHandled(handler: Body -> int, s: State, c: nat, body: Body)
    requires Core(handler, s) && Enabled(s, ClientLock(c, body))
    ensures SameHandled(s, ClientStep(s, ClientLock(c, body)))
  {
  }

  lemma OpenOutCore(handler: Body -> int, s: State, c: nat)
    requires Core(handler, s) && Enabled(s, ClientOpenOut(c))
    ensures Core(handler, ClientStep(s, ClientOpenOut(c)))
  {
  }

  lemma OpenOutHandled(handler: Body -> int, s: State, c: nat)
    requires Core(handler, s) && Enabled(s, ClientOpenOut(c))
    ensures SameHandled(s, ClientStep(s, ClientOpenOut(c)))
  {
  }

  lemma OpenInCore(handler: Body -> int, s: State, c: nat)
    requires Core(handler, s) && Enabled(s, ClientOpenIn(c))
    ensures Core(handler, ClientStep(s, ClientOpenIn(c)))
  {
  }

  lemma OpenInHandled(handler: Body -> int, s: State, c: nat)
    requires Core(handler, s) && Enabled(s, ClientOpenIn(c))
    ensures SameHandled(s, ClientStep(s, ClientOpenIn(c)))
  {
  }

  lemma WriteCore(handler: Body -> int, s: State, c: nat)
    requires Core(handler, s) && Enabled(s, ClientWrite(c))
    ensures Core(handler, ClientStep(s, ClientWrite(c)))
  {
  }

  lemma WriteHandled(handler: Body -> int, s: State, c: nat)
    requires Core(handler, s) && Enabled(s, ClientWrite(c))
    ensures SameHandled(s, ClientStep(s, ClientWrite(c)))
  {
  }

  lemma CloseCore(handler: Body -> int, s: State, c: nat)
    requires Core(handler, s) && Enabled(s, ClientClose(c))
    ensures Core(handler, ClientStep(s, ClientClose(c)))
  {
    DiscardNothing(At(s, c, Closed));
    hide State.Discard, State.HasWriter;
  }

  lemma CloseHandled(handler: Body -> int, s: State, c: nat)
    requires Core(handler, s) && Enabled(s, ClientClose(c))
    ensures SameHandled(s, ClientStep(s, ClientClose(c)))
  {
    DiscardNothing(At(s, c, Closed));
    hide State.Discard, State.HasWriter;
  }

  lemma ReadCore(handler: Body -> int, s: State, c: nat)
    requires Core(handler, s) && Enabled(s, ClientRead(c))
    ensures Core(handler, ClientStep(s, ClientRead(c)))
  {
  }

  lemma ReadHandled(handler: Body -> int, s: State, c: nat)
    requires Core(handler, s) && Enabled(s, ClientRead(c))
    ensures SameHandled(s, ClientStep(s, ClientRead(c)))
  {
  }

  /** At the end of file the client has the one reply to its request. */
  lemma EofHasReply(handler: Body -> int, s: State, c: nat)
    requires Core(handler, s) && Enabled(s, ClientEof(c))
    ensures s.lock == ByClient(c) && s.clients[c].sent != []
    ensures s.fifo == [] && Listening(s.daemon)
    ensures var m := Current(s, c); s.clients[c].buf == [Reply(m, handler(m.body))]
  {
    assert s.out + s.clients[c].buf == s.clients[c].buf;
  }

  lemma EofCore(handler: Body -> int, s: State, c: nat)
    requires Core(handler, s) && Enabled(s, ClientEof(c))
    ensures Core(handler, ClientStep(s, ClientEof(c)))
  {
    EofHasReply(handler, s, c);
  }

  lemma EofHandled(handler: Body -> int, s: State, c: nat)
    requires Core(handler, s) && Enabled(s, ClientEof(c))
    ensures SameHandled(s, ClientStep(s, ClientEof(c)))
  {
    EofHasReply(handler, s, c);
  }

  lemma UnlockCore(handler: Body -> int, s: State, c: nat)
    requires Core(handler, s) && Enabled(s, ClientUnlock(c))
    ensures Core(handler, ClientStep(s, ClientUnlock(c)))
  {
  }

  lemma UnlockHandled(handler: Body -> int, s: State, c: nat)
    requires Core(handler, s) && Enabled(s, ClientUnlock(c))
    ensures SameHandled(s, ClientStep(s, ClientUnlock(c)))
  {
  }

  lemma DaemonReadCore(handler: Body -> int, s: State)
    requires Core(handler, s) && Enabled(s, DaemonRead)
    ensures Core(handler, DaemonStep(handler, s, DaemonRead))
  {
    if s.fifo != [] {
      SomeRequest(handler, s);
    }
  }

  lemma DaemonReadHandled(handler: Body -> int, s: State)
    requires Core(handler, s) && Enabled(s, DaemonRead)
    ensures SameHandled(s, DaemonStep(handler, s, DaemonRead))
  {
    if s.fifo != [] {
      SomeRequest(handler, s);
    }
  }

  lemma DaemonCloseCore(handler: Body -> int, s: State)
    requires Core(handler, s) && Enabled(s, DaemonClose)
    ensures Core(handler, DaemonStep(handler, s, DaemonClose))
  {
    HolderWaits(handler, s);
    DiscardNothing(s.(daemon := if s.daemon.GotRequest? then RequestGap(s.daemon.m) else EofGap));
    hide State.Discard, State.HasWriter;
  }

  lemma DaemonCloseHandled(handler: Body -> int, s: State)
    requires Core(handler, s) && Enabled(s, DaemonClose)
    ensures SameHandled(s, DaemonStep(handler, s, DaemonClose))
  {
    HolderWaits(handler, s);
    DiscardNothing(s.(daemon := if s.daemon.GotRequest? then RequestGap(s.daemon.m) else EofGap));
    hide State.Discard, State.HasWriter;
  }

  lemma ReopenCore(handler: Body -> int, s: State)
    requires Core(handler, s) && Enabled(s, DaemonReopen)
    ensures Core(handler, DaemonStep(handler, s, DaemonReopen))
  {
    HolderWaits(handler, s);
  }

  lemma ReopenHandled(handler: Body -> int, s: State)
    requires Core(handler, s) && Enabled(s, DaemonReopen)
    ensures SameHandled(s, DaemonStep(handler, s, DaemonReopen))
  {
    HolderWaits(handler, s);
  }

  lemma OpenReplyCore(handler: Body -> int, s: State)
    requires Core(handler, s) && Enabled(s, DaemonOpenReply)
    ensures Core(handler, DaemonStep(handler, s, DaemonOpenReply))
  {
    HolderWaits(handler, s);
  }

  lemma OpenReplyHandled(handler: Body -> int, s: State)
    requires Core(handler, s) && Enabled(s, DaemonOpenReply)
    ensures SameHandled(s, DaemonStep(handler, s, DaemonOpenReply))
  {
    HolderWaits(handler, s);
  }

  lemma WriteReplyCore(handler: Body -> int, s: State)
    requires Core(handler, s) && Enabled(s, DaemonWriteReply)
    ensures Core(handler, DaemonStep(handler, s, DaemonWriteReply))
  {
    HolderWaits(handler, s);
  }

  lemma WriteReplyHandled(handler: Body -> int, s: State)
    requires Core(handler, s) && Enabled(s, DaemonWriteReply)
    ensures SameHandled(s, DaemonStep(handler, s, DaemonWriteReply))
  {
    HolderWaits(handler, s);
  }

  lemma CloseReplyCore(handler: Body -> int, s: State)
    requires Core(handler, s) && Enabled(s, DaemonCloseReply)
    ensures Core(handler, DaemonStep(handler, s, DaemonCloseReply))
  {
    HolderWaits(handler, s);
  }

  lemma CloseReplyHandled(handler: Body -> int, s: State)
    requires Core(handler, s) && Enabled(s, DaemonCloseReply)
    ensures SameHandled(s, DaemonStep(handler, s, DaemonCloseReply))
  {
    HolderWaits(handler, s);
  }

  lemma TryLockCore(handler: Body -> int, s: State)
    requires Core(handler, s) && Enabled(s, DaemonTryLock)
    ensures Core(handler, DaemonStep(handler, s, DaemonTryLock))
  {
  }

  lemma TryLockHandled(handler: Body -> int, s: State)
    requires Core(handler, s) && Enabled(s, DaemonTryLock)
    ensures SameHandled(s, DaemonStep(handler, s, DaemonTryLock))
  {
  }

  lemma DaemonUnlockCore(handler: Body -> int, s: State)
    requires Core(handler, s) && Enabled(s, DaemonUnlock)
    ensures Core(handler, DaemonStep(handler, s, DaemonUnlock))
  {
  }

  lemma DaemonUnlockHandled(handler: Body -> int, s: State)
    requires Core(handler, s) && Enabled(s, DaemonUnlock)
    ensures SameHandled(s, DaemonStep(handler, s, DaemonUnlock))
  {
  }

  lemma HandleCore(handler: Body -> int, s: State)
    requires Core(handler, s) && Enabled(s, DaemonHandle)
    ensures Core(handler, DaemonStep(handler, s, DaemonHandle))
  {
    HolderWaits(handler, s);
  }

  /** The handler runs for the request that is under way, which is recorded for the first time. */
  lemma HandleServed(handler: Body -> int, s: State)
    requires Inv(handler, s) && Enabled(s, DaemonHandle)
    ensures ServedOk(DaemonStep(handler, s, DaemonHandle))
  {
    HolderWaits(handler, s);
    var c, t := s.lock.c, DaemonStep(handler, s, DaemonHandle);
    assert s.daemon == Reopened(Current(s, c));
    assert Handled(s, c) == |s.clients[c].sent| - 1 && Handled(t, c) == |s.clients[c].sent|;
    assert forall d: nat :: d < |s.clients| && d != c ==> Handled(t, d) == Handled(s, d);
    assert t.clients == s.clients && t.served == s.served + [Current(s, c)];
    hide Handled, Core, Enabled, DaemonStep;
    RecordMore(s, t, c);
  }

  lemma RecordMore(s: State, t: State, c: nat)
    requires ServedOk(s) && t.clients == s.clients && c < |s.clients| && s.clients[c].sent != []
    requires t.served == s.served + [Current(s, c)]
    requires Handled(s, c) == |s.clients[c].sent| - 1 && Handled(t, c) == |s.clients[c].sent|
    requires forall d: nat :: d < |s.clients| && d != c ==> Handled(t, d) == Handled(s, d)
    ensures ServedOk(t)
  {
    hide Handled;
    assert Current(s, c) !in s.served;
    assert forall x :: x in t.served <==> x in s.served || x == Current(s, c);
  }

  lemma StepCore(handler: Body -> int, s: State, a: Action)
    requires Core(handler, s) && Enabled(s, a)
    ensures Core(handler, Step(handler, s, a))
  {
    hide Core, Enabled;
    match a
    case ClientLock(c, body) => LockCore(handler, s, c, body);
    case ClientOpenOut(c) => OpenOutCore(handler, s, c);
    case ClientOpenIn(c) => OpenInCore(handler, s, c);
    case ClientWrite(c) => WriteCore(handler, s, c);
    case ClientClose(c) => CloseCore(handler, s, c);
    case ClientRead(c) => ReadCore(handler, s, c);
    case ClientEof(c) => EofCore(handler, s, c);
    case ClientUnlock(c) => UnlockCore(handler, s, c);
    case DaemonRead => DaemonReadCore(handler, s);
    case DaemonClose => DaemonCloseCore(handler, s);
    case DaemonReopen => ReopenCore(handler, s);
    case DaemonOpenReply => OpenReplyCore(handler, s);
    case DaemonWriteReply => WriteReplyCore(handler, s);
    case DaemonCloseReply => CloseReplyCore(handler, s);
    case DaemonTryLock => TryLockCore(handler, s);
    case DaemonUnlock => DaemonUnlockCore(handler, s);
    case DaemonHandle => HandleCore(handler, s);
  }

  lemma StepHandled(handler: Body -> int, s: State, a: Action)
    requires Core(handler, s) && Enabled(s, a) && a != DaemonHandle
    ensures SameHandled(s, Step(handler, s, a))
  {
    hide Core, Enabled, SameHandled;
    match a
    case ClientLock(c, body) => LockHandled(handler, s, c, body);
    case ClientOpenOut(c) => OpenOutHandled(handler, s, c);
    case ClientOpenIn(c) => OpenInHandled(handler, s, c);
    case ClientWrite(c) => WriteHandled(handler, s, c);
    case ClientClose(c) => CloseHandled(handler, s, c);
    case ClientRead(c) => ReadHandled(handler, s, c);
    case ClientEof(c) => EofHandled(handler, s, c);
    case ClientUnlock(c) => UnlockHandled(handler, s, c);
    case DaemonRead => DaemonReadHandled(handler, s);
    case DaemonClose => DaemonCloseHandled(handler, s);
    case DaemonReopen => ReopenHandled(handler, s);
    case DaemonOpenReply => OpenReplyHandled(handler, s);
    case DaemonWriteReply => WriteReplyHandled(handler, s);
    case DaemonCloseReply => CloseReplyHandled(handler, s);
    case DaemonTryLock => TryLockHandled(handler, s);
    case DaemonUnlock => DaemonUnlockHandled(handler, s);
  }

  lemma StepKeepsInv(handler: Body -> int, s: State, a: Action)
    requires Inv(handler, s)
    ensures Inv(handler, Step(handler, s, a))
  {
    hide Core, ServedOk, SameHandled, Enabled;
    if Enabled(s, a) {
      StepCore(handler, s, a);
      if a == DaemonHandle {
        HandleServed(handler, s);
      } else {
        StepHandled(handler, s, a);
        ServedSame(s, Step(handler, s, a));
      }
    }
  }

  lemma {:induction false} RunInv(handler: Body -> int, n: nat, actions: seq<Action>)
    ensures Inv(handler, Run(handler, n, actions))
  {
    if actions != [] {
      RunInv(handler, n, actions[..|actions| - 1]);
      StepKeepsInv(handler, Run(handler, n, actions[..|actions| - 1]), actions[|actions| - 1]);
    }
  }

  // ----- what every run keeps -----

  /** While the daemon's read end is closed or about to be closed, no request is in the fifo. */
  lemma FifoEmptyAtClose(handler: Body -> int, n: nat, actions: seq<Action>)
    ensures
      var s := Run(handler, n, actions);
      Enabled(s, DaemonClose) || !s.ReaderOpen() ==> s.fifo == []
  {
    RunInv(handler, n, actions);
    HolderWaits(handler, Run(handler, n, actions));
  }

  /** No client opens the request fifo, or writes to it, while the daemon has it closed. */
  lemma NoOpenInGap(handler: Body -> int, n: nat, actions: seq<Action>, c: nat)
    ensures
      var s := Run(handler, n, actions);
      Enabled(s, ClientOpenIn(c)) || Enabled(s, ClientWrite(c)) ==> s.ReaderOpen()
  {
    RunInv(handler, n, actions);
  }

  /** At most one process holds the lock, and a client holds it throughout its exchange. */
  lemma OneExchange(handler: Body -> int, n: nat, actions: seq<Action>, c: nat, d: nat)
    requires c < n && d < n
    ensures
      var s := Run(handler, n, actions);
      && |s.clients| == n
      && (s.clients[c].pc != Idle && s.clients[d].pc != Idle ==> c == d)
      && (s.clients[c].pc != Idle ==> s.daemon !in {EofLocked, EofGap, EofReopened})
  {
    RunInv(handler, n, actions);
    RunClients(handler, n, actions);
  }

  lemma {:induction false} RunClients(handler: Body -> int, n: nat, actions: seq<Action>)
    ensures |Run(handler, n, actions).clients| == n
  {
    if actions != [] {
      RunClients(handler, n, actions[..|actions| - 1]);
    }
  }

  /**
   * Nothing is lost, no exchange fails, each client has the reply to each of its requests in order,
   * except for the one that is under way, and the handler ran once for every request answered.
   */
  lemma OneReplyEach(handler: Body -> int, n: nat, actions: seq<Action>, c: nat)
    requires c < n
    ensures
      var s := Run(handler, n, actions);
      && |s.clients| == n && s.lost == [] && Distinct(s.served)
      && var k := s.clients[c];
      && k.errors == 0
      && |k.sent| == |k.received| + (if k.pc == Idle || k.pc == Finished then 0 else 1)
      && forall i :: 0 <= i < |k.received| ==>
           var m := Message(c, i, k.sent[i]);
           k.received[i] == Reply(m, handler(k.sent[i])) && m in s.served
  {
    RunInv(handler, n, actions);
    RunClients(handler, n, actions);
    assert ClientOk(handler, c, Run(handler, n, actions).clients[c]);
  }

  /** How far the running exchange, or the daemon's reopening, still has to go. */
  ghost function Distance(s: State): nat {
    (match s.lock
     case Free => 0
     case ByDaemon => 0
     case ByClient(c) =>
       if c >= |s.clients| then 0
       else match s.clients[c].pc
         case Idle => 0
         case Locked => 70
         case OutOpen => 60
         case InOpen => 50
         case Wrote => 40
         case Closed => if s.clients[c].buf == [] then 30 else 20
         case Finished => 10)
    + (match s.daemon
       case GotRequest(_) => 7
       case RequestGap(_) => 6
       case Reopened(_) => 5
       case Answered(_) => 4
       case ReplyOpen(_) => 3
       case ReplyWritten => 2
       case EofLocked => 4
       case EofGap => 3
       case EofReopened => 2
       case GotEof => if s.fifo != [] then 9 else 1
       case Ready => if s.fifo != [] then 8 else 0)
  }

  /** A step of the client that holds the lock, or of the daemon where the client waits for it. */
  ghost function NextStep(s: State): Action {
    match s.lock
    case ByClient(c) =>
      if c < |s.clients| then
        match s.clients[c].pc
        case Locked => ClientOpenOut(c)
        case OutOpen => ClientOpenIn(c)
        case InOpen => ClientWrite(c)
        case Wrote => ClientClose(c)
        case Finished => ClientUnlock(c)
        case _ => if s.out != [] then ClientRead(c) else if s.hup then ClientEof(c) else DaemonNext(s.daemon)
      else DaemonNext(s.daemon)
    case _ => DaemonNext(s.daemon)
  }

  ghost function DaemonNext(d: Daemon): Action {
    match d
    case Ready => DaemonRead
    case GotEof => DaemonTryLock
    case GotRequest(_) => DaemonClose
    case RequestGap(_) => DaemonReopen
    case Reopened(_) => DaemonHandle
    case Answered(_) => DaemonOpenReply
    case ReplyOpen(_) => DaemonWriteReply
    case ReplyWritten => DaemonCloseReply
    case EofLocked => DaemonClose
    case EofGap => DaemonReopen
    case EofReopened => DaemonUnlock
  }

  lemma ClientMoves(handler: Body -> int, s: State)
    requires Core(handler, s) && NextStep(s).OfClient()
    ensures Enabled(s, NextStep(s)) && Distance(ClientStep(s, NextStep(s))) < Distance(s)
  {
    assert ClientOk(handler, s.lock.c, s.clients[s.lock.c]);
  }

  lemma DaemonMoves(handler: Body -> int, s: State)
    requires Core(handler, s) && s.lock != Free && !NextStep(s).OfClient()
    ensures Enabled(s, NextStep(s)) && Distance(DaemonStep(handler, s, NextStep(s))) < Distance(s)
  {
    if s.lock.ByClient? {
      assert s.clients[s.lock.c].pc == Closed && s.out == [] && !s.hup;
      assert s.out + s.clients[s.lock.c].buf == s.clients[s.lock.c].buf;
    }
  }

  /** No exchange is ever stuck: while a process holds the lock, some step brings it closer to its end. */
  lemma NeverStuck(handler: Body -> int, n: nat, actions: seq<Action>)
    requires Run(handler, n, actions).lock != Free
    ensures
      var s := Run(handler, n, actions);
      Enabled(s, NextStep(s)) && Distance(Step(handler, s, NextStep(s))) < Distance(s)
  {
    var s := Run(handler, n, actions);
    RunInv(handler, n, actions);
    hide Inv, Distance, Enabled;
    if NextStep(s).OfClient() {
      ClientMoves(handler, s);
    } else {
      DaemonMoves(handler, s);
    }
  }
}
