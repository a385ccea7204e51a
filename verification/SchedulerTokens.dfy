/**
 * Job tokens: while the jobserver is up, none is lost and none is invented, and the implicit slot
 * is free or held by exactly one task.
 */
module SchedulerTokens {
  import opened SchedulerModel
  import opened TaskQueues

  /** The tasks that hold `token`: one byte, or nothing for the implicit slot. */
  ghost function Holders(tokens: map<TaskId, seq<int>>, token: seq<int>): set<TaskId> {
    set t | t in tokens && tokens[t] == token
  }

  /** Everything that started in the fifo or with other clients is there or held by a task. */
  ghost predicate Conserved(start: Jobserver, j: Jobserver) {
    forall b: int ::
      multiset(j.fifo)[b] + j.others[b] + |Holders(j.tokens, [b])| == multiset(start.fifo)[b] + start.others[b]
  }

  /** The implicit slot is free or held by one task, if there is one. */
  ghost predicate SlotOk(start: Jobserver, j: Jobserver) {
    |Holders(j.tokens, [])| + (if j.implicit then 1 else 0) == if start.implicit then 1 else 0
  }

  ghost predicate SmallTokens(j: Jobserver) {
    forall t :: t in j.tokens ==> |j.tokens[t]| <= 1
  }

  ghost predicate ServerOk(start: Jobserver, j: Jobserver) {
    j.up ==> Conserved(start, j) && SlotOk(start, j) && SmallTokens(j)
  }

  /** Giving a token to a task that has none adds one holder of that token. */
  lemma HoldersAdd(tokens: map<TaskId, seq<int>>, t: TaskId, given: seq<int>, token: seq<int>)
    requires t !in tokens
    ensures |Holders(tokens[t := given], token)| == |Holders(tokens, token)| + if given == token then 1 else 0
  {
    var before, after := Holders(tokens, token), Holders(tokens[t := given], token);
    if given == token {
      assert after == before + {t};
    } else {
      assert after == before;
    }
  }

  lemma HoldersRemove(tokens: map<TaskId, seq<int>>, t: TaskId, token: seq<int>)
    requires t in tokens
    ensures |Holders(tokens, token)| == |Holders(tokens - {t}, token)| + if tokens[t] == token then 1 else 0
  {
    HoldersAdd(tokens - {t}, t, tokens[t], token);
    assert (tokens - {t})[t := tokens[t]] == tokens;
  }

  lemma RivalsFrame(cfg: Config, j: Jobserver, now: nat)
    ensures RivalsAct(cfg, j, now) == j.(fifo := RivalsAct(cfg, j, now).fifo, others := RivalsAct(cfg, j, now).others)
  {
  }

  lemma RivalsKeepServer(cfg: Config, start: Jobserver, j: Jobserver, now: nat)
    requires Conserved(start, j)
    ensures Conserved(start, RivalsAct(cfg, j, now))
    ensures RivalsAct(cfg, j, now) == j.(fifo := RivalsAct(cfg, j, now).fifo, others := RivalsAct(cfg, j, now).others)
  {
    var f, pool := cfg.rivals(now), multiset(j.fifo) + j.others;
    if multiset(f) <= pool {
      forall b: int
        ensures multiset(f)[b] + (pool - multiset(f))[b] == multiset(j.fifo)[b] + j.others[b]
      {
        assert pool[b] == multiset(j.fifo)[b] + j.others[b];
      }
    }
  }

  /** A task without a token takes the first byte of the fifo. */
  lemma TakeByte(start: Jobserver, j: Jobserver, t: TaskId)
    requires Conserved(start, j) && SlotOk(start, j) && SmallTokens(j) && j.fifo != [] && t !in j.tokens
    ensures
      var r := j.(fifo := j.fifo[1..], tokens := j.tokens[t := [j.fifo[0]]]);
      Conserved(start, r) && SlotOk(start, r) && SmallTokens(r)
  {
    assert j.fifo == [j.fifo[0]] + j.fifo[1..];
    forall b: int {
      HoldersAdd(j.tokens, t, [j.fifo[0]], [b]);
    }
    HoldersAdd(j.tokens, t, [j.fifo[0]], []);
  }

  /** A task without a token takes the free implicit slot. */
  lemma TakeSlot(start: Jobserver, j: Jobserver, t: TaskId)
    requires Conserved(start, j) && SlotOk(start, j) && SmallTokens(j) && j.implicit && t !in j.tokens
    ensures
      var r := j.(implicit := false, tokens := j.tokens[t := []]);
      Conserved(start, r) && SlotOk(start, r) && SmallTokens(r)
  {
    forall b: int {
      HoldersAdd(j.tokens, t, [], [b]);
    }
    HoldersAdd(j.tokens, t, [], []);
  }

  /** An acquired token, given to a task without one, is accounted for; no token means an empty fifo. */
  lemma AcquireKeepsServer(cfg: Config, start: Jobserver, s: State, t: TaskId)
    requires ServerOk(start, s.server) && t !in s.server.tokens
    ensures
      match AcquireJobToken(cfg, s)
      case WouldBlock(w) =>
        && ServerOk(start, w.server)
        && w.server.up
        && !w.server.implicit
        && w.server.fifo == []
        && w.server.tokens == s.server.tokens
        && w == s.(server := w.server, clock := w.clock)
      case Token(a, token) => ServerOk(start, a.server.(tokens := a.server.tokens[t := token]))
  {
    hide Conserved, SlotOk, SmallTokens;
    if s.server.up {
      if s.server.implicit {
        TakeSlot(start, s.server, t);
      } else {
        RivalsKeepServer(cfg, start, s.server, s.clock);
        var j := RivalsAct(cfg, s.server, s.clock);
        assert SlotOk(start, j) && SmallTokens(j) by {
          RivalsKeepRest(start, s.server, j);
        }
        if !cfg.ioError(s.clock) && j.fifo != [] {
          TakeByte(start, j, t);
        }
      }
    }
  }

  lemma RivalsKeepRest(start: Jobserver, j: Jobserver, r: Jobserver)
    requires SlotOk(start, j) && SmallTokens(j) && r.tokens == j.tokens && r.implicit == j.implicit
    ensures SlotOk(start, r) && SmallTokens(r)
  {
  }

  /** The board is the same, or termination was requested and its check is scheduled. */
  ghost predicate MayTerminate(s: State, r: State) {
    || (r.board == s.board && r.terminated == s.terminated)
    || (r.board == s.board.(loop := s.board.loop + [TerminationCheck]) && r.terminated)
  }

  lemma DiedFrame(s: State)
    ensures
      var r := ServerDied(s);
      MayTerminate(s, r) && r.plan == s.plan && r.server == s.server.(up := false) && r.terminatedTasks == s.terminatedTasks
    ensures s.terminated ==> ServerDied(s).terminated
  {
  }

  /** Acquiring a token touches nothing of the board but the event loop. */
  lemma AcquireFrame(cfg: Config, s: State)
    requires s.terminationPending ==> s.terminated
    ensures
      match AcquireJobToken(cfg, s)
      case WouldBlock(w) => true
      case Token(a, _) =>
        && a.server.tokens == s.server.tokens
        && MayTerminate(s, a)
        && a.plan == s.plan
        && a.terminatedTasks == s.terminatedTasks
        && (a.terminationPending ==> a.terminated)
  {
    hide RivalsAct;
    var j := RivalsAct(cfg, s.server, s.clock);
    RivalsFrame(cfg, s.server, s.clock);
    DiedFrame(s.(server := j, clock := s.clock + 1));
  }

  lemma ReturnByte(start: Jobserver, j: Jobserver, t: TaskId)
    requires Conserved(start, j) && SlotOk(start, j) && SmallTokens(j) && t in j.tokens && j.tokens[t] != []
    ensures
      var r := j.(fifo := j.fifo + j.tokens[t], tokens := j.tokens - {t});
      Conserved(start, r) && SlotOk(start, r) && SmallTokens(r)
  {
    var token := j.tokens[t];
    assert token == [token[0]];
    forall b: int {
      HoldersRemove(j.tokens, t, [b]);
    }
    HoldersRemove(j.tokens, t, []);
  }

  lemma ReturnSlot(start: Jobserver, j: Jobserver, t: TaskId)
    requires Conserved(start, j) && SlotOk(start, j) && SmallTokens(j) && t in j.tokens && j.tokens[t] == []
    ensures !j.implicit
    ensures
      var r := j.(implicit := true, tokens := j.tokens - {t});
      Conserved(start, r) && SlotOk(start, r) && SmallTokens(r)
  {
    forall b: int {
      HoldersRemove(j.tokens, t, [b]);
    }
    HoldersRemove(j.tokens, t, []);
  }

  /** Releasing gives the token back, once; the assertion in _release_job_token holds. */
  lemma ReleaseKeepsServer(cfg: Config, start: Jobserver, s: State, t: TaskId)
    requires ServerOk(start, s.server)
    ensures !ReleaseAssertionFails(s.server, t)
    ensures ServerOk(start, ReleaseJobToken(cfg, s, t).server)
  {
    hide Conserved, SlotOk, SmallTokens;
    if t in s.server.tokens && s.server.up {
      if s.server.tokens[t] == [] {
        ReturnSlot(start, s.server, t);
      } else {
        ReturnByte(start, s.server, t);
      }
    }
  }

  /** Releasing a token touches nothing but the jobserver, the clock and what termination needs. */
  lemma ReleaseFrame(cfg: Config, s: State, t: TaskId)
    ensures
      var r := ReleaseJobToken(cfg, s, t);
      && r == s.(board := r.board, server := r.server, terminated := r.terminated,
                 terminationPending := r.terminationPending, clock := r.clock)
      && r.board == s.board.(loop := r.board.loop)
      && (s.server.tokens == map[] ==> r.server == s.server)
      && (s.terminated ==> r.terminated)
  {
    hide *;
    ReleaseIs(cfg, s, t);
    if t in s.server.tokens {
      DiedIs(s.(server := s.server.(tokens := s.server.tokens - {t}), clock := s.clock + 1));
    }
  }

  /** The four ways to release a token. */
  lemma ReleaseIs(cfg: Config, s: State, t: TaskId)
    ensures
      var r, j := ReleaseJobToken(cfg, s, t), s.server.(tokens := s.server.tokens - {t});
      || (t !in s.server.tokens && r == s)
      || (t in s.server.tokens && r == s.(server := j))
      || (t in s.server.tokens && r == s.(server := j.(implicit := true)))
      || (t in s.server.tokens && r == ServerDied(s.(server := j, clock := s.clock + 1)))
      || (t in s.server.tokens && r == s.(server := j.(fifo := j.fifo + s.server.tokens[t]), clock := s.clock + 1))
  {
    hide ServerDied;
  }

  lemma DiedIs(s: State)
    ensures
      var r := ServerDied(s);
      || r == s.(server := s.server.(up := false))
      || r == s.(server := s.server.(up := false), terminated := true, terminationPending := true,
                 board := s.board.(loop := s.board.loop + [TerminationCheck]))
    ensures ServerDied(s).terminated <==> s.terminated || !s.terminationPending
  {
  }

  /** Either nothing on the board changes, or termination was requested. */
  lemma ReleaseMayTerminate(cfg: Config, s: State, t: TaskId)
    requires s.terminationPending ==> s.terminated
    ensures
      var r := ReleaseJobToken(cfg, s, t);
      && r.server.tokens == s.server.tokens - {t}
      && MayTerminate(s, r)
      && (r.terminationPending ==> r.terminated)
  {
    hide ReleaseJobToken, ServerDied;
    ReleaseIs(cfg, s, t);
    if t in s.server.tokens {
      DiedIs(s.(server := s.server.(tokens := s.server.tokens - {t}), clock := s.clock + 1));
    } else {
      assert s.server.tokens - {t} == s.server.tokens;
    }
  }
}
