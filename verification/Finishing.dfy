/** Can the loop still end by itself once the room is closing? Exactly unless someone is being
    greeted under a name too long to announce. */
module Finishing {
  import opened Frames
  import opened Connections
  import opened Interest
  import opened Room
  import opened ServerSpec
  import opened ServerInvariant
  import opened ServerHandlers
  import opened ServerDispatch
  import opened ServerTheorems
  import opened ServerShutdown
  import opened ServerStops
  import opened QuitRuns
  import CloseOrder

  /** The loop of a closing server ends because all output buffers are empty, every handler before
      that having returned true. */
  predicate EndsDrained(s: Server, wakeups: seq<Wakeup>)
    decreases |wakeups|
  {
    && wakeups != []
    && match wakeups[0]
       case Interrupted => EndsDrained(s, wakeups[1..])
       case WaitFailed => false
       case Woken(revents, envs) =>
         var r := RunBatch(s, Wait(s.entries, revents, 0, MAX_EPOLL_EVENTS), envs, 0);
         r.ok && (AllEmpty(r.server.conns) || EndsDrained(r.server, wakeups[1..]))
  }

  predicate Unannounceable(c: Conn) {
    c.state == SENDING_SERVER_HELLO && |c.name| + 22 > MAX_PAYLOAD_SIZE
  }

  predicate Stuck(s: Server) {
    exists k :: 0 <= k < |s.conns| && Unannounceable(s.conns[k])
  }

  /** `EndsDrained` is an end of the event loop, with nothing left to send. */
  lemma {:induction false} DrainedEnds(s: Server, wakeups: seq<Wakeup>)
    requires ServerInv(s) && s.closing && EndsDrained(s, wakeups)
    ensures var r := EventLoop(s, wakeups);
            !r.ok && ServerInv(r.server) && r.server.closing && AllEmpty(r.server.conns)
    decreases |wakeups|
  {
    hide Rest, Halted, RunBatch, Wait, Grows, AllEmpty;
    var w := wakeups[0];
    ClosingWakeup(s, w);
    if w.Woken? {
      ClosingRun(s, Wait(s.entries, w.revents, 0, MAX_EPOLL_EVENTS), w.envs, 0);
    }
    if HandleWakeup(s, w).ok {
      DrainedEnds(HandleWakeup(s, w).server, wakeups[1..]);
    }
  }

  // ---------- Nobody who is stuck gets unstuck ----------

  /** What an event of a closing room does to the seats: nothing, but that someone with a name that
      can be announced may join. */
  lemma SeatsKept(s: Server, r: Ready, env: Env)
    requires ServerInv(s) && s.closing && Dispatch(s, r, env).ok
    ensures var t := Dispatch(s, r, env).server;
            && |t.conns| == |s.conns|
            && forall k | 0 <= k < |s.conns| ::
                 Unannounceable(t.conns[k]) <==> Unannounceable(s.conns[k])
  {
    hide Rest, Lookup, Flush, Ctl, Admit;
    if IsSend(s, r) {
      var i := Lookup(s.conns, r.fd);
      var c := s.conns[i];
      InvAt(s, i);
      assert c.written <= |c.outBuffer| by { GoodWritten(s.name, s.log, c); }
      FlushKeeps(c, env.sends);
      if Flush(c, env.sends).ok && c.state == SENDING_SERVER_HELLO {
        AdmitSeats(Put(s, i, Flush(c, env.sends).conn), i);
      }
    }
  }

  lemma AdmitSeats(s: Server, i: nat)
    requires i < |s.conns| && s.conns[i].state == SENDING_SERVER_HELLO
    ensures var r := Admit(s, i);
            r.ok ==>
              && |r.server.conns| == |s.conns|
              && forall k | 0 <= k < |s.conns| ::
                   Unannounceable(r.server.conns[k]) <==> Unannounceable(s.conns[k])
  {
    hide Deliver;
    AdmitExact(s, i);
    var c := s.conns[i].(state := ACTIVE);
    var e := Joined(c.peer, c.name);
    DeliverStates(Put(s, i, c), e);
    DeliverNames(Put(s, i, c), e);
  }

  lemma DeliverNames(s: Server, e: Event)
    ensures var t := Deliver(s, e).server;
            |t.conns| == |s.conns| && forall k | 0 <= k < |s.conns| :: t.conns[k].name == s.conns[k].name
  {
    hide Render, Legal, QueueMessage;
    var t := Deliver(s, e).server;
    forall k | 0 <= k < |s.conns| ensures t.conns[k].name == s.conns[k].name {
      QueueIdentity(s.conns[k], Render(s.name, e));
    }
  }

  lemma StuckKept(s: Server, r: Ready, env: Env)
    requires ServerInv(s) && s.closing && Dispatch(s, r, env).ok
    ensures Stuck(Dispatch(s, r, env).server) <==> Stuck(s)
  {
    hide Rest, Dispatch, Unannounceable;
    SeatsKept(s, r, env);
  }

  /** What one event of a closing room leaves, if its handler returns true. */
  lemma ClosingDispatch(s: Server, r: Ready, env: Env)
    requires ServerInv(s) && s.closing && Dispatch(s, r, env).ok
    ensures var t := Dispatch(s, r, env).server;
            ServerInv(t) && t.closing
  {
    hide Rest, Halted, HandleSend, Lookup, Grows;
    if IsSend(s, r) {
      SendKeeps(s, r.fd, env.sends);
      SendGrows(s, r, env.sends);
    }
  }

  lemma {:induction false} StuckBatch(s: Server, batch: seq<Ready>, envs: seq<Env>, k: nat)
    requires ServerInv(s) && s.closing && RunBatch(s, batch, envs, k).ok
    ensures Stuck(RunBatch(s, batch, envs, k).server) <==> Stuck(s)
    decreases |batch| - k
  {
    hide Rest, Dispatch, Stuck;
    if k < |batch| {
      StuckKept(s, batch[k], EnvAt(envs, k));
      ClosingDispatch(s, batch[k], EnvAt(envs, k));
      StuckBatch(Dispatch(s, batch[k], EnvAt(envs, k)).server, batch, envs, k + 1);
    }
  }

  /** Whoever is being greeted has bytes to send. */
  lemma StuckHasBytes(s: Server)
    requires ServerInv(s) && Stuck(s)
    ensures !AllEmpty(s.conns)
  {
    hide Rest;
    var k: nat :| k < |s.conns| && Unannounceable(s.conns[k]);
    InvAt(s, k);
    StateBuffer(s.name, s.log, s.conns[k]);
  }

  lemma {:induction false} StuckNeverEnds(s: Server, wakeups: seq<Wakeup>)
    requires ServerInv(s) && s.closing && Stuck(s)
    ensures !EndsDrained(s, wakeups)
    decreases |wakeups|
  {
    hide Rest, Halted, RunBatch, Wait, Grows, AllEmpty, Stuck;
    if wakeups != [] {
      var w := wakeups[0];
      if w.Woken? {
        var batch := Wait(s.entries, w.revents, 0, MAX_EPOLL_EVENTS);
        var r := RunBatch(s, batch, w.envs, 0);
        if r.ok {
          ClosingRun(s, batch, w.envs, 0);
          StuckBatch(s, batch, w.envs, 0);
          StuckHasBytes(r.server);
          StuckNeverEnds(r.server, wakeups[1..]);
        }
      } else {
        StuckNeverEnds(s, wakeups[1..]);
      }
    }
  }

  // ---------- Otherwise the room drains ----------

  /** The event that gets the bytes of connection k out. */
  lemma Progress(s: Server, k: nat)
    requires ServerInv(s) && s.closing && !Stuck(s)
    requires k < |s.conns| && s.conns[k].outBuffer != []
    ensures k + 2 < |s.entries| && s.entries[k + 2].fd == s.conns[k].fd
    ensures var c := s.conns[k];
            var d := Dispatch(s, Ready(c.fd, ToEpoll(ROOM)), CloseOrder.TakesAll(c));
            d.ok && ServerInv(d.server) && d.server.closing && !Stuck(d.server) && Below(d.server, s)
  {
    hide Rest, Lookup, Dispatch, Flush, Below;
    var c := s.conns[k];
    var r, env := Ready(c.fd, ToEpoll(ROOM)), CloseOrder.TakesAll(c);
    assert !Unannounceable(c);
    RestWired(s, NOBODY);
    WiredFd(s, k);
    assert c.fd != STDIN_FD && Lookup(s.conns, c.fd) == k by { AtOwnFd(s, k); }
    InvAt(s, k);
    StateBuffer(s.name, s.log, c);
    assert Offered(env.sends) == |c.outBuffer|;
    assert LegalEnv(s, env);
    assert IsSend(s, r) && Moves(s, r, env);
    GoesOnExactly(s, r, env);
    DrainingProgress(s, r, env);
    ClosingDispatch(s, r, env);
    StuckKept(s, r, env);
  }

  lemma {:induction false} Drains(s: Server)
    requires ServerInv(s) && s.closing && !Stuck(s)
    ensures exists wakeups :: LegalRun(s, wakeups) && EndsDrained(s, wakeups)
    decreases Greeting(s.conns), TotalUnsent(s.conns)
  {
    hide Rest, Stuck, Dispatch, LegalRun, EndsDrained, Only;
    if AllEmpty(s.conns) {
      QuietEnds(s);
    } else {
      var k: nat :| k < |s.conns| && s.conns[k].outBuffer != [];
      var c := s.conns[k];
      Progress(s, k);
      var t := Dispatch(s, Ready(c.fd, ToEpoll(ROOM)), CloseOrder.TakesAll(c)).server;
      Drains(t);
      var later :| LegalRun(t, later) && EndsDrained(t, later);
      Prepend(s, k, CloseOrder.TakesAll(c), t, later);
    }
  }

  /** With nothing to send, the next wakeup ends the loop even if it reports nothing. */
  lemma QuietEnds(s: Server)
    requires s.closing && AllEmpty(s.conns)
    ensures exists wakeups :: LegalRun(s, wakeups) && EndsDrained(s, wakeups)
  {
    WaitNone(s.entries, [], 0, MAX_EPOLL_EVENTS);
    var wakeups := [Woken([], [])];
    assert RunBatch(s, [], [], 0) == Step(s, true);
    assert LegalRun(s, wakeups) && EndsDrained(s, wakeups);
  }

  lemma Prepend(s: Server, k: nat, env: Env, t: Server, later: seq<Wakeup>)
    requires k + 2 < |s.entries| && LegalEnv(s, env) && t.closing
    requires Dispatch(s, Ready(s.entries[k + 2].fd, ToEpoll(ROOM)), env) == Step(t, true)
    requires LegalRun(t, later) && EndsDrained(t, later)
    ensures exists wakeups :: LegalRun(s, wakeups) && EndsDrained(s, wakeups)
  {
    hide Dispatch, LegalEnv, AllEmpty, Wait, HandleWakeup, LegalWakeup, QuitInWakeup;
    var w := Only(k + 2, ROOM, env);
    OnlyDispatches(s, k + 2, ROOM, env, []);
    WaitOnly(s.entries, k + 2, ROOM, 0, MAX_EPOLL_EVENTS);
    var wakeups := [w] + later;
    assert wakeups[1..] == later;
    assert LegalRun(s, wakeups) by { LegalCons(s, w, later, t); }
    assert EndsDrained(s, wakeups);
  }

  lemma LegalCons(s: Server, w: Wakeup, later: seq<Wakeup>, t: Server)
    requires LegalWakeup(s, w) && HandleWakeup(s, w).server == t && LegalRun(t, later)
    ensures LegalRun(s, [w] + later)
  {
    hide HandleWakeup, LegalWakeup;
    assert ([w] + later)[1..] == later;
  }

  /** From any closing state some legal continuation ends the loop through empty buffers, with every
      handler returning true, if and only if nobody is being greeted under a name too long to
      announce. */
  lemma DrainableExactly(s: Server)
    requires ServerInv(s) && s.closing
    ensures (exists wakeups :: LegalRun(s, wakeups) && EndsDrained(s, wakeups)) <==> !Stuck(s)
  {
    hide Rest, Stuck, LegalRun, EndsDrained;
    if Stuck(s) {
      forall wakeups | LegalRun(s, wakeups)
        ensures !EndsDrained(s, wakeups)
      {
        StuckNeverEnds(s, wakeups);
      }
    } else {
      Drains(s);
    }
  }
}
