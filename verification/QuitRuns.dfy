/** Whole runs in which the host types /quit: where a run is split by it, what the members have
    been given when the loop ends, and exactly when CLOSE_CON is the last frame of every stream. */
module QuitRuns {
  import opened Frames
  import opened Options
  import opened Connections
  import opened Interest
  import opened Room
  import opened ServerSpec
  import opened ServerPlumbing
  import opened ServerInvariant
  import opened ServerHandlers
  import opened ServerShutdown
  import opened CloseOrder

  // ---------- Where the host types /quit ----------

  /** The server when the host types /quit, the batch that event belongs to with the number of the
      event behind it, and the wakeups behind that batch. */
  datatype Quit = Quit(server: Server, batch: seq<Ready>, envs: seq<Env>, next: nat, later: seq<Wakeup>)

  /** The first event from number k on that closes the room. */
  function QuitInBatch(s: Server, batch: seq<Ready>, envs: seq<Env>, k: nat, later: seq<Wakeup>): Option<Quit>
    decreases |batch| - k
  {
    if k >= |batch| then None
    else
      var r := Dispatch(s, batch[k], EnvAt(envs, k));
      if r.server.closing then Some(Quit(s, batch, envs, k + 1, later))
      else if r.ok then QuitInBatch(r.server, batch, envs, k + 1, later)
      else None
  }

  function QuitInWakeup(s: Server, w: Wakeup, later: seq<Wakeup>): Option<Quit> {
    if w.Woken? then QuitInBatch(s, Wait(s.entries, w.revents, 0, MAX_EPOLL_EVENTS), w.envs, 0, later) else None
  }

  function QuitIn(s: Server, wakeups: seq<Wakeup>): Option<Quit>
    decreases |wakeups|
  {
    if wakeups == [] then None
    else
      var q := QuitInWakeup(s, wakeups[0], wakeups[1..]);
      var r := HandleWakeup(s, wakeups[0]);
      if q.Some? then q
      else if r.ok then QuitIn(r.server, wakeups[1..])
      else None
  }

  /** What is left to do in the batch once /quit has been typed, /quit itself included. */
  function RestOfBatch(q: Quit): Step {
    var r := HandleStdin(q.server, Some(QuitCommand()));
    if r.ok then RunBatch(r.server, q.batch, q.envs, q.next) else r
  }

  /** From /quit to the end of the run. */
  function Goodbye(q: Quit): Step {
    var r := RestOfBatch(q);
    if r.ok && !AllEmpty(r.server.conns) then EventLoop(r.server, q.later) else Step(r.server, false)
  }

  /** Only the host's /quit closes the room. */
  lemma QuitCloses(s: Server, r: Ready, env: Env)
    requires Open(s) && ServerInv(s) && !s.closing
    ensures Dispatch(s, r, env).server.closing ==>
              Dispatch(s, r, env) == HandleStdin(s, Some(QuitCommand()))
  {
    hide Open, Rest, HandleAccept, HandleHello, HandleSend, HandleRead, Lookup, Deliver, QuitCommand, QueueClose;
    OpenAccept(s, env.accepts);
    OpenHello(s, r.fd, env.recvs);
    OpenRead(s, r.fd, env.recvs);
    if IsSend(s, r) {
      OpenSend(s, r, env.sends);
    }
    if env.line.Some? {
      DeliverClosing(s, HostSaid(env.line.value));
    }
  }

  /** Where /quit stands in a batch, the server before it is in order and open, and the batch
      continues as `RestOfBatch` says. */
  lemma {:induction false} QuitBatchExactly(s: Server, batch: seq<Ready>, envs: seq<Env>, k: nat, later: seq<Wakeup>)
    requires Open(s) && ServerInv(s) && !s.closing && LegalBatch(s, batch, envs, k)
    ensures var q := QuitInBatch(s, batch, envs, k, later);
            var r := RunBatch(s, batch, envs, k);
            && (r.server.closing <==> q.Some?)
            && (q.Some? ==> AtQuit(q.value) && q.value.later == later && r == RestOfBatch(q.value))
    decreases |batch| - k
  {
    hide Open, Rest, Halted, Dispatch, LegalEnv, HandleStdin, QuitCommand;
    if k < |batch| {
      var env := EnvAt(envs, k);
      var r := Dispatch(s, batch[k], env);
      DispatchKeeps(s, batch[k], env);
      OpenDispatch(s, batch[k], env);
      QuitCloses(s, batch[k], env);
      if r.server.closing {
        if r.ok {
          ClosingRun(r.server, batch, envs, k + 1);
        }
      } else if r.ok {
        QuitBatchExactly(r.server, batch, envs, k + 1, later);
      }
    }
  }

  ghost predicate AtQuit(q: Quit) {
    ServerInv(q.server) && Open(q.server) && !q.server.closing
  }

  /** Every run closes the room exactly where the host types /quit, and goes on from there as
      `Goodbye` says. */
  lemma {:induction false} QuitExactly(s: Server, wakeups: seq<Wakeup>)
    requires Open(s) && ServerInv(s) && !s.closing && LegalRun(s, wakeups)
    ensures var q := QuitIn(s, wakeups);
            var r := EventLoop(s, wakeups);
            && (r.server.closing <==> q.Some?)
            && (q.Some? ==> AtQuit(q.value) && r == Goodbye(q.value))
    decreases |wakeups|
  {
    hide Open, Rest, Halted, RunBatch, Wait, LegalBatch, RestOfBatch, AtQuit, AllEmpty, QuitInBatch;
    if wakeups != [] {
      var w := wakeups[0];
      WakeupKeeps(s, w);
      var r := HandleWakeup(s, w);
      if w.Woken? {
        var batch := Wait(s.entries, w.revents, 0, MAX_EPOLL_EVENTS);
        QuitBatchExactly(s, batch, w.envs, 0, wakeups[1..]);
        OpenBatch(s, batch, w.envs, 0);
      }
      if r.ok && r.server.closing {
        ClosingLoop(r.server, wakeups[1..]);
      } else if r.ok {
        QuitExactly(r.server, wakeups[1..]);
      }
    }
  }

  /** `QuitExactly` for a run from setup. */
  lemma QuitOfRun(name: Text, listenFd: int, wakeups: seq<Wakeup>)
    requires listenFd != STDIN_FD && LegalRun(Init(name, listenFd), wakeups)
    ensures var q := QuitIn(Init(name, listenFd), wakeups);
            var r := EventLoop(Init(name, listenFd), wakeups);
            && (r.server.closing <==> q.Some?)
            && (q.Some? ==> AtQuit(q.value) && r == Goodbye(q.value))
  {
    hide Rest, EventLoop, QuitIn, Goodbye, AtQuit;
    InitInv(name, listenFd);
    QuitExactly(Init(name, listenFd), wakeups);
  }

  // ---------- Everybody gets the farewell ----------

  /** From /quit on nobody leaves the list and what is queued stays queued. */
  lemma GoodbyeGrows(q: Quit)
    requires ServerInv(q.server)
    ensures var t := Goodbye(q).server;
            Halted(t) && Grows(AfterQuit(q.server), t)
  {
    hide Rest, Halted, Grows, RunBatch, EventLoop, HandleStdin, AllEmpty, QuitCommand;
    QuitQueues(q.server);
    var u := AfterQuit(q.server);
    InvHalts(u);
    GrowsSelf(u);
    ClosingRun(u, q.batch, q.envs, q.next);
    var r := RestOfBatch(q);
    if r.ok {
      InvHalts(r.server);
    }
    if r.ok && !AllEmpty(r.server.conns) {
      ClosingLoop(r.server, q.later);
      GrowsTrans(u, r.server, EventLoop(r.server, q.later).server);
    }
  }

  /** Whatever run the host ends with /quit: if all output buffers are empty in the end, which is
      how the loop ends by itself, every connection that was ACTIVE when /quit was typed has had
      its whole stream, CLOSE_CON included, taken by the kernel. */
  lemma FarewellDelivered(name: Text, listenFd: int, wakeups: seq<Wakeup>)
    requires listenFd != STDIN_FD && LegalRun(Init(name, listenFd), wakeups)
    requires QuitIn(Init(name, listenFd), wakeups).Some?
    ensures var s := QuitIn(Init(name, listenFd), wakeups).value.server;
            var t := EventLoop(Init(name, listenFd), wakeups).server;
            && |t.conns| == |s.conns|
            && (AllEmpty(t.conns) ==>
                  forall k | 0 <= k < |s.conns| && s.conns[k].state == ACTIVE ::
                    && t.conns[k].peer == s.conns[k].peer
                    && CLOSE_FRAME in t.conns[k].queued
                    && t.conns[k].sent == EncodeAll(t.conns[k].queued))
  {
    hide Rest, Halted, Open, QuitIn, EventLoop, Goodbye, EncodeAll, AfterQuit, Render;
    QuitOfRun(name, listenFd, wakeups);
    var q := QuitIn(Init(name, listenFd), wakeups).value;
    var s, u, t := q.server, AfterQuit(q.server), Goodbye(q).server;
    QuitQueues(s);
    GoodbyeGrows(q);
    if AllEmpty(t.conns) {
      forall k | 0 <= k < |s.conns| && s.conns[k].state == ACTIVE
        ensures t.conns[k].peer == s.conns[k].peer
        ensures CLOSE_FRAME in t.conns[k].queued
        ensures t.conns[k].sent == EncodeAll(t.conns[k].queued)
      {
        assert u.conns[k].queued[|s.conns[k].queued| + 1] == CLOSE_FRAME;
        assert t.conns[k].queued[|s.conns[k].queued| + 1] == CLOSE_FRAME;
        EmptyMeansSent(t, k);
      }
    }
  }

  // ---------- Is it the last thing they get? ----------

  /** Whatever follows /quit, CLOSE_CON stays last unless the server was spoiled for it. */
  lemma GoodbyeSafe(q: Quit)
    requires AtQuit(q) && !Spoiled(q.server)
    ensures EveryCloseLast(Goodbye(q).server)
  {
    hide Rest, Spoiled, Safe, Grows, Halted, RunBatch, EventLoop, HandleStdin, AllEmpty, AllCloseLast, QuitCommand;
    hide AllNoClose;
    RetiredSafe(q);
    QuitIsSafe(q.server);
    QuitQueues(q.server);
    var u := AfterQuit(q.server);
    SafeIsLast(u);
    ClosingRun(u, q.batch, q.envs, q.next);
    SafeRun(u, q.batch, q.envs, q.next);
    var r := RestOfBatch(q);
    SafeIsLast(r.server);
    if r.ok && !AllEmpty(r.server.conns) {
      SafeLoop(r.server, q.later);
    }
  }

  /** Nobody is retired after /quit, and who was retired before had no farewell. */
  lemma RetiredSafe(q: Quit)
    requires AtQuit(q)
    ensures AllCloseLast(Goodbye(q).server.retired)
  {
    hide Rest, Halted, Goodbye, AfterQuit, Render;
    QuitQueues(q.server);
    GoodbyeGrows(q);
    NoCloseIsLast(q.server.retired);
  }

  /** In every run from setup, CLOSE_CON is the last frame of every stream, unless the host typed
      /quit while someone was being greeted under a name whose join fits a frame and someone else
      was ACTIVE. */
  lemma CloseLastInRun(name: Text, listenFd: int, wakeups: seq<Wakeup>)
    requires listenFd != STDIN_FD && LegalRun(Init(name, listenFd), wakeups)
    ensures var q := QuitIn(Init(name, listenFd), wakeups);
            (q.Some? ==> !Spoiled(q.value.server)) ==>
              EveryCloseLast(EventLoop(Init(name, listenFd), wakeups).server)
  {
    hide Rest, Open, Spoiled, QuitIn, EventLoop, Goodbye, EveryCloseLast, AtQuit;
    QuitOfRun(name, listenFd, wakeups);
    NoCloseBeforeQuit(name, listenFd, wakeups);
    var q := QuitIn(Init(name, listenFd), wakeups);
    if q.Some? && !Spoiled(q.value.server) {
      GoodbyeSafe(q.value);
    } else if q.None? {
      OpenIsLast(EventLoop(Init(name, listenFd), wakeups).server);
    }
  }

  lemma OpenIsLast(s: Server)
    requires Open(s)
    ensures EveryCloseLast(s)
  {
    NoCloseIsLast(s.conns);
    NoCloseIsLast(s.retired);
  }

  /** The wakeup in which poll reports these bits on entry k and nothing else. */
  function Only(k: nat, bits: PollBits, env: Env): Wakeup {
    Woken(seq(k, _ => QUIET) + [bits], [env])
  }

  lemma {:induction false} WaitOnly(entries: seq<Entry>, k: nat, bits: PollBits, j: nat, room: nat)
    requires j <= k < |entries| && room > 0 && ToEpoll(bits) != NO_EVENTS
    ensures Wait(entries, seq(k, _ => QUIET) + [bits], j, room) == [Ready(entries[k].fd, ToEpoll(bits))]
    decreases k - j
  {
    if j < k {
      WaitOnly(entries, k, bits, j + 1, room);
    } else {
      WaitNone(entries, seq(k, _ => QUIET) + [bits], k + 1, room - 1);
    }
  }

  lemma {:induction false} WaitNone(entries: seq<Entry>, revents: seq<PollBits>, k: nat, room: nat)
    requires |revents| <= k
    ensures Wait(entries, revents, k, room) == []
    decreases |entries| - k
  {
    if k < |entries| {
      WaitNone(entries, revents, k + 1, room);
    }
  }

  /** Such a wakeup is one dispatch, legal exactly if the kernel's answers are. */
  lemma OnlyDispatches(s: Server, k: nat, bits: PollBits, env: Env, later: seq<Wakeup>)
    requires k < |s.entries| && ToEpoll(bits) != NO_EVENTS
    ensures var w := Only(k, bits, env);
            var ready := Ready(s.entries[k].fd, ToEpoll(bits));
            var r := Dispatch(s, ready, env);
            && (LegalWakeup(s, w) <==> LegalEnv(s, env))
            && HandleWakeup(s, w) == Step(r.server, r.ok && !(r.server.closing && AllEmpty(r.server.conns)))
            && RunBatch(s, [ready], [env], 0) == r
            && (r.server.closing ==> QuitInWakeup(s, w, later) == Some(Quit(s, [ready], [env], 1, later)))
  {
    hide Dispatch, LegalEnv, AllEmpty, Wait;
    WaitOnly(s.entries, k, bits, 0, MAX_EPOLL_EVENTS);
    var ready := Ready(s.entries[k].fd, ToEpoll(bits));
    var r := Dispatch(s, ready, env);
    assert RunBatch(r.server, [ready], [env], 1) == Step(r.server, true);
    assert LegalBatch(r.server, [ready], [env], 1);
  }

  const TYPED := PollBits(true, false, false, false, false)
  const ROOM := PollBits(false, false, true, false, false)

  const QUIT_TYPED := Env([], [], [], Some(QuitCommand()))

  lemma QuitDispatched(s: Server)
    requires ServerInv(s) && !s.closing
    ensures 1 < |s.entries| && s.entries[1].fd == STDIN_FD
    ensures Dispatch(s, Ready(STDIN_FD, ToEpoll(TYPED)), QUIT_TYPED) == HandleStdin(s, Some(QuitCommand()))
  {
    hide Lookup, HandleStdin, QuitCommand;
    PlumbedFds(s);
  }

  /** /quit is the next thing that happens in this run. */
  predicate QuitsNext(s: Server, wakeups: seq<Wakeup>) {
    QuitIn(s, wakeups).Some? && QuitIn(s, wakeups).value.server == s
  }

  /** The two wakeups that spoil a farewell: /quit is typed, and then the greeting completes. */
  lemma SpoiledOvertaken(s: Server)
    requires ServerInv(s) && !s.closing && Spoiled(s)
    ensures exists later ::
              LegalRun(s, later) && QuitsNext(s, later) && !AllCloseLast(EventLoop(s, later).server.conns)
  {
    hide Rest, HandleStdin, Dispatch, AllCloseLast, AllEmpty, RunBatch, Wait, Render, Legal, QuitCommand;
    hide LegalBatch, LegalWakeup, HandleWakeup;
    QuitQueues(s);
    var u := AfterQuit(s);
    var i: nat :| i < |s.conns| && CloseOrder.Joinable(s, i);
    var k: nat :| k < |s.conns| && s.conns[k].state == ACTIVE;
    assert CloseOrder.Joinable(u, i);
    assert u.conns[k].queued[|s.conns[k].queued| + 1] == CLOSE_FRAME;
    var c := u.conns[i];
    var typed, sent := Only(1, TYPED, QUIT_TYPED), Only(i + 2, ROOM, TakesAll(c));
    var later := [typed, sent];
    QuitDispatched(s);
    OnlyDispatches(s, 1, TYPED, QUIT_TYPED, [sent]);
    assert HandleStdin(s, Some(QuitCommand())).ok by { assert Owed(s.conns[k]); QuitGoesOn(s); }
    assert !AllEmpty(u.conns) by { NotAllEmpty(s, k); }
    assert HandleWakeup(s, typed) == Step(u, true);
    RestWired(u, NOBODY);
    WiredFd(u, i);
    OnlyDispatches(u, i + 2, ROOM, TakesAll(c), []);
    Overtaken(u, i, k);
    assert later[1..] == [sent];
    var r := HandleWakeup(u, sent);
    assert EventLoop(u, [sent]).server == r.server by { OneWakeup(u, sent); }
    assert LegalRun(u, [sent]) by { LegalOne(u, sent); }
    assert LegalRun(s, later);
  }

  lemma NotAllEmpty(s: Server, k: nat)
    requires ServerInv(s) && k < |s.conns| && s.conns[k].state == ACTIVE
    ensures !AllEmpty(AfterQuit(s).conns)
  {
    hide AfterQuit, Rest;
    ActiveArmed(s, k);
  }

  lemma WiredFd(s: Server, i: nat)
    requires Wired(s) && i < |s.conns|
    ensures i + 2 < |s.entries| && s.entries[i + 2].fd == s.conns[i].fd
  {
  }

  lemma OneWakeup(s: Server, w: Wakeup)
    ensures EventLoop(s, [w]).server == HandleWakeup(s, w).server
  {
    hide HandleWakeup;
    assert [w][1..] == [];
  }

  lemma LegalOne(s: Server, w: Wakeup)
    requires LegalWakeup(s, w)
    ensures LegalRun(s, [w])
  {
    hide HandleWakeup, LegalWakeup;
    assert [w][1..] == [];
  }

  /** CLOSE_CON stays last in every stream through every run that begins with /quit if and only if
      the host did not type it while someone was being greeted (under a name whose join fits a
      frame) and someone else was ACTIVE. */
  lemma CloseLastExactly(s: Server)
    requires ServerInv(s) && Open(s) && !s.closing
    ensures (forall later | LegalRun(s, later) && QuitsNext(s, later) ::
               EveryCloseLast(EventLoop(s, later).server))
       <==> !Spoiled(s)
  {
    hide Rest, Open, Spoiled, AllCloseLast, LegalRun, EventLoop, QuitIn, Goodbye;
    if !Spoiled(s) {
      forall later | LegalRun(s, later) && QuitsNext(s, later)
        ensures EveryCloseLast(EventLoop(s, later).server)
      {
        QuitExactly(s, later);
        GoodbyeSafe(QuitIn(s, later).value);
      }
    } else {
      SpoiledOvertaken(s);
    }
  }
}
