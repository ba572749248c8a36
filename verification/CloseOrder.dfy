/** Is CLOSE_CON the last frame a client is sent? Up to /quit no stream has one. After /quit it
    is last in every stream, whatever happens, unless one connection is still being greeted under
    a name whose join can be broadcast while another one is ACTIVE. Module QuitRuns draws the
    conclusions for whole runs. */
module CloseOrder {
  import opened Frames
  import opened Options
  import opened Connections
  import opened Interest
  import opened Room
  import opened ServerSpec
  import opened ServerPlumbing
  import opened ServerRecords
  import opened ServerInvariant
  import opened ServerHandlers
  import opened ServerDispatch
  import opened ServerTheorems
  import opened ServerShutdown

  predicate NoClose(ms: seq<Message>) {
    CLOSE_FRAME !in ms
  }

  predicate CloseLast(ms: seq<Message>) {
    forall k | 0 <= k < |ms| - 1 :: ms[k] != CLOSE_FRAME
  }

  predicate AllNoClose(conns: seq<Conn>) {
    forall k | 0 <= k < |conns| :: NoClose(conns[k].queued)
  }

  predicate AllCloseLast(conns: seq<Conn>) {
    forall k | 0 <= k < |conns| :: CloseLast(conns[k].queued)
  }

  /** In every stream, of connections present and gone, CLOSE_CON is at most the last frame. */
  predicate EveryCloseLast(s: Server) {
    AllCloseLast(s.conns) && AllCloseLast(s.retired)
  }

  /** No connection, present or gone, has been queued a CLOSE_CON. */
  predicate Open(s: Server) {
    AllNoClose(s.conns) && AllNoClose(s.retired)
  }

  // ---------- Until /quit no stream contains CLOSE_CON ----------

  lemma OpenPut(s: Server, i: nat, c: Conn)
    requires Open(s) && i < |s.conns| && NoClose(c.queued)
    ensures Open(Put(s, i, c))
  {
    hide NoClose;
  }

  lemma OpenRemove(s: Server, i: nat)
    requires Open(s) && i < |s.conns|
    ensures Open(Remove(s, i))
  {
    hide NoClose, Ctl;
    var t := Remove(s, i);
    assert forall k | 0 <= k < |t.conns| :: t.conns[k] == s.conns[Skip(i, k)];
    assert forall k | 0 <= k < |s.retired| :: t.retired[k] == s.retired[k];
    assert t.retired[|s.retired|] == s.conns[i];
  }

  lemma RenderKind(host: Text, e: Event)
    ensures Render(host, e).kind == BROADCAST
  {
  }

  lemma OpenDeliver(s: Server, e: Event)
    requires Open(s)
    ensures Open(Deliver(s, e).server)
    ensures Deliver(s, e).server.closing == s.closing
  {
    hide Render, Legal, Encode, Arm, RecipientFds;
    RenderKind(s.name, e);
  }

  lemma {:induction false} OpenAccept(s: Server, accepts: seq<AcceptResult>)
    requires Open(s)
    ensures Open(HandleAccept(s, accepts).server)
    ensures HandleAccept(s, accepts).server.closing == s.closing
    decreases |accepts|
  {
    hide Ctl;
    if accepts != [] && accepts[0].Accepted? {
      OpenAccept(AcceptOne(s, accepts[0].fd, accepts[0].peer).server, accepts[1..]);
    }
  }

  lemma OpenLeave(s: Server, i: nat)
    requires Open(s) && i < |s.conns|
    ensures Open(Leave(s, i).server) && Leave(s, i).server.closing == s.closing
  {
    hide Open, Deliver;
    var e := Left(s.conns[i].peer, s.conns[i].name);
    OpenDeliver(s, e);
    DeliverStates(s, e);
    OpenRemove(Deliver(s, e).server, i);
  }

  lemma {:induction false} OpenDrain(s: Server, i: nat)
    requires Open(s) && i < |s.conns|
    ensures Open(Drain(s, i).server) && Drain(s, i).server.closing == s.closing
    decreases |s.conns[i].inBuffer|
  {
    hide Open, Deliver, ParseFrame, Leave, NoClose, Ctl;
    var (c, m) := ParseMessage(s.conns[i]);
    assert NoClose(c.queued) by { OpenAt(s, i); }
    var t := Put(s, i, c);
    OpenPut(s, i, c);
    if c.state == CONNECTION_ERROR {
      OpenRemove(t, i);
    } else if m.None? || m.value == CLOSE_FRAME {
      OpenLeave(t, i);
    } else if m.value.kind != CHAT {
      OpenPut(s, i, Failed(c, WrongMessage));
      OpenRemove(Put(s, i, Failed(c, WrongMessage)), i);
    } else {
      var e := Said(c.peer, c.name, m.value.payload);
      OpenDeliver(t, e);
      var r := Deliver(t, e);
      DeliverStates(t, e);
      if r.ok {
        assert |r.server.conns[i].inBuffer| < |s.conns[i].inBuffer| by { DeliverInput(t, i, e); }
        OpenDrain(r.server, i);
      }
    }
  }

  lemma OpenAt(s: Server, i: nat)
    requires Open(s) && i < |s.conns|
    ensures NoClose(s.conns[i].queued)
  {
  }

  lemma OpenRead(s: Server, fd: int, recvs: seq<RecvResult>)
    requires Open(s)
    ensures Open(HandleRead(s, fd, recvs).server) && HandleRead(s, fd, recvs).server.closing == s.closing
  {
    hide Open, Lookup, ReadIntoInBuffer, Drain, NoClose, Ctl;
    var i := Lookup(s.conns, fd);
    if i < |s.conns| {
      ReadExact(s.conns[i], recvs);
      var c := ReadIntoInBuffer(s.conns[i], recvs).conn;
      OpenAt(s, i);
      OpenPut(s, i, c);
      OpenRemove(Put(s, i, c), i);
      OpenDrain(Put(s, i, c), i);
    }
  }

  lemma OpenHello(s: Server, fd: int, recvs: seq<RecvResult>)
    requires Open(s)
    ensures Open(HandleHello(s, fd, recvs).server) && HandleHello(s, fd, recvs).server.closing == s.closing
  {
    hide Open, Lookup, ReadIntoInBuffer, ParseFrame, HelloParsed, NoClose, Ctl;
    var i := Lookup(s.conns, fd);
    if i < |s.conns| {
      ReadExact(s.conns[i], recvs);
      var d := ReadIntoInBuffer(s.conns[i], recvs).conn;
      var (c, m) := ParseMessage(d);
      OpenAt(s, i);
      OpenPut(s, i, d);
      OpenRemove(Put(s, i, d), i);
      OpenPut(s, i, c);
      OpenHelloParsed(Put(s, i, c), i, m);
    }
  }

  lemma OpenHelloParsed(s: Server, i: nat, m: Option<Message>)
    requires Open(s) && i < |s.conns|
    ensures Open(HelloParsed(s, i, m).server) && HelloParsed(s, i, m).server.closing == s.closing
  {
    hide Open, Encode, Ctl, Legal;
    var c := s.conns[i];
    OpenAt(s, i);
    OpenRemove(s, i);
    OpenPut(s, i, Failed(c, WrongMessage));
    OpenRemove(Put(s, i, Failed(c, WrongMessage)), i);
    if m.Some? {
      var q := QueueMessage(c.(name := m.value.payload), Hello(s.name));
      OpenPut(s, i, q.conn);
      OpenPut(s, i, q.conn.(state := SENDING_SERVER_HELLO));
      OpenEntries(Put(s, i, q.conn.(state := SENDING_SERVER_HELLO)));
    }
  }

  lemma OpenEntries(s: Server)
    requires Open(s)
    ensures forall entries :: Open(s.(entries := entries))
  {
  }

  lemma OpenSend(s: Server, r: Ready, sends: seq<SendResult>)
    requires Open(s) && ServerInv(s) && IsSend(s, r)
    ensures Open(HandleSend(s, r.fd, sends).server) && HandleSend(s, r.fd, sends).server.closing == s.closing
  {
    hide Open, Lookup, Flush, Ctl, NoClose, Rest, Deliver;
    var i := Lookup(s.conns, r.fd);
    InvAt(s, i);
    assert s.conns[i].written <= |s.conns[i].outBuffer| by { GoodWritten(s.name, s.log, s.conns[i]); }
    FlushKeeps(s.conns[i], sends);
    var c := Flush(s.conns[i], sends).conn;
    OpenAt(s, i);
    OpenPut(s, i, c);
    var t := Put(s, i, c);
    OpenEntries(t);
    var a := c.(state := ACTIVE);
    OpenPut(t, i, a);
    OpenDeliver(Put(t, i, a), Joined(c.peer, c.name));
    DeliverStates(Put(t, i, a), Joined(c.peer, c.name));
    var u := Deliver(Put(t, i, a), Joined(c.peer, c.name)).server;
    OpenAt(u, i);
    OpenPut(u, i, u.conns[i].(joinedAt := Some(|s.log|)));
  }

  lemma OpenStdin(s: Server, line: Option<Text>)
    requires Open(s)
    ensures var t := HandleStdin(s, line).server;
            (!t.closing ==> Open(t)) && (s.closing ==> t.closing)
  {
    hide Deliver, QueueClose, QuitCommand, NoClose;
    OpenDeliver(s.(closing := true), RoomClosing);
    if line.Some? {
      OpenDeliver(s, HostSaid(line.value));
    }
    QueueCloseClosing(Deliver(s.(closing := true), RoomClosing).server);
  }

  lemma QueueCloseClosing(s: Server)
    ensures QueueClose(s).closing == s.closing
  {
  }

  lemma OpenDispatch(s: Server, r: Ready, env: Env)
    requires Open(s) && ServerInv(s)
    ensures var t := Dispatch(s, r, env).server;
            (!t.closing ==> Open(t)) && (s.closing ==> t.closing)
  {
    hide Open, Rest, HandleAccept, HandleHello, HandleSend, HandleRead, HandleStdin, Lookup;
    OpenAccept(s, env.accepts);
    OpenHello(s, r.fd, env.recvs);
    OpenRead(s, r.fd, env.recvs);
    if IsSend(s, r) {
      OpenSend(s, r, env.sends);
    }
    OpenStdin(s, env.line);
  }

  lemma {:induction false} OpenBatch(s: Server, batch: seq<Ready>, envs: seq<Env>, k: nat)
    requires Open(s) && ServerInv(s) && !s.closing && LegalBatch(s, batch, envs, k)
    ensures var t := RunBatch(s, batch, envs, k).server;
            !t.closing ==> Open(t)
    decreases |batch| - k
  {
    hide Open, Rest, Halted, Dispatch, LegalEnv;
    if k < |batch| {
      DispatchKeeps(s, batch[k], EnvAt(envs, k));
      OpenDispatch(s, batch[k], EnvAt(envs, k));
      var r := Dispatch(s, batch[k], EnvAt(envs, k));
      if r.ok && r.server.closing {
        ClosingRun(r.server, batch, envs, k + 1);
      } else if r.ok {
        OpenBatch(r.server, batch, envs, k + 1);
      }
    }
  }

  lemma {:induction false} OpenLoop(s: Server, wakeups: seq<Wakeup>)
    requires Open(s) && ServerInv(s) && !s.closing && LegalRun(s, wakeups)
    ensures var t := EventLoop(s, wakeups).server;
            !t.closing ==> Open(t)
    decreases |wakeups|
  {
    hide Open, Rest, Halted, RunBatch, Wait, LegalBatch;
    if wakeups != [] {
      WakeupKeeps(s, wakeups[0]);
      var r := HandleWakeup(s, wakeups[0]);
      if wakeups[0].Woken? {
        OpenBatch(s, Wait(s.entries, wakeups[0].revents, 0, MAX_EPOLL_EVENTS), wakeups[0].envs, 0);
      }
      if r.ok && r.server.closing {
        ClosingLoop(r.server, wakeups[1..]);
      } else if r.ok {
        OpenLoop(r.server, wakeups[1..]);
      }
    }
  }

  /** In every run, as long as the host has not typed /quit, no stream has a CLOSE_CON in it. */
  lemma NoCloseBeforeQuit(name: Text, listenFd: int, wakeups: seq<Wakeup>)
    requires listenFd != STDIN_FD && LegalRun(Init(name, listenFd), wakeups)
    ensures var t := EventLoop(Init(name, listenFd), wakeups).server;
            !t.closing ==> Open(t)
  {
    hide Rest, EventLoop;
    InitInv(name, listenFd);
    OpenLoop(Init(name, listenFd), wakeups);
  }

  // ---------- After /quit ----------

  /** Connection k is being greeted under a name whose join fits a frame. */
  predicate Joinable(s: Server, k: nat)
    requires k < |s.conns|
  {
    && s.conns[k].state == SENDING_SERVER_HELLO
    && Legal(Render(s.name, Joined(s.conns[k].peer, s.conns[k].name)))
  }

  /** What the host would have to see at /quit for a farewell to be overtaken. */
  predicate Spoiled(s: Server) {
    && (exists i :: 0 <= i < |s.conns| && Joinable(s, i))
    && (exists k :: 0 <= k < |s.conns| && s.conns[k].state == ACTIVE)
  }

  /** Nobody can still join, or nobody has been told goodbye. */
  predicate Safe(s: Server) {
    || (AllCloseLast(s.conns) && forall k | 0 <= k < |s.conns| :: !Joinable(s, k))
    || AllNoClose(s.conns)
  }

  lemma NoCloseIsLast(conns: seq<Conn>)
    requires AllNoClose(conns)
    ensures AllCloseLast(conns)
  {
  }

  lemma QuitIsSafe(s: Server)
    requires ServerInv(s) && Open(s) && !Spoiled(s)
    ensures Safe(AfterQuit(s))
  {
    hide Rest, AfterQuit, Render, Legal;
    QuitQueues(s);
    RenderKind(s.name, RoomClosing);
    var u := AfterQuit(s);
    if exists k :: 0 <= k < |s.conns| && s.conns[k].state == ACTIVE {
      forall k | 0 <= k < |u.conns|
        ensures !Joinable(u, k) && CloseLast(u.conns[k].queued)
      {
        assert !Joinable(s, k);
        assert NoClose(s.conns[k].queued);
      }
    } else {
      forall k | 0 <= k < |u.conns|
        ensures NoClose(u.conns[k].queued)
      {
        assert s.conns[k].queued + [] == s.conns[k].queued;
        assert NoClose(s.conns[k].queued);
      }
    }
  }

  lemma SendSafe(s: Server, r: Ready, sends: seq<SendResult>)
    requires ServerInv(s) && IsSend(s, r) && Safe(s)
    ensures Safe(HandleSend(s, r.fd, sends).server)
  {
    hide Lookup, Flush, Ctl, Rest, Render, Legal, Admit;
    var i := Lookup(s.conns, r.fd);
    InvAt(s, i);
    assert s.conns[i].written <= |s.conns[i].outBuffer| by { GoodWritten(s.name, s.log, s.conns[i]); }
    FlushKeeps(s.conns[i], sends);
    var f := Flush(s.conns[i], sends);
    var t := Put(s, i, f.conn);
    assert Safe(t) by { PutSafe(s, i, f.conn); }
    SafeEntries(t);
    if f.ok && f.conn.outBuffer == [] && f.conn.state == SENDING_SERVER_HELLO {
      AdmitSafe(t, i);
    }
  }

  lemma SafeEntries(s: Server)
    requires Safe(s)
    ensures forall entries :: Safe(s.(entries := entries))
  {
    hide Render, Legal, CloseLast, NoClose;
    forall entries
      ensures Safe(s.(entries := entries))
    {
      assert forall k | 0 <= k < |s.conns| && !Joinable(s, k) :: !Joinable(s.(entries := entries), k);
    }
  }

  lemma PutSafe(s: Server, i: nat, c: Conn)
    requires Safe(s) && i < |s.conns| && c.queued == s.conns[i].queued
    requires c.name == s.conns[i].name && c.peer == s.conns[i].peer
    requires c.state == s.conns[i].state || c.state != SENDING_SERVER_HELLO
    ensures Safe(Put(s, i, c))
  {
    hide Render, Legal, CloseLast, NoClose;
    var t := Put(s, i, c);
    assert AllNoClose(s.conns) ==> AllNoClose(t.conns);
    assert AllCloseLast(s.conns) ==> AllCloseLast(t.conns);
    forall k | 0 <= k < |t.conns| && !Joinable(s, k) ensures !Joinable(t, k) {
    }
  }

  lemma AdmitSafe(s: Server, i: nat)
    requires Safe(s) && i < |s.conns| && s.conns[i].state == SENDING_SERVER_HELLO
    ensures Safe(Admit(s, i).server)
  {
    hide Render, Legal, CloseLast, NoClose, Deliver, Safe;
    var c := s.conns[i].(state := ACTIVE);
    var t := Put(s, i, c);
    var e := Joined(c.peer, c.name);
    PutSafe(s, i, c);
    var r := Deliver(t, e);
    DeliverStates(t, e);
    if AllNoClose(s.conns) {
      DeliverNoClose(t, e);
      if r.ok {
        var d := r.server.conns[i].(joinedAt := Some(|s.log|));
        assert Safe(r.server) by { NoCloseSafe(r.server); }
        PutSafe(r.server, i, d);
      } else {
        NoCloseSafe(r.server);
      }
    } else {
      assert !Joinable(s, i) by { SafeNotJoinable(s, i); }
      Refused(t, e, i);
      var k := FirstRecipient(t.conns, e);
      PutSafe(t, k, Failed(t.conns[k], OversizedQueue));
    }
  }

  lemma SafeNotJoinable(s: Server, i: nat)
    requires Safe(s) && !AllNoClose(s.conns) && i < |s.conns|
    ensures !Joinable(s, i)
  {
  }

  lemma NoCloseSafe(s: Server)
    requires AllNoClose(s.conns)
    ensures Safe(s)
  {
  }

  lemma DeliverNoClose(s: Server, e: Event)
    requires AllNoClose(s.conns)
    ensures AllNoClose(Deliver(s, e).server.conns)
  {
    hide Render, Legal, Encode;
    RenderKind(s.name, e);
  }

  lemma Refused(s: Server, e: Event, i: nat)
    requires i < |s.conns| && Recipient(s.conns[i], e) && !Legal(Render(s.name, e))
    ensures var k := FirstRecipient(s.conns, e);
            k < |s.conns| && Deliver(s, e) == Step(Put(s, k, Failed(s.conns[k], OversizedQueue)), false)
  {
    hide Render, Legal;
  }

  lemma {:induction false} SafeRun(s: Server, batch: seq<Ready>, envs: seq<Env>, k: nat)
    requires ServerInv(s) && s.closing && Safe(s)
    ensures Safe(RunBatch(s, batch, envs, k).server)
    decreases |batch| - k
  {
    hide Rest, Halted, HandleSend, Lookup, Safe, CloseLast;
    if k < |batch| {
      var env := EnvAt(envs, k);
      var r := Dispatch(s, batch[k], env);
      if IsSend(s, batch[k]) {
        SendKeeps(s, batch[k].fd, env.sends);
        SendGrows(s, batch[k], env.sends);
        SendSafe(s, batch[k], env.sends);
      }
      if r.ok {
        SafeRun(r.server, batch, envs, k + 1);
      }
    }
  }

  lemma {:induction false} SafeLoop(s: Server, wakeups: seq<Wakeup>)
    requires ServerInv(s) && s.closing && Safe(s)
    ensures AllCloseLast(EventLoop(s, wakeups).server.conns)
    decreases |wakeups|
  {
    hide Rest, Halted, Safe, AllCloseLast, RunBatch, Grows, Wait;
    SafeIsLast(s);
    if wakeups != [] {
      var w := wakeups[0];
      ClosingWakeup(s, w);
      if w.Woken? {
        SafeRun(s, Wait(s.entries, w.revents, 0, MAX_EPOLL_EVENTS), w.envs, 0);
      }
      var t := HandleWakeup(s, w).server;
      assert Safe(t);
      SafeIsLast(t);
      if HandleWakeup(s, w).ok {
        SafeLoop(t, wakeups[1..]);
      }
    }
  }

  lemma SafeIsLast(s: Server)
    requires Safe(s)
    ensures AllCloseLast(s.conns)
  {
    if AllNoClose(s.conns) {
      NoCloseIsLast(s.conns);
    }
  }

  const WRITABLE := Events(false, true, false, false, false)

  /** The kernel takes everything that is offered. */
  function TakesAll(c: Conn): Env {
    Env([], [], [Sent(|c.outBuffer|)], None)
  }

  /** One writable event can complete a greeting, and then the join is broadcast. */
  lemma GreetingCompletes(s: Server, i: nat)
    requires ServerInv(s) && i < |s.conns| && Joinable(s, i)
    ensures var c := s.conns[i];
            var a := Flush(c, [Sent(|c.outBuffer|)]).conn.(state := ACTIVE);
            var r := Deliver(Put(s, i, a), Joined(c.peer, c.name));
            && a == c.(state := ACTIVE, outBuffer := [], written := 0, sent := a.sent)
            && r.ok && |r.server.conns| == |s.conns|
            && Dispatch(s, Ready(c.fd, WRITABLE), TakesAll(c))
               == Step(Put(r.server, i, r.server.conns[i].(joinedAt := Some(|s.log|))), true)
  {
    hide Rest, Lookup, Find, Render, Legal, Deliver, Wired, Flush;
    RestWired(s, NOBODY);
    PlumbedFds(s);
    InvAt(s, i);
    var c := s.conns[i];
    StateBuffer(s.name, s.log, c);
    FlushAll(s.name, s.log, c);
    FlushFrame(s.name, s.log, c);
    var f := Flush(c, [Sent(|c.outBuffer|)]).conn;
    var a := f.(state := ACTIVE);
    var t := Put(s, i, a);
    assert t == Put(Put(s, i, f), i, a);
    DeliverStates(t, Joined(c.peer, c.name));
    assert Deliver(t, Joined(c.peer, c.name)).ok by { LegalDelivers(t, Joined(c.peer, c.name)); }
    assert Lookup(s.conns, c.fd) == i;
    assert IsSend(s, Ready(c.fd, WRITABLE));
  }

  lemma LegalDelivers(s: Server, e: Event)
    requires Legal(Render(s.name, e))
    ensures Deliver(s, e).ok
  {
    hide Render, Legal;
  }

  lemma FlushFrame(host: Text, log: seq<Event>, c: Conn)
    requires Good(host, log, c)
    ensures var f := Flush(c, [Sent(|c.outBuffer|)]);
            f.ok && f.conn.outBuffer == [] ==> f.conn == c.(outBuffer := [], written := 0, sent := f.conn.sent)
  {
    hide Flush, EncodeAll, EventsOf;
    FlushKeeps(c, [Sent(|c.outBuffer|)]);
  }

  /** The one event that lets a broadcast overtake a farewell: the greeting completes. */
  lemma Overtaken(s: Server, i: nat, k: nat)
    requires ServerInv(s) && s.closing && i < |s.conns| && k < |s.conns|
    requires Joinable(s, i) && s.conns[k].state == ACTIVE && CLOSE_FRAME in s.conns[k].queued
    ensures var c := s.conns[i];
            !AllCloseLast(RunBatch(s, [Ready(c.fd, WRITABLE)], [TakesAll(c)], 0).server.conns)
  {
    hide Rest, Render, Legal, Deliver, Flush, Dispatch;
    GreetingCompletes(s, i);
    var c := s.conns[i];
    var batch, envs := [Ready(c.fd, WRITABLE)], [TakesAll(c)];
    var t := Put(s, i, Flush(c, [Sent(|c.outBuffer|)]).conn.(state := ACTIVE));
    OvertakenBy(t, k, Joined(c.peer, c.name));
    var r := Deliver(t, Joined(c.peer, c.name));
    var u := Put(r.server, i, r.server.conns[i].(joinedAt := Some(|s.log|)));
    assert RunBatch(s, batch, envs, 0) == RunBatch(u, batch, envs, 1) == Step(u, true);
    assert u.conns[k] == r.server.conns[k];
  }

  lemma OvertakenBy(s: Server, k: nat, e: Event)
    requires k < |s.conns| && s.conns[k].state == ACTIVE && CLOSE_FRAME in s.conns[k].queued
    requires Author(e).None? && Legal(Render(s.name, e))
    ensures var r := Deliver(s, e);
            r.ok && |r.server.conns| == |s.conns| && !CloseLast(r.server.conns[k].queued)
  {
    hide Render, Legal, Encode;
    var m := Render(s.name, e);
    var j :| 0 <= j < |s.conns[k].queued| && s.conns[k].queued[j] == CLOSE_FRAME;
    assert Deliver(s, e).server.conns[k].queued[j] == CLOSE_FRAME;
  }

  lemma FlushAll(host: Text, log: seq<Event>, c: Conn)
    requires Good(host, log, c) && c.state == SENDING_SERVER_HELLO
    ensures var f := Flush(c, [Sent(|c.outBuffer|)]);
            && f.ok && f.conn.outBuffer == [] && f.conn.state == c.state
            && f.conn.peer == c.peer && f.conn.name == c.name && f.conn.fd == c.fd
  {
    hide EncodeAll, EventsOf;
    var d := Advance(c, Min(|c.outBuffer|, |c.outBuffer| - c.written));
    assert d.written == |d.outBuffer|;
  }
}
