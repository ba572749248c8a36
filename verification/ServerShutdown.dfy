/** Draining after /quit: what /quit queues, that draining makes progress, and that nothing that
    has been queued is lost. */
module ServerShutdown {
  import opened Frames
  import opened Options
  import opened Connections
  import opened Interest
  import opened Room
  import opened ServerSpec
  import opened ServerRecords
  import opened ServerInvariant
  import opened ServerHandlers
  import opened ServerDispatch
  import opened ServerTheorems

  // ---------- The measure ----------

  function Greeting(conns: seq<Conn>): nat {
    if conns == [] then 0
    else (if conns[0].state == SENDING_SERVER_HELLO then 1 else 0) + Greeting(conns[1..])
  }

  function TotalUnsent(conns: seq<Conn>): nat {
    if conns == [] then 0 else |Unsent(conns[0])| + TotalUnsent(conns[1..])
  }

  function Hellos(c: Conn): nat {
    if c.state == SENDING_SERVER_HELLO then 1 else 0
  }

  lemma {:induction false} MeasureAt(conns: seq<Conn>, i: nat, c: Conn)
    requires i < |conns|
    ensures Greeting(conns[i := c]) == Greeting(conns) - Hellos(conns[i]) + Hellos(c)
    ensures TotalUnsent(conns[i := c]) == TotalUnsent(conns) - |Unsent(conns[i])| + |Unsent(c)|
  {
    if i > 0 {
      MeasureAt(conns[1..], i - 1, c);
      assert conns[i := c][1..] == conns[1..][i - 1 := c];
    } else {
      assert conns[i := c][1..] == conns[1..];
    }
  }

  lemma {:induction false} SameStates(conns: seq<Conn>, after: seq<Conn>)
    requires |after| == |conns|
    requires forall k | 0 <= k < |conns| :: after[k].state == conns[k].state
    ensures Greeting(after) == Greeting(conns)
  {
    if conns != [] {
      assert forall k | 0 <= k < |conns| - 1 :: conns[1..][k] == conns[k + 1] && after[1..][k] == after[k + 1];
      SameStates(conns[1..], after[1..]);
    }
  }

  /** Lexicographic order on (hellos still being sent, bytes still unsent). */
  predicate Below(t: Server, s: Server) {
    || Greeting(t.conns) < Greeting(s.conns)
    || (Greeting(t.conns) == Greeting(s.conns) && TotalUnsent(t.conns) < TotalUnsent(s.conns))
  }

  predicate AtMost(t: Server, s: Server) {
    || Below(t, s)
    || (Greeting(t.conns) == Greeting(s.conns) && TotalUnsent(t.conns) == TotalUnsent(s.conns))
  }

  /** The kernel takes at least one byte in this event. */
  predicate Moves(s: Server, r: Ready, env: Env) {
    && r.events.output
    && (exists k :: 0 <= k < |s.conns| && s.conns[k].fd == r.fd && s.conns[k].outBuffer != [])
    && env.sends != [] && env.sends[0].Sent? && env.sends[0].n > 0
  }

  lemma MovesBytes(c: Conn, sends: seq<SendResult>)
    requires OutputKept(c) && c.outBuffer != []
    requires sends != [] && sends[0].Sent? && sends[0].n > 0
    ensures |Unsent(Flush(c, sends).conn)| < |Unsent(c)|
  {
    hide Flush, EncodeAll;
    var n := Min(sends[0].n, |c.outBuffer| - c.written);
    var d := Advance(c, n);
    FlushKeeps(d, sends[1..]);
    FlushStep(c, sends);
    assert |Unsent(d)| < |Unsent(c)|;
    FlushShrinks(d, sends[1..]);
  }

  lemma FlushStep(c: Conn, sends: seq<SendResult>)
    requires c.written < |c.outBuffer| && sends != [] && sends[0].Sent? && sends[0].n > 0
    ensures Flush(c, sends) == Flush(Advance(c, Min(sends[0].n, |c.outBuffer| - c.written)), sends[1..])
  {
  }

  lemma FlushShrinks(c: Conn, sends: seq<SendResult>)
    requires c.written <= |c.outBuffer|
    ensures |Unsent(Flush(c, sends).conn)| <= |Unsent(c)|
  {
    hide Flush;
    FlushKeeps(c, sends);
    var d := Flush(c, sends).conn;
    assert |d.sent| + |Unsent(d)| == |d.sent + Unsent(d)|;
    assert |c.sent| + |Unsent(c)| == |c.sent + Unsent(c)|;
  }

  /** Once closing, no event increases the measure, and every send event in which the kernel
      takes a byte decreases it. */
  lemma DrainingProgress(s: Server, r: Ready, env: Env)
    requires ServerInv(s) && s.closing
    ensures var d := Dispatch(s, r, env);
            && (d.ok ==> AtMost(d.server, s))
            && (d.ok && Moves(s, r, env) ==> Below(d.server, s))
  {
    hide Rest, Lookup, Flush, Ctl, Admit, Unsent, Greeting, TotalUnsent;
    if k :| 0 <= k < |s.conns| && s.conns[k].fd == r.fd && s.conns[k].outBuffer != [] {
      AtOwnFd(s, k);
      InvAt(s, k);
      StateBuffer(s.name, s.log, s.conns[k]);
    }
    if IsSend(s, r) {
      var i := Lookup(s.conns, r.fd);
      var c := s.conns[i];
      InvAt(s, i);
      assert OutputKept(c) by { GoodOutput(s.name, s.log, c); }
      FlushKeeps(c, env.sends);
      FlushShrinks(c, env.sends);
      if Moves(s, r, env) {
        MovesBytes(c, env.sends);
      }
      var f := Flush(c, env.sends);
      MeasureAt(s.conns, i, f.conn);
      if f.ok && f.conn.outBuffer == [] && c.state == SENDING_SERVER_HELLO {
        AdmitMeasure(Put(s, i, f.conn), i);
      }
    }
  }

  lemma GoodOutput(host: Text, log: seq<Event>, c: Conn)
    requires Good(host, log, c)
    ensures OutputKept(c)
  {
  }

  lemma AdmitMeasure(s: Server, i: nat)
    requires i < |s.conns| && s.conns[i].state == SENDING_SERVER_HELLO
    ensures Admit(s, i).ok ==> Greeting(Admit(s, i).server.conns) < Greeting(s.conns)
  {
    hide Deliver, Unsent, Greeting;
    var c := s.conns[i].(state := ACTIVE);
    var t := Put(s, i, c);
    MeasureAt(s.conns, i, c);
    var e := Joined(c.peer, c.name);
    var r := Deliver(t, e);
    DeliverStates(t, e);
    if r.ok {
      SameStates(t.conns, r.server.conns);
      MeasureAt(r.server.conns, i, r.server.conns[i].(joinedAt := Some(|s.log|)));
    }
  }

  lemma DeliverStates(s: Server, e: Event)
    ensures var r := Deliver(s, e);
            && |r.server.conns| == |s.conns|
            && (r.ok ==> forall k | 0 <= k < |s.conns| :: r.server.conns[k].state == s.conns[k].state)
  {
    hide Render, Legal, QueueMessage;
    var r := Deliver(s, e);
    if r.ok {
      forall k | 0 <= k < |s.conns| ensures r.server.conns[k].state == s.conns[k].state {
        if Recipient(s.conns[k], e) {
          RecipientMeansLegal(s, e, k);
          QueueState(s.conns[k], Render(s.name, e));
        }
      }
    }
  }

  lemma RecipientMeansLegal(s: Server, e: Event, k: nat)
    requires k < |s.conns| && Recipient(s.conns[k], e) && Deliver(s, e).ok
    ensures Legal(Render(s.name, e))
  {
    hide Render, Legal;
  }

  // ---------- Everything queued gets out ----------

  /** Connections stay listed in place and their streams only grow; nobody is retired. */
  ghost predicate Grows(s: Server, t: Server) {
    && |t.conns| == |s.conns| && t.retired == s.retired
    && forall k | 0 <= k < |s.conns| ::
         t.conns[k].peer == s.conns[k].peer && s.conns[k].queued <= t.conns[k].queued
  }

  lemma DeliverGrows(s: Server, e: Event)
    ensures Grows(s, Deliver(s, e).server)
  {
    hide Render, Legal, Encode;
  }

  lemma GrowsTrans(s: Server, t: Server, u: Server)
    requires Grows(s, t) && Grows(t, u)
    ensures Grows(s, u)
  {
  }

  lemma SendGrows(s: Server, r: Ready, sends: seq<SendResult>)
    requires ServerInv(s) && IsSend(s, r)
    ensures Grows(s, HandleSend(s, r.fd, sends).server)
    ensures HandleSend(s, r.fd, sends).server.closing == s.closing
  {
    hide Rest, Lookup, Flush, Ctl, Admit;
    var i := Lookup(s.conns, r.fd);
    InvAt(s, i);
    assert s.conns[i].written <= |s.conns[i].outBuffer| by { GoodWritten(s.name, s.log, s.conns[i]); }
    FlushKeeps(s.conns[i], sends);
    var t := Put(s, i, Flush(s.conns[i], sends).conn);
    AdmitGrows(t, i);
    GrowsTrans(s, t, Admit(t, i).server);
  }

  lemma AdmitGrows(s: Server, i: nat)
    requires i < |s.conns|
    ensures Grows(s, Admit(s, i).server) && Admit(s, i).server.closing == s.closing
  {
    hide Deliver;
    var c := s.conns[i].(state := ACTIVE);
    var t := Put(s, i, c);
    DeliverGrows(t, Joined(c.peer, c.name));
    DeliverClosing(t, Joined(c.peer, c.name));
  }

  /** During shutdown only send events are handled, whatever is reported. */
  lemma {:induction false} ClosingRun(s: Server, batch: seq<Ready>, envs: seq<Env>, k: nat)
    requires ServerInv(s) && s.closing
    ensures var r := RunBatch(s, batch, envs, k);
            Kept(r) && r.server.closing && Grows(s, r.server)
    decreases |batch| - k
  {
    hide Rest, Halted, HandleSend, Lookup, Grows;
    GrowsSelf(s);
    if k < |batch| {
      var r := Dispatch(s, batch[k], EnvAt(envs, k));
      if IsSend(s, batch[k]) {
        SendKeeps(s, batch[k].fd, EnvAt(envs, k).sends);
        SendGrows(s, batch[k], EnvAt(envs, k).sends);
      }
      if r.ok {
        ClosingRun(r.server, batch, envs, k + 1);
        GrowsTrans(s, r.server, RunBatch(s, batch, envs, k).server);
      }
    }
  }

  lemma GrowsSelf(s: Server)
    ensures Grows(s, s)
  {
  }

  /** The server right after the host has typed /quit. */
  function AfterQuit(s: Server): Server {
    HandleStdin(s, Some(QuitCommand())).server
  }

  /** At /quit every ACTIVE connection is queued the notice and then CLOSE_CON, nobody else is
      queued anything, and nobody moves. */
  lemma QuitQueues(s: Server)
    requires ServerInv(s)
    ensures var u := AfterQuit(s);
            && ServerInv(u) && u.closing && u.name == s.name
            && |u.conns| == |s.conns| && u.retired == s.retired
            && forall k | 0 <= k < |s.conns| ::
                 && u.conns[k].fd == s.conns[k].fd && u.conns[k].peer == s.conns[k].peer
                 && u.conns[k].state == s.conns[k].state && u.conns[k].name == s.conns[k].name
                 && u.conns[k].queued == s.conns[k].queued
                      + if s.conns[k].state == ACTIVE then [Render(s.name, RoomClosing), CLOSE_FRAME] else []
  {
    hide Rest, Encode, Render, Arm, RecipientFds, ActiveFds;
    RenderedLength(s.name, RoomClosing);
    QuitText();
    var t := s.(closing := true);
    ClosingFlag(s);
    DeliverInv(t, RoomClosing);
    QueueCloseKeeps(Deliver(t, RoomClosing).server);
  }

  predicate Owed(c: Conn) {
    c.state == ACTIVE || c.state == SENDING_SERVER_HELLO
  }

  /** After /quit the loop goes on exactly if some connection is owed bytes: one that is ACTIVE
      gets a farewell, one that is being greeted the rest of its SERVER_HELLO. */
  lemma QuitGoesOn(s: Server)
    requires ServerInv(s)
    ensures HandleStdin(s, Some(QuitCommand())).ok <==> exists k :: 0 <= k < |s.conns| && Owed(s.conns[k])
  {
    hide Rest, Render, Deliver, QueueMessage, Legal;
    QuitQueues(s);
    var u := AfterQuit(s);
    QuitText();
    assert Deliver(s.(closing := true), RoomClosing).ok by { ClosingFits(s.(closing := true)); }
    forall k | 0 <= k < |u.conns|
      ensures u.conns[k].outBuffer == [] <==> !Owed(s.conns[k])
    {
      InvAt(u, k);
      StateBuffer(u.name, u.log, u.conns[k]);
      if s.conns[k].state == ACTIVE {
        ActiveArmed(s, k);
      }
    }
  }

  lemma ClosingFits(s: Server)
    ensures Deliver(s, RoomClosing).ok
  {
    hide Render;
    RenderedLength(s.name, RoomClosing);
  }

  lemma ActiveArmed(s: Server, k: nat)
    requires ServerInv(s) && k < |s.conns| && s.conns[k].state == ACTIVE
    ensures k < |AfterQuit(s).conns| && AfterQuit(s).conns[k].outBuffer != []
  {
    hide Rest, Encode, Render, Arm, RecipientFds, ActiveFds;
    RenderedLength(s.name, RoomClosing);
    QuitText();
    assert |Encode(CLOSE_FRAME)| > 0;
  }

  /** The same over whole wakeups: nobody leaves the list and nothing queued is taken back. */
  lemma {:induction false} ClosingLoop(s: Server, wakeups: seq<Wakeup>)
    requires ServerInv(s) && s.closing
    ensures var t := EventLoop(s, wakeups).server;
            Halted(t) && t.closing && Grows(s, t)
    decreases |wakeups|
  {
    hide Rest, Halted, RunBatch, Wait, Grows;
    GrowsSelf(s);
    InvHalts(s);
    if wakeups != [] {
      var r := HandleWakeup(s, wakeups[0]);
      ClosingWakeup(s, wakeups[0]);
      if r.ok {
        ClosingLoop(r.server, wakeups[1..]);
        GrowsTrans(s, r.server, EventLoop(r.server, wakeups[1..]).server);
      }
    }
  }

  lemma ClosingWakeup(s: Server, w: Wakeup)
    requires ServerInv(s) && s.closing
    ensures var r := HandleWakeup(s, w);
            && Halted(r.server) && r.server.closing && Grows(s, r.server)
            && (r.ok ==> ServerInv(r.server))
  {
    hide Rest, Halted, RunBatch, Wait, Grows;
    GrowsSelf(s);
    InvHalts(s);
    if w.Woken? {
      var batch := Wait(s.entries, w.revents, 0, MAX_EPOLL_EVENTS);
      ClosingRun(s, batch, w.envs, 0);
      var r := RunBatch(s, batch, w.envs, 0);
      if r.ok {
        InvHalts(r.server);
      }
    }
  }

  lemma EmptyMeansSent(s: Server, k: nat)
    requires Halted(s) && k < |s.conns| && s.conns[k].outBuffer == []
    ensures s.conns[k].sent == EncodeAll(s.conns[k].queued)
  {
    hide EncodeAll, EventsOf, Others, Lines, Bodies, ParseFrame;
    var c := s.conns[k];
    assert OutputKept(c);
    assert c.sent + Unsent(c) == c.sent;
  }
}
