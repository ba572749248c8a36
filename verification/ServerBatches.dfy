/** Events of one batch never reach another connection than the one they were reported for, even
    though the batch removes connections and accepts reuse their descriptors. */
module ServerBatches {
  import opened Frames
  import opened Options
  import opened Connections
  import opened Interest
  import opened Room
  import opened ServerSpec
  import opened ServerPlumbing
  import opened ServerInvariant
  import opened ServerHandlers
  import opened ServerTheorems

  /** The connection a handler for fd would work on. */
  function Holder(s: Server, fd: int): Option<nat> {
    var i := Lookup(s.conns, fd);
    if i < |s.conns| then Some(s.conns[i].peer) else None
  }

  predicate Watched(s: Server, fd: int) {
    fd == s.listenFd || fd == STDIN_FD || fd in Fds(s.conns)
  }

  /** From s to t only the connection on descriptor g may have changed hands. */
  ghost predicate Untouched(s: Server, t: Server, g: int) {
    && t.listenFd == s.listenFd
    && forall fd | fd != g && Watched(s, fd) :: Holder(t, fd) == Holder(s, fd) && Watched(t, fd)
  }

  lemma HolderAt(s: Server, k: nat)
    requires Wired(s) && k < |s.conns|
    ensures Holder(s, s.conns[k].fd) == Some(s.conns[k].peer)
  {
    hide Lookup, Wired;
    PlumbedFds(s);
  }

  lemma HolderNone(s: Server, fd: int)
    requires fd !in Fds(s.conns)
    ensures Holder(s, fd) == None
  {
    hide Lookup;
  }

  lemma UntouchedTrans(s: Server, t: Server, u: Server, g: int)
    requires Untouched(s, t, g) && Untouched(t, u, g)
    ensures Untouched(s, u, g)
  {
    hide Holder, Watched;
  }

  lemma UntouchedWired(s: Server, t: Server, g: int)
    requires Wired(s) && Wired(t) && t.listenFd == s.listenFd
    requires |t.conns| == |s.conns|
    requires forall k | 0 <= k < |s.conns| :: t.conns[k].fd == s.conns[k].fd && t.conns[k].peer == s.conns[k].peer
    ensures Untouched(s, t, g)
  {
    hide Holder, Wired, Lookup;
    forall fd | Watched(s, fd)
      ensures Holder(t, fd) == Holder(s, fd) && Watched(t, fd)
    {
      if k: nat :| k < |s.conns| && s.conns[k].fd == fd {
        HolderAt(s, k);
        HolderAt(t, k);
        assert t.conns[k].fd == fd;
      } else {
        HolderNone(s, fd);
        HolderNone(t, fd);
      }
    }
  }

  lemma UntouchedRemove(s: Server, i: nat)
    requires Wired(s) && i < |s.conns|
    ensures Untouched(s, Remove(s, i), s.conns[i].fd)
  {
    hide Holder, Wired, Lookup, Find;
    var t := Remove(s, i);
    RemoveWired(s, i, t);
    forall fd | fd != s.conns[i].fd && Watched(s, fd)
      ensures Holder(t, fd) == Holder(s, fd) && Watched(t, fd)
    {
      if k: nat :| k < |s.conns| && s.conns[k].fd == fd {
        var j := if k < i then k else k - 1;
        assert t.conns[j] == s.conns[k];
        HolderAt(s, k);
        HolderAt(t, j);
      } else {
        HolderNone(s, fd);
        assert forall k | 0 <= k < |t.conns| :: t.conns[k].fd != fd;
        HolderNone(t, fd);
      }
    }
  }

  lemma {:induction false} AcceptUntouched(s: Server, accepts: seq<AcceptResult>)
    requires ServerInv(s) && LegalAccepts(s, accepts)
    ensures Untouched(s, HandleAccept(s, accepts).server, s.listenFd)
    decreases |accepts|
  {
    hide Rest, AcceptOne, LegalAccept, Untouched;
    if accepts != [] && accepts[0].Accepted? {
      var fd, peer := accepts[0].fd, accepts[0].peer;
      AcceptOneKeeps(s, fd, peer);
      var t := AcceptOne(s, fd, peer).server;
      AcceptOneUntouched(s, fd, peer);
      AcceptUntouched(t, accepts[1..]);
      UntouchedTrans(s, t, HandleAccept(t, accepts[1..]).server, s.listenFd);
    } else {
      UntouchedSelf(s, s.listenFd);
    }
  }

  lemma UntouchedSelf(s: Server, g: int)
    ensures Untouched(s, s, g)
  {
  }

  lemma AcceptOneUntouched(s: Server, fd: int, peer: nat)
    requires ServerInv(s) && LegalAccept(s, fd, peer)
    ensures var t := AcceptOne(s, fd, peer).server;
            t.listenFd == s.listenFd && Untouched(s, t, s.listenFd)
  {
    hide Holder, Lookup, Find, Replay, Ids;
    AcceptPlumbed(s, fd, peer);
    var t := AcceptOne(s, fd, peer).server;
    forall g | g != s.listenFd && Watched(s, g)
      ensures Holder(t, g) == Holder(s, g) && Watched(t, g)
    {
      if k: nat :| k < |s.conns| && s.conns[k].fd == g {
        assert t.conns[k] == s.conns[k];
        HolderAt(s, k);
        HolderAt(t, k);
      } else {
        assert g != fd;
        HolderNone(s, g);
        assert forall k | 0 <= k < |t.conns| :: t.conns[k].fd != g;
        HolderNone(t, g);
      }
    }
  }

  lemma PutUntouched(s: Server, i: nat, c: Conn)
    requires Wired(s) && i < |s.conns| && c.fd == s.conns[i].fd && c.peer == s.conns[i].peer
    ensures Wired(Put(s, i, c)) && Untouched(s, Put(s, i, c), s.conns[i].fd)
  {
    hide Untouched;
    UntouchedWired(s, Put(s, i, c), s.conns[i].fd);
  }

  lemma PutRemoveUntouched(s: Server, i: nat, c: Conn)
    requires Wired(s) && i < |s.conns| && c.fd == s.conns[i].fd && c.peer == s.conns[i].peer
    ensures Untouched(s, Remove(Put(s, i, c), i), s.conns[i].fd)
  {
    hide Untouched, Wired, Remove;
    PutUntouched(s, i, c);
    UntouchedRemove(Put(s, i, c), i);
    UntouchedTrans(s, Put(s, i, c), Remove(Put(s, i, c), i), s.conns[i].fd);
  }

  lemma DeliverUntouched(s: Server, e: Event, g: int)
    requires Wired(s)
    ensures var t := Deliver(s, e).server;
            && Wired(t) && Untouched(s, t, g)
            && |t.conns| == |s.conns|
            && forall k | 0 <= k < |s.conns| :: t.conns[k].fd == s.conns[k].fd && t.conns[k].peer == s.conns[k].peer
  {
    hide Untouched, Deliver, Wired;
    DeliverSizes(s, e);
    assert Deliver(s, e).server.listenFd == s.listenFd by { DeliverListen(s, e); }
    UntouchedWired(s, Deliver(s, e).server, g);
  }

  lemma DeliverListen(s: Server, e: Event)
    ensures Deliver(s, e).server.listenFd == s.listenFd
  {
  }

  lemma LeaveUntouched(s: Server, i: nat)
    requires Wired(s) && i < |s.conns|
    ensures Untouched(s, Leave(s, i).server, s.conns[i].fd)
  {
    hide Untouched, Wired, Remove, Deliver;
    var g := s.conns[i].fd;
    var e := Left(s.conns[i].peer, s.conns[i].name);
    DeliverUntouched(s, e, g);
    var t := Deliver(s, e).server;
    UntouchedRemove(t, i);
    UntouchedTrans(s, t, Remove(t, i), g);
  }

  lemma {:induction false} DrainUntouched(s: Server, i: nat)
    requires Wired(s) && i < |s.conns|
    ensures Untouched(s, Drain(s, i).server, s.conns[i].fd)
    decreases |s.conns[i].inBuffer|
  {
    hide Untouched, Wired, Remove, Deliver, ParseFrame, Leave;
    var g := s.conns[i].fd;
    var (c, m) := ParseMessage(s.conns[i]);
    var t := Put(s, i, c);
    PutUntouched(s, i, c);
    if c.state == CONNECTION_ERROR {
      PutRemoveUntouched(s, i, c);
    } else if m.None? || m.value == CLOSE_FRAME {
      LeaveUntouched(t, i);
      UntouchedTrans(s, t, Leave(t, i).server, g);
    } else if m.value.kind != CHAT {
      PutRemoveUntouched(s, i, Failed(c, WrongMessage));
    } else {
      var e := Said(c.peer, c.name, m.value.payload);
      DeliverUntouched(t, e, g);
      var r := Deliver(t, e);
      UntouchedTrans(s, t, r.server, g);
      if r.ok {
        assert |r.server.conns[i].inBuffer| < |s.conns[i].inBuffer| by { DeliverInput(t, i, e); }
        DrainUntouched(r.server, i);
        UntouchedTrans(s, r.server, Drain(r.server, i).server, g);
      }
    }
  }

  lemma ReadUntouched(s: Server, fd: int, recvs: seq<RecvResult>)
    requires Wired(s) && InState(s, fd, ACTIVE)
    ensures Untouched(s, HandleRead(s, fd, recvs).server, fd)
  {
    hide Untouched, Wired, Remove, Drain, ReadIntoInBuffer, Lookup;
    var i := Lookup(s.conns, fd);
    ReadExact(s.conns[i], recvs);
    var c := ReadIntoInBuffer(s.conns[i], recvs).conn;
    PutUntouched(s, i, c);
    PutRemoveUntouched(s, i, c);
    DrainUntouched(Put(s, i, c), i);
    UntouchedTrans(s, Put(s, i, c), Drain(Put(s, i, c), i).server, fd);
  }

  lemma HelloUntouched(s: Server, fd: int, recvs: seq<RecvResult>)
    requires Wired(s) && InState(s, fd, WAITING_FOR_CLIENT_HELLO)
    ensures Untouched(s, HandleHello(s, fd, recvs).server, fd)
  {
    hide Untouched, Wired, Remove, ReadIntoInBuffer, Lookup, ParseFrame, HelloParsed;
    var i := Lookup(s.conns, fd);
    ReadExact(s.conns[i], recvs);
    var read := ReadIntoInBuffer(s.conns[i], recvs).conn;
    PutRemoveUntouched(s, i, read);
    var (c, m) := ParseMessage(read);
    PutUntouched(s, i, c);
    HelloParsedUntouched(Put(s, i, c), i, m);
    UntouchedTrans(s, Put(s, i, c), HelloParsed(Put(s, i, c), i, m).server, fd);
  }

  lemma ModUntouched(s: Server, i: nat, events: Events)
    requires Wired(s) && i < |s.conns|
    ensures var t := s.(entries := Ctl(s.entries, Mod, s.conns[i].fd, events).entries);
            Wired(t) && Untouched(s, t, s.conns[i].fd)
  {
    hide Untouched, Find, Lookup;
    PlumbedFds(s);
    UntouchedWired(s, s.(entries := Ctl(s.entries, Mod, s.conns[i].fd, events).entries), s.conns[i].fd);
  }

  lemma HelloParsedUntouched(s: Server, i: nat, m: Option<Message>)
    requires Wired(s) && i < |s.conns|
    ensures Untouched(s, HelloParsed(s, i, m).server, s.conns[i].fd)
  {
    hide Untouched, Wired, Remove, Ctl, Encode, Legal;
    var c := s.conns[i];
    var g := c.fd;
    UntouchedSelf(s, g);
    UntouchedRemove(s, i);
    PutRemoveUntouched(s, i, Failed(c, WrongMessage));
    if m.Some? {
      var q := QueueMessage(c.(name := m.value.payload), Hello(s.name));
      PutUntouched(s, i, q.conn);
      var d := q.conn.(state := SENDING_SERVER_HELLO);
      PutUntouched(s, i, d);
      ModUntouched(Put(s, i, d), i, IN_OUT_RDHUP);
      var t := Put(s, i, d).(entries := Ctl(s.entries, Mod, g, IN_OUT_RDHUP).entries);
      UntouchedTrans(s, Put(s, i, d), t, g);
    }
  }

  lemma SendUntouched(s: Server, r: Ready, sends: seq<SendResult>)
    requires ServerInv(s) && IsSend(s, r)
    ensures Untouched(s, HandleSend(s, r.fd, sends).server, r.fd)
  {
    hide Untouched, Wired, Flush, Lookup, Ctl, Rest, Admit;
    var i := Lookup(s.conns, r.fd);
    RestWired(s, NOBODY);
    InvAt(s, i);
    assert s.conns[i].written <= |s.conns[i].outBuffer| by { GoodWritten(s.name, s.log, s.conns[i]); }
    FlushKeeps(s.conns[i], sends);
    var c := Flush(s.conns[i], sends).conn;
    PutUntouched(s, i, c);
    var t := Put(s, i, c);
    AdmitUntouched(t, i);
    UntouchedTrans(s, t, Admit(t, i).server, r.fd);
    ModUntouched(t, i, IN_RDHUP);
    UntouchedTrans(s, t, t.(entries := Ctl(s.entries, Mod, r.fd, IN_RDHUP).entries), r.fd);
  }

  lemma AdmitUntouched(s: Server, i: nat)
    requires Wired(s) && i < |s.conns|
    ensures Untouched(s, Admit(s, i).server, s.conns[i].fd)
  {
    hide Untouched, Wired, Deliver;
    var g := s.conns[i].fd;
    var c := s.conns[i].(state := ACTIVE);
    var t := Put(s, i, c);
    PutUntouched(s, i, c);
    DeliverUntouched(t, Joined(c.peer, c.name), g);
    var r := Deliver(t, Joined(c.peer, c.name));
    UntouchedTrans(s, t, r.server, g);
    if r.ok {
      var d := r.server.conns[i].(joinedAt := Some(|s.log|));
      PutUntouched(r.server, i, d);
      UntouchedTrans(s, r.server, Put(r.server, i, d), g);
    }
  }

  lemma StdinUntouched(s: Server, line: Option<Text>)
    requires Wired(s)
    ensures Untouched(s, HandleStdin(s, line).server, STDIN_FD)
  {
    hide Untouched, Wired, Deliver, QueueClose, QuitCommand;
    UntouchedSelf(s, STDIN_FD);
    if line.Some? && line.value == QuitCommand() {
      var t := s.(closing := true);
      ClosingUntouched(s, t);
      DeliverUntouched(t, RoomClosing, STDIN_FD);
      var u := Deliver(t, RoomClosing).server;
      UntouchedTrans(s, t, u, STDIN_FD);
      QueueCloseUntouched(u);
      UntouchedTrans(s, u, QueueClose(u), STDIN_FD);
    } else if line.Some? {
      DeliverUntouched(s, HostSaid(line.value), STDIN_FD);
    }
  }

  lemma ClosingUntouched(s: Server, t: Server)
    requires Wired(s) && t == s.(closing := true)
    ensures Wired(t) && Untouched(s, t, STDIN_FD)
  {
    UntouchedWired(s, t, STDIN_FD);
  }

  lemma QueueCloseUntouched(s: Server)
    requires Wired(s)
    ensures Untouched(s, QueueClose(s), STDIN_FD)
  {
    hide Untouched, QueueMessage;
    var t := QueueClose(s);
    forall k | 0 <= k < |s.conns|
      ensures t.conns[k].fd == s.conns[k].fd && t.conns[k].peer == s.conns[k].peer
    {
      QueueIdentity(s.conns[k], CLOSE_FRAME);
    }
    UntouchedWired(s, t, STDIN_FD);
  }

  /** Handling an event on one descriptor moves no connection on another one. */
  lemma DispatchUntouched(s: Server, r: Ready, env: Env)
    requires ServerInv(s) && LegalEnv(s, env)
    ensures Untouched(s, Dispatch(s, r, env).server, r.fd)
  {
    hide Rest, HandleAccept, HandleHello, HandleSend, HandleRead, HandleStdin, LegalAccepts, Lookup, Untouched, Wired;
    RestWired(s, NOBODY);
    UntouchedSelf(s, r.fd);
    AcceptUntouched(s, env.accepts);
    StdinUntouched(s, env.line);
    if InState(s, r.fd, WAITING_FOR_CLIENT_HELLO) {
      HelloUntouched(s, r.fd, env.recvs);
    }
    if InState(s, r.fd, ACTIVE) {
      ReadUntouched(s, r.fd, env.recvs);
    }
    if IsSend(s, r) {
      SendUntouched(s, r, env.sends);
    }
  }

  lemma {:induction false} RunHolder(s: Server, batch: seq<Ready>, envs: seq<Env>, m: nat, k: nat)
    requires ServerInv(s) && LegalBatch(s, batch, envs, m)
    requires DistinctFds(batch) && m <= k < |batch| && Watched(s, batch[k].fd)
    requires RunBatch(s, batch[..k], envs, m).ok
    ensures var t := RunBatch(s, batch[..k], envs, m).server;
            Holder(t, batch[k].fd) == Holder(s, batch[k].fd)
    decreases k - m
  {
    hide Rest, Dispatch, LegalEnv, Holder, Watched;
    if m < k {
      var r := Dispatch(s, batch[m], EnvAt(envs, m));
      assert batch[..k][m] == batch[m];
      assert batch[m].fd != batch[k].fd;
      DispatchKeeps(s, batch[m], EnvAt(envs, m));
      DispatchUntouched(s, batch[m], EnvAt(envs, m));
      RunHolder(r.server, batch, envs, m + 1, k);
    }
  }

  /** No stale events: when the event number k of a batch is dispatched, its descriptor belongs to
      the same connection, or to none, as when epoll_wait returned the batch, whatever the events
      before it removed and whatever descriptors accept reused in between. */
  lemma NoStaleEvents(s: Server, revents: seq<PollBits>, envs: seq<Env>, k: nat)
    requires ServerInv(s)
    requires var batch := Wait(s.entries, revents, 0, MAX_EPOLL_EVENTS);
             && LegalBatch(s, batch, envs, 0)
             && k < |batch|
             && RunBatch(s, batch[..k], envs, 0).ok
    ensures var batch := Wait(s.entries, revents, 0, MAX_EPOLL_EVENTS);
            var t := RunBatch(s, batch[..k], envs, 0).server;
            Holder(t, batch[k].fd) == Holder(s, batch[k].fd)
  {
    hide RunBatch, LegalBatch, Wait, Holder, Find, Replay;
    var batch := Wait(s.entries, revents, 0, MAX_EPOLL_EVENTS);
    WaitBatch(s.entries, revents, 0, MAX_EPOLL_EVENTS);
    assert Entered(s.entries, 0, batch[k].fd);
    var i :| 0 <= i < |s.entries| && s.entries[i].fd == batch[k].fd;
    if i >= 2 {
      assert s.conns[i - 2].fd == batch[k].fd;
    }
    assert Watched(s, batch[k].fd);
    RunHolder(s, batch, envs, 0, k);
  }
}
