/** Every handler keeps the server invariant when it returns true, for any bytes its peers send. */
module ServerHandlers {
  import opened Frames
  import opened Options
  import opened Connections
  import opened Interest
  import opened Room
  import opened ServerSpec
  import opened ServerPlumbing
  import opened ServerRecords
  import opened ServerInvariant

  /** The outcome of a handler that started in the invariant. */
  ghost predicate Kept(r: Step) {
    if r.ok then ServerInv(r.server) else Halted(r.server)
  }

  // ---------- Accept ----------

  lemma {:induction false} AcceptKeeps(s: Server, accepts: seq<AcceptResult>)
    requires ServerInv(s) && LegalAccepts(s, accepts)
    ensures Kept(HandleAccept(s, accepts))
    decreases |accepts|
  {
    hide Halted, AcceptOne, LegalAccept;
    if accepts == [] {
    } else if accepts[0].AcceptFailed? {
      if accepts[0].errno == EOTHER {
        InvHalts(s);
      }
    } else {
      AcceptOneKeeps(s, accepts[0].fd, accepts[0].peer);
      AcceptKeeps(AcceptOne(s, accepts[0].fd, accepts[0].peer).server, accepts[1..]);
    }
  }

  lemma InvHalts(s: Server)
    requires ServerInv(s)
    ensures Halted(s)
  {
    RestHalts(s, NOBODY);
  }

  lemma AcceptOneKeeps(s: Server, fd: int, peer: nat)
    requires ServerInv(s) && LegalAccept(s, fd, peer)
    ensures var r := AcceptOne(s, fd, peer);
            r.ok && ServerInv(r.server)
  {
    hide Good, Past, Ids, Find, Lookup, Plumbed, Ctl, EventsOf;
    PlumbedIsWired(s);
    AcceptPlumbed(s, fd, peer);
    var t := AcceptOne(s, fd, peer).server;
    var n := |s.conns|;
    PlumbedIsWired(t);
    assert peer !in Ids(s);
    forall k | 0 <= k < |t.conns|
      ensures SettledAt(t, k)
    {
      if k < n {
        assert SettledAt(s, k);
      } else {
        NewIsGood(s.name, s.log, fd, peer);
      }
    }
    assert NoStrangers(t);
  }

  lemma NewIsGood(host: Text, log: seq<Event>, fd: int, peer: nat)
    requires EventsOf(log, peer) == []
    ensures Good(host, log, NewConn(fd, WAITING_FOR_CLIENT_HELLO, peer))
  {
  }

  // ---------- CLIENT_HELLO ----------

  lemma HelloKeeps(s: Server, fd: int, recvs: seq<RecvResult>)
    requires ServerInv(s) && InState(s, fd, WAITING_FOR_CLIENT_HELLO)
    ensures Kept(HandleHello(s, fd, recvs))
  {
    hide Rest, Halted, HelloParsed, Remove, ReadIntoInBuffer, ParseMessage, Good, Past, SettledAt, Lookup;
    var i := Lookup(s.conns, fd);
    var read := ReadIntoInBuffer(s.conns[i], recvs);
    assert Good(s.name, s.log, s.conns[i]) by { InvAt(s, i); }
    ReadWaiting(s.name, s.log, s.conns[i], recvs);
    if !read.ok {
      PutThenRemove(s, i, read.conn);
    } else {
      HelloParsedKeeps(s, i, read.conn);
    }
  }

  lemma InvAt(s: Server, i: nat)
    requires ServerInv(s) && i < |s.conns|
    ensures i + 2 < |s.entries| && Good(s.name, s.log, s.conns[i]) && OutFlag(s, i)
  {
    assert SettledAt(s, i);
  }

  lemma PutThenRemove(s: Server, i: nat, c: Conn)
    requires ServerInv(s) || Rest(s, i)
    requires i < |s.conns| && c.fd == s.conns[i].fd && c.peer == s.conns[i].peer
    requires Past(s.name, s.log, c)
    ensures ServerInv(Remove(Put(s, i, c), i))
  {
    hide Rest, Past, Remove;
    PutRest(s, i, c);
    RemoveRest(Put(s, i, c), i);
  }

  /** A connection that has only sent bytes so far. */
  ghost predicate Waiting(host: Text, log: seq<Event>, c: Conn) {
    && OutputKept(c) && InputKept(c) && c.fault == NoFault
    && c.joinedAt.None? && EventsOf(log, c.peer) == []
    && c.name == [] && c.queued == [] && c.outBuffer == [] && c.parsed == []
  }

  lemma ReadWaiting(host: Text, log: seq<Event>, c: Conn, recvs: seq<RecvResult>)
    requires Good(host, log, c) && c.state == WAITING_FOR_CLIENT_HELLO
    ensures var r := ReadIntoInBuffer(c, recvs);
            && r.conn.fd == c.fd && r.conn.peer == c.peer
            && Past(host, log, r.conn)
            && (r.ok ==> Waiting(host, log, r.conn) && r.conn.state in {WAITING_FOR_CLIENT_HELLO, CLOSED})
  {
    hide ReadIntoInBuffer, EncodeAll, ParseFrame, EventsOf;
    ReadExact(c, recvs);
    ReadKeepsInput(c, recvs);
  }

  lemma HelloParsedKeeps(s: Server, i: nat, c: Conn)
    requires ServerInv(s) && InWaiting(s, i)
    requires c.fd == s.conns[i].fd && c.peer == s.conns[i].peer
    requires Waiting(s.name, s.log, c) && c.state in {WAITING_FOR_CLIENT_HELLO, CLOSED}
    ensures var (d, m) := ParseMessage(c);
            Kept(HelloParsed(Put(s, i, d), i, m))
  {
    hide Rest, Halted, Remove, Good, Past, SettledAt, Ctl, ParseFrame, QueueMessage, Waiting;
    var (d, m) := ParseMessage(c);
    HelloParsedPast(s.name, s.log, c);
    var t := Put(s, i, d);
    PutRest(s, i, d);
    if d.state == CONNECTION_ERROR {
      RemoveRest(t, i);
    } else if m.None? {
      if d.state == CLOSED {
        RemoveRest(t, i);
      } else {
        StillWaiting(s, i, c);
      }
    } else if m.value.kind != CLIENT_HELLO || m.value.payload == [] {
      PutThenRemove(t, i, Failed(d, WrongMessage));
    } else {
      Named(t, i, c, m.value);
    }
  }

  predicate InWaiting(s: Server, i: nat) {
    i < |s.conns| && s.conns[i].state == WAITING_FOR_CLIENT_HELLO
  }

  lemma HelloParsedPast(host: Text, log: seq<Event>, c: Conn)
    requires Waiting(host, log, c)
    ensures var (d, m) := ParseMessage(c);
            && d.fd == c.fd && d.peer == c.peer
            && Past(host, log, d)
            && (m.Some? && (m.value.kind != CLIENT_HELLO || m.value.payload == []) ==>
                  Past(host, log, Failed(d, WrongMessage)))
  {
    hide ParseFrame, EncodeAll, EventsOf, Encode;
    var (d, m) := ParseMessage(c);
    ParseKeeps(c);
  }

  lemma StillWaiting(s: Server, i: nat, c: Conn)
    requires ServerInv(s) && InWaiting(s, i) && c.fd == s.conns[i].fd && c.peer == s.conns[i].peer
    requires Waiting(s.name, s.log, c) && c.state == WAITING_FOR_CLIENT_HELLO
    requires ParseFrame(c.inBuffer).Incomplete?
    ensures ServerInv(Put(s, i, c))
  {
    hide Past, ParseFrame, EncodeAll, EventsOf, Rest;
    InvAt(s, i);
    PutRest(s, i, c);
    RestSettles(Put(s, i, c), i);
  }

  /** The record once the client has introduced itself and the answer is queued. */
  lemma NamedRecord(host: Text, log: seq<Event>, c: Conn)
    requires Waiting(host, log, c) && ParseMessage(c).1.Some?
    requires ParseMessage(c).1.value.kind == CLIENT_HELLO && ParseMessage(c).1.value.payload != []
    ensures var (d, m) := ParseMessage(c);
            var q := QueueMessage(d.(name := m.value.payload), Hello(host));
            && q.conn.fd == d.fd && q.conn.peer == d.peer
            && Past(host, log, q.conn)
            && (q.ok ==> q.conn.outBuffer != [] && Good(host, log, q.conn.(state := SENDING_SERVER_HELLO)))
  {
    hide ParseFrame, EncodeAll, EventsOf, Encode, Bodies;
    var (d, m) := ParseMessage(c);
    var named := d.(name := m.value.payload);
    ParseKeeps(c);
    assert OutputKept(named);
    QueueKeeps(named, Hello(host));
    assert |Encode(Hello(host))| > 0;
    assert [] + [m.value] == d.parsed;
    var q := QueueMessage(named, Hello(host));
    assert q.ok ==> OutputKept(q.conn.(state := SENDING_SERVER_HELLO));
  }

  lemma Named(t: Server, i: nat, c: Conn, m: Message)
    requires Rest(t, i) && i < |t.conns|
    requires Waiting(t.name, t.log, c) && ParseMessage(c) == (t.conns[i], Some(m))
    requires t.conns[i].state in {WAITING_FOR_CLIENT_HELLO, CLOSED}
    requires m.kind == CLIENT_HELLO && m.payload != []
    ensures Kept(HelloParsed(t, i, Some(m)))
  {
    hide Rest, Halted, Past, ParseMessage, Waiting, Good, QueueMessage, Ctl;
    NamedRecord(t.name, t.log, c);
    var d := t.conns[i];
    var q := QueueMessage(d.(name := m.payload), Hello(t.name));
    if !q.ok {
      PutRest(t, i, q.conn);
      RestHalts(Put(t, i, q.conn), i);
    } else {
      Arms(t, i, q.conn.(state := SENDING_SERVER_HELLO), IN_OUT_RDHUP);
    }
  }

  /** A handled connection that is good again, with its EPOLLOUT set to match its buffer. */
  lemma Arms(s: Server, i: nat, c: Conn, events: Events)
    requires Rest(s, i) && i < |s.conns| && c.fd == s.conns[i].fd && c.peer == s.conns[i].peer
    requires Good(s.name, s.log, c) && events == if c.outBuffer != [] then IN_OUT_RDHUP else IN_RDHUP
    ensures var r := Ctl(s.entries, Mod, c.fd, events);
            r.ok && ServerInv(Put(s, i, c).(entries := r.entries))
  {
    hide Rest, Good, Ctl;
    RestWired(s, i);
    PutRest(s, i, c);
    ModRest(Put(s, i, c), i, events);
    var r := Ctl(s.entries, Mod, c.fd, events);
    var t := Put(s, i, c).(entries := r.entries);
    RestWired(t, i);
    assert t.conns[i] == c && t.entries[i + 2] == Entry(c.fd, events);
    RestSettles(t, i);
  }

  lemma RestWired(s: Server, i: int)
    requires Rest(s, i)
    ensures Wired(s) && |s.entries| == |s.conns| + 2
  {
  }

  lemma DeliverSizes(s: Server, e: Event)
    ensures var t := Deliver(s, e).server;
            && |t.conns| == |s.conns|
            && (Wired(s) ==> Wired(t))
            && forall k | 0 <= k < |s.conns| :: t.conns[k].fd == s.conns[k].fd && t.conns[k].peer == s.conns[k].peer
  {
    hide Render, Legal, QueueMessage;
    var t := Deliver(s, e).server;
    forall k | 0 <= k < |s.conns|
      ensures t.conns[k].fd == s.conns[k].fd && t.conns[k].peer == s.conns[k].peer
    {
      QueueIdentity(s.conns[k], Render(s.name, e));
    }
  }

  // ---------- Send ----------

  lemma SendKeeps(s: Server, fd: int, sends: seq<SendResult>)
    requires ServerInv(s) && (InState(s, fd, SENDING_SERVER_HELLO) || InState(s, fd, ACTIVE))
    ensures Kept(HandleSend(s, fd, sends))
  {
    hide Rest, Halted, Good, Past, Ctl, Flush, Lookup, OutFlag, Admit;
    var i := Lookup(s.conns, fd);
    var c := s.conns[i];
    InvAt(s, i);
    FlushedRecord(s.name, s.log, c, sends);
    var f := Flush(c, sends);
    PutRest(s, i, f.conn);
    var t := Put(s, i, f.conn);
    if !f.ok {
      RestHalts(t, i);
    } else if f.conn.outBuffer != [] {
      assert SettledAt(t, i) by { StillArmed(s, i, f.conn); }
      RestSettles(t, i);
    } else if c.state == SENDING_SERVER_HELLO {
      AdmitKeeps(t, i);
    } else {
      assert Put(t, i, f.conn) == t;
      Arms(t, i, f.conn, IN_RDHUP);
    }
  }

  lemma StillArmed(s: Server, i: nat, c: Conn)
    requires i < |s.conns| && i + 2 < |s.entries| && OutFlag(s, i)
    requires s.conns[i].outBuffer != [] && c.outBuffer != []
    requires Good(s.name, s.log, c)
    ensures SettledAt(Put(s, i, c), i)
  {
    hide Good;
  }

  lemma FlushedRecord(host: Text, log: seq<Event>, c: Conn, sends: seq<SendResult>)
    requires Good(host, log, c) && c.state in {SENDING_SERVER_HELLO, ACTIVE}
    ensures var f := Flush(c, sends);
            && f.conn.fd == c.fd && f.conn.peer == c.peer
            && Past(host, log, f.conn)
            && (f.ok ==> f.conn.state == c.state)
            && (f.ok && (c.state == ACTIVE || f.conn.outBuffer != []) ==> Good(host, log, f.conn))
            && (f.ok && c.state == SENDING_SERVER_HELLO ==> Greeted(host, log, f.conn))
            && (f.conn.outBuffer != [] ==> c.outBuffer != [])
  {
    hide Flush, EncodeAll, ParseFrame, EventsOf, Bodies, Others, Lines;
    var d := Flush(c, sends).conn;
    FlushKeeps(c, sends);
    FlushKeepsOutput(c, sends);
    if c.state == ACTIVE {
      SameFeed(host, log, c, d);
      SameStory(c, d);
    }
    assert InputKept(d);
  }

  /** Only the SERVER_HELLO has been queued. */
  ghost predicate Greeted(host: Text, log: seq<Event>, c: Conn) {
    && OutputKept(c) && InputKept(c) && c.fault == NoFault
    && c.joinedAt.None? && EventsOf(log, c.peer) == []
    && c.name != [] && c.queued == [Hello(host)]
    && c.parsed == [Message(CLIENT_HELLO, c.name)]
  }

  lemma AdmitKeeps(s: Server, i: nat)
    requires Rest(s, i) && i < |s.conns| && Greeted(s.name, s.log, s.conns[i])
    ensures Kept(Admit(s, i))
  {
    hide Rest, Halted, Good, Past, Deliver, Greeted, Render;
    var c := s.conns[i].(state := ACTIVE);
    var t := Put(s, i, c);
    var e := Joined(c.peer, c.name);
    PutRest(s, i, c);
    GreetedIsPast(s.name, s.log, s.conns[i]);
    RestWired(t, i);
    DeliverRest(t, i, e);
    var r := Deliver(t, e);
    if r.ok {
      RestWired(r.server, i);
      Welcomed(t, i, r.server);
      var d := r.server.conns[i].(joinedAt := Some(|s.log|));
      PutRest(r.server, i, d);
      RestSettles(Put(r.server, i, d), i);
    }
  }

  lemma GreetedIsPast(host: Text, log: seq<Event>, c: Conn)
    requires Greeted(host, log, c)
    ensures Past(host, log, c.(state := ACTIVE)) && Greeted(host, log, c.(state := ACTIVE))
  {
    hide EncodeAll, EventsOf, ParseFrame;
  }

  /** The newcomer is a recipient of its own join. */
  lemma Welcomed(s: Server, i: nat, t: Server)
    requires Wired(s) && Wired(t) && i < |s.conns| && s.conns[i].state == ACTIVE
    requires Greeted(s.name, s.log, s.conns[i])
    requires Deliver(s, Joined(s.conns[i].peer, s.conns[i].name)) == Step(t, true)
    ensures |t.conns| == |s.conns| && t.conns[i].fd == s.conns[i].fd && t.conns[i].peer == s.conns[i].peer
    ensures SettledAt(Put(t, i, t.conns[i].(joinedAt := Some(|s.log|))), i)
  {
    hide Good, Render, Wired, Arm, RecipientFds, QueueMessage, Legal;
    var c := s.conns[i];
    var e := Joined(c.peer, c.name);
    var d := t.conns[i].(joinedAt := Some(|s.log|));
    Sizes(s);
    Sizes(t);
    ArmAt(s, RecipientFds(s.conns, e), IN_OUT_RDHUP, i);
    RecipientFdsAt(s, e, i);
    RecipientLegal(s, e, i, t);
    assert t.conns[i] == QueueMessage(c, Render(s.name, e)).conn;
    assert t.conns[i].fd == c.fd && t.conns[i].peer == c.peer by { QueueIdentity(c, Render(s.name, e)); }
    JoinGood(s.name, s.log, c, d);
  }

  // ---------- Read ----------

  lemma DeliverInput(s: Server, i: nat, e: Event)
    requires i < |s.conns|
    ensures var r := Deliver(s, e);
            |r.server.conns| == |s.conns| && (r.ok ==> r.server.conns[i].inBuffer == s.conns[i].inBuffer)
  {
    hide Render, Legal, QueueMessage;
    QueueIdentity(s.conns[i], Render(s.name, e));
  }

  /** An event of connection i itself leaves connection i alone. */
  lemma DeliverSelf(s: Server, i: nat, e: Event)
    requires Wired(s) && i < |s.conns| && Author(e) == Some(s.conns[i].peer)
    ensures var r := Deliver(s, e);
            r.ok ==>
              && |r.server.conns| == |s.conns| && r.server.conns[i] == s.conns[i]
              && |r.server.entries| == |s.entries| && r.server.entries[i + 2] == s.entries[i + 2]
              && r.server.log == s.log + [e] && r.server.name == s.name && r.server.closing == s.closing
  {
    hide Render, QueueMessage, Legal, Arm, RecipientFds;
    RecipientFdsAt(s, e, i);
    ArmAt(s, RecipientFds(s.conns, e), IN_OUT_RDHUP, i);
  }

  lemma LeaveKeeps(s: Server, i: nat)
    requires Rest(s, i) && i < |s.conns| && Present(s.name, s.log, s.conns[i])
    ensures Kept(Leave(s, i))
  {
    hide Rest, Halted, Past, Present, Deliver, Remove;
    var c := s.conns[i];
    var e := Left(c.peer, c.name);
    PresentIsPast(s.name, s.log, c);
    RestWired(s, i);
    DeliverRest(s, i, e);
    DeliverSelf(s, i, e);
    var r := Deliver(s, e);
    if r.ok {
      PastLeft(s.name, s.log, c);
      RemoveRest(r.server, i);
    }
  }

  lemma {:induction false} DrainKeeps(s: Server, i: nat)
    requires Rest(s, i) && i < |s.conns| && Talking(s.name, s.log, s.conns[i])
    requires s.conns[i].state in {ACTIVE, CLOSED}
    requires i + 2 < |s.entries| && OutFlag(s, i)
    ensures Kept(Drain(s, i))
    decreases |s.conns[i].inBuffer|
  {
    hide Rest, Halted, Past, Present, Talking, Deliver, Remove, ParseFrame, Good, OutFlag, Leave, Legal;
    var (c, m) := ParseMessage(s.conns[i]);
    ParsedIsPast(s.name, s.log, s.conns[i]);
    var t := Put(s, i, c);
    PutRest(s, i, c);
    if c.state == CONNECTION_ERROR {
      RemoveRest(t, i);
    } else if m.None? {
      assert t == s;
      if c.state == CLOSED {
        assert Present(s.name, s.log, c) by { TalkingIsPresent(s.name, s.log, c); }
        LeaveKeeps(t, i);
      } else {
        assert SettledAt(s, i) by { TalkingIsGood(s.name, s.log, c); }
        RestSettles(s, i);
      }
    } else if m.value == CLOSE_FRAME {
      PresentClosing(s.name, s.log, s.conns[i]);
      LeaveKeeps(t, i);
    } else if m.value.kind != CHAT {
      assert Put(t, i, Failed(c, WrongMessage)) == Put(s, i, Failed(c, WrongMessage));
      PutThenRemove(t, i, Failed(c, WrongMessage));
    } else {
      var e := Said(c.peer, c.name, m.value.payload);
      RestWired(t, i);
      DeliverRest(t, i, e);
      DeliverSelf(t, i, e);
      TalkingSaid(s.name, s.log, s.conns[i]);
      var r := Deliver(t, e);
      if r.ok {
        assert OutFlag(r.server, i) by { SameFlag(s, r.server, i); }
        DrainKeeps(r.server, i);
      }
    }
  }

  lemma TalkingIsPresent(host: Text, log: seq<Event>, c: Conn)
    requires Talking(host, log, c)
    ensures Present(host, log, c)
  {
  }

  lemma TalkingIsGood(host: Text, log: seq<Event>, c: Conn)
    requires Talking(host, log, c) && c.state == ACTIVE
    ensures Good(host, log, c)
  {
  }

  lemma SameFlag(s: Server, t: Server, i: nat)
    requires i < |s.conns| && i + 2 < |s.entries| && i < |t.conns| && i + 2 < |t.entries|
    requires OutFlag(s, i) && t.entries[i + 2] == s.entries[i + 2] && t.closing == s.closing
    requires t.conns[i].outBuffer == s.conns[i].outBuffer
    ensures OutFlag(t, i)
  {
  }

  lemma ReadKeeps(s: Server, fd: int, recvs: seq<RecvResult>)
    requires ServerInv(s) && InState(s, fd, ACTIVE)
    ensures Kept(HandleRead(s, fd, recvs))
  {
    hide Rest, Halted, Good, Past, Talking, Lookup, ReadIntoInBuffer, OutFlag, Drain, Remove;
    var i := Lookup(s.conns, fd);
    var c := s.conns[i];
    InvAt(s, i);
    assert Talking(s.name, s.log, c) by { GoodIsTalking(s.name, s.log, c); }
    var r := ReadIntoInBuffer(c, recvs);
    ReadTalking(s.name, s.log, c, recvs);
    ReadExact(c, recvs);
    PutRest(s, i, r.conn);
    var t := Put(s, i, r.conn);
    if !r.ok {
      RemoveRest(t, i);
    } else {
      assert OutFlag(t, i) by { SameFlag(s, t, i); }
      DrainKeeps(t, i);
    }
  }

  lemma GoodIsTalking(host: Text, log: seq<Event>, c: Conn)
    requires Good(host, log, c) && c.state == ACTIVE
    ensures Talking(host, log, c)
  {
  }

  // ---------- Stdin ----------

  lemma CloseRecord(host: Text, log: seq<Event>, c: Conn)
    requires Good(host, log, c) && c.state == ACTIVE
    ensures var d := QueueMessage(c, CLOSE_FRAME).conn;
            Good(host, log, d) && d.outBuffer != []
  {
    hide EncodeAll, EventsOf, Others, Lines, Bodies, ParseFrame, Feed, Story;
    var d := QueueMessage(c, CLOSE_FRAME).conn;
    QueueKeeps(c, CLOSE_FRAME);
    BodiesSnoc(c.queued, CLOSE_FRAME, BROADCAST);
    SameFeed(host, log, c, d);
    SameStory(c, d);
    assert |Encode(CLOSE_FRAME)| > 0;
    assert d.queued == c.queued + [CLOSE_FRAME];
    assert InputKept(d);
  }

  lemma QueueCloseKeeps(s: Server)
    requires ServerInv(s) && s.closing
    ensures ServerInv(QueueClose(s))
  {
    hide Past, Good, Ids, EventsOf, QueueMessage;
    var t := QueueClose(s);
    forall k | 0 <= k < |s.conns|
      ensures t.conns[k].fd == s.conns[k].fd && t.conns[k].peer == s.conns[k].peer
    {
      QueueIdentity(s.conns[k], CLOSE_FRAME);
    }
    SameWiringPlumbed(s, t);
    forall k | 0 <= k < |t.conns|
      ensures SettledAt(t, k)
    {
      CloseAt(s, t, k);
    }
    assert NoStrangers(t);
  }

  lemma CloseAt(s: Server, t: Server, k: nat)
    requires ServerInv(s) && s.closing && t == QueueClose(s) && Wired(t) && k < |s.conns|
    ensures SettledAt(t, k)
  {
    hide Past, Good, Ids, EventsOf, QueueMessage, Rest, Arm, ActiveFds, Wired;
    InvAt(s, k);
    RestWired(s, NOBODY);
    Sizes(t);
    ArmAt(s, ActiveFds(s.conns), OUT_RDHUP, k);
    ActiveFdsAt(s, k);
    if s.conns[k].state == ACTIVE {
      CloseRecord(s.name, s.log, s.conns[k]);
    }
  }

  lemma ActiveFdsAt(s: Server, k: nat)
    requires Wired(s) && k < |s.conns|
    ensures s.conns[k].fd in ActiveFds(s.conns) <==> s.conns[k].state == ACTIVE
  {
    hide Lookup, Find;
    PlumbedFds(s);
  }

  lemma ClosingFlag(s: Server)
    requires ServerInv(s)
    ensures ServerInv(s.(closing := true))
  {
    hide Past, Good, Ids, EventsOf;
    var t := s.(closing := true);
    SameWiringPlumbed(s, t);
    forall k | 0 <= k < |t.conns| ensures SettledAt(t, k) { assert SettledAt(s, k); }
    assert NoStrangers(t);
  }

  lemma DeliverClosing(s: Server, e: Event)
    ensures Deliver(s, e).server.closing == s.closing
    ensures Deliver(s, e).server.name == s.name
  {
  }

  lemma DeliverInv(s: Server, e: Event)
    requires ServerInv(s) && Subject(e).None?
    ensures Kept(Deliver(s, e))
  {
    hide Rest, Halted, Deliver;
    DeliverRest(s, NOBODY, e);
  }

  lemma StdinKeeps(s: Server, line: Option<Text>)
    requires ServerInv(s)
    ensures Kept(HandleStdin(s, line))
  {
    hide Rest, Halted, Deliver, QueueClose, QuitCommand;
    InvHalts(s);
    if line.Some? && line.value == QuitCommand() {
      ClosingFlag(s);
      var t := s.(closing := true);
      DeliverInv(t, RoomClosing);
      DeliverClosing(t, RoomClosing);
      var r := Deliver(t, RoomClosing);
      if r.ok {
        QueueCloseKeeps(r.server);
        InvHalts(QueueClose(r.server));
      }
    } else if line.Some? {
      DeliverInv(s, HostSaid(line.value));
    }
  }

  // ---------- Dispatch, batches and the whole loop ----------

  /** The kernel's guarantee for one event. */
  predicate LegalEnv(s: Server, env: Env) {
    LegalAccepts(s, env.accepts)
  }

  lemma DispatchKeeps(s: Server, r: Ready, env: Env)
    requires ServerInv(s) && LegalEnv(s, env)
    ensures Kept(Dispatch(s, r, env))
  {
    hide Rest, Halted, HandleAccept, HandleHello, HandleSend, HandleRead, HandleStdin, LegalAccepts, Lookup;
    InvHalts(s);
    AcceptKeeps(s, env.accepts);
    StdinKeeps(s, env.line);
    if InState(s, r.fd, WAITING_FOR_CLIENT_HELLO) {
      HelloKeeps(s, r.fd, env.recvs);
    }
    if InState(s, r.fd, ACTIVE) {
      ReadKeeps(s, r.fd, env.recvs);
    }
    if IsSend(s, r) {
      SendKeeps(s, r.fd, env.sends);
    }
  }

  predicate LegalBatch(s: Server, batch: seq<Ready>, envs: seq<Env>, k: nat)
    decreases |batch| - k
  {
    k < |batch| ==>
      && LegalEnv(s, EnvAt(envs, k))
      && var r := Dispatch(s, batch[k], EnvAt(envs, k));
         r.ok ==> LegalBatch(r.server, batch, envs, k + 1)
  }

  lemma {:induction false} BatchKeeps(s: Server, batch: seq<Ready>, envs: seq<Env>, k: nat)
    requires ServerInv(s) && LegalBatch(s, batch, envs, k)
    ensures Kept(RunBatch(s, batch, envs, k))
    decreases |batch| - k
  {
    hide Rest, Halted, Dispatch, LegalEnv;
    if k < |batch| {
      DispatchKeeps(s, batch[k], EnvAt(envs, k));
      var r := Dispatch(s, batch[k], EnvAt(envs, k));
      if r.ok {
        BatchKeeps(r.server, batch, envs, k + 1);
      }
    }
  }

  predicate LegalWakeup(s: Server, w: Wakeup) {
    w.Woken? ==> LegalBatch(s, Wait(s.entries, w.revents, 0, MAX_EPOLL_EVENTS), w.envs, 0)
  }

  lemma WakeupKeeps(s: Server, w: Wakeup)
    requires ServerInv(s) && LegalWakeup(s, w)
    ensures Kept(HandleWakeup(s, w))
  {
    hide Rest, Halted, RunBatch, Wait, LegalBatch;
    InvHalts(s);
    if w.Woken? {
      var batch := Wait(s.entries, w.revents, 0, MAX_EPOLL_EVENTS);
      BatchKeeps(s, batch, w.envs, 0);
      var r := RunBatch(s, batch, w.envs, 0);
      if r.ok {
        InvHalts(r.server);
      }
    }
  }

  predicate LegalRun(s: Server, wakeups: seq<Wakeup>)
    decreases |wakeups|
  {
    wakeups != [] ==>
      && LegalWakeup(s, wakeups[0])
      && var r := HandleWakeup(s, wakeups[0]);
         r.ok ==> LegalRun(r.server, wakeups[1..])
  }

  lemma {:induction false} LoopKeeps(s: Server, wakeups: seq<Wakeup>)
    requires ServerInv(s) && LegalRun(s, wakeups)
    ensures Kept(EventLoop(s, wakeups))
    decreases |wakeups|
  {
    hide Rest, Halted, HandleWakeup, LegalWakeup;
    if wakeups != [] {
      WakeupKeeps(s, wakeups[0]);
      var r := HandleWakeup(s, wakeups[0]);
      if r.ok {
        LoopKeeps(r.server, wakeups[1..]);
      }
    }
  }

  lemma InitInv(name: Text, listenFd: int)
    requires listenFd != STDIN_FD
    ensures ServerInv(Init(name, listenFd))
  {
    ReplaySnoc([], Opened(listenFd));
    assert [] + [Opened(listenFd)] == [Opened(listenFd)];
    assert Replay([]) == Some({}) && Fds([]) == {};
    assert {listenFd} + Fds([]) == {} + {listenFd};
  }

  /** In every run from a successful setup, with any peers, the invariant holds between events. */
  lemma EveryRun(name: Text, listenFd: int, wakeups: seq<Wakeup>)
    requires listenFd != STDIN_FD && LegalRun(Init(name, listenFd), wakeups)
    ensures Kept(EventLoop(Init(name, listenFd), wakeups))
  {
    hide Rest, Halted, Init;
    InitInv(name, listenFd);
    LoopKeeps(Init(name, listenFd), wakeups);
  }
}
