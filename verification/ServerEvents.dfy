/** What the server does with an event, in full: a writable connection, a line of the host, arrivals;
    and how events make up a batch and batches a run. */
module ServerEvents {
  import opened Frames
  import opened Options
  import opened Connections
  import opened Interest
  import opened Room
  import opened ServerSpec
  import opened ServerPlumbing
  import opened ServerInvariant
  import opened ServerHandlers
  import opened ServerDispatch
  import opened ServerTheorems
  import opened ServerShutdown

  /** A connection when a frame goes out to everyone who is ACTIVE. */
  function Gains(c: Conn, m: Message): Conn {
    if c.state == ACTIVE then c.(outBuffer := c.outBuffer + Encode(m), queued := c.queued + [m]) else c
  }

  predicate AllGain(before: seq<Conn>, after: seq<Conn>, m: Message) {
    |after| == |before| && forall k | 0 <= k < |before| :: after[k] == Gains(before[k], m)
  }

  lemma DeliverToAll(s: Server, e: Event)
    requires Author(e).None? && Legal(Render(s.name, e))
    ensures var d := Deliver(s, e);
            d.ok && d.server.log == s.log + [e] && d.server.retired == s.retired && d.server.closing == s.closing
            && AllGain(s.conns, d.server.conns, Render(s.name, e))
  {
    hide Render, Encode, Legal;
  }

  // ---------- A writable connection ----------

  /** Connection k has become `c` and joins: its join is logged and goes to everyone ACTIVE, itself
      included. */
  predicate Joins(s: Server, t: Server, k: nat, c: Conn)
    requires k < |s.conns|
  {
    var e := Joined(c.peer, c.name);
    && t.log == s.log + [e]
    && AllGain(s.conns[k := c.(state := ACTIVE, joinedAt := Some(|s.log|))], t.conns, Render(s.name, e))
  }

  /** A connection that has something to send and is writable hands over, closing or not, as many of
      its unsent bytes as the kernel has room for. If some are left nothing else happens, unless the
      kernel fails hard. If none is left, a member is no longer watched for writing, and someone who
      was being greeted joins, if the join fits a frame. */
  lemma SendEffect(s: Server, k: nat, r: Ready, env: Env)
    requires ServerInv(s) && k < |s.conns| && s.conns[k].fd == r.fd
    requires s.conns[k].outBuffer != [] && r.events.output
    ensures var c := s.conns[k];
            var n := |Unsent(c)|;
            var room := Offered(env.sends);
            var d := Dispatch(s, r, env);
            && (room < n && !StopsHard(env.sends) ==> d == Step(Put(s, k, HandedOver(c, room)), true))
            && (room < n && StopsHard(env.sends) ==>
                  d == Step(Put(s, k, Failed(HandedOver(c, room), SocketError)), false))
            && (room >= n && c.state == ACTIVE ==>
                  d == Step(Put(s, k, HandedOver(c, n)).(entries := s.entries[k + 2 := Entry(r.fd, IN_RDHUP)]), true))
            && (room >= n && c.state != ACTIVE && |c.name| + 22 <= MAX_PAYLOAD_SIZE ==>
                  d.ok && Joins(s, d.server, k, HandedOver(c, n)))
            && (room >= n && c.state != ACTIVE && |c.name| + 22 > MAX_PAYLOAD_SIZE ==>
                  !d.ok && d.server.log == s.log)
  {
    hide Rest, Dispatch, Lookup, Flush, Offered, StopsHard, HandedOver, Unsent, Admit, Ctl, Wired, Joins;
    AtOwnFd(s, k);
    ConnectionExact(s, k, r, env);
    InvAt(s, k);
    var c := s.conns[k];
    StateBuffer(s.name, s.log, c);
    assert OutputKept(c) by { GoodOutput(s.name, s.log, c); }
    FlushExact(c, env.sends);
    var taken := Min(Offered(env.sends), |Unsent(c)|);
    HandedOverShape(c, taken);
    RestWired(s, NOBODY);
    var t := Put(s, k, HandedOver(c, taken));
    if Offered(env.sends) >= |Unsent(c)| {
      if c.state == ACTIVE {
        ModAt(s, k, IN_RDHUP);
      } else {
        AdmitEffect(s, k, HandedOver(c, taken));
      }
    }
  }

  lemma HandedOverShape(c: Conn, taken: nat)
    requires c.written < |c.outBuffer| && taken <= |Unsent(c)|
    ensures var d := HandedOver(c, taken);
            && d.state == c.state && d.name == c.name && d.peer == c.peer
            && (d.outBuffer == [] <==> taken == |Unsent(c)|)
  {
  }

  lemma ModAt(s: Server, k: nat, events: Events)
    requires Wired(s) && k < |s.conns|
    ensures k + 2 < |s.entries|
    ensures Ctl(s.entries, Mod, s.conns[k].fd, events)
            == CtlResult(s.entries[k + 2 := Entry(s.conns[k].fd, events)], true)
  {
    hide Find, Lookup;
    PlumbedFds(s);
  }

  lemma AdmitEffect(s: Server, k: nat, c: Conn)
    requires k < |s.conns|
    ensures var d := Admit(Put(s, k, c), k);
            if |c.name| + 22 <= MAX_PAYLOAD_SIZE then d.ok && Joins(s, d.server, k, c)
            else !d.ok && d.server.log == s.log
  {
    hide Render, Encode;
    var e := Joined(c.peer, c.name);
    RenderedLength(s.name, e);
    var t := Put(Put(s, k, c), k, c.(state := ACTIVE));
    if Legal(Render(s.name, e)) {
      DeliverToAll(t, e);
    } else {
      assert Recipient(t.conns[k], e);
    }
  }

  /** If the kernel takes anything, some of what is queued has left. */
  lemma SendProgress(s: Server, k: nat, r: Ready, env: Env)
    requires ServerInv(s) && k < |s.conns| && s.conns[k].fd == r.fd
    requires s.conns[k].outBuffer != [] && r.events.output
    requires env.sends != [] && env.sends[0].Sent? && env.sends[0].n > 0
    ensures var d := Dispatch(s, r, env);
            d.ok ==>
              && |d.server.conns| == |s.conns|
              && s.conns[k].sent < d.server.conns[k].sent
  {
    hide Rest, Dispatch, StopsHard, Gains;
    SendEffect(s, k, r, env);
    InvAt(s, k);
    var c := s.conns[k];
    assert OutputKept(c) by { GoodOutput(s.name, s.log, c); }
    assert 0 < |Unsent(c)| && 0 < Offered(env.sends);
    HandedOverSent(c, Min(Offered(env.sends), |Unsent(c)|));
    forall b: Conn, m: Message ensures Gains(b, m).sent == b.sent { GainsSent(b, m); }
  }

  lemma GainsSent(c: Conn, m: Message)
    ensures Gains(c, m).sent == c.sent
  {
  }

  lemma HandedOverSent(c: Conn, taken: nat)
    requires 0 < taken <= |Unsent(c)|
    ensures c.sent < HandedOver(c, taken).sent
  {
  }

  // ---------- A line of the host ----------

  /** What the host types. A line that fits a frame under the host's name is logged and goes to every
      ACTIVE connection exactly as typed, and to nobody else; nothing comes of an empty line or one
      that is longer than a payload may be; one in between stops the server if anyone should hear
      it; so does a failed getline. (What /quit does, QuitQueues and QuitGoesOn say.) */
  lemma StdinEffect(s: Server, r: Ready, env: Env)
    requires ServerInv(s) && !s.closing && r.fd == STDIN_FD && r.events.input
    ensures var d := Dispatch(s, r, env);
            match env.line
            case None => d == Step(s, false)
            case Some(line) =>
              && (line == [] || (line != QuitCommand() && |line| > MAX_PAYLOAD_SIZE) ==> d == Step(s, true))
              && (line == QuitCommand() ==> d == HandleStdin(s, env.line))
              && (line != [] && line != QuitCommand() && |s.name| + |line| + 3 <= MAX_PAYLOAD_SIZE ==>
                    && d.ok && d.server.log == s.log + [HostSaid(line)] && d.server.retired == s.retired
                    && !d.server.closing
                    && AllGain(s.conns, d.server.conns, Message(BROADCAST, Format(s.name, line))))
              && (line != QuitCommand() && |line| <= MAX_PAYLOAD_SIZE < |s.name| + |line| + 3 && line != [] ==>
                    if Audience(s, NOBODY) then !d.ok && d.server.log == s.log
                    else d.ok && d.server.log == s.log + [HostSaid(line)] && d.server.conns == s.conns)
  {
    hide Rest, Dispatch, QuitCommand, QueueClose, AllEmpty, Format, OnConnection, AllGain, Audience;
    assert r.fd != s.listenFd by { OwnFdsFree(s); }
    DispatchExact(s, r, env);
    if env.line.Some? && env.line.value != [] && env.line.value != QuitCommand() {
      LineEffect(s, env.line.value);
    }
    QuitText();
  }

  lemma LineEffect(s: Server, line: Text)
    requires |line| <= MAX_PAYLOAD_SIZE || |s.name| + |line| + 3 > MAX_PAYLOAD_SIZE
    ensures var d := Deliver(s, HostSaid(line));
            if |s.name| + |line| + 3 <= MAX_PAYLOAD_SIZE then
              && d.ok && d.server.log == s.log + [HostSaid(line)] && d.server.retired == s.retired
              && d.server.closing == s.closing
              && AllGain(s.conns, d.server.conns, Message(BROADCAST, Format(s.name, line)))
            else if Audience(s, NOBODY) then
              !d.ok && d.server.log == s.log
            else
              d.ok && d.server.log == s.log + [HostSaid(line)] && d.server.conns == s.conns
  {
    hide Format, Encode, Audience, FirstRecipient, AllGain;
    var e := HostSaid(line);
    RenderedLength(s.name, e);
    if Legal(Render(s.name, e)) {
      DeliverToAll(s, e);
    } else {
      HostIsHeard(s, line);
      if !Audience(s, NOBODY) {
        Unheard(s, e);
      }
    }
  }

  /** Everyone ACTIVE is a recipient of what the host says. */
  lemma HostIsHeard(s: Server, text: Text)
    ensures Audience(s, NOBODY) <==> FirstRecipient(s.conns, HostSaid(text)) < |s.conns|
  {
    hide FirstRecipient;
    var e := HostSaid(text);
    if k :| 0 <= k < |s.conns| && s.conns[k].state == ACTIVE {
      assert Recipient(s.conns[k], e);
    }
  }

  lemma Unheard(s: Server, e: Event)
    requires FirstRecipient(s.conns, e) == |s.conns|
    ensures QueueToRecipients(s.conns, e, Render(s.name, e)) == s.conns
  {
    hide Render;
  }

  // ---------- /quit in the interest list ----------

  /** From /quit on the members are watched for writing and hang-ups only, and nothing else has
      changed in the interest list. */
  lemma QuitArms(s: Server)
    requires ServerInv(s)
    ensures var u := AfterQuit(s);
            && |u.entries| == |s.entries| == |s.conns| + 2
            && u.entries[0] == s.entries[0] && u.entries[1] == s.entries[1]
            && forall k | 0 <= k < |s.conns| ::
                 u.entries[k + 2] == if s.conns[k].state == ACTIVE
                                     then Entry(s.conns[k].fd, Events(false, true, false, false, true))
                                     else s.entries[k + 2]
  {
    hide Rest, AfterQuit;
    QuitQueues(s);
    var u := AfterQuit(s);
    InvEnds(s);
    InvEnds(u);
    assert u.listenFd == s.listenFd by { QuitListens(s); }
    forall k | 0 <= k < |s.conns|
      ensures u.entries[k + 2]
              == if s.conns[k].state == ACTIVE then Entry(s.conns[k].fd, OUT_RDHUP) else s.entries[k + 2]
    {
      QuitArmsAt(s, k);
    }
  }

  lemma InvEnds(s: Server)
    requires ServerInv(s)
    ensures |s.entries| == |s.conns| + 2
    ensures s.entries[0] == Entry(s.listenFd, IN) && s.entries[1] == Entry(STDIN_FD, IN)
  {
  }

  lemma QuitListens(s: Server)
    ensures AfterQuit(s).listenFd == s.listenFd
  {
    hide Render, QuitCommand, AllEmpty;
    QuitText();
  }

  lemma QuitArmsAt(s: Server, k: nat)
    requires ServerInv(s) && k < |s.conns|
    ensures k + 2 < |s.entries| && k + 2 < |AfterQuit(s).entries|
    ensures AfterQuit(s).entries[k + 2]
            == if s.conns[k].state == ACTIVE then Entry(s.conns[k].fd, OUT_RDHUP) else s.entries[k + 2]
  {
    hide Rest, Render, Wired, Arm, RecipientFds, ActiveFds, Legal, QueueMessage, QuitCommand, AllEmpty;
    QuitText();
    RestWired(s, NOBODY);
    var t := s.(closing := true);
    assert Wired(t) by { WiredAlike(s, t); }
    var r := Deliver(t, RoomClosing);
    ClosingFits(t);
    DeliverSizes(t, RoomClosing);
    DeliverStates(t, RoomClosing);
    Sizes(r.server);
    ArmAt(t, RecipientFds(t.conns, RoomClosing), IN_OUT_RDHUP, k);
    RecipientFdsAt(t, RoomClosing, k);
    ArmAt(r.server, ActiveFds(r.server.conns), OUT_RDHUP, k);
    ActiveFdsAt(r.server, k);
  }

  lemma WiredAlike(s: Server, t: Server)
    requires Wired(s) && t == s.(closing := true)
    ensures Wired(t)
  {
  }

  // ---------- What members say ----------

  function FramesOf(host: Text, es: seq<Event>): (ms: seq<Message>)
    ensures |ms| == |es|
  {
    seq(|es|, k requires 0 <= k < |es| => Render(host, es[k]))
  }

  /** Everyone ACTIVE but connection i is queued these frames, connection i and everyone else is
      queued nothing; connection i is still listed, or the last to be retired. */
  predicate Heard(s: Server, t: Server, i: nat, stays: bool, ms: seq<Message>)
    requires i < |s.conns|
  {
    && |t.conns| == |s.conns| - (if stays then 0 else 1)
    && (forall j | 0 <= j < |s.conns| && j != i ::
          t.conns[if stays || j < i then j else j - 1].queued
          == s.conns[j].queued + if s.conns[j].state == ACTIVE then ms else [])
    && if stays then t.conns[i].queued == s.conns[i].queued
       else t.retired != [] && t.retired[|t.retired| - 1].queued == s.conns[i].queued
  }

  /** A read of a member, in full: what it completes is logged and heard by everyone else ACTIVE, in
      order, and nobody is told anything else. (HelloExact says what the read of a hello does.) */
  lemma ReadEffect(s: Server, k: nat, r: Ready, env: Env)
    requires ServerInv(s) && !s.closing && k < |s.conns| && s.conns[k].fd == r.fd && s.conns[k].state == ACTIVE
    requires r.events.input || r.events.rdhup || r.events.hup
    requires s.conns[k].outBuffer == [] || !r.events.output
    ensures var c := s.conns[k];
            var p := ParseAll(c.inBuffer + Arrived(env.recvs));
            var closed := EndOf(env.recvs).AtEof?;
            var failed := EndOf(env.recvs).AtError?;
            var es := if failed then [] else ReadEvents(c.peer, c.name, p, closed);
            var d := Dispatch(s, r, env);
            && (d.ok <==> AllFit(s.name, es) || !Audience(s, k))
            && (d.ok ==>
                  && d.server.log == s.log + es
                  && Heard(s, d.server, k, !failed && Stays(p, closed), FramesOf(s.name, es)))
  {
    hide Rest, Dispatch, Lookup, ReadIntoInBuffer, Drain, Audience, Stays, Wired, DistinctPeers, ParseAll, ReadEvents;
    hide Remove, AllFit, HandleRead, Heard, FramesOf;
    AtOwnFd(s, k);
    ConnectionExact(s, k, r, env);
    ReadRelays(s, r.fd, env.recvs);
    ReadHeard(s, k, env.recvs);
  }

  lemma ReadHeard(s: Server, k: nat, recvs: seq<RecvResult>)
    requires ServerInv(s) && k < |s.conns| && s.conns[k].state == ACTIVE
    ensures var c := s.conns[k];
            var p := ParseAll(c.inBuffer + Arrived(recvs));
            var closed := EndOf(recvs).AtEof?;
            var failed := EndOf(recvs).AtError?;
            var es := if failed then [] else ReadEvents(c.peer, c.name, p, closed);
            var d := HandleRead(s, c.fd, recvs);
            d.ok ==> Heard(s, d.server, k, !failed && Stays(p, closed), FramesOf(s.name, es))
  {
    hide Rest, Lookup, ReadIntoInBuffer, Drain, Stays, Wired, DistinctPeers, ParseAll, ReadEvents, Remove, Heard;
    hide FramesOf;
    AtOwnFd(s, k);
    var c := s.conns[k];
    RestWired(s, NOBODY);
    RestDistinct(s);
    ReadExact(c, recvs);
    var d := ReadIntoInBuffer(c, recvs).conn;
    PutFrame(s, k, d);
    var t := Put(s, k, d);
    if EndOf(recvs).AtError? {
      RemoveHeard(t, k);
      assert FramesOf(s.name, []) == [];
      HeardPut(s, k, d, Remove(t, k), false, []);
    } else {
      DrainHeard(t, k);
      var p := ParseAll(d.inBuffer);
      var closed := EndOf(recvs).AtEof?;
      HeardPut(s, k, d, Drain(t, k).server, Stays(p, closed), FramesOf(s.name, ReadEvents(c.peer, c.name, p, closed)));
    }
  }

  lemma HeardPut(s: Server, i: nat, c: Conn, t: Server, stays: bool, ms: seq<Message>)
    requires i < |s.conns| && c.queued == s.conns[i].queued
    ensures Heard(Put(s, i, c), t, i, stays, ms) ==> Heard(s, t, i, stays, ms)
  {
    if Heard(Put(s, i, c), t, i, stays, ms) {
      forall j | 0 <= j < |s.conns| && j != i
        ensures t.conns[if stays || j < i then j else j - 1].queued
                == s.conns[j].queued + if s.conns[j].state == ACTIVE then ms else []
      {
        assert Put(s, i, c).conns[j] == s.conns[j];
      }
    }
  }

  lemma RemoveHeard(s: Server, i: nat)
    requires i < |s.conns|
    ensures Heard(s, Remove(s, i), i, false, [])
  {
    hide Ctl;
    forall j | 0 <= j < |s.conns| ensures s.conns[j].queued + [] == s.conns[j].queued { }
  }

  /** Delivering what connection i does: everyone else ACTIVE is queued the frame. */
  lemma DeliverHeard(s: Server, i: nat, e: Event)
    requires DistinctPeers(s.conns) && i < |s.conns| && Author(e) == Some(s.conns[i].peer)
    ensures var d := Deliver(s, e);
            d.ok ==> |d.server.conns| == |s.conns| && Heard(s, d.server, i, true, [Render(s.name, e)])
  {
    hide Render, Encode, Legal;
    var d := Deliver(s, e);
    if d.ok {
      forall j | 0 <= j < |s.conns| && j != i
        ensures d.server.conns[j].queued
                == s.conns[j].queued + if s.conns[j].state == ACTIVE then [Render(s.name, e)] else []
      {
        assert s.conns[j].peer != s.conns[i].peer;
        assert s.conns[j].queued + [] == s.conns[j].queued;
        if s.conns[j].state == ACTIVE {
          RecipientMeansLegal(s, e, j);
        }
      }
    }
  }

  lemma HeardThen(s: Server, u: Server, t: Server, i: nat, stays: bool, ms: seq<Message>, ns: seq<Message>)
    requires i < |s.conns| && Heard(s, u, i, true, ms) && Heard(u, t, i, stays, ns)
    requires forall j | 0 <= j < |s.conns| :: u.conns[j].state == s.conns[j].state
    ensures Heard(s, t, i, stays, ms + ns)
  {
    forall j | 0 <= j < |s.conns| && j != i
      ensures t.conns[if stays || j < i then j else j - 1].queued
              == s.conns[j].queued + if s.conns[j].state == ACTIVE then ms + ns else []
    {
      assert t.conns[if stays || j < i then j else j - 1].queued
             == u.conns[j].queued + if s.conns[j].state == ACTIVE then ns else [];
      assert u.conns[j].queued == s.conns[j].queued + if s.conns[j].state == ACTIVE then ms else [];
      assert (s.conns[j].queued + ms) + ns == s.conns[j].queued + (ms + ns);
      assert (s.conns[j].queued + []) + [] == s.conns[j].queued + [];
    }
  }

  lemma LeaveHeard(s: Server, i: nat)
    requires Wired(s) && DistinctPeers(s.conns) && i < |s.conns|
    ensures var c := s.conns[i];
            var d := Leave(s, i);
            d.ok ==> Heard(s, d.server, i, false, [Render(s.name, Left(c.peer, c.name))])
  {
    hide Deliver, Render, Heard, Remove, Wired, DistinctPeers;
    var e := Left(s.conns[i].peer, s.conns[i].name);
    var d := Deliver(s, e);
    DeliverHeard(s, i, e);
    DeliverStates(s, e);
    if d.ok {
      RemoveHeard(d.server, i);
      HeardThen(s, d.server, Remove(d.server, i), i, false, [Render(s.name, e)], []);
      assert [Render(s.name, e)] + [] == [Render(s.name, e)];
    }
  }

  lemma NothingHeard(s: Server, i: nat)
    requires i < |s.conns|
    ensures Heard(s, s, i, true, [])
  {
    forall j | 0 <= j < |s.conns| ensures s.conns[j].queued + [] == s.conns[j].queued { }
  }

  lemma FramesCons(host: Text, e: Event, es: seq<Event>)
    ensures FramesOf(host, [e] + es) == [Render(host, e)] + FramesOf(host, es)
    ensures FramesOf(host, []) == [] && FramesOf(host, [e]) == [Render(host, e)]
  {
    hide Render;
  }

  lemma {:induction false} DrainHeard(s: Server, i: nat)
    requires Wired(s) && DistinctPeers(s.conns) && i < |s.conns|
    requires s.conns[i].state in {ACTIVE, CLOSED}
    ensures var c := s.conns[i];
            var p := ParseAll(c.inBuffer);
            var closed := c.state == CLOSED;
            var d := Drain(s, i);
            d.ok ==> Heard(s, d.server, i, Stays(p, closed), FramesOf(s.name, ReadEvents(c.peer, c.name, p, closed)))
    decreases |s.conns[i].inBuffer|
  {
    hide Deliver, ParseFrame, Legal, Render, Wired, DistinctPeers, Leave, Stays, Remove, Heard, FramesOf;
    var c0 := s.conns[i];
    var (c, m) := ParseMessage(c0);
    var t := Put(s, i, c);
    PutFrame(s, i, c);
    var closed := c0.state == CLOSED;
    var p := ParseAll(c0.inBuffer);
    StaysStep(p, closed);
    var left := Left(c0.peer, c0.name);
    FramesCons(s.name, left, []);
    NothingHeard(s, i);
    if c.state == CONNECTION_ERROR {
      RemoveHeard(t, i);
      HeardPut(s, i, c, Remove(t, i), false, []);
    } else if m.None? {
      assert t == s;
      if closed {
        LeaveHeard(s, i);
      }
    } else if m.value == CLOSE_FRAME {
      LeaveHeard(t, i);
      HeardPut(s, i, c, Leave(t, i).server, false, [Render(s.name, left)]);
    } else if m.value.kind != CHAT {
      var f := Failed(c, WrongMessage);
      RemoveHeard(Put(s, i, f), i);
      HeardPut(s, i, f, Remove(Put(s, i, f), i), false, []);
    } else {
      DrainSaid(s, i, c, m.value.payload, p.(messages := p.messages[1..]), closed);
    }
  }

  lemma DrainSaid(s: Server, i: nat, c: Conn, text: Text, rest: Parsed, closed: bool)
    requires Wired(s) && DistinctPeers(s.conns) && i < |s.conns| && s.conns[i].state in {ACTIVE, CLOSED}
    requires ParseMessage(s.conns[i]) == (c, Some(Message(CHAT, text))) && rest == ParseAll(c.inBuffer)
    requires closed == (c.state == CLOSED)
    ensures var e := Said(c.peer, c.name, text);
            var d := Drain(s, i);
            d.ok ==> Heard(s, d.server, i, Stays(rest, closed),
                           FramesOf(s.name, [e] + ReadEvents(c.peer, c.name, rest, closed)))
    decreases |s.conns[i].inBuffer|, 0
  {
    hide Deliver, ParseFrame, Legal, Render, Wired, DistinctPeers, Leave, Stays, Remove, Heard, FramesOf, ReadEvents;
    hide ParseAll;
    var e := Said(c.peer, c.name, text);
    var t := Put(s, i, c);
    PutFrame(s, i, c);
    SaidStep(t, i, text, []);
    var r := Deliver(t, e);
    DeliverHeard(t, i, e);
    DeliverStates(t, e);
    if r.ok && Drain(s, i).ok {
      DrainHeard(r.server, i);
      var later := ReadEvents(c.peer, c.name, rest, closed);
      FramesCons(s.name, e, later);
      var u := Drain(r.server, i).server;
      HeardThen(t, r.server, u, i, Stays(rest, closed), [Render(s.name, e)], FramesOf(s.name, later));
      HeardPut(s, i, c, u, Stays(rest, closed), FramesOf(s.name, [e] + later));
    }
  }

  // ---------- Arrivals ----------

  /** How many connections an accept event takes on. */
  function Arrivals(accepts: seq<AcceptResult>): (n: nat)
    ensures n <= |accepts|
    ensures forall j | 0 <= j < n :: accepts[j].Accepted?
    ensures n < |accepts| ==> accepts[n].AcceptFailed?
  {
    if accepts == [] || accepts[0].AcceptFailed? then 0
    else
      var n := 1 + Arrivals(accepts[1..]);
      assert forall j | 1 <= j < |accepts| :: accepts[j] == accepts[1..][j - 1];
      n
  }

  /** Until the room closes, input on the listening socket lists everyone who has arrived, in order
      and waiting for a hello, and disturbs nobody. */
  lemma ArrivalsExact(s: Server, r: Ready, env: Env)
    requires ServerInv(s) && LegalEnv(s, env) && !s.closing && r.fd == s.listenFd && r.events.input
    ensures var t := Dispatch(s, r, env).server;
            var n := Arrivals(env.accepts);
            && |t.conns| == |s.conns| + n && t.conns[..|s.conns|] == s.conns
            && (forall j | 0 <= j < n ::
                  t.conns[|s.conns| + j] == NewConn(env.accepts[j].fd, WAITING_FOR_CLIENT_HELLO, env.accepts[j].peer))
            && t.log == s.log && t.retired == s.retired
  {
    hide Rest, Dispatch, HandleAccept, OnConnection, LegalAccepts;
    DispatchExact(s, r, env);
    AcceptedExact(s, env.accepts);
  }

  lemma {:induction false} AcceptedExact(s: Server, accepts: seq<AcceptResult>)
    requires ServerInv(s) && LegalAccepts(s, accepts)
    ensures var t := HandleAccept(s, accepts).server;
            var n := Arrivals(accepts);
            && |t.conns| == |s.conns| + n && t.conns[..|s.conns|] == s.conns
            && (forall j | 0 <= j < n ::
                  t.conns[|s.conns| + j] == NewConn(accepts[j].fd, WAITING_FOR_CLIENT_HELLO, accepts[j].peer))
            && t.log == s.log && t.retired == s.retired
    decreases |accepts|
  {
    hide Rest, AcceptOne, LegalAccept, Plumbed;
    if accepts != [] && accepts[0].Accepted? {
      var fd, peer := accepts[0].fd, accepts[0].peer;
      AcceptOneKeeps(s, fd, peer);
      AcceptOneExact(s, fd, peer);
      var u := AcceptOne(s, fd, peer).server;
      AcceptedExact(u, accepts[1..]);
      var t := HandleAccept(u, accepts[1..]).server;
      assert t.conns[..|s.conns|] == t.conns[..|u.conns|][..|s.conns|];
      forall j | 0 <= j < Arrivals(accepts)
        ensures t.conns[|s.conns| + j] == NewConn(accepts[j].fd, WAITING_FOR_CLIENT_HELLO, accepts[j].peer)
      {
        if j == 0 {
          assert t.conns[|s.conns|] == t.conns[..|u.conns|][|s.conns|];
        } else {
          assert accepts[j] == accepts[1..][j - 1];
          assert t.conns[|s.conns| + j] == t.conns[|u.conns| + (j - 1)];
        }
      }
    }
  }

  lemma AcceptOneExact(s: Server, fd: int, peer: nat)
    requires ServerInv(s) && LegalAccept(s, fd, peer)
    ensures var d := AcceptOne(s, fd, peer);
            && d.ok && d.server.conns == s.conns + [NewConn(fd, WAITING_FOR_CLIENT_HELLO, peer)]
            && d.server.log == s.log && d.server.retired == s.retired
  {
    hide LegalAccept, Plumbed, Ctl;
    AcceptPlumbed(s, fd, peer);
  }

  /** If the new descriptor cannot be registered, because it is watched already, it is closed again
      and nothing is listed, and the handler fails. */
  lemma RefusedArrival(s: Server, fd: int, peer: nat)
    requires Get(s.entries, fd).Some?
    ensures var d := AcceptOne(s, fd, peer);
            && !d.ok && d.server.conns == s.conns && d.server.entries == s.entries && d.server.log == s.log
            && d.server.calls == s.calls + [Opened(fd), Closed(fd)]
  {
    hide Find;
  }

  // ---------- Batches and runs ----------

  /** The servers that a batch goes through while every handler returns true. */
  ghost predicate Passes(s: Server, batch: seq<Ready>, envs: seq<Env>, states: seq<Server>) {
    && 0 < |states| <= |batch| + 1
    && states[0] == s
    && forall j | 0 <= j < |states| - 1 ::
         Dispatch(states[j], batch[j], EnvAt(envs, j)) == Step(states[j + 1], true)
  }

  /** A batch is handled event by event, in order, none left out: to its end if every handler
      returns true, and otherwise to the first one that does not. */
  lemma BatchExactly(s: Server, batch: seq<Ready>, envs: seq<Env>)
    ensures exists states ::
              && Passes(s, batch, envs, states)
              && var n := |states| - 1;
                 if n == |batch| then RunBatch(s, batch, envs, 0) == Step(states[n], true)
                 else !RunBatch(s, batch, envs, 0).ok
                      && RunBatch(s, batch, envs, 0) == Dispatch(states[n], batch[n], EnvAt(envs, n))
  {
    hide Dispatch;
    assert Passes(s, batch, envs, [s]);
    BatchFrom(s, batch, envs, [s]);
  }

  lemma {:induction false} BatchFrom(s: Server, batch: seq<Ready>, envs: seq<Env>, states: seq<Server>)
    requires Passes(s, batch, envs, states)
    ensures exists all ::
              && Passes(s, batch, envs, all)
              && var n := |all| - 1;
                 var r := RunBatch(states[|states| - 1], batch, envs, |states| - 1);
                 if n == |batch| then r == Step(all[n], true)
                 else !r.ok && r == Dispatch(all[n], batch[n], EnvAt(envs, n))
    decreases |batch| + 1 - |states|
  {
    hide Dispatch;
    var n := |states| - 1;
    if n < |batch| {
      var r := Dispatch(states[n], batch[n], EnvAt(envs, n));
      if r.ok {
        assert Passes(s, batch, envs, states + [r.server]);
        BatchFrom(s, batch, envs, states + [r.server]);
      }
    }
  }

  predicate Busy(s: Server) {
    exists k :: 0 <= k < |s.conns| && s.conns[k].outBuffer != []
  }

  /** The loop gets past this wakeup: epoll_wait was interrupted, or every event it reported was
      handled and the room is open or has bytes to send. */
  ghost predicate Survives(s: Server, w: Wakeup, t: Server) {
    || (w.Interrupted? && t == s)
    || (w.Woken?
        && RunBatch(s, Wait(s.entries, w.revents, 0, 16), w.envs, 0) == Step(t, true)
        && (t.closing ==> Busy(t)))
  }

  /** The servers that the loop goes through from s to t, surviving each of these wakeups. */
  ghost predicate Lives(s: Server, wakeups: seq<Wakeup>, t: Server, states: seq<Server>) {
    && |states| == |wakeups| + 1 && states[0] == s && states[|wakeups|] == t
    && forall j | 0 <= j < |wakeups| :: Survives(states[j], wakeups[j], states[j + 1])
  }

  /** The event loop is still running after these wakeups if and only if it survived each of them;
      a failed epoll_wait it never survives. */
  lemma {:induction false} LoopExactly(s: Server, wakeups: seq<Wakeup>, t: Server)
    ensures EventLoop(s, wakeups) == Step(t, true) <==> exists states :: Lives(s, wakeups, t, states)
    decreases |wakeups|
  {
    hide HandleWakeup, Survives;
    if wakeups == [] {
      if EventLoop(s, wakeups) == Step(t, true) {
        assert Lives(s, wakeups, t, [s]);
      }
    } else {
      var w, rest := wakeups[0], wakeups[1..];
      var r := HandleWakeup(s, w);
      assert wakeups == [w] + rest;
      if r.ok {
        LoopExactly(r.server, rest, t);
        if states :| Lives(r.server, rest, t, states) {
          LivesCons(s, w, rest, t, states);
        }
      }
      if states :| Lives(s, wakeups, t, states) {
        SurvivesExactly(s, w, states[1]);
        LivesTail(s, wakeups, t, states);
      }
    }
  }

  lemma SurvivesExactly(s: Server, w: Wakeup, t: Server)
    ensures Survives(s, w, t) <==> HandleWakeup(s, w) == Step(t, true)
  {
    hide RunBatch, Wait;
  }

  lemma LivesCons(s: Server, w: Wakeup, rest: seq<Wakeup>, t: Server, states: seq<Server>)
    requires HandleWakeup(s, w).ok && Lives(HandleWakeup(s, w).server, rest, t, states)
    ensures Lives(s, [w] + rest, t, [s] + states)
  {
    hide HandleWakeup, Survives;
    SurvivesExactly(s, w, HandleWakeup(s, w).server);
  }

  lemma LivesTail(s: Server, wakeups: seq<Wakeup>, t: Server, states: seq<Server>)
    requires wakeups != [] && Lives(s, wakeups, t, states)
    ensures Lives(states[1], wakeups[1..], t, states[1..])
  {
    hide Survives;
    forall j | 0 <= j < |wakeups| - 1
      ensures Survives(states[1..][j], wakeups[1..][j], states[1..][j + 1])
    {
      assert Survives(states[j + 1], wakeups[j + 1], states[j + 2]);
    }
  }
}
