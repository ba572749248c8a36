/** What the server promises, read off its handlers and its invariant. */
module ServerTheorems {
  import opened Frames
  import opened Options
  import opened Connections
  import opened Interest
  import opened Room
  import opened ServerSpec
  import opened ServerPlumbing
  import opened ServerRecords
  import opened ServerInvariant
  import opened ServerHandlers

  // ---------- Broadcast is all or nothing ----------

  predicate HasRecipient(conns: seq<Conn>, e: Event) {
    exists k :: 0 <= k < |conns| && Recipient(conns[k], e)
  }

  /** Either every recipient gains exactly the one frame and is armed for sending, and nobody
      else changes; or the frame is oversized for someone, no buffer, entry or log changes, and the
      first who should have had it is in error. */
  lemma BroadcastAllOrNothing(s: Server, e: Event)
    requires Wired(s)
    ensures var r := Deliver(s, e);
            var m := Render(s.name, e);
            && (r.ok <==> Legal(m) || !HasRecipient(s.conns, e))
            && |r.server.conns| == |s.conns| && |r.server.entries| == |s.entries|
            && (forall k | 0 <= k < |s.conns| ::
                  if r.ok && Recipient(s.conns[k], e) then
                    && r.server.conns[k] == s.conns[k].(outBuffer := s.conns[k].outBuffer + Encode(m),
                                                       queued := s.conns[k].queued + [m])
                    && r.server.entries[k + 2] == Entry(s.conns[k].fd, IN_OUT_RDHUP)
                  else
                    && r.server.conns[k] == s.conns[k].(state := r.server.conns[k].state,
                                                       fault := r.server.conns[k].fault)
                    && (r.ok ==> r.server.conns[k] == s.conns[k])
                    && r.server.entries[k + 2] == s.entries[k + 2])
            && r.server.log == (if r.ok then s.log + [e] else s.log)
            && (!r.ok ==>
                  forall k | 0 <= k < |s.conns| :: r.server.conns[k] ==
                    if Recipient(s.conns[k], e) && forall j | 0 <= j < k :: !Recipient(s.conns[j], e)
                    then Failed(s.conns[k], OversizedQueue) else s.conns[k])
  {
    hide Render, Encode, Wired, Arm, RecipientFds, Recipient;
    Sizes(s);
    var r := Deliver(s, e);
    forall k | 0 <= k < |s.conns|
      ensures r.ok ==> (r.server.entries[k + 2] ==
                        if Recipient(s.conns[k], e) then Entry(s.conns[k].fd, IN_OUT_RDHUP) else s.entries[k + 2])
    {
      ArmAt(s, RecipientFds(s.conns, e), IN_OUT_RDHUP, k);
      RecipientFdsAt(s, e, k);
    }
  }

  // ---------- A read event, described by its bytes ----------

  /** The room events that one read of an ACTIVE connection causes, from the frames it completes:
      a chat for each leading CHAT, then a departure if a proper CLOSE_CON or the end of the
      stream follows. Anything else ends the connection without a notice. */
  function ReadEvents(id: nat, name: Text, p: Parsed, closed: bool): seq<Event>
    decreases |p.messages|
  {
    if p.messages == [] then
      if closed && !p.oversized then [Left(id, name)] else []
    else if p.messages[0] == CLOSE_FRAME then [Left(id, name)]
    else if p.messages[0].kind != CHAT then []
    else [Said(id, name, p.messages[0].payload)]
         + ReadEvents(id, name, p.(messages := p.messages[1..]), closed)
  }

  /** Whether the connection is still listed after the read. */
  predicate Stays(p: Parsed, closed: bool) {
    !closed && !p.oversized && forall k | 0 <= k < |p.messages| :: p.messages[k].kind == CHAT
  }

  predicate AllFit(host: Text, es: seq<Event>) {
    forall k | 0 <= k < |es| :: Legal(Render(host, es[k]))
  }

  /** Someone other than connection i is ACTIVE. */
  predicate Audience(s: Server, i: int) {
    exists k :: 0 <= k < |s.conns| && k != i && s.conns[k].state == ACTIVE
  }

  /** Deliveries leave the wiring and the audience as they were. */
  lemma DeliverFrame(s: Server, i: nat, e: Event)
    requires Wired(s) && DistinctPeers(s.conns) && i < |s.conns| && Author(e) == Some(s.conns[i].peer)
    ensures var r := Deliver(s, e);
            && (r.ok <==> Legal(Render(s.name, e)) || !Audience(s, i))
            && (r.ok ==>
                  && Wired(r.server) && DistinctPeers(r.server.conns)
                  && (Audience(r.server, i) <==> Audience(s, i)))
  {
    hide Render, QueueMessage, Legal;
    var r := Deliver(s, e);
    if r.ok {
      forall k | 0 <= k < |s.conns|
        ensures r.server.conns[k].state == s.conns[k].state
        ensures r.server.conns[k].fd == s.conns[k].fd && r.server.conns[k].peer == s.conns[k].peer
      {
        QueueIdentity(s.conns[k], Render(s.name, e));
        QueueState(s.conns[k], Render(s.name, e));
      }
    }
  }

  lemma QueueState(c: Conn, m: Message)
    ensures Legal(m) ==> QueueMessage(c, m).conn.state == c.state
  {
  }

  /** What a read did to connection i: kept it with the unfinished rest, or retired it. */
  predicate Handled(s: Server, t: Server, i: nat, p: Parsed, closed: bool)
    requires i < |s.conns|
  {
    var c := s.conns[i];
    if Stays(p, closed) then
      && |t.conns| == |s.conns| && t.retired == s.retired
      && t.conns[i].peer == c.peer && t.conns[i].state == ACTIVE && t.conns[i].inBuffer == p.residue
    else
      && |t.conns| == |s.conns| - 1
      && |t.retired| == |s.retired| + 1 && t.retired[..|s.retired|] == s.retired
      && t.retired[|s.retired|].peer == c.peer
  }

  /** The parse-and-relay loop does what the whole buffer parsed at once says: it relays exactly
      the events of the complete frames, in order, and it fails exactly when someone should have
      received an event whose frame is too large. */
  lemma {:induction false} DrainExact(s: Server, i: nat)
    requires Wired(s) && DistinctPeers(s.conns) && i < |s.conns|
    requires s.conns[i].state in {ACTIVE, CLOSED}
    ensures var c := s.conns[i];
            var p := ParseAll(c.inBuffer);
            var closed := c.state == CLOSED;
            var es := ReadEvents(c.peer, c.name, p, closed);
            var r := Drain(s, i);
            && (r.ok <==> AllFit(s.name, es) || !Audience(s, i))
            && (r.ok ==> r.server.log == s.log + es && Handled(s, r.server, i, p, closed))
    decreases |s.conns[i].inBuffer|
  {
    hide Deliver, ParseFrame, Legal, Render, Audience, Wired, DistinctPeers, Leave, Stays, AllFit;
    var c0 := s.conns[i];
    var (c, m) := ParseMessage(c0);
    var t := Put(s, i, c);
    PutFrame(s, i, c);
    var closed := c0.state == CLOSED;
    var p := ParseAll(c0.inBuffer);
    StaysStep(p, closed);
    NothingFits(s.name);
    assert s.log + [] == s.log;
    if m.None? {
      if closed && !p.oversized {
        assert t == s;
        LeaveExact(s, i);
      }
    } else if m.value == CLOSE_FRAME {
      LeaveExact(t, i);
    } else if m.value.kind == CHAT {
      var rest := p.(messages := p.messages[1..]);
      assert rest == ParseAll(c.inBuffer);
      SaidStep(t, i, m.value.payload, ReadEvents(c.peer, c.name, rest, closed));
      var r := Deliver(t, Said(c.peer, c.name, m.value.payload));
      if r.ok {
        DrainExact(r.server, i);
      }
    }
  }

  /** One chat relayed, with the events that are still to come. */
  lemma SaidStep(s: Server, i: nat, text: Text, later: seq<Event>)
    requires Wired(s) && DistinctPeers(s.conns) && i < |s.conns|
    ensures var c := s.conns[i];
            var e := Said(c.peer, c.name, text);
            var r := Deliver(s, e);
            && (r.ok <==> Legal(Render(s.name, e)) || !Audience(s, i))
            && (AllFit(s.name, [e] + later) <==> Legal(Render(s.name, e)) && AllFit(s.name, later))
            && s.log + ([e] + later) == (s.log + [e]) + later
            && (r.ok ==>
                  && Wired(r.server) && DistinctPeers(r.server.conns)
                  && (Audience(r.server, i) <==> Audience(s, i))
                  && |r.server.conns| == |s.conns| && r.server.conns[i] == c
                  && r.server.log == s.log + [e] && r.server.name == s.name && r.server.retired == s.retired)
  {
    hide Deliver, Legal, Render, Audience, Wired, DistinctPeers, AllFit;
    var e := Said(s.conns[i].peer, s.conns[i].name, text);
    DeliverFrame(s, i, e);
    DeliverSelf(s, i, e);
    DeliverRetired(s, e);
    FitsCons(s.name, e, later);
  }

  lemma DeliverRetired(s: Server, e: Event)
    ensures Deliver(s, e).server.retired == s.retired
  {
  }

  lemma FitsCons(host: Text, e: Event, es: seq<Event>)
    ensures AllFit(host, [e] + es) <==> Legal(Render(host, e)) && AllFit(host, es)
  {
    hide Render, Legal;
    var all := [e] + es;
    assert all[0] == e && all[1..] == es;
    if AllFit(host, all) {
      assert forall k | 0 <= k < |es| :: es[k] == all[k + 1];
    }
  }

  lemma StaysStep(p: Parsed, closed: bool)
    ensures p.messages == [] ==> (Stays(p, closed) <==> !closed && !p.oversized)
    ensures p.messages != [] ==>
              (Stays(p, closed) <==> p.messages[0].kind == CHAT && Stays(p.(messages := p.messages[1..]), closed))
  {
    if p.messages != [] {
      assert p.messages == [p.messages[0]] + p.messages[1..];
    }
  }

  lemma PutFrame(s: Server, i: nat, c: Conn)
    requires Wired(s) && DistinctPeers(s.conns) && i < |s.conns|
    requires c.fd == s.conns[i].fd && c.peer == s.conns[i].peer
    ensures var t := Put(s, i, c);
            Wired(t) && DistinctPeers(t.conns) && (Audience(t, i) <==> Audience(s, i))
  {
    var t := Put(s, i, c);
    assert forall k | 0 <= k < |s.conns| && k != i :: t.conns[k] == s.conns[k];
  }

  lemma LeaveExact(s: Server, i: nat)
    requires Wired(s) && DistinctPeers(s.conns) && i < |s.conns|
    ensures var c := s.conns[i];
            var r := Leave(s, i);
            && (r.ok <==> AllFit(s.name, [Left(c.peer, c.name)]) || !Audience(s, i))
            && (r.ok ==>
                  && r.server.log == s.log + [Left(c.peer, c.name)]
                  && |r.server.conns| == |s.conns| - 1
                  && r.server.retired == s.retired + [c])
  {
    hide Deliver, Legal, Render, Audience, Wired, DistinctPeers, AllFit;
    var e := Left(s.conns[i].peer, s.conns[i].name);
    DeliverFrame(s, i, e);
    DeliverSelf(s, i, e);
    FitsCons(s.name, e, []);
    assert [e] + [] == [e];
    assert AllFit(s.name, []) by { NothingFits(s.name); }
    DeliverRetired(s, e);
  }

  lemma NothingFits(host: Text)
    ensures AllFit(host, [])
  {
  }

  /** The read handler, for whatever the peer sent and however it was cut: with the buffered and
      the new bytes parsed as one, it relays exactly the completed chats (and then the departure,
      when a CLOSE_CON or EOF ends them), handles at most a fifth as many frames as there are
      bytes, and keeps less than one frame if the connection stays. A hard error retires the
      connection without a notice. */
  lemma ReadRelays(s: Server, fd: int, recvs: seq<RecvResult>)
    requires ServerInv(s) && InState(s, fd, ACTIVE)
    ensures var i := Lookup(s.conns, fd);
            var c := s.conns[i];
            var p := ParseAll(c.inBuffer + Arrived(recvs));
            var closed := EndOf(recvs).AtEof?;
            var es := if EndOf(recvs).AtError? then [] else ReadEvents(c.peer, c.name, p, closed);
            var r := HandleRead(s, fd, recvs);
            && (r.ok <==> AllFit(s.name, es) || !Audience(s, i))
            && (r.ok ==> r.server.log == s.log + es)
            && (r.ok && !EndOf(recvs).AtError? ==> Handled(s, r.server, i, p, closed))
            && FRAME_HEADER_SIZE * |p.messages| + |p.residue| <= |c.inBuffer| + |Arrived(recvs)|
            && (Stays(p, closed) ==> |p.residue| < FRAME_HEADER_SIZE + MAX_PAYLOAD_SIZE)
  {
    hide Rest, Lookup, ReadIntoInBuffer, Drain, Audience, Stays, Wired, DistinctPeers, ParseFrame, ReadEvents;
    hide Remove, AllFit;
    var i := Lookup(s.conns, fd);
    var c := s.conns[i];
    RestWired(s, NOBODY);
    assert DistinctPeers(s.conns) by { RestDistinct(s); }
    ReadExact(c, recvs);
    var d := ReadIntoInBuffer(c, recvs).conn;
    PutFrame(s, i, d);
    ParseAllBound(c.inBuffer + Arrived(recvs));
    StaysSmall(ParseAll(c.inBuffer + Arrived(recvs)), EndOf(recvs).AtEof?);
    if EndOf(recvs).AtError? {
      NothingFits(s.name);
      assert HandleRead(s, fd, recvs) == Step(Remove(Put(s, i, d), i), true);
      RemoveLog(Put(s, i, d), i);
      assert s.log + [] == s.log;
    } else {
      DrainExact(Put(s, i, d), i);
      HandledPut(s, i, d, Drain(Put(s, i, d), i).server, ParseAll(c.inBuffer + Arrived(recvs)), EndOf(recvs).AtEof?);
    }
  }

  lemma HandledPut(s: Server, i: nat, d: Conn, t: Server, p: Parsed, closed: bool)
    requires i < |s.conns| && d.peer == s.conns[i].peer
    ensures Handled(Put(s, i, d), t, i, p, closed) <==> Handled(s, t, i, p, closed)
  {
  }

  lemma RemoveLog(s: Server, i: nat)
    requires i < |s.conns|
    ensures Remove(s, i).log == s.log
  {
  }

  lemma RestDistinct(s: Server)
    requires ServerInv(s)
    ensures DistinctPeers(s.conns)
  {
  }

  lemma StaysSmall(p: Parsed, closed: bool)
    ensures Stays(p, closed) ==> !p.oversized
  {
  }

  // ---------- A hello event, described by its bytes ----------

  /** The bytes start with a proper CLIENT_HELLO. */
  predicate Introduces(b: seq<Byte>) {
    var first := ParseFrame(b);
    first.Frame? && first.message.kind == CLIENT_HELLO && first.message.payload != []
  }

  /** The hello handler, by the first frame of all the bytes received so far. A connection without
      a complete frame waits, or is dropped if it has ended or its header is oversized. A first
      frame that is a CLIENT_HELLO with a name is answered, with the bytes behind it kept for
      later, even if the stream has already ended; any other first frame drops the connection.
      Nothing is ever logged. The handler fails exactly when it has to answer and the host's own
      name does not fit a frame. */
  lemma HelloExact(s: Server, fd: int, recvs: seq<RecvResult>)
    requires ServerInv(s) && InState(s, fd, WAITING_FOR_CLIENT_HELLO)
    ensures var i := Lookup(s.conns, fd);
            var c := s.conns[i];
            var b := c.inBuffer + Arrived(recvs);
            var r := HandleHello(s, fd, recvs);
            var t := r.server;
            var first := ParseFrame(b);
            var welcome := Introduces(b);
            var waits := first.Incomplete? && EndOf(recvs).AtPause?;
            && t.log == s.log
            && (r.ok <==> !welcome || EndOf(recvs).AtError? || |s.name| <= MAX_PAYLOAD_SIZE)
            && if !r.ok then
                 t == Put(s, i, t.conns[i]) && t.conns[i].state == CONNECTION_ERROR
               else if (welcome && !EndOf(recvs).AtError?) || waits then
                 && |t.conns| == |s.conns| && t.conns == s.conns[i := t.conns[i]]
                 && t.conns[i].peer == c.peer && t.conns[i].fd == fd
                 && (waits ==> t.conns[i].state == WAITING_FOR_CLIENT_HELLO && t.conns[i].inBuffer == b)
                 && (!waits ==>
                       && t.conns[i].state == SENDING_SERVER_HELLO
                       && t.conns[i].name == first.message.payload
                       && t.conns[i].inBuffer == first.rest
                       && t.conns[i].outBuffer == Encode(Message(SERVER_HELLO, s.name)))
               else
                 t.conns == s.conns[..i] + s.conns[i + 1..] && |t.retired| == |s.retired| + 1
  {
    hide Lookup, Rest, ParseFrame, ReadIntoInBuffer, Ctl, EncodeAll, Encode, EventsOf, Wired;
    var i := Lookup(s.conns, fd);
    InvAt(s, i);
    RestWired(s, NOBODY);
    ReadExact(s.conns[i], recvs);
    if !EndOf(recvs).AtError? {
      HelloParsedExact(s, i, ReadIntoInBuffer(s.conns[i], recvs).conn);
    }
  }

  lemma HelloParsedExact(s: Server, i: nat, d: Conn)
    requires Wired(s) && i < |s.conns| && d.outBuffer == [] && d.fd == s.conns[i].fd
    requires d.state in {WAITING_FOR_CLIENT_HELLO, CLOSED}
    ensures var (c, m) := ParseMessage(d);
            var r := HelloParsed(Put(s, i, c), i, m);
            var t := r.server;
            var first := ParseFrame(d.inBuffer);
            var welcome := Introduces(d.inBuffer);
            && t.log == s.log
            && (r.ok <==> !welcome || Legal(Hello(s.name)))
            && if !r.ok then
                 t == Put(s, i, t.conns[i]) && t.conns[i].state == CONNECTION_ERROR
               else if welcome then
                 && |t.conns| == |s.conns| && t.conns == s.conns[i := t.conns[i]]
                 && t.conns[i].peer == d.peer && t.conns[i].fd == d.fd
                 && t.conns[i].state == SENDING_SERVER_HELLO
                 && t.conns[i].name == first.message.payload
                 && t.conns[i].inBuffer == first.rest
                 && t.conns[i].outBuffer == Encode(Hello(s.name))
               else if first.Incomplete? && d.state == WAITING_FOR_CLIENT_HELLO then
                 t.conns == s.conns[i := d] && t.retired == s.retired
               else
                 t.conns == s.conns[..i] + s.conns[i + 1..] && |t.retired| == |s.retired| + 1
  {
    hide ParseFrame, Ctl, Encode, Legal, Wired;
    assert [] + Encode(Hello(s.name)) == Encode(Hello(s.name));
    ModWorks(s, i, IN_OUT_RDHUP);
  }

  lemma ModWorks(s: Server, i: nat, events: Events)
    requires Wired(s) && i < |s.conns|
    ensures Ctl(s.entries, Mod, s.conns[i].fd, events).ok
  {
    hide Find, Lookup;
    PlumbedFds(s);
  }

  lemma GoodWritten(host: Text, log: seq<Event>, c: Conn)
    requires Good(host, log, c)
    ensures c.written <= |c.outBuffer|
  {
  }

  // ---------- The interest list, seen as a map ----------

  /** Between events the interest list watches exactly the listening socket, stdin and the listed
      connections. A connection is watched for writing exactly while it has bytes to send and,
      until the room closes, always for reading; so no epoll_fd_mod on a live one can fail. */
  lemma InterestExact(s: Server, fd: int)
    requires ServerInv(s)
    ensures Get(s.entries, fd).Some? <==> fd == s.listenFd || fd == STDIN_FD || fd in Fds(s.conns)
    ensures forall k | 0 <= k < |s.conns| && s.conns[k].fd == fd ::
              && Get(s.entries, fd).Some?
              && (Get(s.entries, fd).value.output <==> s.conns[k].outBuffer != [])
              && (!s.closing ==> Get(s.entries, fd).value.input && Get(s.entries, fd).value.rdhup)
    ensures fd in Fds(s.conns) ==> forall events :: Ctl(s.entries, Mod, fd, events).ok
  {
    hide Find, Lookup, Rest;
    RestWired(s, NOBODY);
    PlumbedFds(s);
    if fd in Fds(s.conns) {
      var k :| 0 <= k < |s.conns| && s.conns[k].fd == fd;
      InvAt(s, k);
    }
    FindAt(s.entries, 0);
    FindAt(s.entries, 1);
    var at := Find(s.entries, fd);
    assert at < |s.entries| && at >= 2 ==> s.conns[at - 2].fd == fd;
  }
}
