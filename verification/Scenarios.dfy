/** Runs from setup that show the bad cases are real: a farewell that is overtaken, a notice that
    is forged, and a peer whose long name ends the room. */
module Scenarios {
  import opened Frames
  import opened Options
  import opened Connections
  import opened Interest
  import opened Room
  import opened ServerSpec
  import opened ServerPlumbing
  import opened ServerInvariant
  import opened ServerHandlers
  import opened ServerDispatch
  import opened ServerTheorems
  import opened ServerShutdown
  import opened ServerStops
  import CloseOrder
  import RoomOrder
  import opened QuitRuns
  import ChatSystem

  // ---------- Runs, one event at a time ----------

  /** Some legal run from setup leaves the loop running in state s. */
  ghost predicate CanReach(host: Text, listenFd: int, s: Server) {
    exists wakeups :: Leads(host, listenFd, wakeups, s)
  }

  ghost predicate Leads(host: Text, listenFd: int, wakeups: seq<Wakeup>, s: Server) {
    LegalRun(Init(host, listenFd), wakeups) && EventLoop(Init(host, listenFd), wakeups) == Step(s, true)
  }

  /** Runs can be continued. */
  lemma {:induction false} RunOn(s: Server, wakeups: seq<Wakeup>, later: seq<Wakeup>)
    requires LegalRun(s, wakeups) && EventLoop(s, wakeups).ok
    requires LegalRun(EventLoop(s, wakeups).server, later)
    ensures LegalRun(s, wakeups + later)
    ensures EventLoop(s, wakeups + later) == EventLoop(EventLoop(s, wakeups).server, later)
    decreases |wakeups|
  {
    hide HandleWakeup, LegalWakeup;
    if wakeups == [] {
      assert wakeups + later == later;
    } else {
      RunOn(HandleWakeup(s, wakeups[0]).server, wakeups[1..], later);
      assert (wakeups + later)[1..] == wakeups[1..] + later;
    }
  }

  /** One more event that the loop survives. */
  lemma ReachNext(host: Text, listenFd: int, s: Server, k: nat, bits: PollBits, env: Env, t: Server)
    requires CanReach(host, listenFd, s)
    requires k < |s.entries| && ToEpoll(bits) != NO_EVENTS && LegalEnv(s, env)
    requires Dispatch(s, Ready(s.entries[k].fd, ToEpoll(bits)), env) == Step(t, true) && !t.closing
    ensures CanReach(host, listenFd, t)
  {
    hide LegalRun, EventLoop, Dispatch, HandleWakeup, LegalWakeup, LegalEnv, Only, Init, RunBatch, QuitInWakeup;
    var wakeups :| Leads(host, listenFd, wakeups, s);
    var w := Only(k, bits, env);
    OnlyDispatches(s, k, bits, env, []);
    LegalOne(s, w);
    assert EventLoop(s, [w]) == Step(t, true) by { GoesOnce(s, w, t); }
    RunOn(Init(host, listenFd), wakeups, [w]);
    assert Leads(host, listenFd, wakeups + [w], t);
  }

  lemma GoesOnce(s: Server, w: Wakeup, t: Server)
    requires HandleWakeup(s, w) == Step(t, true)
    ensures EventLoop(s, [w]) == Step(t, true)
  {
    hide HandleWakeup;
    assert [w][1..] == [];
  }

  lemma ReachedIsOpen(host: Text, listenFd: int, s: Server)
    requires listenFd != STDIN_FD && CanReach(host, listenFd, s) && !s.closing
    ensures ServerInv(s) && CloseOrder.Open(s)
  {
    hide Rest, Halted, EventLoop, LegalRun, Init, CloseOrder.Open;
    var wakeups :| Leads(host, listenFd, wakeups, s);
    EveryRun(host, listenFd, wakeups);
    CloseOrder.NoCloseBeforeQuit(host, listenFd, wakeups);
  }

  // ---------- What one peer does ----------

  /** The room as it is between two steps of a scenario. */
  ghost predicate Stage(host: Text, s: Server) {
    CanReach(host, LISTENER, s) && !s.closing && s.name == host
  }

  const LISTENER := 3

  /** A connection all of whose bytes have been parsed. */
  predicate Seated(c: Conn, peer: nat, state: ConnState, name: Text) {
    c.peer == peer && c.state == state && c.name == name && c.inBuffer == []
  }

  /** Everyone but connection i is where they were. */
  predicate OthersSeated(s: Server, t: Server, i: nat) {
    && |t.conns| == |s.conns|
    && forall k | 0 <= k < |s.conns| && k != i ::
         Seated(t.conns[k], s.conns[k].peer, s.conns[k].state, s.conns[k].name)
         <==> Seated(s.conns[k], s.conns[k].peer, s.conns[k].state, s.conns[k].name)
  }

  function Sends(m: Message): Env {
    Env([], [Received(Encode(m))], [], None)
  }

  /** What arrives from a peer that sends one frame. */
  lemma OneFrame(m: Message)
    requires Legal(m)
    ensures Arrived(Sends(m).recvs) == Encode(m) && EndOf(Sends(m).recvs).AtPause?
    ensures ParseFrame(Encode(m)) == Frame(m, [])
  {
    hide ParseFrame;
    assert |Encode(m)| > 0;
    assert Encode(m) + [] == Encode(m);
    ParseEncoded(m, []);
  }

  /** Events on connection i that find it reading go to the handler of its state. */
  lemma ReadDispatched(s: Server, i: nat, env: Env)
    requires ServerInv(s) && !s.closing && i < |s.conns|
    ensures i + 2 < |s.entries| && s.entries[i + 2].fd == s.conns[i].fd
    ensures Lookup(s.conns, s.conns[i].fd) == i
    ensures var c := s.conns[i];
            var d := Dispatch(s, Ready(c.fd, ToEpoll(TYPED)), env);
            && (c.state == WAITING_FOR_CLIENT_HELLO ==> d == HandleHello(s, c.fd, env.recvs))
            && (c.state == ACTIVE ==> d == HandleRead(s, c.fd, env.recvs))
  {
    hide Lookup, Find, HandleHello, HandleRead;
    PlumbedFds(s);
  }

  /** A peer introduces itself. */
  lemma Introduce(host: Text, s: Server, i: nat, name: Text)
    requires Stage(host, s) && Legal(Hello(host)) && name != [] && |name| <= MAX_PAYLOAD_SIZE
    requires i < |s.conns| && Seated(s.conns[i], s.conns[i].peer, WAITING_FOR_CLIENT_HELLO, [])
    ensures exists t :: Stage(host, t) && t.log == s.log && OthersSeated(s, t, i)
                        && Seated(t.conns[i], s.conns[i].peer, SENDING_SERVER_HELLO, name)
  {
    hide CanReach, Rest, Dispatch, HandleHello, Lookup, ParseFrame, Encode, CloseOrder.Open, Ctl;
    ReachedIsOpen(host, LISTENER, s);
    var m := Message(CLIENT_HELLO, name);
    var fd, env := s.conns[i].fd, Sends(m);
    OneFrame(m);
    ReadDispatched(s, i, env);
    HelloExact(s, fd, env.recvs);
    assert s.conns[i].inBuffer + Encode(m) == Encode(m);
    var t := HandleHello(s, fd, env.recvs).server;
    CloseOrder.OpenHello(s, fd, env.recvs);
    ChatSystem.ServerNameKept(s, Ready(fd, ToEpoll(TYPED)), env);
    ReachNext(host, LISTENER, s, i + 2, TYPED, env, t);
    assert Stage(host, t);
  }

  /** The server's greeting reaches it, and it joins. */
  lemma Greet(host: Text, s: Server, i: nat)
    requires Stage(host, s) && i < |s.conns| && |s.conns[i].name| + 22 <= MAX_PAYLOAD_SIZE
    requires Seated(s.conns[i], s.conns[i].peer, SENDING_SERVER_HELLO, s.conns[i].name)
    ensures exists t :: Stage(host, t) && t.log == s.log + [Joined(s.conns[i].peer, s.conns[i].name)]
                        && OthersSeated(s, t, i)
                        && Seated(t.conns[i], s.conns[i].peer, ACTIVE, s.conns[i].name)
  {
    hide CanReach, Rest, Dispatch, Lookup, CloseOrder.Open, Deliver, Render, Legal, Flush;
    ReachedIsOpen(host, LISTENER, s);
    var c := s.conns[i];
    var e := Joined(c.peer, c.name);
    assert CloseOrder.Joinable(s, i) by { JoinFits(s.name, c.peer, c.name); }
    CloseOrder.GreetingCompletes(s, i);
    RestWired(s, NOBODY);
    WiredFd(s, i);
    var u := Put(s, i, Flush(c, [Sent(|c.outBuffer|)]).conn.(state := ACTIVE));
    var r := Deliver(u, e);
    DeliverSeats(u, e);
    var t := Put(r.server, i, r.server.conns[i].(joinedAt := Some(|s.log|)));
    ReachNext(host, LISTENER, s, i + 2, ROOM, CloseOrder.TakesAll(c), t);
    assert Stage(host, t);
  }

  lemma JoinFits(host: Text, id: nat, name: Text)
    ensures Legal(Render(host, Joined(id, name))) <==> |name| + 22 <= MAX_PAYLOAD_SIZE
  {
    hide Render;
    RenderedLength(host, Joined(id, name));
  }

  lemma DeliverSeats(s: Server, e: Event)
    ensures var r := Deliver(s, e);
            && |r.server.conns| == |s.conns| && r.server.name == s.name && r.server.closing == s.closing
            && (r.ok ==>
                  && r.server.log == s.log + [e]
                  && forall k | 0 <= k < |s.conns| ::
                       Seated(r.server.conns[k], s.conns[k].peer, s.conns[k].state, s.conns[k].name)
                       <==> s.conns[k].inBuffer == [])
  {
    hide Render, Legal, QueueMessage;
    var r := Deliver(s, e);
    DeliverStates(s, e);
    forall k | 0 <= k < |s.conns|
      ensures r.ok ==> (Seated(r.server.conns[k], s.conns[k].peer, s.conns[k].state, s.conns[k].name)
                        <==> s.conns[k].inBuffer == [])
    {
      QueueIdentity(s.conns[k], Render(s.name, e));
    }
  }

  /** A member says something that fits. */
  lemma Chat(host: Text, s: Server, i: nat, text: Text)
    requires Stage(host, s) && i < |s.conns| && |s.conns[i].name| + |text| + 3 <= MAX_PAYLOAD_SIZE
    requires Seated(s.conns[i], s.conns[i].peer, ACTIVE, s.conns[i].name)
    ensures exists t :: Stage(host, t) && t.log == s.log + [Said(s.conns[i].peer, s.conns[i].name, text)]
                        && OthersSeated(s, t, i)
                        && Seated(t.conns[i], s.conns[i].peer, ACTIVE, s.conns[i].name)
  {
    hide CanReach, Rest, Dispatch, HandleRead, Lookup, ParseFrame, Encode, CloseOrder.Open, Deliver, Render;
    ReachedIsOpen(host, LISTENER, s);
    var m := Message(CHAT, text);
    var fd, env := s.conns[i].fd, Sends(m);
    OneFrame(m);
    ReadDispatched(s, i, env);
    Relays(s, i, m);
    var e := Said(s.conns[i].peer, s.conns[i].name, text);
    RenderedLength(s.name, e);
    var c := ParseMessage(ReadIntoInBuffer(s.conns[i], env.recvs).conn).0;
    var u := Put(s, i, c);
    var r := Deliver(u, e);
    CloseOrder.LegalDelivers(u, e);
    DeliverSeats(u, e);
    ReachNext(host, LISTENER, s, i + 2, TYPED, env, r.server);
    assert Stage(host, r.server);
  }

  /** A read of one CHAT from an idle member is one delivery. */
  lemma Relays(s: Server, i: nat, m: Message)
    requires i < |s.conns| && Lookup(s.conns, s.conns[i].fd) == i && Legal(m) && m.kind == CHAT
    requires s.conns[i].state == ACTIVE && s.conns[i].inBuffer == []
    ensures var c := ParseMessage(ReadIntoInBuffer(s.conns[i], Sends(m).recvs).conn).0;
            var r := Deliver(Put(s, i, c), Said(c.peer, c.name, m.payload));
            && c.peer == s.conns[i].peer && c.name == s.conns[i].name && c.state == ACTIVE && c.inBuffer == []
            && (r.ok ==> HandleRead(s, s.conns[i].fd, Sends(m).recvs) == r)
  {
    hide Lookup, ParseFrame, Encode, Deliver, Render;
    OneFrame(m);
    ReadExact(s.conns[i], Sends(m).recvs);
    var d := ReadIntoInBuffer(s.conns[i], Sends(m).recvs).conn;
    assert d.inBuffer == Encode(m);
    var c := ParseMessage(d).0;
    var t := Put(s, i, c);
    assert Put(Put(s, i, d), i, c) == t;
    var e := Said(c.peer, c.name, m.payload);
    var r := Deliver(t, e);
    DeliverSeats(t, e);
    if r.ok {
      DeliverInput(t, i, e);
      Idle(r.server, i);
    }
  }

  lemma Idle(s: Server, i: nat)
    requires i < |s.conns| && s.conns[i].inBuffer == [] && s.conns[i].state == ACTIVE
    ensures Drain(s, i) == Step(s, true)
  {
    assert Put(s, i, s.conns[i]) == s;
  }

  // ---------- Two peers ----------

  ghost predicate Two(host: Text, s: Server, a: ConnState, name: Text, b: ConnState, other: Text, log: seq<Event>) {
    && Stage(host, s) && s.log == log && |s.conns| == 2
    && Seated(s.conns[0], 0, a, name) && Seated(s.conns[1], 1, b, other)
  }

  const ARRIVALS := Env([Accepted(4, 0), Accepted(5, 1)], [], [], None)

  lemma TwoArrive(host: Text)
    ensures exists s :: Two(host, s, WAITING_FOR_CLIENT_HELLO, [], WAITING_FOR_CLIENT_HELLO, [], [])
  {
    hide Ids;
    var s := Init(host, LISTENER);
    var one := AcceptOne(s, 4, 0).server;
    var two := AcceptOne(one, 5, 1).server;
    assert Ids(s) == {} by { NobodyYet(host); }
    assert LegalAccept(s, 4, 0);
    InitInv(host, LISTENER);
    AcceptPlumbed(s, 4, 0);
    AcceptOneKeeps(s, 4, 0);
    assert LegalAccept(one, 5, 1);
    AcceptPlumbed(one, 5, 1);
    assert Leads(host, LISTENER, [], s);
    var accepts := ARRIVALS.accepts;
    assert accepts[1..] == [Accepted(5, 1)] && accepts[1..][1..] == [];
    assert LegalAccepts(s, accepts);
    assert HandleAccept(s, accepts) == Step(two, true);
    ReachNext(host, LISTENER, s, 0, TYPED, ARRIVALS, two);
    assert Two(host, two, WAITING_FOR_CLIENT_HELLO, [], WAITING_FOR_CLIENT_HELLO, [], []);
  }

  lemma NobodyYet(host: Text)
    ensures Ids(Init(host, LISTENER)) == {}
  {
  }

  /** Two peers arrive, the first joins, the second has said hello and is being greeted. */
  lemma OneJoinsOneWaits(host: Text, name: Text, other: Text)
    requires Legal(Hello(host)) && name != [] && |name| + 22 <= MAX_PAYLOAD_SIZE
    requires other != [] && |other| <= MAX_PAYLOAD_SIZE
    ensures exists s :: Two(host, s, ACTIVE, name, SENDING_SERVER_HELLO, other, [Joined(0, name)])
  {
    hide Stage;
    TwoArrive(host);
    var s0 :| Two(host, s0, WAITING_FOR_CLIENT_HELLO, [], WAITING_FOR_CLIENT_HELLO, [], []);
    Introduce(host, s0, 0, name);
    var s1 :| Stage(host, s1) && s1.log == s0.log && OthersSeated(s0, s1, 0)
              && Seated(s1.conns[0], 0, SENDING_SERVER_HELLO, name);
    Greet(host, s1, 0);
    var s2 :| Stage(host, s2) && s2.log == s1.log + [Joined(0, name)] && OthersSeated(s1, s2, 0)
              && Seated(s2.conns[0], 0, ACTIVE, name);
    assert Seated(s2.conns[1], 1, WAITING_FOR_CLIENT_HELLO, []);
    Introduce(host, s2, 1, other);
    var s3 :| Stage(host, s3) && s3.log == s2.log && OthersSeated(s2, s3, 1)
              && Seated(s3.conns[1], 1, SENDING_SERVER_HELLO, other);
    assert Two(host, s3, ACTIVE, name, SENDING_SERVER_HELLO, other, [Joined(0, name)]);
  }

  /** Two peers arrive and join. */
  lemma TwoJoin(host: Text, name: Text, other: Text)
    requires Legal(Hello(host)) && name != [] && |name| + 22 <= MAX_PAYLOAD_SIZE
    requires other != [] && |other| + 22 <= MAX_PAYLOAD_SIZE
    ensures exists s :: Two(host, s, ACTIVE, name, ACTIVE, other, [Joined(0, name), Joined(1, other)])
  {
    hide Stage;
    OneJoinsOneWaits(host, name, other);
    var s :| Two(host, s, ACTIVE, name, SENDING_SERVER_HELLO, other, [Joined(0, name)]);
    Greet(host, s, 1);
    var t :| Stage(host, t) && t.log == [Joined(0, name)] + [Joined(1, other)] && OthersSeated(s, t, 1)
             && Seated(t.conns[1], 1, ACTIVE, other);
    assert Two(host, t, ACTIVE, name, ACTIVE, other, [Joined(0, name), Joined(1, other)]);
  }

  // ---------- The bad cases ----------

  /** A spoiled server can be reached from setup, so CLOSE_CON really can be overtaken: there is a
      legal run at whose end it is not the last frame of somebody's stream. */
  lemma FarewellOvertaken(host: Text)
    requires Legal(Hello(host))
    ensures exists wakeups ::
              && LegalRun(Init(host, LISTENER), wakeups)
              && !CloseOrder.AllCloseLast(EventLoop(Init(host, LISTENER), wakeups).server.conns)
  {
    hide LegalRun, EventLoop, Init, Render, Legal, Rest, CloseOrder.AllCloseLast, QuitIn, CloseOrder.Open;
    var name := Ascii("a");
    OneJoinsOneWaits(host, name, name);
    var s :| Two(host, s, ACTIVE, name, SENDING_SERVER_HELLO, name, [Joined(0, name)]);
    JoinFits(host, 1, name);
    assert CloseOrder.Joinable(s, 1);
    ReachedIsOpen(host, LISTENER, s);
    SpoiledOvertaken(s);
    var later :| LegalRun(s, later) && !CloseOrder.AllCloseLast(EventLoop(s, later).server.conns);
    var wakeups :| Leads(host, LISTENER, wakeups, s);
    RunOn(Init(host, LISTENER), wakeups, later);
  }

  /** Under any name that can forge a notice, and that fits a join, a peer can join and say a line
      that puts the notice on the stream of another member, though nothing of the kind happened:
      the server checks neither the name nor the line. */
  lemma ForgedNotice(host: Text, name: Text, other: Text)
    requires Legal(Hello(host)) && CanForge(name) && |name| + 22 <= MAX_PAYLOAD_SIZE
    requires other != [] && |other| + 22 <= MAX_PAYLOAD_SIZE
    ensures var (text, notice) := Forgery(name);
            exists s :: CanReach(host, LISTENER, s) && Deceived(host, s, name, other, text, notice)
  {
    hide Stage, Rest, Render, Bodies, EncodeAll, Others, CanReach;
    ForgeryWorks(host, name);
    var (text, notice) := Forgery(name);
    TwoJoin(host, name, other);
    var s1 :| Two(host, s1, ACTIVE, name, ACTIVE, other, [Joined(0, name), Joined(1, other)]);
    Chat(host, s1, 0, text);
    var s2 :| Stage(host, s2) && s2.log == s1.log + [Said(0, name, text)] && OthersSeated(s1, s2, 0)
              && Seated(s2.conns[0], 0, ACTIVE, name);
    assert Seated(s2.conns[1], 1, ACTIVE, other);
    SecondIsSent(host, s2, name, other, text);
    StageReached(host, s2);
    assert Render(host, Said(0, name, text)).payload == Format(name, text) by { SaidText(host, name, text); }
    assert Deceived(host, s2, name, other, text, notice);
  }

  /** The log has only two joins and one chat, but the second member's broadcasts are its join
      and the notice. */
  predicate Deceived(host: Text, s: Server, name: Text, other: Text, text: Text, notice: Event) {
    && s.log == [Joined(0, name), Joined(1, other), Said(0, name, text)]
    && |s.conns| == 2 && s.conns[1].peer == 1 && s.conns[1].state == ACTIVE
    && Notice(notice)
    && Bodies(s.conns[1].queued, BROADCAST) == [Render(host, Joined(1, other)).payload, Render(host, notice).payload]
  }

  lemma StageReached(host: Text, s: Server)
    requires Stage(host, s)
    ensures CanReach(host, LISTENER, s) && s.name == host
  {
  }

  lemma SaidText(host: Text, name: Text, text: Text)
    ensures Render(host, Said(0, name, text)).payload == Format(name, text)
  {
  }

  lemma SecondIsSent(host: Text, s: Server, name: Text, other: Text, text: Text)
    requires Stage(host, s) && |s.conns| == 2 && Seated(s.conns[1], 1, ACTIVE, other)
    requires s.log == [Joined(0, name), Joined(1, other), Said(0, name, text)]
    ensures Bodies(s.conns[1].queued, BROADCAST)
            == [Render(host, Joined(1, other)).payload, Render(host, Said(0, name, text)).payload]
  {
    hide Rest, Render, Bodies, EncodeAll, Others, CanReach, CloseOrder.Open;
    ReachedIsOpen(host, LISTENER, s);
    RoomOrder.QueueIsProjection(s, 1);
    assert s.conns[1].joinedAt.value == 1;
    var e := Said(0, name, text);
    assert s.log[2..] == [] + [e];
    OthersSnoc([], e, 1);
    RoomOrder.NoOthers(1);
    assert Others(s.log[2..], 1) == [e];
  }

  /** A peer whose name leaves no room for the join's own text ends the room as soon as the kernel
      takes its SERVER_HELLO. */
  lemma LongNameStops(s: Server, i: nat)
    requires ServerInv(s) && i < |s.conns| && s.conns[i].state == SENDING_SERVER_HELLO
    requires |s.conns[i].name| + 22 > MAX_PAYLOAD_SIZE
    ensures var c := s.conns[i];
            !Dispatch(s, Ready(c.fd, CloseOrder.WRITABLE), CloseOrder.TakesAll(c)).ok
  {
    hide Rest, Lookup, Dispatch, Flush;
    AtOwnFd(s, i);
    InvAt(s, i);
    var c := s.conns[i];
    StateBuffer(s.name, s.log, c);
    CloseOrder.FlushAll(s.name, s.log, c);
    GoesOnExactly(s, Ready(c.fd, CloseOrder.WRITABLE), CloseOrder.TakesAll(c));
  }

  /** A legal run from setup that a handler stops although nobody has typed /quit. */
  ghost predicate Stops(host: Text, wakeups: seq<Wakeup>) {
    var r := EventLoop(Init(host, LISTENER), wakeups);
    LegalRun(Init(host, LISTENER), wakeups) && !r.ok && !r.server.closing
  }

  /** One more event, that the loop does not survive. */
  lemma StopNext(host: Text, s: Server, k: nat, bits: PollBits, env: Env)
    requires Stage(host, s)
    requires k < |s.entries| && ToEpoll(bits) != NO_EVENTS && LegalEnv(s, env)
    requires !Dispatch(s, Ready(s.entries[k].fd, ToEpoll(bits)), env).ok
    requires exists j :: 0 <= j < |s.conns| && Owed(s.conns[j])
    ensures exists wakeups :: Stops(host, wakeups)
  {
    hide LegalRun, EventLoop, Init, Rest, CloseOrder.Open, Dispatch, LegalEnv, Only, HandleWakeup, LegalWakeup;
    hide HandleStdin;
    var ready := Ready(s.entries[k].fd, ToEpoll(bits));
    ReachedIsOpen(host, LISTENER, s);
    assert !Dispatch(s, ready, env).server.closing by {
      QuitCloses(s, ready, env);
      QuitGoesOn(s);
    }
    var w := Only(k, bits, env);
    OnlyDispatches(s, k, bits, env, []);
    LegalOne(s, w);
    StopsOnce(s, w);
    var wakeups :| Leads(host, LISTENER, wakeups, s);
    RunOn(Init(host, LISTENER), wakeups, [w]);
    assert Stops(host, wakeups + [w]);
  }

  lemma StopsOnce(s: Server, w: Wakeup)
    requires !HandleWakeup(s, w).ok
    ensures EventLoop(s, [w]) == HandleWakeup(s, w)
  {
    hide HandleWakeup;
  }

  /** A name too long to announce gets as far as the greeting, so one peer can end the room. */
  lemma LongNameEndsRoom(host: Text, name: Text)
    requires Legal(Hello(host)) && |name| <= MAX_PAYLOAD_SIZE < |name| + 22
    ensures exists wakeups :: Stops(host, wakeups)
  {
    hide Legal, Rest, CloseOrder.Open, Dispatch, CanReach, Stops;
    OneJoinsOneWaits(host, Ascii("a"), name);
    var s :| Two(host, s, ACTIVE, Ascii("a"), SENDING_SERVER_HELLO, name, [Joined(0, Ascii("a"))]);
    ReachedIsOpen(host, LISTENER, s);
    var c := s.conns[1];
    assert Owed(c);
    RestWired(s, NOBODY);
    WiredFd(s, 1);
    LongNameStops(s, 1);
    StopNext(host, s, 3, ROOM, CloseOrder.TakesAll(c));
  }

  /** So can one chat that is a legal payload but too long under its name: a member who sends it
      while another is ACTIVE ends the room, whatever the names. */
  lemma LongChatEndsRoom(host: Text, name: Text, other: Text, text: Text)
    requires Legal(Hello(host)) && name != [] && other != []
    requires |name| + 22 <= MAX_PAYLOAD_SIZE && |other| + 22 <= MAX_PAYLOAD_SIZE
    requires |text| <= MAX_PAYLOAD_SIZE < |name| + |text| + 3
    ensures exists wakeups :: Stops(host, wakeups)
  {
    hide Legal, Rest, CloseOrder.Open, Dispatch, CanReach, Stops;
    TwoJoin(host, name, other);
    var s :| Two(host, s, ACTIVE, name, ACTIVE, other, [Joined(0, name), Joined(1, other)]);
    ReachedIsOpen(host, LISTENER, s);
    var m := Message(CHAT, text);
    assert Legal(m) by { LegalText(m); }
    assert s.conns[1].state == ACTIVE;
    RestWired(s, NOBODY);
    WiredFd(s, 0);
    LongChatStops(s, 0, m);
    assert Owed(s.conns[0]);
    StopNext(host, s, 2, TYPED, Sends(m));
  }

  /** And so can a line of the host that passes the length test but is too long under its name. */
  lemma LongLineEndsRoom(host: Text, text: Text)
    requires Legal(Hello(host)) && text != [] && text != QuitCommand()
    requires |text| <= MAX_PAYLOAD_SIZE < |host| + |text| + 3
    ensures exists wakeups :: Stops(host, wakeups)
  {
    hide Legal, Rest, CloseOrder.Open, Dispatch, CanReach, Stops, QuitCommand;
    OneJoinsOneWaits(host, Ascii("a"), Ascii("b"));
    var s :| Two(host, s, ACTIVE, Ascii("a"), SENDING_SERVER_HELLO, Ascii("b"), [Joined(0, Ascii("a"))]);
    ReachedIsOpen(host, LISTENER, s);
    var env := Env([], [], [], Some(text));
    OwnFds(s);
    assert s.conns[0].state == ACTIVE && Owed(s.conns[0]);
    assert Audience(s, NOBODY);
    GoesOnExactly(s, Ready(STDIN_FD, ToEpoll(TYPED)), env);
    StopNext(host, s, 1, TYPED, env);
  }

  lemma OwnFds(s: Server)
    requires ServerInv(s)
    ensures 1 < |s.entries| && s.entries[1].fd == STDIN_FD
  {
  }

  lemma LegalText(m: Message)
    ensures Legal(m) <==> |m.payload| <= MAX_PAYLOAD_SIZE
  {
  }

  /** A chat of an idle member that someone should hear but that fits no frame. */
  lemma LongChatStops(s: Server, i: nat, m: Message)
    requires ServerInv(s) && !s.closing && i < |s.conns| && Legal(m) && m.kind == CHAT
    requires s.conns[i].state == ACTIVE && s.conns[i].inBuffer == [] && Audience(s, i)
    requires |s.conns[i].name| + |m.payload| + 3 > MAX_PAYLOAD_SIZE
    ensures !Dispatch(s, Ready(s.conns[i].fd, ToEpoll(TYPED)), Sends(m)).ok
  {
    hide Rest, Lookup, Dispatch, ParseFrame, Encode, ReadEvents, Render, Audience, AllFit;
    AtOwnFd(s, i);
    var c := s.conns[i];
    OneFrame(m);
    GoesOnExactly(s, Ready(c.fd, ToEpoll(TYPED)), Sends(m));
    assert c.inBuffer + Encode(m) == Encode(m);
    assert ParseAll(Encode(m)) == Parsed([m], [], false) by { ParsedOnce(m); }
    SaidFirst(c.peer, c.name, ParseAll(Encode(m)), m);
    var e := Said(c.peer, c.name, m.payload);
    RenderedLength(s.name, e);
    FitsCons(s.name, e, []);
    assert [e] + [] == [e];
  }

  lemma ParsedOnce(m: Message)
    requires Legal(m)
    ensures ParseAll(Encode(m)) == Parsed([m], [], false)
  {
    hide ParseFrame, Encode;
    assert EncodeAll([m]) == Encode(m) + [] == Encode(m);
    RoundTrip([m]);
  }

  lemma SaidFirst(id: nat, name: Text, p: Parsed, m: Message)
    requires p.messages == [m] && m.kind == CHAT && !p.oversized
    ensures ReadEvents(id, name, p, false) == [Said(id, name, m.payload)]
  {
  }
}
