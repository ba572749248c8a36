/** The whole chatroom: one server, any number of honest clients, and any number of other peers
    that may send it anything. The network is what section 2.2 of RFC 9293 promises: at any time
    the bytes one end has received are a prefix of the bytes the other end has sent. */
module ChatSystem {
  import opened Frames
  import opened Connections
  import opened Interest
  import opened Room
  import opened ServerSpec
  import opened ServerPlumbing
  import opened ServerRecords
  import opened ServerInvariant
  import opened ServerHandlers
  import ClientSpec
  import ClientInvariant
  import RoomOrder

  /** An honest client, and whether its event loop is still running. */
  datatype Participant = Participant(client: ClientSpec.Client, live: bool)

  /** Clients are named by their TCP connection, as the server's records are. */
  datatype System = System(server: Server, running: bool, clients: map<nat, Participant>)

  datatype Action =
    | Join(p: nat, name: Text, fd: int, immediate: bool)
    | ClientEvent(p: nat, ready: Ready, cenv: ClientSpec.ClientEnv)
    | ServerEvent(ready: Ready, env: Env)
    | ServerStop

  /** What one end has received is a prefix of what the other has sent, both ways. */
  ghost predicate Linked(c: Conn, client: Conn) {
    c.received <= client.sent && client.received <= c.sent
  }

  ghost predicate Network(y: System) {
    && (forall k | 0 <= k < |y.server.conns| && y.server.conns[k].peer in y.clients ::
          Linked(y.server.conns[k], y.clients[y.server.conns[k].peer].client.conn))
    && (forall k | 0 <= k < |y.server.retired| && y.server.retired[k].peer in y.clients ::
          Linked(y.server.retired[k], y.clients[y.server.retired[k].peer].client.conn))
    && (forall p | p in y.clients && p !in Ids(y.server) :: y.clients[p].client.conn.received == [])
  }

  function Begin(host: Text, listenFd: int): System {
    System(Init(host, listenFd), true, map[])
  }

  ghost predicate Next(y: System, a: Action, z: System) {
    match a
    case Join(p, name, fd, immediate) =>
      && HonestName(name) && fd != STDIN_FD
      && p !in y.clients && p !in Ids(y.server)
      && var r := ClientSpec.Start(name, fd, p, immediate);
         z == y.(clients := y.clients[p := Participant(r.client, r.ok)])
    case ClientEvent(p, ready, cenv) =>
      && p in y.clients && y.clients[p].live && Network(z)
      && var r := ClientSpec.Dispatch(y.clients[p].client, ready, cenv);
         z == y.(clients := y.clients[p := Participant(r.client, r.ok)])
    case ServerEvent(ready, env) =>
      && y.running && LegalEnv(y.server, env) && Network(z)
      && var r := Dispatch(y.server, ready, env);
         z == y.(server := r.server, running := r.ok)
    case ServerStop =>
      z == y.(running := false)
  }

  ghost predicate Run(host: Text, listenFd: int, states: seq<System>, actions: seq<Action>) {
    && listenFd != STDIN_FD
    && |states| == |actions| + 1
    && states[0] == Begin(host, listenFd)
    && forall k | 0 <= k < |actions| :: Next(states[k], actions[k], states[k + 1])
  }

  ghost predicate Reachable(host: Text, y: System) {
    exists listenFd, states, actions ::
      Run(host, listenFd, states, actions) && states[|states| - 1] == y
  }

  // ---------- The invariant of the whole system ----------

  ghost predicate ParticipantInv(q: Participant) {
    && HonestName(q.client.name)
    && ClientInvariant.ClientPast(q.client)
    && (q.live ==> ClientInvariant.ClientInv(q.client))
  }

  ghost predicate ClientsInv(y: System) {
    forall p | p in y.clients :: ParticipantInv(y.clients[p])
  }

  ghost predicate SystemInv(host: Text, y: System) {
    && y.server.name == host
    && Halted(y.server)
    && (y.running ==> ServerInv(y.server))
    && ClientsInv(y)
    && Network(y)
  }

  lemma BeginInv(host: Text, listenFd: int)
    requires listenFd != STDIN_FD
    ensures SystemInv(host, Begin(host, listenFd))
  {
    hide Rest, Halted;
    InitInv(host, listenFd);
    InvHalts(Init(host, listenFd));
  }

  lemma JoinInv(y: System, p: nat, name: Text, fd: int, immediate: bool, z: System)
    requires Network(y) && ClientsInv(y) && Next(y, Join(p, name, fd, immediate), z)
    ensures ClientsInv(z) && Network(z)
  {
    hide Ids, Linked, ClientSpec.Start, HonestName, ParticipantInv;
    ClientInvariant.StartKeeps(name, fd, p, immediate);
    StartedInv(ClientSpec.Start(name, fd, p, immediate), name);
    forall k | 0 <= k < |y.server.conns|
      ensures y.server.conns[k].peer != p
    {
      PeerKnown(y.server, k);
    }
    forall k | 0 <= k < |y.server.retired|
      ensures y.server.retired[k].peer != p
    {
      RetiredKnown(y.server, k);
    }
  }

  lemma StartedInv(r: ClientSpec.ClientStep, name: Text)
    requires HonestName(name) && r.client.name == name && ClientInvariant.Kept(r)
    ensures ParticipantInv(Participant(r.client, r.ok))
  {
    InvIsPast(r.client);
  }

  lemma InvIsPast(c: ClientSpec.Client)
    ensures ClientInvariant.ClientInv(c) ==> ClientInvariant.ClientPast(c)
  {
  }

  lemma RetiredKnown(s: Server, k: nat)
    requires k < |s.retired|
    ensures s.retired[k].peer in Ids(s)
  {
    assert s.retired[k].peer in Peers(s.retired);
  }

  lemma ClientEventInv(y: System, p: nat, ready: Ready, cenv: ClientSpec.ClientEnv, z: System)
    requires ClientsInv(y) && Next(y, ClientEvent(p, ready, cenv), z)
    ensures ClientsInv(z)
  {
    hide Network, ClientInvariant.ClientInv, ClientInvariant.ClientPast, ClientSpec.Dispatch, HonestName;
    var c := y.clients[p].client;
    assert ParticipantInv(y.clients[p]);
    ClientInvariant.DispatchKeeps(c, ready, cenv);
    var r := ClientSpec.Dispatch(c, ready, cenv);
    assert r.client.name == c.name by { NameKept(c, ready, cenv); }
    InvIsPast(r.client);
  }

  lemma NameKept(c: ClientSpec.Client, ready: Ready, cenv: ClientSpec.ClientEnv)
    ensures ClientSpec.Dispatch(c, ready, cenv).client.name == c.name
  {
    hide Flush, ReadIntoInBuffer, QueueMessage, Ctl, ClientSpec.Drain;
    var read := ReadIntoInBuffer(c.conn, cenv.recvs);
    DrainName(c.(conn := read.conn));
  }

  lemma {:induction false} DrainName(c: ClientSpec.Client)
    ensures ClientSpec.Drain(c).client.name == c.name
    decreases |c.conn.inBuffer|
  {
    hide ParseFrame;
    var (d, m) := ParseMessage(c.conn);
    if m.Some? {
      var r := ClientSpec.HandleMessage(c.(conn := d), m.value);
      if r.ok {
        DrainName(r.client);
      }
    }
  }

  lemma NextInv(host: Text, y: System, a: Action, z: System)
    requires SystemInv(host, y) && Next(y, a, z)
    ensures SystemInv(host, z)
  {
    hide Rest, Halted, ClientsInv, Network, Dispatch, LegalEnv, HonestName, ClientSpec.Start, ClientSpec.Dispatch;
    match a
    case Join(p, name, fd, immediate) => JoinInv(y, p, name, fd, immediate, z);
    case ClientEvent(p, ready, cenv) => ClientEventInv(y, p, ready, cenv, z);
    case ServerEvent(ready, env) =>
      DispatchKeeps(y.server, ready, env);
      var r := Dispatch(y.server, ready, env);
      if r.ok {
        InvHalts(r.server);
      }
      ServerNameKept(y.server, ready, env);
      SameClients(y, z);
    case ServerStop => SameClients(y, z); SameNetwork(y, z);
  }

  lemma SameClients(y: System, z: System)
    requires ClientsInv(y) && z.clients == y.clients
    ensures ClientsInv(z)
  {
  }

  lemma SameNetwork(y: System, z: System)
    requires Network(y) && z.clients == y.clients && z.server == y.server
    ensures Network(z)
  {
  }

  lemma ServerNameKept(s: Server, r: Ready, env: Env)
    ensures Dispatch(s, r, env).server.name == s.name
  {
    hide Lookup, Flush, ReadIntoInBuffer, ParseMessage, QueueMessage, Ctl, Deliver, Drain, HandleAccept, QuitCommand;
    AcceptName(s, env.accepts);
    forall t: Server, e ensures Deliver(t, e).server.name == t.name { DeliverName(t, e); }
    forall t: Server, i: nat | i < |t.conns| ensures Drain(t, i).server.name == t.name { ServerDrainName(t, i); }
  }

  lemma DeliverName(s: Server, e: Event)
    ensures Deliver(s, e).server.name == s.name
  {
  }

  lemma {:induction false} AcceptName(s: Server, accepts: seq<AcceptResult>)
    ensures HandleAccept(s, accepts).server.name == s.name
    decreases |accepts|
  {
    if accepts != [] && accepts[0].Accepted? {
      AcceptName(AcceptOne(s, accepts[0].fd, accepts[0].peer).server, accepts[1..]);
    }
  }

  lemma {:induction false} ServerDrainName(s: Server, i: nat)
    requires i < |s.conns|
    ensures Drain(s, i).server.name == s.name
    decreases |s.conns[i].inBuffer|
  {
    hide ParseFrame, QueueMessage, Legal, Render;
    var (c, m) := ParseMessage(s.conns[i]);
    if m.Some? && m.value.kind == CHAT {
      var r := Deliver(Put(s, i, c), Said(c.peer, c.name, m.value.payload));
      if r.ok {
        QueueIdentity(c, Render(s.name, Said(c.peer, c.name, m.value.payload)));
        ServerDrainName(r.server, i);
      }
    }
  }

  lemma {:induction false} RunInv(host: Text, listenFd: int, states: seq<System>, actions: seq<Action>)
    requires Run(host, listenFd, states, actions)
    ensures SystemInv(host, states[|actions|])
    decreases |actions|
  {
    hide SystemInv, Next, Begin;
    if actions == [] {
      BeginInv(host, listenFd);
    } else {
      var n := |actions| - 1;
      RunInv(host, listenFd, states[..n + 1], actions[..n]);
      NextInv(host, states[n], actions[n], states[n + 1]);
    }
  }

  lemma ReachableInv(host: Text, y: System)
    requires Reachable(host, y)
    ensures SystemInv(host, y)
  {
    hide SystemInv, Next, Begin;
    var listenFd, states, actions :| Run(host, listenFd, states, actions) && states[|states| - 1] == y;
    RunInv(host, listenFd, states, actions);
  }

  // ---------- What holds in every run ----------

  /** The server's record c of an honest client p, listed or retired. */
  ghost predicate RecordFor(y: System, p: nat, c: Conn) {
    p in y.clients && c.peer == p && (c in y.server.conns || c in y.server.retired)
  }

  lemma RecordFacts(host: Text, y: System, p: nat, c: Conn)
    requires SystemInv(host, y) && RecordFor(y, p, c)
    ensures Past(host, y.server.log, c)
    ensures Linked(c, y.clients[p].client.conn)
    ensures ParticipantInv(y.clients[p])
  {
    hide Past, ServerInv, Plumbed, NoStrangers, Linked, ParticipantInv;
    if c in y.server.conns {
      var k :| 0 <= k < |y.server.conns| && y.server.conns[k] == c;
    } else {
      var k :| 0 <= k < |y.server.retired| && y.server.retired[k] == c;
    }
  }

  /** The bytes sent by one end and not yet received by the other. */
  function InFlight(sent: seq<Byte>, received: seq<Byte>): seq<Byte> {
    if received <= sent then sent[|received|..] else []
  }

  /** Byte conservation, both ways: the frames one end has ever queued are, byte for byte, the
      frames the other has parsed, then its input buffer, then what is in flight, then what the
      first end has not sent yet. */
  lemma ByteConservation(host: Text, y: System, p: nat, c: Conn)
    requires Reachable(host, y) && RecordFor(y, p, c)
    ensures var d := y.clients[p].client.conn;
            && EncodeAll(d.queued) == EncodeAll(c.parsed) + c.inBuffer + InFlight(d.sent, c.received) + Unsent(d)
            && EncodeAll(c.queued) == EncodeAll(d.parsed) + d.inBuffer + InFlight(c.sent, d.received) + Unsent(c)
            && (c.written < |c.outBuffer| || (c.written == 0 && c.outBuffer == []))
            && (d.written < |d.outBuffer| || (d.written == 0 && d.outBuffer == []))
  {
    hide SystemInv, Reachable, EncodeAll, EventsOf, Bodies, Others, ParseFrame, Unsent, RecordFor;
    ReachableInv(host, y);
    assert p in y.clients by { RecordClient(y, p, c); }
    RecordFacts(host, y, p, c);
    var d := y.clients[p].client.conn;
    assert d.sent == c.received + InFlight(d.sent, c.received);
    assert c.sent == d.received + InFlight(c.sent, d.received);
  }

  lemma RecordClient(y: System, p: nat, c: Conn)
    requires RecordFor(y, p, c)
    ensures p in y.clients
  {
  }

  /** What each end has parsed is a prefix of what the other has queued, and what it has buffered
      is a prefix of the encoding of the rest. */
  lemma ParsedPrefix(host: Text, y: System, p: nat, c: Conn)
    requires SystemInv(host, y) && RecordFor(y, p, c)
    ensures var d := y.clients[p].client.conn;
            && AllLegal(c.queued) && AllLegal(d.queued)
            && c.parsed <= d.queued && c.inBuffer <= EncodeAll(d.queued[|c.parsed|..])
            && d.parsed <= c.queued && d.inBuffer <= EncodeAll(c.queued[|d.parsed|..])
  {
    hide SystemInv, EncodeAll, EventsOf, Bodies, Others, ParseFrame, RecordFor;
    assert p in y.clients by { RecordClient(y, p, c); }
    RecordFacts(host, y, p, c);
    var d := y.clients[p].client.conn;
    SentIsQueued(d);
    SentIsQueued(c);
    EncodedPrefix(c.parsed, c.inBuffer, d.queued);
    EncodedPrefix(d.parsed, d.inBuffer, c.queued);
  }

  lemma SentIsQueued(c: Conn)
    requires OutputKept(c)
    ensures c.sent <= EncodeAll(c.queued)
  {
    hide EncodeAll;
  }

  /** End-to-end delivery. However the bytes were cut and the ends interleaved, the lines client p
      has on its screen are a prefix of the room log since its join with its own chats and its own
      departure left out; before its join is logged it has none. */
  lemma EndToEnd(host: Text, y: System, p: nat, c: Conn)
    requires Reachable(host, y) && RecordFor(y, p, c)
    ensures var client := y.clients[p].client;
            if c.joinedAt.None? then client.screen == []
            else
              && c.joinedAt.value < |y.server.log|
              && y.server.log[c.joinedAt.value] == Joined(p, client.name)
              && client.screen <= Lines(host, Others(y.server.log[c.joinedAt.value..], p))
  {
    hide SystemInv, Reachable, EncodeAll, EventsOf, Bodies, Others, Lines, ParseFrame, RecordFor, OutputKept, InputKept;
    ReachableInv(host, y);
    assert p in y.clients && c.peer == p by { RecordClient(y, p, c); RecordPeer(y, p, c); }
    RecordFacts(host, y, p, c);
    ParsedPrefix(host, y, p, c);
    var d := y.clients[p].client.conn;
    BodiesPrefix(d.parsed, c.queued, BROADCAST);
    if c.joinedAt.None? {
      HelloHasNoLines(host, c.queued);
    } else {
      assert c.parsed[0] == d.queued[0];
    }
  }

  /** Two screens as two views of one log. The client that joined first (at i) has events from
      before the other's join (at j) on its screen; of what both are sent from then on, the one
      screen has the same events in the same order as the other, as far as the shorter goes. */
  ghost predicate OneOrder(host: Text, log: seq<Event>, i: nat, p: nat, first: seq<Text>, j: nat, q: nat,
                           second: seq<Text>, before: seq<Event>, es: seq<Event>, fs: seq<Event>)
    requires i <= j <= |log|
  {
    && first == Lines(host, before + es) && second == Lines(host, fs)
    && before <= Others(log[i..j], p) && (before == Others(log[i..j], p) || es == [])
    && es <= Others(log[j..], p) && fs <= Others(log[j..], q)
    && (Others(es, q) <= Others(fs, p) || Others(fs, p) <= Others(es, q))
  }

  /** Any two members see the events that both are sent in one order. */
  lemma ScreensAgree(host: Text, y: System, p: nat, c: Conn, q: nat, d: Conn)
    requires Reachable(host, y) && RecordFor(y, p, c) && RecordFor(y, q, d)
    requires c.joinedAt.Some? && d.joinedAt.Some? && c.joinedAt.value <= d.joinedAt.value
    ensures d.joinedAt.value < |y.server.log|
    ensures exists before, es, fs ::
              OneOrder(host, y.server.log, c.joinedAt.value, p, y.clients[p].client.screen,
                       d.joinedAt.value, q, y.clients[q].client.screen, before, es, fs)
  {
    hide Reachable, RecordFor, Others, Lines;
    RecordClient(y, p, c);
    RecordClient(y, q, d);
    EndToEnd(host, y, p, c);
    EndToEnd(host, y, q, d);
    var log := y.server.log;
    var i, j := c.joinedAt.value, d.joinedAt.value;
    var (first, second) := (y.clients[p].client.screen, y.clients[q].client.screen);
    var earlier, later := Others(log[i..j], p), Others(log[j..], p);
    assert log[i..] == log[i..j] + log[j..];
    RoomOrder.OthersAppend(log[i..j], log[j..], p);
    LinesPrefix(host, earlier + later, first);
    LinesPrefix(host, Others(log[j..], q), second);
    var n := |first|;
    var before := if n <= |earlier| then earlier[..n] else earlier;
    var es := if n <= |earlier| then [] else later[..n - |earlier|];
    var fs := Others(log[j..], q)[..|second|];
    assert (earlier + later)[..n] == before + es;
    RoomOrder.OthersCommute(log[j..], p, q);
    OthersPrefix(es, later, q);
    OthersPrefix(fs, Others(log[j..], q), p);
    assert OneOrder(host, log, i, p, first, j, q, second, before, es, fs);
  }

  lemma LinesPrefix(host: Text, es: seq<Event>, texts: seq<Text>)
    requires texts <= Lines(host, es)
    ensures texts == Lines(host, es[..|texts|])
  {
    hide Render;
  }

  lemma OthersPrefix(es: seq<Event>, fs: seq<Event>, id: nat)
    requires es <= fs
    ensures Others(es, id) <= Others(fs, id)
  {
    hide Others;
    assert fs == es + fs[|es|..];
    RoomOrder.OthersAppend(es, fs[|es|..], id);
  }

  lemma RecordPeer(y: System, p: nat, c: Conn)
    requires RecordFor(y, p, c)
    ensures c.peer == p
  {
  }

  lemma HelloHasNoLines(host: Text, ms: seq<Message>)
    requires ms == [] || ms == [Hello(host)]
    ensures Bodies(ms, BROADCAST) == []
  {
    if ms != [] {
      BodiesSnoc([], Hello(host), BROADCAST);
      assert ms == [] + [Hello(host)];
    }
  }

  /** A client the server has not accepted has nothing on its screen. */
  lemma NothingBeforeAccept(host: Text, y: System, p: nat)
    requires Reachable(host, y) && p in y.clients && p !in Ids(y.server)
    ensures y.clients[p].client.screen == []
  {
    hide SystemInv, Reachable, EncodeAll, Bodies, ParseFrame, Ids, HonestName;
    ReachableInv(host, y);
    assert ParticipantInv(y.clients[p]) && y.clients[p].client.conn.received == [] by { UnfoldClient(host, y, p); }
    var d := y.clients[p].client.conn;
    EncodeAllLength(d.parsed);
    assert d.parsed == [];
    assert Bodies([], BROADCAST) == [] by { HelloHasNoLines([], []); }
  }

  lemma UnfoldClient(host: Text, y: System, p: nat)
    requires SystemInv(host, y) && p in y.clients && p !in Ids(y.server)
    ensures ParticipantInv(y.clients[p]) && y.clients[p].client.conn.received == []
  {
  }

  /** Nothing invented, duplicated, reordered or altered: what the log has client p say is, in
      order and under the name it chose, a prefix of the lines it queued as CHAT. */
  lemma SaidWhatWasTyped(host: Text, y: System, p: nat, c: Conn)
    requires Reachable(host, y) && RecordFor(y, p, c)
    ensures var client := y.clients[p].client;
            var es := EventsOf(y.server.log, p);
            var typed := Bodies(client.conn.queued, CHAT);
            es <= [Joined(p, client.name)] + Saids(p, client.name, typed)
            || (exists n :: 0 <= n <= |typed|
                  && es == [Joined(p, client.name)] + Saids(p, client.name, typed[..n]) + [Left(p, client.name)])
  {
    hide SystemInv, Reachable, EncodeAll, EventsOf, Bodies, Others, Lines, ParseFrame, RecordFor, OutputKept;
    hide InputKept, HonestName;
    ReachableInv(host, y);
    assert p in y.clients && c.peer == p by { RecordClient(y, p, c); RecordPeer(y, p, c); }
    RecordFacts(host, y, p, c);
    ParsedPrefix(host, y, p, c);
    var client := y.clients[p].client;
    var typed := Bodies(client.conn.queued, CHAT);
    var got := Bodies(c.parsed, CHAT);
    var es := EventsOf(y.server.log, p);
    BodiesPrefix(c.parsed, client.conn.queued, CHAT);
    if c.joinedAt.Some? {
      assert c.parsed[0] == client.conn.queued[0];
      assert c.name == client.name;
      assert es <= Story(c) + [Left(p, client.name)];
      StoryPrefix(p, client.name, got, typed, es);
    }
  }

  lemma StoryPrefix(p: nat, name: Text, got: seq<Text>, typed: seq<Text>, es: seq<Event>)
    requires got <= typed && es <= [Joined(p, name)] + Saids(p, name, got) + [Left(p, name)]
    ensures es <= [Joined(p, name)] + Saids(p, name, typed)
            || (exists n :: 0 <= n <= |typed|
                  && es == [Joined(p, name)] + Saids(p, name, typed[..n]) + [Left(p, name)])
  {
    var whole := [Joined(p, name)] + Saids(p, name, got) + [Left(p, name)];
    if |es| == |whole| {
      assert es == whole;
      assert typed[..|got|] == got;
    } else {
      assert es <= [Joined(p, name)] + Saids(p, name, typed);
    }
  }

  /** Once every queued byte has arrived and no complete frame is waiting, every frame has been
      parsed. */
  lemma AllParsed(ms: seq<Message>, b: seq<Byte>, ns: seq<Message>)
    requires AllLegal(ns) && ms <= ns && EncodeAll(ms) + b == EncodeAll(ns)
    requires ParseFrame(b).Incomplete?
    ensures ms == ns
  {
    hide EncodeAll, ParseFrame, Encode;
    var rest := ns[|ms|..];
    assert ns == ms + rest;
    EncodeAllAppend(ms, rest);
    assert b == (EncodeAll(ms) + b)[|EncodeAll(ms)|..] == EncodeAll(rest);
    if rest != [] {
      assert EncodeAll(rest) == Encode(rest[0]) + EncodeAll(rest[1..]) by { EncodeAllCons(rest); }
      ParseEncoded(rest[0], EncodeAll(rest[1..]));
    }
  }

  lemma EncodeAllCons(ms: seq<Message>)
    requires ms != []
    ensures EncodeAll(ms) == Encode(ms[0]) + EncodeAll(ms[1..])
  {
    hide Encode;
  }

  /** The prefix is the whole when the room is quiet: if a client's ACTIVE connection has nothing
      unsent or in flight and the client has parsed what it holds, then its screen shows all of
      the log since its join, its own part left out. */
  lemma QuietScreen(host: Text, y: System, p: nat, c: Conn)
    requires Reachable(host, y) && y.running && RecordFor(y, p, c)
    requires c in y.server.conns && c.state == ACTIVE && y.clients[p].live
    requires y.clients[p].client.conn.received == EncodeAll(c.queued)
    requires ParseFrame(y.clients[p].client.conn.inBuffer).Incomplete?
    ensures c.joinedAt.Some? && c.joinedAt.value < |y.server.log|
    ensures y.clients[p].client.screen == Lines(host, Others(y.server.log[c.joinedAt.value..], p))
  {
    hide SystemInv, Reachable, EncodeAll, EventsOf, Bodies, Others, Lines, ParseFrame, RecordFor, HonestName, Past;
    ReachableInv(host, y);
    RecordPeer(y, p, c);
    RecordClient(y, p, c);
    RecordFacts(host, y, p, c);
    ParsedPrefix(host, y, p, c);
    ListedIsGood(host, y, c);
    var d := y.clients[p].client.conn;
    AllParsed(d.parsed, d.inBuffer, c.queued);
  }

  lemma ListedIsGood(host: Text, y: System, c: Conn)
    requires SystemInv(host, y) && y.running && c in y.server.conns
    ensures Good(host, y.server.log, c)
  {
    hide Rest, Good, Halted;
    var k :| 0 <= k < |y.server.conns| && y.server.conns[k] == c;
    InvAt(y.server, k);
  }

  /** Likewise upstream: once all its bytes have arrived and are parsed, the log has exactly the
      join and every line the client has queued as CHAT. */
  lemma QuietLog(host: Text, y: System, p: nat, c: Conn)
    requires Reachable(host, y) && y.running && RecordFor(y, p, c)
    requires c in y.server.conns && c.state == ACTIVE
    requires c.received == EncodeAll(y.clients[p].client.conn.queued)
    requires ParseFrame(c.inBuffer).Incomplete?
    ensures var client := y.clients[p].client;
            EventsOf(y.server.log, p)
            == [Joined(p, client.name)] + Saids(p, client.name, Bodies(client.conn.queued, CHAT))
  {
    hide SystemInv, Reachable, EncodeAll, EventsOf, Bodies, Others, Lines, ParseFrame, RecordFor, HonestName, Past;
    ReachableInv(host, y);
    RecordPeer(y, p, c);
    RecordClient(y, p, c);
    RecordFacts(host, y, p, c);
    ParsedPrefix(host, y, p, c);
    ListedIsGood(host, y, c);
    AllParsed(c.parsed, c.inBuffer, y.clients[p].client.conn.queued);
  }

  /** Honest endpoints never blame each other: no framing or type check of the server ever puts
      the record of an honest client in CONNECTION_ERROR, and none of the client's does either
      (its complaint about frames that came with the end of the stream apart). */
  lemma HonestNeverBlamed(host: Text, y: System, p: nat, c: Conn)
    requires Reachable(host, y) && RecordFor(y, p, c)
    ensures c.fault !in {OversizedFrame, WrongMessage, LateMessage}
    ensures y.clients[p].client.conn.fault !in {OversizedFrame, WrongMessage}
  {
    hide SystemInv, Reachable, EncodeAll, EventsOf, Bodies, Others, Lines, ParseFrame, RecordFor, OutputKept, InputKept;
    ReachableInv(host, y);
    assert p in y.clients && c.peer == p by { RecordClient(y, p, c); RecordPeer(y, p, c); }
    RecordFacts(host, y, p, c);
    ParsedPrefix(host, y, p, c);
    var client := y.clients[p].client;
    var d := client.conn;
    PrefixNotOversized(c.inBuffer, d.queued[|c.parsed|..]);
    PrefixNotOversized(d.inBuffer, c.queued[|d.parsed|..]);
    QueueIsUpShape(client.name, d.queued, client.quitting);
    UpShapePrefix(c.parsed, d.queued);
    DownIsAccepted(host, d.parsed, c.queued);
  }

  lemma QueueIsUpShape(name: Text, ms: seq<Message>, quitting: bool)
    requires ClientInvariant.Queue(name, ms, quitting) && name != []
    ensures UpShape(ms)
  {
  }

  lemma DownIsAccepted(host: Text, ms: seq<Message>, ns: seq<Message>)
    requires ms <= ns && DownShape(host, ns)
    ensures ClientInvariant.Accepts(ms)
  {
  }

  /** In a room of honest host and honest clients nothing that was said reads like a notice. */
  lemma NoForgedNotices(host: Text, y: System, a: nat, notice: Event)
    requires Reachable(host, y) && HonestName(host) && Notice(notice)
    requires forall id | id in Ids(y.server) :: id in y.clients
    requires a < |y.server.log| && !Notice(y.server.log[a])
    ensures Render(host, y.server.log[a]) != Render(host, notice)
  {
    hide SystemInv, Reachable, Render, HonestName, Ids, EventsOf;
    var e := y.server.log[a];
    if e.Said? {
      ReachableInv(host, y);
      SaidName(host, y, a);
    }
    if e.Said? {
      HonestCannotForge(e.name);
      ForgeryExactly(host, e.id, e.name);
    } else {
      HonestCannotForge(host);
      HostForgeryExactly(host);
    }
  }

  lemma SaidName(host: Text, y: System, a: nat)
    requires SystemInv(host, y)
    requires forall id | id in Ids(y.server) :: id in y.clients
    requires a < |y.server.log| && y.server.log[a].Said?
    ensures HonestName(y.server.log[a].name)
  {
    hide HonestName, Past, Bodies, Others, Ids, Plumbed, ServerInv;
    var e := y.server.log[a];
    RoomOrder.EventPlace(y.server.log, e.id, a);
    var place := |EventsOf(y.server.log[..a], e.id)|;
    assert e.id in Ids(y.server);
    var c := RoomOrder.RecordOf(y.server, e.id);
    assert RecordFor(y, e.id, c);
    RecordFacts(host, y, e.id, c);
    ParsedPrefix(host, y, e.id, c);
    NameInStory(host, y.server.log, c, place);
    assert c.parsed[0] == y.clients[e.id].client.conn.queued[0];
  }

  lemma NameInStory(host: Text, log: seq<Event>, c: Conn, k: nat)
    requires Past(host, log, c) && k < |EventsOf(log, c.peer)| && EventsOf(log, c.peer)[k].Said?
    ensures EventsOf(log, c.peer)[k].name == c.name
    ensures c.parsed != [] && c.parsed[0] == Message(CLIENT_HELLO, c.name)
  {
    hide EventsOf, Bodies, Others, OutputKept, InputKept, Blamed;
  }
}
