/** What every client keeps: the shape of what it queues, of what it accepts, what is on its
    screen, and its interest in writing. */
module ClientInvariant {
  import opened Frames
  import opened Options
  import opened Connections
  import opened Interest
  import opened Room
  import opened ClientSpec

  /** What a client has queued: nothing, or its hello, chats, and a CLOSE_CON at the end exactly
      if it is quitting. */
  predicate Queue(name: Text, ms: seq<Message>, quitting: bool) {
    && (quitting ==> |ms| >= 2 && ms[|ms| - 1] == CLOSE_FRAME)
    && (ms != [] ==> ms[0] == Message(CLIENT_HELLO, name))
    && forall k | 1 <= k < |ms| - (if quitting then 1 else 0) :: ms[k].kind == CHAT
  }

  /** What a client accepts: SERVER_HELLO, BROADCASTs, a proper CLOSE_CON. */
  predicate Accepts(ms: seq<Message>) {
    ms != [] ==>
      && ms[0].kind == SERVER_HELLO
      && forall k | 1 <= k < |ms| :: ms[k].kind == BROADCAST || ms[k] == CLOSE_FRAME
  }

  /** Blame for CONNECTION_ERROR is real. */
  ghost predicate Blamed(c: Conn) {
    && (c.fault == OversizedFrame ==> ParseFrame(c.inBuffer).Oversized?)
    && (c.fault == WrongMessage ==> !Accepts(c.parsed))
  }

  /** Whatever has happened to the client. */
  ghost predicate ClientPast(c: Client) {
    && OutputKept(c.conn) && InputKept(c.conn) && Blamed(c.conn)
    && Queue(c.name, c.conn.queued, c.quitting)
    && c.screen <= Bodies(c.conn.parsed, BROADCAST)
  }

  /** What the client waits for on its socket: writing exactly while there is something to send,
      and reading unless it is introducing itself or quitting. */
  function Wanted(c: Client): Events {
    if c.conn.state == CONNECTING then IN_OUT_RDHUP
    else if c.conn.outBuffer == [] then IN_RDHUP
    else if c.quitting || c.conn.state == SENDING_CLIENT_HELLO then OUT_RDHUP
    else IN_OUT_RDHUP
  }

  /** The interest list is the socket, with exactly the events wanted, and stdin. */
  predicate Watching(c: Client) {
    c.conn.fd != STDIN_FD && c.entries == [Entry(c.conn.fd, Wanted(c)), Entry(STDIN_FD, IN)]
  }

  /** While the loop is running. */
  ghost predicate ClientInv(c: Client) {
    && ClientPast(c)
    && Watching(c)
    && c.conn.fault == NoFault
    && c.screen == Bodies(c.conn.parsed, BROADCAST)
    && (c.conn.queued == [] <==> c.conn.state == CONNECTING)
    && match c.conn.state
       case CONNECTING => c.conn.parsed == [] && c.conn.outBuffer == [] && !c.quitting
       case SENDING_CLIENT_HELLO => c.conn.parsed == []
       case WAITING_FOR_SERVER_HELLO => c.conn.parsed == [] && (c.quitting || c.conn.outBuffer == [])
       case ACTIVE => Running(c.conn.parsed)
       case _ => false
  }

  predicate Running(ms: seq<Message>) {
    ms != [] && ms[0].kind == SERVER_HELLO && forall k | 1 <= k < |ms| :: ms[k].kind == BROADCAST
  }

  ghost predicate Kept(r: ClientStep) {
    if r.ok then ClientInv(r.client) else ClientPast(r.client)
  }

  // ---------- Queueing ----------

  predicate Registered(c: Client) {
    && |c.entries| == 2 && c.entries[0].fd == c.conn.fd && c.entries[1] == Entry(STDIN_FD, IN)
    && c.conn.fd != STDIN_FD
  }

  lemma ArmKeeps(c: Client, events: Events)
    requires Registered(c)
    ensures var r := Modify(c, events);
            r.ok && r.client == c.(entries := [Entry(c.conn.fd, events), c.entries[1]])
  {
    assert Find(c.entries, c.conn.fd) == 0;
  }

  lemma LongerOut(c: Conn, m: Message)
    requires OutputKept(c) && Legal(m)
    ensures var d := QueueMessage(c, m).conn;
            OutputKept(d) && d.outBuffer != []
  {
    hide EncodeAll;
    QueueKeeps(c, m);
    assert |Encode(m)| > 0;
  }

  lemma HelloKeeps(c: Client)
    requires ClientPast(c) && c.conn.fault == NoFault && c.conn.state == SENDING_CLIENT_HELLO
    requires Registered(c)
    requires c.conn.queued == [] && c.conn.parsed == [] && c.screen == [] && !c.quitting
    ensures Kept(QueueHello(c))
  {
    hide OutputKept, Encode, EncodeAll, ParseFrame, Ctl, Legal;
    var m := Message(CLIENT_HELLO, c.name);
    var q := QueueMessage(c.conn, m);
    QueueKeeps(c.conn, m);
    assert Bodies([], BROADCAST) == [];
    if q.ok {
      LongerOut(c.conn, m);
      ArmKeeps(c.(conn := q.conn), OUT_RDHUP);
    }
  }

  lemma QueueHelloFrame(c: Client)
    ensures var d := QueueHello(c).client;
            d.name == c.name && d.conn.received == c.conn.received && d.conn.peer == c.conn.peer
  {
  }

  lemma StartKeeps(name: Text, fd: int, peer: nat, immediate: bool)
    requires fd != STDIN_FD
    ensures Kept(Start(name, fd, peer, immediate))
    ensures Start(name, fd, peer, immediate).client.name == name
    ensures Start(name, fd, peer, immediate).client.conn.received == []
  {
    hide QueueHello;
    var c := NewConn(fd, if immediate then SENDING_CLIENT_HELLO else CONNECTING, peer);
    var client := Client(name, c, [Entry(fd, SocketEvents(c)), Entry(STDIN_FD, IN)], false, []);
    assert Bodies([], BROADCAST) == [];
    if immediate {
      HelloKeeps(client);
      QueueHelloFrame(client);
    }
  }

  lemma ConnectKeeps(c: Client, connected: bool)
    requires ClientInv(c) && c.conn.state == CONNECTING
    ensures Kept(HandleConnect(c, connected))
  {
    hide QueueHello, ParseFrame, EncodeAll;
    assert Bodies([], BROADCAST) == [];
    if connected {
      var d := c.(conn := c.conn.(state := SENDING_CLIENT_HELLO));
      assert OutputKept(d.conn) && InputKept(d.conn);
      HelloKeeps(d);
    }
  }

  lemma StdinKeeps(c: Client, line: Option<Text>)
    requires ClientInv(c) && !c.quitting
    ensures Kept(HandleStdin(c, line))
  {
    hide OutputKept, InputKept, QueueMessage, ParseFrame, Bodies, QuitCommand;
    if line.Some? && line.value != [] {
      if line.value == QuitCommand() {
        if Established(c.conn.state) {
          AppendKeeps(c, CLOSE_FRAME, true, OUT_RDHUP);
        }
      } else if c.conn.state == ACTIVE && |line.value| <= MAX_PAYLOAD_SIZE {
        AppendKeeps(c, Message(CHAT, line.value), false, IN_OUT_RDHUP);
      }
    }
  }

  lemma AppendKeeps(c: Client, m: Message, quitting: bool, events: Events)
    requires ClientInv(c) && !c.quitting && c.conn.state != CONNECTING && Legal(m)
    requires if quitting then m == CLOSE_FRAME else m.kind == CHAT
    requires events == if quitting then OUT_RDHUP else IN_OUT_RDHUP
    requires quitting || c.conn.state == ACTIVE
    ensures var q := QueueMessage(c.conn, m);
            q.ok && Kept(Modify(c.(conn := q.conn, quitting := quitting), events))
  {
    hide OutputKept, EncodeAll, Encode, ParseFrame, Bodies, Ctl;
    var q := QueueMessage(c.conn, m);
    LongerOut(c.conn, m);
    ArmKeeps(c.(conn := q.conn, quitting := quitting), events);
  }

  lemma SendKeeps(c: Client, sends: seq<SendResult>)
    requires ClientInv(c) && c.conn.outBuffer != []
    requires c.quitting || c.conn.state == SENDING_CLIENT_HELLO || c.conn.state == ACTIVE
    ensures Kept(HandleSend(c, sends))
  {
    hide Flush, EncodeAll, ParseFrame, Bodies, Ctl;
    var f := Flush(c.conn, sends);
    FlushKeeps(c.conn, sends);
    FlushKeepsOutput(c.conn, sends);
    assert InputKept(f.conn);
    if f.ok && f.conn.outBuffer == [] && !c.quitting {
      var d := if f.conn.state == SENDING_CLIENT_HELLO then f.conn.(state := WAITING_FOR_SERVER_HELLO) else f.conn;
      ArmKeeps(c.(conn := d), IN_RDHUP);
      assert OutputKept(d) && InputKept(d);
    }
  }

  // ---------- Reading ----------

  /** A client in its parse loop: everything but the state, which EOF may have overwritten. */
  ghost predicate Reading(c: Client) {
    && ClientPast(c) && Registered(c) && c.conn.fault == NoFault && !c.quitting
    && c.entries[0].events == (if c.conn.outBuffer == [] then IN_RDHUP else IN_OUT_RDHUP)
    && c.screen == Bodies(c.conn.parsed, BROADCAST)
    && c.conn.queued != []
    && match c.conn.state
       case WAITING_FOR_SERVER_HELLO => c.conn.parsed == [] && c.conn.outBuffer == []
       case ACTIVE => Running(c.conn.parsed)
       case CLOSED => c.conn.parsed == [] || Running(c.conn.parsed)
       case _ => false
  }

  lemma ParsedKeeps(c: Client)
    requires Reading(c)
    ensures var (d, m) := ParseMessage(c.conn);
            && OutputKept(d) && InputKept(d)
            && (m.Some? ==> c.screen == Bodies(c.conn.parsed, BROADCAST)
                            && d.parsed == c.conn.parsed + [m.value]
                            && Bodies(d.parsed, BROADCAST)
                               == c.screen + if m.value.kind == BROADCAST then [m.value.payload] else [])
  {
    hide EncodeAll, ParseFrame, Bodies, Encode;
    var (d, m) := ParseMessage(c.conn);
    ParseKeeps(c.conn);
    if m.Some? {
      BodiesSnoc(c.conn.parsed, m.value, BROADCAST);
    }
    assert OutputKept(d);
  }

  lemma MessageKeeps(c: Client)
    requires Reading(c)
    ensures var (d, m) := ParseMessage(c.conn);
            m.Some? ==>
              var r := HandleMessage(c.(conn := d), m.value);
              if r.ok then Reading(r.client) && r.client.conn.state == ACTIVE else ClientPast(r.client)
  {
    hide OutputKept, InputKept, ParseFrame, Bodies;
    var (d, m) := ParseMessage(c.conn);
    ParsedKeeps(c);
    if m.Some? {
      var r := HandleMessage(c.(conn := d), m.value);
      SameBuffers(d, r.client.conn);
      assert d.parsed[|c.conn.parsed|] == m.value;
    }
  }

  lemma {:induction false} DrainKeeps(c: Client)
    requires Reading(c)
    ensures Kept(Drain(c))
    decreases |c.conn.inBuffer|
  {
    hide Reading, ClientPast, ClientInv, ParseFrame, HandleMessage;
    var (d, m) := ParseMessage(c.conn);
    if m.None? {
      UnparsedKeeps(c);
    } else {
      MessageKeeps(c);
      var r := HandleMessage(c.(conn := d), m.value);
      assert d.state != CONNECTION_ERROR by { ReadingState(c); }
      if r.ok {
        DrainKeeps(r.client);
      }
    }
  }

  lemma ReadingState(c: Client)
    requires Reading(c)
    ensures c.conn.state != CONNECTION_ERROR
  {
  }

  lemma UnparsedKeeps(c: Client)
    requires Reading(c) && ParseMessage(c.conn).1.None?
    ensures Kept(Drain(c))
  {
    hide EncodeAll, ParseFrame, Bodies;
    ParsedKeeps(c);
  }

  lemma ReadKeeps(c: Client, recvs: seq<RecvResult>)
    requires ClientInv(c) && !c.quitting && c.conn.state in {WAITING_FOR_SERVER_HELLO, ACTIVE}
    ensures Kept(HandleRead(c, recvs))
  {
    hide ReadIntoInBuffer, EncodeAll, ParseFrame, Bodies, Drain;
    ReadExact(c.conn, recvs);
    ReadKeepsInput(c.conn, recvs);
    var read := ReadIntoInBuffer(c.conn, recvs);
    assert OutputKept(read.conn);
    if read.ok {
      DrainKeeps(c.(conn := read.conn));
    }
  }

  /** Every event keeps the client invariant while the loop runs, for any bytes received. */
  lemma DispatchKeeps(c: Client, r: Ready, env: ClientEnv)
    requires ClientInv(c)
    ensures Kept(Dispatch(c, r, env))
  {
    hide ClientPast, HandleConnect, HandleSend, HandleRead, HandleStdin, Running, Watching;
    assert ClientPast(c);
    if IsConnect(c, r) {
      ConnectKeeps(c, env.connected);
    }
    if IsSend(c, r) {
      SendKeeps(c, env.sends);
    }
    if IsRead(c, r) {
      ReadKeeps(c, env.recvs);
    }
    if !c.quitting {
      StdinKeeps(c, env.line);
    }
  }
}
