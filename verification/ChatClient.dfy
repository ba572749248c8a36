/** The client as the program runs it, each handler proved equal to its function in ClientSpec. */
module ChatClientObject {
  import opened Frames
  import opened Options
  import opened Connections
  import opened Interest
  import opened Room
  import opened ClientSpec

  class ChatClient {
    const name: Text
    const conn: Connection
    const poll: PollInstance
    var quitting: bool
    ghost var screen: seq<Text>

    ghost function Model(): Client
      reads this, conn, poll
    {
      Client(name, conn.View(), poll.entries, quitting, screen)
    }

    /** The client once its socket is connecting or connected, up to the top of the loop. */
    constructor (name: Text, fd: int, ghost peer: nat, immediate: bool)
      requires fd != STDIN_FD
      ensures Model() == Start(name, fd, peer, immediate).client
      ensures fresh(conn) && fresh(poll)
    {
      this.name := name;
      quitting := false;
      screen := [];
      conn := new Connection(fd, if immediate then SENDING_CLIENT_HELLO else CONNECTING, peer);
      poll := new PollInstance();
      new;
      var added := poll.Control(Add, fd, SocketEvents(NewConn(fd, conn.state, 0)));
      added := poll.Control(Add, STDIN_FD, IN);
      assert poll.entries == [Entry(fd, SocketEvents(NewConn(fd, conn.state, peer))), Entry(STDIN_FD, IN)];
      if conn.state == SENDING_CLIENT_HELLO && conn.outBuffer == [] {
        var ok := QueueClientHello();
      }
    }

    /** queue_client_hello, then EPOLLOUT. */
    method QueueClientHello() returns (ok: bool)
      modifies conn, poll
      ensures ClientStep(Model(), ok) == QueueHello(old(Model()))
    {
      hide QueueMessage, Ctl;
      QueueIdentity(conn.View(), Message(CLIENT_HELLO, name));
      ok := conn.Queue(Message(CLIENT_HELLO, name));
      if !ok {
        return;
      }
      ok := poll.Control(Mod, conn.fd, OUT_RDHUP);
    }

    method HandleConnectEvent(connected: bool) returns (ok: bool)
      modifies conn, poll
      ensures ClientStep(Model(), ok) == HandleConnect(old(Model()), connected)
    {
      hide QueueHello;
      if !connected {
        conn.Fail(SocketError);
        return false;
      }
      conn.state := SENDING_CLIENT_HELLO;
      ok := QueueClientHello();
    }

    method HandleSendEvent(sends: seq<SendResult>) returns (ok: bool)
      modifies conn, poll
      ensures ClientStep(Model(), ok) == HandleSend(old(Model()), sends)
    {
      hide Flush, Ctl;
      FlushIdentity(conn.View(), sends);
      ok := conn.FlushOutBuffer(sends);
      if !ok {
        return false;
      }
      if conn.outBuffer != [] {
        return true;
      }
      if quitting {
        return false;
      }
      if conn.state == SENDING_CLIENT_HELLO {
        conn.state := WAITING_FOR_SERVER_HELLO;
      }
      ok := poll.Control(Mod, conn.fd, IN_RDHUP);
    }

    method HandleReadEvent(recvs: seq<RecvResult>) returns (ok: bool)
      modifies this`screen, conn
      ensures ClientStep(Model(), ok) == HandleRead(old(Model()), recvs)
    {
      hide ReadIntoInBuffer, Drain;
      ok := conn.ReadAvailable(recvs);
      if !ok {
        return false;
      }
      ok := HandleMessages();
    }

    /** The parse-until-none loop. */
    method HandleMessages() returns (ok: bool)
      modifies this`screen, conn
      ensures ClientStep(Model(), ok) == Drain(old(Model()))
    {
      hide ParseFrame, HandleMessage;
      while true
        invariant Drain(Model()) == Drain(old(Model()))
        decreases |conn.inBuffer|
      {
        ghost var before := Model();
        var message := conn.Parse();
        if conn.state == CONNECTION_ERROR {
          return false;
        }
        if message.None? {
          return conn.state != CLOSED;
        }
        ok := HandleNetworkMessage(message.value);
        if !ok {
          return false;
        }
      }
    }

    method HandleNetworkMessage(m: Message) returns (ok: bool)
      modifies this`screen, conn
      ensures ClientStep(Model(), ok) == HandleMessage(old(Model()), m)
      ensures conn.inBuffer == old(conn.inBuffer)
    {
      if conn.state == WAITING_FOR_SERVER_HELLO {
        if m.kind != SERVER_HELLO {
          conn.Fail(WrongMessage);
          return false;
        }
        conn.name := m.payload;
        conn.state := ACTIVE;
        return true;
      }
      if conn.state == ACTIVE {
        if m.kind == CLOSE_CON {
          if m.payload != [] {
            conn.Fail(WrongMessage);
            return false;
          }
          conn.state := CLOSED;
          return false;
        }
        if m.kind != BROADCAST {
          conn.Fail(WrongMessage);
          return false;
        }
        screen := screen + [m.payload];
        return true;
      }
      conn.Fail(LateMessage);
      return false;
    }

    method HandleStdinEvent(line: Option<Text>) returns (ok: bool)
      modifies this`quitting, conn, poll
      ensures ClientStep(Model(), ok) == HandleStdin(old(Model()), line)
    {
      hide QueueMessage, Ctl, QuitCommand;
      if line.None? {
        return false;
      }
      if line.value == [] {
        return true;
      }
      if line.value == QuitCommand() {
        if conn.state == CLOSED || conn.state == CONNECTION_ERROR || conn.state == CONNECTING {
          return false;
        }
        ok := HandleQuitCommand();
        return;
      }
      if conn.state != ACTIVE || |line.value| > MAX_PAYLOAD_SIZE {
        return true;
      }
      QueueIdentity(conn.View(), Message(CHAT, line.value));
      ok := conn.Queue(Message(CHAT, line.value));
      if !ok {
        return false;
      }
      ok := poll.Control(Mod, conn.fd, IN_OUT_RDHUP);
    }

    method HandleQuitCommand() returns (ok: bool)
      modifies this`quitting, conn, poll
      ensures ClientStep(Model(), ok) == Quit(old(Model()))
    {
      hide QueueMessage, Ctl;
      QueueIdentity(conn.View(), CLOSE_FRAME);
      ok := conn.Queue(CLOSE_FRAME);
      if !ok {
        return false;
      }
      quitting := true;
      ok := poll.Control(Mod, conn.fd, OUT_RDHUP);
    }

    /** One iteration of the loop over a batch. */
    method HandleEvent(r: Ready, env: ClientEnv) returns (ok: bool)
      modifies this`screen, this`quitting, conn, poll
      ensures ClientStep(Model(), ok) == Dispatch(old(Model()), r, env)
    {
      hide HandleConnect, HandleSend, HandleRead, HandleStdin;
      var isSend := && r.fd == conn.fd
                    && (quitting || conn.state == SENDING_CLIENT_HELLO || conn.state == ACTIVE)
                    && |conn.outBuffer| > 0
                    && r.events.output;
      if quitting && !isSend {
        return true;
      }
      if && r.fd == conn.fd && conn.state == CONNECTING
         && (r.events.input || r.events.output || r.events.error || r.events.hup) {
        ok := HandleConnectEvent(env.connected);
        return;
      }
      if isSend {
        ok := HandleSendEvent(env.sends);
        return;
      }
      if && !quitting && r.fd == conn.fd
         && (conn.state == WAITING_FOR_SERVER_HELLO || conn.state == ACTIVE)
         && Readable(r.events) {
        ok := HandleReadEvent(env.recvs);
        return;
      }
      if !quitting && r.fd == STDIN_FD && r.events.input {
        ok := HandleStdinEvent(env.line);
        return;
      }
      return true;
    }
  }
}
