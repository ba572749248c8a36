/** The chat client as functions on values: connect, introduce itself, chat, receive, quit. */
module ClientSpec {
  import opened Frames
  import opened Options
  import opened Connections
  import opened Interest
  import opened Room

  /** `screen` is history: the lines printed for BROADCAST frames. */
  datatype Client = Client(name: Text, conn: Conn, entries: seq<Entry>, quitting: bool, screen: seq<Text>)

  datatype ClientStep = ClientStep(client: Client, ok: bool)

  /** `connected` is what getsockopt says about a pending connect. */
  datatype ClientEnv = ClientEnv(connected: bool, recvs: seq<RecvResult>, sends: seq<SendResult>, line: Option<Text>)

  /** Initial interest in the socket: writable while connecting or with something to send. */
  function SocketEvents(c: Conn): Events {
    if c.state == CONNECTING || c.state == SENDING_CLIENT_HELLO || c.outBuffer != [] then IN_OUT_RDHUP
    else IN_RDHUP
  }

  /** From client_connect_to_server's result to the top of the event loop. */
  function Start(name: Text, fd: int, peer: nat, immediate: bool): ClientStep {
    var c := NewConn(fd, if immediate then SENDING_CLIENT_HELLO else CONNECTING, peer);
    var client := Client(name, c, [Entry(fd, SocketEvents(c)), Entry(STDIN_FD, IN)], false, []);
    if immediate then QueueHello(client) else ClientStep(client, true)
  }

  function Modify(c: Client, events: Events): ClientStep {
    var r := Ctl(c.entries, Mod, c.conn.fd, events);
    ClientStep(c.(entries := r.entries), r.ok)
  }

  /** queue_client_hello and the epoll_fd_mod that follows it. */
  function QueueHello(c: Client): ClientStep {
    var q := QueueMessage(c.conn, Message(CLIENT_HELLO, c.name));
    if !q.ok then ClientStep(c.(conn := q.conn), false) else Modify(c.(conn := q.conn), OUT_RDHUP)
  }

  function HandleConnect(c: Client, connected: bool): ClientStep {
    if !connected then ClientStep(c.(conn := Failed(c.conn, SocketError)), false)
    else QueueHello(c.(conn := c.conn.(state := SENDING_CLIENT_HELLO)))
  }

  function HandleSend(c: Client, sends: seq<SendResult>): ClientStep {
    var f := Flush(c.conn, sends);
    var d := c.(conn := f.conn);
    if !f.ok then ClientStep(d, false)
    else if f.conn.outBuffer != [] then ClientStep(d, true)
    else if c.quitting then ClientStep(d, false)
    else if f.conn.state == SENDING_CLIENT_HELLO then
      Modify(c.(conn := f.conn.(state := WAITING_FOR_SERVER_HELLO)), IN_RDHUP)
    else Modify(d, IN_RDHUP)
  }

  function HandleRead(c: Client, recvs: seq<RecvResult>): ClientStep {
    var read := ReadIntoInBuffer(c.conn, recvs);
    var d := c.(conn := read.conn);
    if !read.ok then ClientStep(d, false) else Drain(d)
  }

  function Drain(c: Client): ClientStep
    decreases |c.conn.inBuffer|
  {
    var (d, m) := ParseMessage(c.conn);
    var c1 := c.(conn := d);
    if d.state == CONNECTION_ERROR then ClientStep(c1, false)
    else if m.None? then ClientStep(c1, d.state != CLOSED)
    else
      var r := HandleMessage(c1, m.value);
      if r.ok then Drain(r.client) else r
  }

  function Reject(c: Client, fault: Fault): ClientStep {
    ClientStep(c.(conn := Failed(c.conn, fault)), false)
  }

  /** handle_network_message. */
  function HandleMessage(c: Client, m: Message): (r: ClientStep)
    ensures r.client.conn.inBuffer == c.conn.inBuffer
  {
    match c.conn.state
    case WAITING_FOR_SERVER_HELLO =>
      if m.kind != SERVER_HELLO then Reject(c, WrongMessage)
      else ClientStep(c.(conn := c.conn.(name := m.payload, state := ACTIVE)), true)
    case ACTIVE =>
      if m.kind == CLOSE_CON then
        if m.payload != [] then Reject(c, WrongMessage)
        else ClientStep(c.(conn := c.conn.(state := CLOSED)), false)
      else if m.kind != BROADCAST then Reject(c, WrongMessage)
      else ClientStep(c.(screen := c.screen + [m.payload]), true)
    case _ => Reject(c, LateMessage)
  }

  predicate Established(state: ConnState) {
    state != CLOSED && state != CONNECTION_ERROR && state != CONNECTING
  }

  function HandleStdin(c: Client, line: Option<Text>): ClientStep {
    if line.None? then ClientStep(c, false)
    else if line.value == [] then ClientStep(c, true)
    else if line.value == QuitCommand() then
      if !Established(c.conn.state) then ClientStep(c, false) else Quit(c)
    else if c.conn.state != ACTIVE then ClientStep(c, true)
    else if |line.value| > MAX_PAYLOAD_SIZE then ClientStep(c, true)
    else
      var q := QueueMessage(c.conn, Message(CHAT, line.value));
      if !q.ok then ClientStep(c.(conn := q.conn), false) else Modify(c.(conn := q.conn), IN_OUT_RDHUP)
  }

  /** handle_quit_command. */
  function Quit(c: Client): ClientStep {
    var q := QueueMessage(c.conn, CLOSE_FRAME);
    if !q.ok then ClientStep(c.(conn := q.conn), false)
    else Modify(c.(conn := q.conn, quitting := true), OUT_RDHUP)
  }

  predicate IsConnect(c: Client, r: Ready) {
    && r.fd == c.conn.fd && c.conn.state == CONNECTING
    && (r.events.input || r.events.output || r.events.error || r.events.hup)
  }

  predicate IsSend(c: Client, r: Ready) {
    && r.fd == c.conn.fd
    && (c.quitting || c.conn.state == SENDING_CLIENT_HELLO || c.conn.state == ACTIVE)
    && c.conn.outBuffer != []
    && r.events.output
  }

  predicate IsRead(c: Client, r: Ready) {
    && !c.quitting && r.fd == c.conn.fd
    && (c.conn.state == WAITING_FOR_SERVER_HELLO || c.conn.state == ACTIVE)
    && Readable(r.events)
  }

  function Dispatch(c: Client, r: Ready, env: ClientEnv): ClientStep {
    if c.quitting && !IsSend(c, r) then ClientStep(c, true)
    else if IsConnect(c, r) then HandleConnect(c, env.connected)
    else if IsSend(c, r) then HandleSend(c, env.sends)
    else if IsRead(c, r) then HandleRead(c, env.recvs)
    else if !c.quitting && r.fd == STDIN_FD && r.events.input then HandleStdin(c, env.line)
    else ClientStep(c, true)
  }
}
