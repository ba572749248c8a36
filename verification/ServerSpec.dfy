/** The chat server as functions on values: every handler of the event loop, one batch of events,
    the loop and its cleanup. Kernel answers are parameters. Class ChatServer is proved equal to
    these functions; what the server promises is proved about them. */
module ServerSpec {
  import opened Frames
  import opened Options
  import opened Connections
  import opened Interest
  import opened Room

  const MAX_EPOLL_EVENTS := 16

  /** Descriptors entering and leaving the process, in order (history). */
  datatype FdCall = Opened(fd: int) | Closed(fd: int)

  /** `log`, `retired` and `calls` are history: the room log, the records of the connections
      that are gone, and the descriptor calls. */
  datatype Server = Server(
    name: Text,
    listenFd: int,
    closing: bool,
    conns: seq<Conn>,
    entries: seq<Entry>,
    log: seq<Event>,
    retired: seq<Conn>,
    calls: seq<FdCall>)

  /** The server after a handler, and what the handler returned: false stops the loop. */
  datatype Step = Step(server: Server, ok: bool)

  /** `peer` names the TCP connection that was accepted. */
  datatype AcceptResult = Accepted(fd: int, peer: nat) | AcceptFailed(errno: Errno)

  /** The kernel's answers while one event is handled; `line` is what getline yields. */
  datatype Env = Env(accepts: seq<AcceptResult>, recvs: seq<RecvResult>, sends: seq<SendResult>, line: Option<Text>)

  function Init(name: Text, listenFd: int): Server {
    Server(name, listenFd, false, [], [Entry(listenFd, IN), Entry(STDIN_FD, IN)], [], [], [Opened(listenFd)])
  }

  /** Index of the first listed connection with this fd, or the number of connections. */
  function Lookup(conns: seq<Conn>, fd: int): (i: nat)
    ensures i <= |conns|
    ensures i < |conns| ==> conns[i].fd == fd
    ensures forall j | 0 <= j < i :: conns[j].fd != fd
  {
    if conns == [] || conns[0].fd == fd then 0
    else
      var i := Lookup(conns[1..], fd);
      assert forall j | 1 <= j < i + 1 :: conns[j] == conns[1..][j - 1];
      i + 1
  }

  function Put(s: Server, i: nat, c: Conn): Server
    requires i < |s.conns|
  {
    s.(conns := s.conns[i := c])
  }

  function Remove(s: Server, i: nat): Server
    requires i < |s.conns|
  {
    var c := s.conns[i];
    s.(entries := Ctl(s.entries, Del, c.fd, NO_EVENTS).entries,
       conns := s.conns[..i] + s.conns[i + 1..],
       retired := s.retired + [c],
       calls := s.calls + [Closed(c.fd)])
  }

  // ---------- Broadcast ----------

  predicate Recipient(c: Conn, e: Event) {
    c.state == ACTIVE && Author(e) != Some(c.peer)
  }

  function FirstRecipient(conns: seq<Conn>, e: Event): (k: nat)
    ensures k <= |conns|
    ensures k < |conns| ==> Recipient(conns[k], e)
    ensures forall j | 0 <= j < k :: !Recipient(conns[j], e)
  {
    if conns == [] || Recipient(conns[0], e) then 0
    else
      var k := FirstRecipient(conns[1..], e);
      assert forall j | 1 <= j < k + 1 :: conns[j] == conns[1..][j - 1];
      k + 1
  }

  function RecipientFds(conns: seq<Conn>, e: Event): set<int> {
    set j | 0 <= j < |conns| && Recipient(conns[j], e) :: conns[j].fd
  }

  function Arm(entries: seq<Entry>, fds: set<int>, events: Events): (after: seq<Entry>)
    ensures |after| == |entries|
  {
    seq(|entries|, k requires 0 <= k < |entries| =>
      if entries[k].fd in fds then Entry(entries[k].fd, events) else entries[k])
  }

  function QueueToRecipients(conns: seq<Conn>, e: Event, m: Message): (after: seq<Conn>)
    ensures |after| == |conns|
  {
    seq(|conns|, j requires 0 <= j < |conns| =>
      if Recipient(conns[j], e) then QueueMessage(conns[j], m).conn else conns[j])
  }

  /** broadcast_message_to_other_clients of the event's frame. */
  function Deliver(s: Server, e: Event): Step {
    var m := Render(s.name, e);
    var k := FirstRecipient(s.conns, e);
    if k < |s.conns| && !Legal(m) then
      Step(Put(s, k, Failed(s.conns[k], OversizedQueue)), false)
    else
      Step(s.(conns := QueueToRecipients(s.conns, e, m),
              entries := Arm(s.entries, RecipientFds(s.conns, e), IN_OUT_RDHUP),
              log := s.log + [e]),
           true)
  }

  // ---------- Handlers ----------

  function AcceptOne(s: Server, fd: int, peer: nat): Step {
    var c := NewConn(fd, WAITING_FOR_CLIENT_HELLO, peer);
    var r := Ctl(s.entries, Add, fd, IN_RDHUP);
    if r.ok then
      Step(s.(conns := s.conns + [c], entries := r.entries, calls := s.calls + [Opened(fd)]), true)
    else
      Step(s.(retired := s.retired + [c], calls := s.calls + [Opened(fd), Closed(fd)]), false)
  }

  function HandleAccept(s: Server, accepts: seq<AcceptResult>): Step
    decreases |accepts|
  {
    if accepts == [] then Step(s, true)
    else match accepts[0]
      case AcceptFailed(e) => Step(s, e != EOTHER)
      case Accepted(fd, peer) =>
        var r := AcceptOne(s, fd, peer);
        if r.ok then HandleAccept(r.server, accepts[1..]) else r
  }

  function Hello(host: Text): Message {
    Message(SERVER_HELLO, host)
  }

  function HandleHello(s: Server, fd: int, recvs: seq<RecvResult>): Step {
    var i := Lookup(s.conns, fd);
    if i == |s.conns| then Step(s, false)
    else
      var read := ReadIntoInBuffer(s.conns[i], recvs);
      if !read.ok then Step(Remove(Put(s, i, read.conn), i), true)
      else
        var (c, m) := ParseMessage(read.conn);
        HelloParsed(Put(s, i, c), i, m)
  }

  /** The hello handler after its one attempt to parse. */
  function HelloParsed(s: Server, i: nat, m: Option<Message>): Step
    requires i < |s.conns|
  {
    var c := s.conns[i];
    if c.state == CONNECTION_ERROR then Step(Remove(s, i), true)
    else if m.None? then
      if c.state == CLOSED then Step(Remove(s, i), true) else Step(s, true)
    else if m.value.kind != CLIENT_HELLO || m.value.payload == [] then
      Step(Remove(Put(s, i, Failed(c, WrongMessage)), i), true)
    else
      var q := QueueMessage(c.(name := m.value.payload), Hello(s.name));
      if !q.ok then Step(Put(s, i, q.conn), false)
      else
        var r := Ctl(s.entries, Mod, c.fd, IN_OUT_RDHUP);
        Step(Put(s, i, q.conn.(state := SENDING_SERVER_HELLO)).(entries := r.entries), r.ok)
  }

  function HandleSend(s: Server, fd: int, sends: seq<SendResult>): Step {
    var i := Lookup(s.conns, fd);
    if i == |s.conns| then Step(s, false)
    else
      var f := Flush(s.conns[i], sends);
      var s1 := Put(s, i, f.conn);
      if !f.ok then Step(s1, false)
      else if f.conn.outBuffer != [] then Step(s1, true)
      else if f.conn.state == SENDING_SERVER_HELLO then Admit(s1, i)
      else
        var r := Ctl(s.entries, Mod, fd, IN_RDHUP);
        Step(s1.(entries := r.entries), r.ok)
  }

  /** The SERVER_HELLO is out: the connection becomes ACTIVE and its join is announced. */
  function Admit(s: Server, i: nat): Step
    requires i < |s.conns|
  {
    var c := s.conns[i].(state := ACTIVE);
    var r := Deliver(Put(s, i, c), Joined(c.peer, c.name));
    if !r.ok then r
    else Step(Put(r.server, i, r.server.conns[i].(joinedAt := Some(|s.log|))), true)
  }

  function HandleRead(s: Server, fd: int, recvs: seq<RecvResult>): Step {
    var i := Lookup(s.conns, fd);
    if i == |s.conns| then Step(s, false)
    else
      var read := ReadIntoInBuffer(s.conns[i], recvs);
      var s1 := Put(s, i, read.conn);
      if !read.ok then Step(Remove(s1, i), true) else Drain(s1, i)
  }

  /** The parse-until-none loop of the read handler. */
  function Drain(s: Server, i: nat): Step
    requires i < |s.conns|
    decreases |s.conns[i].inBuffer|
  {
    var (c, m) := ParseMessage(s.conns[i]);
    var s1 := Put(s, i, c);
    if c.state == CONNECTION_ERROR then Step(Remove(s1, i), true)
    else if m.None? then
      if c.state == CLOSED then Leave(s1, i) else Step(s1, true)
    else if m.value.kind == CLOSE_CON && m.value.payload == [] then Leave(s1, i)
    else if m.value.kind != CHAT then Step(Remove(Put(s, i, Failed(c, WrongMessage)), i), true)
    else
      var r := Deliver(s1, Said(c.peer, c.name, m.value.payload));
      if !r.ok then r else Drain(r.server, i)
  }

  /** Announce the disconnection, then remove. */
  function Leave(s: Server, i: nat): Step
    requires i < |s.conns|
  {
    var c := s.conns[i];
    var r := Deliver(s, Left(c.peer, c.name));
    if r.ok then Step(Remove(r.server, i), true) else r
  }

  function QueueCloseToActive(conns: seq<Conn>): (after: seq<Conn>)
    ensures |after| == |conns|
  {
    seq(|conns|, j requires 0 <= j < |conns| =>
      if conns[j].state == ACTIVE then QueueMessage(conns[j], CLOSE_FRAME).conn else conns[j])
  }

  function ActiveFds(conns: seq<Conn>): set<int> {
    set j | 0 <= j < |conns| && conns[j].state == ACTIVE :: conns[j].fd
  }

  function QueueClose(s: Server): Server {
    s.(conns := QueueCloseToActive(s.conns), entries := Arm(s.entries, ActiveFds(s.conns), OUT_RDHUP))
  }

  predicate AllEmpty(conns: seq<Conn>) {
    forall j | 0 <= j < |conns| :: conns[j].outBuffer == []
  }

  function HandleStdin(s: Server, line: Option<Text>): Step {
    if line.None? then Step(s, false)
    else if line.value == [] then Step(s, true)
    else if line.value == QuitCommand() then
      var r := Deliver(s.(closing := true), RoomClosing);
      if !r.ok then r else Step(QueueClose(r.server), !AllEmpty(QueueClose(r.server).conns))
    else if |line.value| > MAX_PAYLOAD_SIZE then Step(s, true)
    else Deliver(s, HostSaid(line.value))
  }

  // ---------- Dispatch ----------

  predicate IsSend(s: Server, r: Ready) {
    var i := Lookup(s.conns, r.fd);
    && i < |s.conns|
    && (s.conns[i].state == SENDING_SERVER_HELLO || s.conns[i].state == ACTIVE)
    && s.conns[i].outBuffer != []
    && r.events.output
  }

  predicate InState(s: Server, fd: int, state: ConnState) {
    var i := Lookup(s.conns, fd);
    i < |s.conns| && s.conns[i].state == state
  }

  function Dispatch(s: Server, r: Ready, env: Env): Step {
    if s.closing && !IsSend(s, r) then Step(s, true)
    else if !s.closing && r.fd == s.listenFd && r.events.input then HandleAccept(s, env.accepts)
    else if !s.closing && InState(s, r.fd, WAITING_FOR_CLIENT_HELLO) && Readable(r.events) then
      HandleHello(s, r.fd, env.recvs)
    else if IsSend(s, r) then HandleSend(s, r.fd, env.sends)
    else if !s.closing && InState(s, r.fd, ACTIVE) && Readable(r.events) then
      HandleRead(s, r.fd, env.recvs)
    else if !s.closing && r.fd == STDIN_FD && r.events.input then HandleStdin(s, env.line)
    else Step(s, true)
  }

  const NO_ENV := Env([], [], [], None)

  function EnvAt(envs: seq<Env>, k: nat): Env {
    if k < |envs| then envs[k] else NO_ENV
  }

  /** The events of a batch from number k on, until a handler returns false. */
  function RunBatch(s: Server, batch: seq<Ready>, envs: seq<Env>, k: nat): Step
    decreases |batch| - k
  {
    if k >= |batch| then Step(s, true)
    else
      var r := Dispatch(s, batch[k], EnvAt(envs, k));
      if r.ok then RunBatch(r.server, batch, envs, k + 1) else r
  }

  /** One return of epoll_wait: a signal, a failure, or poll's answer and what follows it. */
  datatype Wakeup = Interrupted | WaitFailed | Woken(revents: seq<PollBits>, envs: seq<Env>)

  function HandleWakeup(s: Server, w: Wakeup): Step {
    match w
    case Interrupted => Step(s, true)
    case WaitFailed => Step(s, false)
    case Woken(revents, envs) =>
      var r := RunBatch(s, Wait(s.entries, revents, 0, MAX_EPOLL_EVENTS), envs, 0);
      Step(r.server, r.ok && !(r.server.closing && AllEmpty(r.server.conns)))
  }

  /** The event loop over a sequence of wakeups, until one of them stops it. */
  function EventLoop(s: Server, wakeups: seq<Wakeup>): Step
    decreases |wakeups|
  {
    if wakeups == [] then Step(s, true)
    else
      var r := HandleWakeup(s, wakeups[0]);
      if r.ok then EventLoop(r.server, wakeups[1..]) else r
  }

  function CloseCalls(conns: seq<Conn>): seq<FdCall> {
    if conns == [] then [] else [Closed(conns[0].fd)] + CloseCalls(conns[1..])
  }

  function Cleanup(s: Server): Server {
    s.(listenFd := -1,
       conns := [],
       retired := s.retired + s.conns,
       calls := s.calls + [Closed(s.listenFd)] + CloseCalls(s.conns))
  }
}
