/** Which handler an event reaches, in terms of descriptors, buffers, states and flags. */
module ServerDispatch {
  import opened Frames
  import opened Connections
  import opened Interest
  import opened Room
  import opened ServerSpec
  import opened ServerPlumbing
  import opened ServerRecords
  import opened ServerInvariant
  import opened ServerHandlers

  lemma StateBuffer(host: Text, log: seq<Event>, c: Conn)
    requires Good(host, log, c)
    ensures c.state in {WAITING_FOR_CLIENT_HELLO, SENDING_SERVER_HELLO, ACTIVE}
    ensures c.state == WAITING_FOR_CLIENT_HELLO ==> c.outBuffer == []
    ensures c.state == SENDING_SERVER_HELLO ==> c.outBuffer != []
  {
  }

  /** No connection is on the listening socket or on stdin. */
  lemma OwnFdsFree(s: Server)
    requires ServerInv(s)
    ensures Lookup(s.conns, s.listenFd) == |s.conns| && Lookup(s.conns, STDIN_FD) == |s.conns|
    ensures s.listenFd != STDIN_FD
  {
    hide Lookup;
    PlumbedFds(s);
    assert s.entries[0].fd != s.entries[1].fd;
  }

  lemma AtOwnFd(s: Server, k: nat)
    requires ServerInv(s) && k < |s.conns|
    ensures s.conns[k].fd != STDIN_FD && Lookup(s.conns, s.conns[k].fd) == k
  {
    hide Lookup;
    PlumbedFds(s);
  }

  /** Between events, every event goes where it should. On the listening socket and on stdin, input
      is handled until the room closes. On a connection, writability is used whenever there is
      anything to send, closing or not; otherwise input and hang-ups are used until the room closes,
      for a hello or for chat. Everything else is ignored. */
  lemma DispatchExact(s: Server, r: Ready, env: Env)
    requires ServerInv(s)
    ensures r.fd == s.listenFd ==>
              Dispatch(s, r, env)
              == if !s.closing && r.events.input then HandleAccept(s, env.accepts) else Step(s, true)
    ensures r.fd == STDIN_FD ==>
              Dispatch(s, r, env) == if !s.closing && r.events.input then HandleStdin(s, env.line) else Step(s, true)
    ensures forall k | 0 <= k < |s.conns| && s.conns[k].fd == r.fd :: OnConnection(s, k, r, env)
    ensures r.fd != s.listenFd && r.fd != STDIN_FD && r.fd !in Fds(s.conns) ==> Dispatch(s, r, env) == Step(s, true)
  {
    hide Rest, HandleAccept, HandleHello, HandleSend, HandleRead, HandleStdin, Lookup, OnConnection;
    OwnFdsFree(s);
    if k: nat :| k < |s.conns| && s.conns[k].fd == r.fd {
      forall j | 0 <= j < |s.conns| && s.conns[j].fd == r.fd
        ensures OnConnection(s, j, r, env)
      {
        ConnectionExact(s, j, r, env);
        AtOwnFd(s, j);
      }
    } else {
      assert Lookup(s.conns, r.fd) == |s.conns|;
    }
  }

  ghost predicate OnConnection(s: Server, k: nat, r: Ready, env: Env)
    requires k < |s.conns|
  {
    var c := s.conns[k];
    Dispatch(s, r, env) ==
      if c.outBuffer != [] && r.events.output then
        HandleSend(s, r.fd, env.sends)
      else if s.closing || !(r.events.input || r.events.rdhup || r.events.hup) then
        Step(s, true)
      else match c.state
        case WAITING_FOR_CLIENT_HELLO => HandleHello(s, r.fd, env.recvs)
        case ACTIVE => HandleRead(s, r.fd, env.recvs)
        case _ => Step(s, true)
  }

  lemma ConnectionExact(s: Server, k: nat, r: Ready, env: Env)
    requires ServerInv(s) && k < |s.conns| && s.conns[k].fd == r.fd
    ensures OnConnection(s, k, r, env)
  {
    hide Rest, HandleAccept, HandleHello, HandleSend, HandleRead, HandleStdin, Lookup;
    AtOwnFd(s, k);
    OwnFdsFree(s);
    InvAt(s, k);
    StateBuffer(s.name, s.log, s.conns[k]);
  }
}
