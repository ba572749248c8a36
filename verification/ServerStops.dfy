/** Exactly which events stop the server loop, and bounds under which no peer can stop it. */
module ServerStops {
  import opened Frames
  import opened Options
  import opened Connections
  import opened Interest
  import opened Room
  import opened ServerSpec
  import opened ServerPlumbing
  import opened ServerInvariant
  import opened ServerHandlers
  import opened ServerDispatch
  import opened ServerTheorems
  import opened ServerShutdown
  import opened ServerEvents

  const LONGEST_NAME := 65511

  /** Every chat in these frames can be relayed under this name. */
  predicate ChatsFit(name: Text, ms: seq<Message>) {
    forall k | 0 <= k < |ms| && ms[k].kind == CHAT :: |name| + |ms[k].payload| + 3 <= MAX_PAYLOAD_SIZE
  }

  lemma {:induction false} ReadEventsFit(host: Text, id: nat, name: Text, p: Parsed, closed: bool)
    requires |name| <= LONGEST_NAME && ChatsFit(name, p.messages)
    ensures AllFit(host, ReadEvents(id, name, p, closed))
    decreases |p.messages|
  {
    hide Render, AllFit;
    RenderedLength(host, Left(id, name));
    NothingFits(host);
    FitsCons(host, Left(id, name), []);
    assert [Left(id, name)] + [] == [Left(id, name)];
    if p.messages != [] && p.messages[0].kind == CHAT {
      var e := Said(id, name, p.messages[0].payload);
      RenderedLength(host, e);
      ReadEventsFit(host, id, name, p.(messages := p.messages[1..]), closed);
      FitsCons(host, e, ReadEvents(id, name, p.(messages := p.messages[1..]), closed));
    }
  }

  predicate Friendly(env: Env) {
    && NoHardError(env.sends)
    && forall k | 0 <= k < |env.accepts| :: env.accepts[k] != AcceptFailed(EOTHER)
  }

  /** The bounds under which nothing a peer sends can stop the loop. */
  predicate WithinBounds(s: Server, r: Ready, env: Env) {
    && |s.name| <= MAX_PAYLOAD_SIZE
    && forall k | 0 <= k < |s.conns| ::
         && |s.conns[k].name| <= LONGEST_NAME
         && (s.conns[k].fd == r.fd ==>
               ChatsFit(s.conns[k].name, ParseAll(s.conns[k].inBuffer + Arrived(env.recvs)).messages))
  }

  /** The accept loop ends with anything but a hard error. */
  predicate AcceptsEnd(accepts: seq<AcceptResult>)
    decreases |accepts|
  {
    accepts != [] ==>
      if accepts[0].Accepted? then AcceptsEnd(accepts[1..]) else accepts[0] != AcceptFailed(EOTHER)
  }

  /** What the host may type without stopping the loop: /quit while somebody is owed bytes, and any
      line that is ignored, that can be broadcast under the host's name, or that nobody hears. */
  predicate StdinGoesOn(s: Server, line: Option<Text>) {
    && line.Some?
    && if line.value == QuitCommand() then
         exists k :: 0 <= k < |s.conns| && Owed(s.conns[k])
       else
         || line.value == [] || |line.value| > MAX_PAYLOAD_SIZE
         || |s.name| + |line.value| + 3 <= MAX_PAYLOAD_SIZE
         || !Audience(s, NOBODY)
  }

  /** What an event on connection k may do without stopping the loop. A send must not fail hard, nor
      complete the greeting of someone whose name is too long to announce; a hello that must be
      answered needs a host's name that fits; and nobody may be due an event that is too large. */
  predicate ConnectionGoesOn(s: Server, k: nat, r: Ready, env: Env)
    requires k < |s.conns|
  {
    var c := s.conns[k];
    if c.outBuffer != [] && r.events.output then
      if Offered(env.sends) < |Unsent(c)| then !StopsHard(env.sends)
      else c.state == ACTIVE || |c.name| + 22 <= MAX_PAYLOAD_SIZE
    else if s.closing || !(r.events.input || r.events.rdhup || r.events.hup) || EndOf(env.recvs).AtError? then
      true
    else if c.state == WAITING_FOR_CLIENT_HELLO then
      !Introduces(c.inBuffer + Arrived(env.recvs)) || |s.name| <= MAX_PAYLOAD_SIZE
    else if c.state == ACTIVE then
      var p := ParseAll(c.inBuffer + Arrived(env.recvs));
      AllFit(s.name, ReadEvents(c.peer, c.name, p, EndOf(env.recvs).AtEof?)) || !Audience(s, k)
    else
      true
  }

  /** Exactly when the handler of an event lets the loop go on: a line of the host and an event on a
      connection as above, an accept event unless accept fails hard. */
  predicate GoesOn(s: Server, r: Ready, env: Env) {
    var i := Lookup(s.conns, r.fd);
    if r.fd == STDIN_FD then
      s.closing || !r.events.input || StdinGoesOn(s, env.line)
    else if i == |s.conns| then
      s.closing || r.fd != s.listenFd || !r.events.input || AcceptsEnd(env.accepts)
    else
      ConnectionGoesOn(s, i, r, env)
  }

  /** Whatever peers send, the host types and the kernel answers, the loop goes on exactly in those
      cases. */
  lemma GoesOnExactly(s: Server, r: Ready, env: Env)
    requires ServerInv(s) && LegalEnv(s, env)
    ensures Dispatch(s, r, env).ok <==> GoesOn(s, r, env)
  {
    hide Rest, Dispatch, HandleAccept, HandleStdin, LegalAccepts, Lookup, AcceptsEnd, StdinGoesOn;
    hide ConnectionGoesOn, OnConnection;
    DispatchExact(s, r, env);
    AcceptExact(s, env.accepts);
    StdinExact(s, env.line);
    OwnFdsFree(s);
    var i := Lookup(s.conns, r.fd);
    if i < |s.conns| {
      ConnectionGoes(s, i, r, env);
      AtOwnFd(s, i);
    } else {
      assert r.fd !in Fds(s.conns);
    }
  }

  lemma ConnectionGoes(s: Server, k: nat, r: Ready, env: Env)
    requires ServerInv(s) && k < |s.conns| && s.conns[k].fd == r.fd
    ensures Dispatch(s, r, env).ok <==> ConnectionGoesOn(s, k, r, env)
  {
    hide Rest, Dispatch, HandleHello, HandleSend, HandleRead, Lookup, Unsent, Offered, StopsHard;
    hide ParseAll, Introduces, Legal, Audience, AllFit, ReadEvents;
    AtOwnFd(s, k);
    ConnectionExact(s, k, r, env);
    InvAt(s, k);
    var c := s.conns[k];
    StateBuffer(s.name, s.log, c);
    match c.state
    case WAITING_FOR_CLIENT_HELLO => HelloExact(s, r.fd, env.recvs);
    case SENDING_SERVER_HELLO => SendExact(s, r.fd, env.sends);
    case ACTIVE =>
      SendExact(s, r.fd, env.sends);
      ReadOk(s, r.fd, env.recvs);
  }

  lemma StdinExact(s: Server, line: Option<Text>)
    requires ServerInv(s)
    ensures HandleStdin(s, line).ok <==> StdinGoesOn(s, line)
  {
    hide Rest, Render, QuitCommand, Owed;
    if line.Some? && line.value == QuitCommand() {
      QuitGoesOn(s);
    } else if line.Some? {
      RenderedLength(s.name, HostSaid(line.value));
      HostIsHeard(s, line.value);
    }
  }

  lemma ReadOk(s: Server, fd: int, recvs: seq<RecvResult>)
    requires ServerInv(s) && InState(s, fd, ACTIVE)
    ensures var i := Lookup(s.conns, fd);
            var c := s.conns[i];
            var p := ParseAll(c.inBuffer + Arrived(recvs));
            HandleRead(s, fd, recvs).ok
            <==> EndOf(recvs).AtError?
                 || AllFit(s.name, ReadEvents(c.peer, c.name, p, EndOf(recvs).AtEof?)) || !Audience(s, i)
  {
    hide Rest, Lookup, HandleRead, Audience, AllFit, ReadEvents, ParseAll, Handled, Stays;
    ReadRelays(s, fd, recvs);
    NothingFits(s.name);
  }

  lemma {:induction false} AcceptExact(s: Server, accepts: seq<AcceptResult>)
    requires ServerInv(s) && LegalAccepts(s, accepts)
    ensures HandleAccept(s, accepts).ok <==> AcceptsEnd(accepts)
    decreases |accepts|
  {
    hide Rest, AcceptOne, LegalAccept;
    if accepts != [] && accepts[0].Accepted? {
      AcceptOneKeeps(s, accepts[0].fd, accepts[0].peer);
      AcceptExact(AcceptOne(s, accepts[0].fd, accepts[0].peer).server, accepts[1..]);
    }
  }

  /** The send handler fails exactly if the kernel reports a hard error before it has room for
      everything, or if it has sent the last of a SERVER_HELLO to a connection whose name is too
      long to announce. */
  lemma SendExact(s: Server, fd: int, sends: seq<SendResult>)
    requires ServerInv(s) && (InState(s, fd, SENDING_SERVER_HELLO) || InState(s, fd, ACTIVE))
    ensures var c := s.conns[Lookup(s.conns, fd)];
            HandleSend(s, fd, sends).ok
            <==> if c.outBuffer != [] && Offered(sends) < |Unsent(c)| then !StopsHard(sends)
                 else c.state == ACTIVE || |c.name| + 22 <= MAX_PAYLOAD_SIZE
  {
    hide Lookup, Rest, Flush, Wired, Render, Ctl, Admit, Offered, StopsHard;
    var i := Lookup(s.conns, fd);
    RestWired(s, NOBODY);
    InvAt(s, i);
    var c := s.conns[i];
    assert OutputKept(c) by { GoodOutput(s.name, s.log, c); }
    FlushExact(c, sends);
    FlushKeeps(c, sends);
    ModWorks(s, i, IN_RDHUP);
    AdmitExact(Put(s, i, Flush(c, sends).conn), i);
  }

  lemma AdmitExact(s: Server, i: nat)
    requires i < |s.conns|
    ensures Admit(s, i).ok <==> |s.conns[i].name| + 22 <= MAX_PAYLOAD_SIZE
  {
    hide Render;
    var c := s.conns[i].(state := ACTIVE);
    var t := Put(s, i, c);
    var e := Joined(c.peer, c.name);
    RenderedLength(s.name, e);
    assert Recipient(t.conns[i], e);
  }

  /** With names of at most 65511 bytes, chats that fit under their names, and no hard error from
      send or accept, every handler but the stdin one returns true, for arbitrary peer bytes. */
  lemma PeersCannotStop(s: Server, r: Ready, env: Env)
    requires ServerInv(s) && LegalEnv(s, env) && Friendly(env) && WithinBounds(s, r, env)
    requires r.fd != STDIN_FD
    ensures Dispatch(s, r, env).ok
  {
    hide Rest, Dispatch, LegalAccepts, Lookup, ParseAll, Legal, Offered, StopsHard, Introduces, AllFit, ReadEvents;
    hide Audience, Unsent;
    GoesOnExactly(s, r, env);
    FriendlyAccepts(env.accepts);
    FriendlySends(env.sends);
    var i := Lookup(s.conns, r.fd);
    if i < |s.conns| {
      var c := s.conns[i];
      ReadEventsFit(s.name, c.peer, c.name, ParseAll(c.inBuffer + Arrived(env.recvs)), EndOf(env.recvs).AtEof?);
    }
  }

  lemma {:induction false} FriendlySends(sends: seq<SendResult>)
    requires NoHardError(sends)
    ensures !StopsHard(sends)
    decreases |sends|
  {
    if sends != [] && sends[0].Sent? {
      FriendlySends(sends[1..]);
    }
  }

  lemma {:induction false} FriendlyAccepts(accepts: seq<AcceptResult>)
    requires forall k | 0 <= k < |accepts| :: accepts[k] != AcceptFailed(EOTHER)
    ensures AcceptsEnd(accepts)
    decreases |accepts|
  {
    if accepts != [] && accepts[0].Accepted? {
      FriendlyAccepts(accepts[1..]);
    }
  }
}
