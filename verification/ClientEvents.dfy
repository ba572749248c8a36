/** What a running client does with an event, in full: a pending connect, a writable socket, a
    readable one, a typed line. */
module ClientEvents {
  import opened Frames
  import opened Connections
  import opened Interest
  import opened Room
  import opened ClientSpec
  import opened ClientInvariant
  import opened ClientTheorems

  /** The client with its record replaced and its socket watched for these events. */
  function Rearmed(c: Client, conn: Conn, events: Events): Client {
    c.(conn := conn, entries := [Entry(c.conn.fd, events), Entry(STDIN_FD, IN)])
  }

  function Queued(c: Conn, m: Message): Conn {
    c.(outBuffer := c.outBuffer + Encode(m), queued := c.queued + [m])
  }

  // ---------- Connecting ----------

  /** Setup leaves a client that connects at once with its hello queued, and any other waiting for
      its socket to become writable. */
  lemma StartEffect(name: Text, fd: int, peer: nat, immediate: bool)
    requires fd != STDIN_FD && |name| <= MAX_PAYLOAD_SIZE
    ensures var r := Start(name, fd, peer, immediate);
            var c := NewConn(fd, CONNECTING, peer);
            && r.ok && r.client.name == name && r.client.screen == [] && !r.client.quitting
            && (!immediate ==> r.client.conn == c && r.client.entries == [Entry(fd, IN_OUT_RDHUP), Entry(STDIN_FD, IN)])
            && (immediate ==>
                  && r.client.conn == Queued(c.(state := SENDING_CLIENT_HELLO), Message(CLIENT_HELLO, name))
                  && r.client.entries == [Entry(fd, OUT_RDHUP), Entry(STDIN_FD, IN)])
  {
    hide Encode;
  }

  /** Any report on a pending connect asks how it went: success queues the hello and waits for the
      socket to become writable, failure ends the client. */
  lemma ConnectEffect(c: Client, r: Ready, env: ClientEnv)
    requires ClientInv(c) && c.conn.state == CONNECTING && r.fd == c.conn.fd
    requires r.events.input || r.events.output || r.events.error || r.events.hup
    ensures var d := Dispatch(c, r, env);
            var hello := Message(CLIENT_HELLO, c.name);
            if !env.connected then
              !d.ok && d.client == c.(conn := Failed(c.conn, SocketError))
            else if |c.name| > MAX_PAYLOAD_SIZE then
              !d.ok && d.client.conn.state == CONNECTION_ERROR
            else
              d == ClientStep(Rearmed(c, Queued(c.conn.(state := SENDING_CLIENT_HELLO), hello), OUT_RDHUP), true)
  {
    hide ClientPast, Ctl, Encode;
    if env.connected && |c.name| <= MAX_PAYLOAD_SIZE {
      ArmKeeps(c.(conn := Queued(c.conn.(state := SENDING_CLIENT_HELLO), Message(CLIENT_HELLO, c.name))), OUT_RDHUP);
    }
  }

  // ---------- Sending ----------

  /** A client that has something to send and is writable hands over as many of its unsent bytes as
      the kernel has room for. If some are left nothing else happens, unless the kernel fails hard.
      If none is left, one that is quitting ends, one that has sent its hello waits for the answer,
      and the socket is no longer watched for writing. */
  lemma SendEffect(c: Client, r: Ready, env: ClientEnv)
    requires ClientInv(c) && r.fd == c.conn.fd && c.conn.outBuffer != [] && r.events.output
    ensures var d := Dispatch(c, r, env);
            var n := |Unsent(c.conn)|;
            var room := Offered(env.sends);
            if room < n then
              if StopsHard(env.sends) then
                d == ClientStep(c.(conn := Failed(HandedOver(c.conn, room), SocketError)), false)
              else
                d == ClientStep(c.(conn := HandedOver(c.conn, room)), true)
            else
              var sent := HandedOver(c.conn, n);
              if c.quitting then
                d == ClientStep(c.(conn := sent), false)
              else if c.conn.state == SENDING_CLIENT_HELLO then
                d == ClientStep(Rearmed(c, sent.(state := WAITING_FOR_SERVER_HELLO), IN_RDHUP), true)
              else
                d == ClientStep(Rearmed(c, sent, IN_RDHUP), true)
  {
    hide InputKept, EncodeAll, Flush, Ctl, Offered, StopsHard, HandedOver, Unsent, Queue, Running;
    FlushExact(c.conn, env.sends);
    var taken := Min(Offered(env.sends), |Unsent(c.conn)|);
    HandedOverClient(c.conn, taken);
    var sent := HandedOver(c.conn, taken);
    var next := if sent.state == SENDING_CLIENT_HELLO then sent.(state := WAITING_FOR_SERVER_HELLO) else sent;
    ArmKeeps(c.(conn := next), IN_RDHUP);
  }

  lemma HandedOverClient(c: Conn, taken: nat)
    requires c.written < |c.outBuffer| && taken <= |Unsent(c)|
    ensures var d := HandedOver(c, taken);
            && d.state == c.state && d.fd == c.fd
            && (d.outBuffer == [] <==> taken == |Unsent(c)|)
  {
  }

  // ---------- Reading ----------

  predicate AllWelcome(state: ConnState, ms: seq<Message>) {
    forall k | 0 <= k < |ms| :: Welcome(state, ms, k)
  }

  /** Frame n is a proper CLOSE_CON, and the client is a member when it gets there. */
  predicate ClosesAt(state: ConnState, ms: seq<Message>, n: nat)
    requires n < |ms|
  {
    && ms[n] == CLOSE_FRAME && (n == 0 ==> state == ACTIVE)
    && forall k | 0 <= k < n :: Welcome(state, ms, k)
  }

  predicate ClosesOn(state: ConnState, ms: seq<Message>) {
    exists n :: 0 <= n < |ms| && ClosesAt(state, ms, n)
  }

  /** The name the server gives itself in its SERVER_HELLO. */
  function NameAfter(c: Conn, ms: seq<Message>): Text {
    if c.state == WAITING_FOR_SERVER_HELLO && ms != [] then ms[0].payload else c.name
  }

  /** Until it quits, a client that is waiting for the SERVER_HELLO or ACTIVE reads whenever its
      socket reports input or a hang-up and no send is due. It shows the broadcasts that the frames
      begin with, unless the stream ends with them. It goes on if and only if the read pauses and
      every frame is one it can take; then it is ACTIVE as soon as there was a frame, and keeps the
      unfinished rest. In a read that pauses it closes exactly on a proper CLOSE_CON after frames it
      can take, and is in error if neither. */
  lemma ReadEffect(c: Client, r: Ready, env: ClientEnv)
    requires ClientInv(c) && !c.quitting && c.conn.state in {WAITING_FOR_SERVER_HELLO, ACTIVE}
    requires r.fd == c.conn.fd && (r.events.input || r.events.rdhup || r.events.hup)
    requires c.conn.outBuffer == [] || !r.events.output
    ensures var d := Dispatch(c, r, env);
            var p := ParseAll(c.conn.inBuffer + Arrived(env.recvs));
            && d.client.screen
               == c.screen + (if EndOf(env.recvs).AtPause? then Shown(c.conn.state, p.messages) else [])
            && (d.ok <==> EndOf(env.recvs).AtPause? && !p.oversized && AllWelcome(c.conn.state, p.messages))
            && (EndOf(env.recvs).AtPause? ==>
                  (d.client.conn.state == CLOSED <==> ClosesOn(c.conn.state, p.messages)))
            && (d.ok ==>
                  && d.client.conn.state == (if p.messages == [] then c.conn.state else ACTIVE)
                  && d.client.conn.inBuffer == p.residue
                  && d.client.conn.parsed == c.conn.parsed + p.messages
                  && d.client.conn.name == NameAfter(c.conn, p.messages))
            && (EndOf(env.recvs).AtPause? && !d.ok && !ClosesOn(c.conn.state, p.messages) ==>
                  d.client.conn.state == CONNECTION_ERROR)
  {
    hide ClientPast, Running, ReadIntoInBuffer, ParseAll, Drain, Shown, AllWelcome, ClosesOn;
    assert Dispatch(c, r, env) == HandleRead(c, env.recvs);
    ReadShows(c, env.recvs);
    ReadExact(c.conn, env.recvs);
    var d := c.(conn := ReadIntoInBuffer(c.conn, env.recvs).conn);
    if EndOf(env.recvs).AtPause? {
      DrainOutcome(d);
    } else if EndOf(env.recvs).AtEof? {
      DrainClosed(d);
    }
  }

  lemma DrainClosed(c: Client)
    requires c.conn.state == CLOSED
    ensures !Drain(c).ok
  {
    hide ParseFrame;
  }

  lemma {:induction false} DrainOutcome(c: Client)
    requires c.conn.state in {WAITING_FOR_SERVER_HELLO, ACTIVE}
    ensures var r := Drain(c);
            var p := ParseAll(c.conn.inBuffer);
            && (r.ok <==> !p.oversized && AllWelcome(c.conn.state, p.messages))
            && (r.client.conn.state == CLOSED <==> ClosesOn(c.conn.state, p.messages))
            && (r.ok ==>
                  && r.client.conn.state == (if p.messages == [] then c.conn.state else ACTIVE)
                  && r.client.conn.inBuffer == p.residue
                  && r.client.conn.parsed == c.conn.parsed + p.messages
                  && r.client.conn.name == NameAfter(c.conn, p.messages))
            && (!r.ok && !ClosesOn(c.conn.state, p.messages) ==> r.client.conn.state == CONNECTION_ERROR)
    decreases |c.conn.inBuffer|
  {
    hide ParseFrame, AllWelcome, ClosesOn;
    var (d, m) := ParseMessage(c.conn);
    if m.Some? {
      var r := HandleMessage(c.(conn := d), m.value);
      var rest := ParseAll(d.inBuffer).messages;
      WelcomeCons(c.conn.state, m.value, rest);
      ClosesOnCons(c.conn.state, m.value, rest);
      assert c.conn.parsed + ([m.value] + rest) == (c.conn.parsed + [m.value]) + rest;
      if r.ok {
        DrainOutcome(r.client);
      }
    } else {
      NoneWelcome(c.conn.state);
      assert c.conn.parsed + [] == c.conn.parsed;
    }
  }

  lemma NoneWelcome(state: ConnState)
    ensures AllWelcome(state, []) && !ClosesOn(state, [])
  {
  }

  lemma ClosesOnCons(state: ConnState, m: Message, rest: seq<Message>)
    requires state in {WAITING_FOR_SERVER_HELLO, ACTIVE}
    ensures ClosesOn(state, [m] + rest)
       <==> if m.kind == (if state == WAITING_FOR_SERVER_HELLO then SERVER_HELLO else BROADCAST)
            then ClosesOn(ACTIVE, rest) else state == ACTIVE && m == CLOSE_FRAME
  {
    var ms := [m] + rest;
    if n: nat :| n < |ms| && ClosesAt(state, ms, n) {
      if n > 0 {
        assert Welcome(state, ms, 0);
        forall k | 0 <= k < n - 1 ensures Welcome(ACTIVE, rest, k) { assert Welcome(state, ms, k + 1); }
        assert ClosesAt(ACTIVE, rest, n - 1);
      }
    }
    if state == ACTIVE && m == CLOSE_FRAME {
      assert ClosesAt(state, ms, 0);
    }
    if n: nat :| n < |rest| && ClosesAt(ACTIVE, rest, n) {
      if Welcome(state, ms, 0) {
        forall k | 0 <= k < n + 1 ensures Welcome(state, ms, k) {
          if k > 0 { assert Welcome(ACTIVE, rest, k - 1); }
        }
        assert ClosesAt(state, ms, n + 1);
      }
    }
  }

  lemma WelcomeCons(state: ConnState, m: Message, rest: seq<Message>)
    requires state in {WAITING_FOR_SERVER_HELLO, ACTIVE}
    ensures AllWelcome(state, [m] + rest)
       <==> m.kind == (if state == WAITING_FOR_SERVER_HELLO then SERVER_HELLO else BROADCAST)
            && AllWelcome(ACTIVE, rest)
  {
    var ms := [m] + rest;
    if AllWelcome(state, ms) {
      assert Welcome(state, ms, 0);
      forall k | 0 <= k < |rest| ensures Welcome(ACTIVE, rest, k) { assert Welcome(state, ms, k + 1); }
    }
    if Welcome(state, ms, 0) && AllWelcome(ACTIVE, rest) {
      forall k | 0 <= k < |ms| ensures Welcome(state, ms, k) {
        if k > 0 { assert Welcome(ACTIVE, rest, k - 1); }
      }
    }
  }

  // ---------- Typing ----------

  /** Until it quits, a client handles what its user types. /quit queues a CLOSE_CON behind whatever
      is queued, unless there is no connection yet; an ACTIVE client queues any other line that is a
      legal payload as one CHAT; everything else is ignored, and a failed getline ends the client. */
  lemma TypedEffect(c: Client, r: Ready, env: ClientEnv)
    requires ClientInv(c) && !c.quitting && r.fd == STDIN_FD && r.events.input
    ensures var d := Dispatch(c, r, env);
            match env.line
            case None => d == ClientStep(c, false)
            case Some(line) =>
              if line == QuitCommand() then
                if c.conn.state == CONNECTING then d == ClientStep(c, false)
                else d == ClientStep(Rearmed(c, Queued(c.conn, CLOSE_FRAME), OUT_RDHUP).(quitting := true), true)
              else if line == [] || c.conn.state != ACTIVE || |line| > MAX_PAYLOAD_SIZE then
                d == ClientStep(c, true)
              else
                d == ClientStep(Rearmed(c, Queued(c.conn, Message(CHAT, line)), IN_OUT_RDHUP), true)
  {
    hide ClientPast, Running, QuitCommand, Ctl, Encode;
    QuitText();
    ArmKeeps(c.(conn := Queued(c.conn, CLOSE_FRAME), quitting := true), OUT_RDHUP);
    if env.line.Some? {
      ArmKeeps(c.(conn := Queued(c.conn, Message(CHAT, env.line.value))), IN_OUT_RDHUP);
    }
  }

  // ---------- Nothing else ----------

  /** Every other event is ignored. */
  lemma OthersIgnored(c: Client, r: Ready, env: ClientEnv)
    requires ClientInv(c)
    requires r.fd == STDIN_FD ==> c.quitting || !r.events.input
    requires r.fd == c.conn.fd ==>
               && (c.conn.outBuffer == [] || !r.events.output)
               && (c.conn.state == CONNECTING ==>
                     !(r.events.input || r.events.output || r.events.error || r.events.hup))
               && (c.conn.state in {WAITING_FOR_SERVER_HELLO, ACTIVE} ==>
                     c.quitting || !(r.events.input || r.events.rdhup || r.events.hup))
    ensures Dispatch(c, r, env) == ClientStep(c, true)
  {
    hide ClientPast, Running;
  }
}
