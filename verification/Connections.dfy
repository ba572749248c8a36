/** One connection record and the four operations that work on it: queue a frame, parse a frame,
    flush the output buffer, read into the input buffer. `Conn` is the value of a record and each
    operation is first a function on values; class `Connection` is the record the program updates
    in place, each of its methods proved equal to the function.

    Kernel answers are parameters: a script of results that send or recv give one after another.
    A script that has run out answers "would block". */
module Connections {
  import opened Frames
  import opened Options

  datatype ConnState =
    | CONNECTING
    | SENDING_CLIENT_HELLO
    | WAITING_FOR_SERVER_HELLO
    | SENDING_SERVER_HELLO
    | WAITING_FOR_CLIENT_HELLO
    | ACTIVE
    | CLOSED
    | CONNECTION_ERROR

  /** Why a record was last put in state CONNECTION_ERROR (history; the program only logs it). */
  datatype Fault = NoFault | SocketError | OversizedFrame | WrongMessage | LateMessage | OversizedQueue

  datatype Errno = EINTR | EAGAIN | EOTHER

  /** `Sent(n)`: the kernel has room for n bytes, and takes no more than it is offered. */
  datatype SendResult = Sent(n: nat) | SendFailed(errno: Errno)

  /** An empty chunk is recv returning 0: the peer has closed. */
  datatype RecvResult = Received(chunk: seq<Byte>) | RecvFailed(errno: Errno)

  /** The fields of a connection record, then its history: which TCP connection it serves, every
      frame ever queued on it, every byte the kernel took and gave, every frame parsed from it,
      and where in the room log its join stands. */
  datatype Conn = Conn(
    fd: int,
    state: ConnState,
    inBuffer: seq<Byte>,
    outBuffer: seq<Byte>,
    written: nat,
    name: Text,
    peer: nat,
    queued: seq<Message>,
    sent: seq<Byte>,
    received: seq<Byte>,
    parsed: seq<Message>,
    joinedAt: Option<nat>,
    fault: Fault)

  function NewConn(fd: int, state: ConnState, peer: nat): Conn {
    Conn(fd, state, [], [], 0, [], peer, [], [], [], [], None, NoFault)
  }

  /** Result of an operation that can fail: the record afterwards and the returned flag. */
  datatype Try = Try(conn: Conn, ok: bool)

  function Failed(c: Conn, fault: Fault): Conn {
    c.(state := CONNECTION_ERROR, fault := fault)
  }

  function QueueMessage(c: Conn, m: Message): Try {
    if !Legal(m) then Try(Failed(c, OversizedQueue), false)
    else Try(c.(outBuffer := c.outBuffer + Encode(m), queued := c.queued + [m]), true)
  }

  function ParseMessage(c: Conn): (Conn, Option<Message>) {
    match ParseFrame(c.inBuffer)
    case Incomplete => (c, None)
    case Oversized => (Failed(c, OversizedFrame), None)
    case Frame(m, rest) => (c.(inBuffer := rest, parsed := c.parsed + [m]), Some(m))
  }

  function Min(a: nat, b: nat): nat {
    if a < b then a else b
  }

  function Flush(c: Conn, sends: seq<SendResult>): Try
    decreases |sends|
  {
    if c.written >= |c.outBuffer| then Try(c.(outBuffer := [], written := 0), true)
    else if sends == [] then Try(c, true)
    else match sends[0]
      case Sent(n) =>
        if n == 0 then Try(Failed(c, SocketError), false)
        else Flush(Advance(c, Min(n, |c.outBuffer| - c.written)), sends[1..])
      case SendFailed(e) =>
        if e == EOTHER then Try(Failed(c, SocketError), false) else Try(c, true)
  }

  function Advance(c: Conn, n: nat): Conn
    requires c.written + n <= |c.outBuffer|
  {
    c.(written := c.written + n, sent := c.sent + c.outBuffer[c.written..c.written + n])
  }

  function ReadIntoInBuffer(c: Conn, recvs: seq<RecvResult>): Try
    decreases |recvs|
  {
    if recvs == [] then Try(c, true)
    else match recvs[0]
      case Received(chunk) =>
        if chunk == [] then Try(c.(state := CLOSED), true)
        else ReadIntoInBuffer(Take(c, chunk), recvs[1..])
      case RecvFailed(e) =>
        if e == EOTHER then Try(Failed(c, SocketError), false) else Try(c, true)
  }

  function Take(c: Conn, chunk: seq<Byte>): Conn {
    c.(inBuffer := c.inBuffer + chunk, received := c.received + chunk)
  }

  // ---------- What the buffers always hold ----------

  function Unsent(c: Conn): seq<Byte> {
    if c.written <= |c.outBuffer| then c.outBuffer[c.written..] else []
  }

  /** Every byte of every queued frame has been taken by the kernel or is still in the output
      buffer behind `written`, in order; and a finished buffer has been cleared. */
  ghost predicate OutputKept(c: Conn) {
    && (c.written < |c.outBuffer| || (c.written == 0 && c.outBuffer == []))
    && AllLegal(c.queued)
    && EncodeAll(c.queued) == c.sent + Unsent(c)
  }

  /** Every byte received belongs to a parsed frame or is still in the input buffer, in order. */
  ghost predicate InputKept(c: Conn) {
    && AllLegal(c.parsed)
    && c.received == EncodeAll(c.parsed) + c.inBuffer
  }

  /** The two facts above speak only of the buffers and their histories. */
  lemma SameBuffers(c: Conn, d: Conn)
    requires d.outBuffer == c.outBuffer && d.written == c.written && d.queued == c.queued && d.sent == c.sent
    requires d.inBuffer == c.inBuffer && d.parsed == c.parsed && d.received == c.received
    ensures OutputKept(d) <==> OutputKept(c)
    ensures InputKept(d) <==> InputKept(c)
  {
    hide EncodeAll;
  }

  lemma QueueKeeps(c: Conn, m: Message)
    requires OutputKept(c)
    ensures OutputKept(QueueMessage(c, m).conn)
  {
    hide Encode, EncodeAll;
    if Legal(m) {
      EncodeAllSnoc(c.queued, m);
      var d := QueueMessage(c, m).conn;
      assert |Encode(m)| > 0;
      assert Unsent(d) == Unsent(c) + Encode(m);
    }
  }

  lemma ParseKeeps(c: Conn)
    requires InputKept(c)
    ensures InputKept(ParseMessage(c).0)
  {
    hide Encode, ParseFrame;
    if ParseFrame(c.inBuffer).Frame? {
      var Frame(m, rest) := ParseFrame(c.inBuffer);
      ParseExact(c.inBuffer, m, rest);
      EncodeAllSnoc(c.parsed, m);
    }
  }

  /** A flush moves bytes from the front of the unsent part to the kernel and changes nothing
      else, and it leaves the buffer empty or not finished. */
  lemma {:induction false} FlushKeeps(c: Conn, sends: seq<SendResult>)
    requires c.written <= |c.outBuffer|
    ensures var r := Flush(c, sends);
            && r.conn.sent + Unsent(r.conn) == c.sent + Unsent(c)
            && c.sent <= r.conn.sent
            && (r.conn.written < |r.conn.outBuffer| || (r.conn.written == 0 && r.conn.outBuffer == []))
            && r.conn == c.(state := r.conn.state, fault := r.conn.fault, outBuffer := r.conn.outBuffer,
                            written := r.conn.written, sent := r.conn.sent)
            && (r.ok ==> r.conn.state == c.state && r.conn.fault == c.fault)
            && (!r.ok ==> r.conn.state == CONNECTION_ERROR && r.conn.fault == SocketError)
    decreases |sends|
  {
    if c.written < |c.outBuffer| && sends != [] && sends[0].Sent? && sends[0].n > 0 {
      var d := Advance(c, Min(sends[0].n, |c.outBuffer| - c.written));
      assert d.sent + Unsent(d) == c.sent + Unsent(c);
      FlushKeeps(d, sends[1..]);
    }
  }

  /** The room the kernel has before it first gives none. */
  function Offered(sends: seq<SendResult>): nat {
    if sends == [] || !sends[0].Sent? || sends[0].n == 0 then 0 else sends[0].n + Offered(sends[1..])
  }

  /** Where it first gives none, it reports a hard error. */
  predicate StopsHard(sends: seq<SendResult>) {
    && sends != []
    && match sends[0]
       case Sent(n) => n == 0 || StopsHard(sends[1..])
       case SendFailed(e) => e == EOTHER
  }

  /** The record once the kernel has taken this many of its unsent bytes. */
  function HandedOver(c: Conn, taken: nat): Conn
    requires taken <= |Unsent(c)|
  {
    if taken == |Unsent(c)| then c.(sent := c.sent + Unsent(c), outBuffer := [], written := 0)
    else c.(sent := c.sent + Unsent(c)[..taken], written := c.written + taken)
  }

  lemma HandedOverTwice(c: Conn, m: nat, k: nat)
    requires 0 < m && c.written + m <= |c.outBuffer| && k <= |c.outBuffer| - c.written - m
    ensures var d := Advance(c, m);
            && |Unsent(d)| == |Unsent(c)| - m
            && HandedOver(d, k) == HandedOver(c, m + k)
  {
    var d := Advance(c, m);
    assert Unsent(d) == Unsent(c)[m..];
    assert Unsent(c)[..m] + Unsent(c)[m..][..k] == Unsent(c)[..m + k];
    assert Unsent(c)[..m] + Unsent(c)[m..] == Unsent(c);
    assert d.sent == c.sent + Unsent(c)[..m];
  }

  /** A flush hands over as many of the unsent bytes as the kernel has room for, in order. If that
      is all of them the buffer is cleared and the flush succeeds; if not, it fails exactly on a
      hard error. Nothing else changes. */
  lemma {:induction false} FlushExact(c: Conn, sends: seq<SendResult>)
    requires c.written <= |c.outBuffer|
    ensures var n := |Unsent(c)|;
            var taken := Min(Offered(sends), n);
            Flush(c, sends) == if taken == n || !StopsHard(sends) then Try(HandedOver(c, taken), true)
                               else Try(Failed(HandedOver(c, taken), SocketError), false)
    decreases |sends|
  {
    hide Unsent, HandedOver;
    UnsentSize(c);
    var n := |c.outBuffer| - c.written;
    if n > 0 && sends != [] && sends[0].Sent? && sends[0].n > 0 {
      var m := Min(sends[0].n, n);
      var d := Advance(c, m);
      FlushExact(d, sends[1..]);
      HandedOverTwice(c, m, Min(Offered(sends[1..]), n - m));
    } else {
      HandedOverNone(c);
    }
  }

  lemma UnsentSize(c: Conn)
    requires c.written <= |c.outBuffer|
    ensures |Unsent(c)| == |c.outBuffer| - c.written
  {
  }

  lemma HandedOverNone(c: Conn)
    requires c.written <= |c.outBuffer|
    ensures HandedOver(c, 0) == if Unsent(c) == [] then c.(outBuffer := [], written := 0) else c
  {
    assert c.sent + [] == c.sent;
  }

  lemma FlushKeepsOutput(c: Conn, sends: seq<SendResult>)
    requires OutputKept(c)
    ensures OutputKept(Flush(c, sends).conn)
  {
    hide Flush;
    FlushKeeps(c, sends);
  }

  predicate NoHardError(sends: seq<SendResult>) {
    forall k | 0 <= k < |sends| :: sends[k] != SendFailed(EOTHER) && sends[k] != Sent(0)
  }

  lemma QueueIdentity(c: Conn, m: Message)
    ensures var d := QueueMessage(c, m).conn;
            d.fd == c.fd && d.peer == c.peer && d.name == c.name && d.inBuffer == c.inBuffer
  {
  }

  lemma {:induction false} FlushIdentity(c: Conn, sends: seq<SendResult>)
    ensures Flush(c, sends).conn.fd == c.fd && Flush(c, sends).conn.peer == c.peer
    decreases |sends|
  {
    if c.written < |c.outBuffer| && sends != [] && sends[0].Sent? && sends[0].n > 0 {
      FlushIdentity(Advance(c, Min(sends[0].n, |c.outBuffer| - c.written)), sends[1..]);
    }
  }

  function Arrived(recvs: seq<RecvResult>): seq<Byte> {
    if recvs == [] || !recvs[0].Received? || recvs[0].chunk == [] then []
    else recvs[0].chunk + Arrived(recvs[1..])
  }

  /** How the reading loop ends: by EOF, by a hard error, or for now. */
  datatype ReadEnd = AtEof | AtError | AtPause

  function EndOf(recvs: seq<RecvResult>): ReadEnd {
    if recvs == [] then AtPause
    else match recvs[0]
      case Received(chunk) => if chunk == [] then AtEof else EndOf(recvs[1..])
      case RecvFailed(e) => if e == EOTHER then AtError else AtPause
  }

  /** A read appends exactly the bytes that arrived and reports exactly how the loop ended. */
  lemma {:induction false} ReadExact(c: Conn, recvs: seq<RecvResult>)
    ensures var r := ReadIntoInBuffer(c, recvs);
            && r.ok == !EndOf(recvs).AtError?
            && r.conn == c.(inBuffer := c.inBuffer + Arrived(recvs),
                            received := c.received + Arrived(recvs),
                            state := match EndOf(recvs)
                                     case AtEof => CLOSED
                                     case AtError => CONNECTION_ERROR
                                     case AtPause => c.state,
                            fault := if EndOf(recvs).AtError? then SocketError else c.fault)
    decreases |recvs|
  {
    if recvs != [] && recvs[0].Received? && recvs[0].chunk != [] {
      var chunk := recvs[0].chunk;
      ReadExact(Take(c, chunk), recvs[1..]);
      assert (c.inBuffer + chunk) + Arrived(recvs[1..]) == c.inBuffer + (chunk + Arrived(recvs[1..]));
      assert (c.received + chunk) + Arrived(recvs[1..]) == c.received + (chunk + Arrived(recvs[1..]));
    } else {
      assert c.inBuffer + [] == c.inBuffer && c.received + [] == c.received;
    }
  }

  lemma ReadKeepsInput(c: Conn, recvs: seq<RecvResult>)
    requires InputKept(c)
    ensures InputKept(ReadIntoInBuffer(c, recvs).conn)
  {
    hide ReadIntoInBuffer;
    ReadExact(c, recvs);
    assert c.received + Arrived(recvs) == EncodeAll(c.parsed) + (c.inBuffer + Arrived(recvs));
  }

  // ---------- The record updated in place ----------

  class Connection {
    var fd: int
    var state: ConnState
    var inBuffer: seq<Byte>
    var outBuffer: seq<Byte>
    var bytesWritten: nat
    var name: Text
    ghost var peer: nat
    ghost var queued: seq<Message>
    ghost var sent: seq<Byte>
    ghost var received: seq<Byte>
    ghost var parsed: seq<Message>
    ghost var joinedAt: Option<nat>
    ghost var fault: Fault

    ghost function View(): Conn
      reads this
    {
      Conn(fd, state, inBuffer, outBuffer, bytesWritten, name,
           peer, queued, sent, received, parsed, joinedAt, fault)
    }

    constructor (fd: int, state: ConnState, ghost peer: nat)
      ensures View() == NewConn(fd, state, peer)
    {
      this.fd, this.state, this.peer := fd, state, peer;
      inBuffer, outBuffer, bytesWritten, name := [], [], 0, [];
      queued, sent, received, parsed, joinedAt, fault := [], [], [], [], None, NoFault;
    }

    /** A record that `new` places in memory that an earlier record was deleted from. */
    method Reinitialize(fd: int, state: ConnState, ghost peer: nat)
      modifies this
      ensures View() == NewConn(fd, state, peer)
    {
      this.fd := fd;
      this.state := state;
      inBuffer := [];
      outBuffer := [];
      bytesWritten := 0;
      name := [];
      this.peer := peer;
      queued := [];
      sent := [];
      received := [];
      parsed := [];
      joinedAt := None;
      fault := NoFault;
    }

    method Fail(ghost reason: Fault)
      modifies this
      ensures View() == Failed(old(View()), reason)
    {
      state := CONNECTION_ERROR;
      fault := reason;
    }

    method Queue(m: Message) returns (ok: bool)
      modifies this
      ensures Try(View(), ok) == QueueMessage(old(View()), m)
    {
      if |m.payload| > MAX_PAYLOAD_SIZE {
        Fail(OversizedQueue);
        return false;
      }
      ghost var before := outBuffer;
      outBuffer := outBuffer + [m.kind];
      outBuffer := outBuffer + BigEndian(|m.payload|);
      outBuffer := outBuffer + m.payload;
      queued := queued + [m];
      assert outBuffer == before + Encode(m);
      return true;
    }

    method Parse() returns (m: Option<Message>)
      modifies this
      ensures (View(), m) == ParseMessage(old(View()))
    {
      if |inBuffer| < FRAME_HEADER_SIZE {
        return None;
      }
      var rawType := inBuffer[0];
      var payloadLength := FromBigEndian(inBuffer[1..5]);
      if payloadLength > MAX_PAYLOAD_SIZE {
        Fail(OversizedFrame);
        return None;
      }
      var frameSize := FRAME_HEADER_SIZE + payloadLength;
      if |inBuffer| < frameSize {
        return None;
      }
      var message := Message(rawType, inBuffer[FRAME_HEADER_SIZE..frameSize]);
      inBuffer := inBuffer[frameSize..];
      parsed := parsed + [message];
      return Some(message);
    }

    method FlushOutBuffer(sends: seq<SendResult>) returns (ok: bool)
      modifies this
      ensures Try(View(), ok) == Flush(old(View()), sends)
    {
      var k := 0;
      while bytesWritten < |outBuffer|
        invariant k <= |sends|
        invariant Flush(View(), sends[k..]) == Flush(old(View()), sends)
        decreases |sends| - k
      {
        var remaining := |outBuffer| - bytesWritten;
        var result := if k < |sends| then sends[k] else SendFailed(EAGAIN);
        if result.Sent? && result.n > 0 {
          var n := Min(result.n, remaining);
          sent := sent + outBuffer[bytesWritten..bytesWritten + n];
          bytesWritten := bytesWritten + n;
          assert sends[k..][1..] == sends[k + 1..];
          k := k + 1;
          continue;
        }
        if result == SendFailed(EINTR) || result == SendFailed(EAGAIN) {
          return true;
        }
        Fail(SocketError);
        return false;
      }
      outBuffer := [];
      bytesWritten := 0;
      return true;
    }

    method ReadAvailable(recvs: seq<RecvResult>) returns (ok: bool)
      modifies this
      ensures Try(View(), ok) == ReadIntoInBuffer(old(View()), recvs)
    {
      var k := 0;
      while true
        invariant k <= |recvs|
        invariant ReadIntoInBuffer(View(), recvs[k..]) == ReadIntoInBuffer(old(View()), recvs)
        decreases |recvs| - k
      {
        var result := if k < |recvs| then recvs[k] else RecvFailed(EAGAIN);
        if result.Received? && result.chunk != [] {
          inBuffer := inBuffer + result.chunk;
          received := received + result.chunk;
          assert recvs[k..][1..] == recvs[k + 1..];
          k := k + 1;
          continue;
        }
        if result.Received? {
          state := CLOSED;
          return true;
        }
        if result.errno == EINTR || result.errno == EAGAIN {
          return true;
        }
        Fail(SocketError);
        return false;
      }
    }
  }
}
