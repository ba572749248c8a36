/** What one read puts on a client's screen, and what it can lose. */
module ClientTheorems {
  import opened Frames
  import opened Options
  import opened Connections
  import opened Interest
  import opened Room
  import opened ClientSpec
  import opened ClientInvariant

  /** The lines that complete frames put on the screen of a client in this state. */
  function Shown(state: ConnState, ms: seq<Message>): seq<Text>
    decreases |ms|
  {
    if ms == [] then []
    else if state == WAITING_FOR_SERVER_HELLO && ms[0].kind == SERVER_HELLO then Shown(ACTIVE, ms[1..])
    else if state == ACTIVE && ms[0].kind == BROADCAST then [ms[0].payload] + Shown(ACTIVE, ms[1..])
    else []
  }

  lemma {:induction false} DrainShows(c: Client)
    requires c.conn.state in {WAITING_FOR_SERVER_HELLO, ACTIVE, CLOSED}
    ensures Drain(c).client.screen == c.screen + Shown(c.conn.state, ParseAll(c.conn.inBuffer).messages)
    decreases |c.conn.inBuffer|
  {
    hide ParseFrame;
    var (d, m) := ParseMessage(c.conn);
    if m.Some? {
      var r := HandleMessage(c.(conn := d), m.value);
      var ms := ParseAll(c.conn.inBuffer).messages;
      assert ms[0] == m.value && ms[1..] == ParseAll(d.inBuffer).messages;
      if r.ok {
        DrainShows(r.client);
      }
    }
  }

  /** A read shows exactly the leading frames it completes, unless it also reaches the end of the
      stream or a hard error: then it shows nothing, because the state is already CLOSED when the
      frames are handled. */
  lemma ReadShows(c: Client, recvs: seq<RecvResult>)
    requires c.conn.state in {WAITING_FOR_SERVER_HELLO, ACTIVE}
    ensures var ms := ParseAll(c.conn.inBuffer + Arrived(recvs)).messages;
            HandleRead(c, recvs).client.screen ==
              c.screen + if EndOf(recvs).AtPause? then Shown(c.conn.state, ms) else []
  {
    hide ReadIntoInBuffer, ParseFrame, Drain, ParseAll;
    ReadExact(c.conn, recvs);
    var d := c.(conn := ReadIntoInBuffer(c.conn, recvs).conn);
    if !EndOf(recvs).AtError? {
      DrainShows(d);
    }
  }

  /** The frame that lets the client go on: SERVER_HELLO first if it waits for one, BROADCASTs
      otherwise. Anything else, a proper CLOSE_CON included, ends the reading. */
  predicate Welcome(state: ConnState, ms: seq<Message>, k: nat)
    requires k < |ms|
  {
    ms[k].kind == if state == WAITING_FOR_SERVER_HELLO && k == 0 then SERVER_HELLO else BROADCAST
  }

  /** No broadcast stands behind a frame that ends the reading. */
  predicate Undisturbed(state: ConnState, ms: seq<Message>) {
    forall j, k | 0 <= j <= k < |ms| && ms[k].kind == BROADCAST :: Welcome(state, ms, j)
  }

  lemma {:induction false} ShownExactly(state: ConnState, ms: seq<Message>)
    requires state in {WAITING_FOR_SERVER_HELLO, ACTIVE}
    ensures Shown(state, ms) == Bodies(ms, BROADCAST) <==> Undisturbed(state, ms)
    decreases |ms|
  {
    hide Bodies;
    if ms == [] {
      assert Bodies(ms, BROADCAST) == [] by { BodiesNone(ms); }
    } else if Welcome(state, ms, 0) {
      var rest := ms[1..];
      assert ms == [ms[0]] + rest;
      BodiesCons(ms[0], rest);
      ShownExactly(ACTIVE, rest);
      UndisturbedCons(state, ms[0], rest);
      var head := if ms[0].kind == BROADCAST then [ms[0].payload] else [];
      assert Shown(state, ms) == head + Shown(ACTIVE, rest);
      SameAfter(head, Shown(ACTIVE, rest), Bodies(rest, BROADCAST));
    } else {
      BodiesNone(ms);
    }
  }

  lemma SameAfter(head: seq<Text>, xs: seq<Text>, ys: seq<Text>)
    ensures head + xs == head + ys <==> xs == ys
  {
    assert (head + xs)[|head|..] == xs && (head + ys)[|head|..] == ys;
  }

  lemma UndisturbedCons(state: ConnState, m: Message, rest: seq<Message>)
    requires state in {WAITING_FOR_SERVER_HELLO, ACTIVE} && Welcome(state, [m] + rest, 0)
    ensures Undisturbed(state, [m] + rest) <==> Undisturbed(ACTIVE, rest)
  {
    var ms := [m] + rest;
    assert forall k | 0 <= k < |rest| :: rest[k] == ms[k + 1];
    if Undisturbed(state, ms) {
      forall j, k | 0 <= j <= k < |rest| && rest[k].kind == BROADCAST
        ensures Welcome(ACTIVE, rest, j)
      {
        assert ms[k + 1].kind == BROADCAST && Welcome(state, ms, j + 1);
      }
    }
    if Undisturbed(ACTIVE, rest) {
      forall j, k | 0 <= j <= k < |ms| && ms[k].kind == BROADCAST
        ensures Welcome(state, ms, j)
      {
        if j > 0 {
          assert rest[k - 1].kind == BROADCAST && Welcome(ACTIVE, rest, j - 1);
        }
      }
    }
  }

  lemma {:induction false} BodiesNone(ms: seq<Message>)
    ensures Bodies(ms, BROADCAST) == [] <==> forall k | 0 <= k < |ms| :: ms[k].kind != BROADCAST
    decreases |ms|
  {
    if ms != [] {
      BodiesNone(ms[..|ms| - 1]);
    }
  }

  lemma {:induction false} BodiesCons(m: Message, ms: seq<Message>)
    ensures Bodies([m] + ms, BROADCAST) == (if m.kind == BROADCAST then [m.payload] else []) + Bodies(ms, BROADCAST)
    decreases |ms|
  {
    if ms == [] {
      assert [m] + ms == [] + [m];
      BodiesSnoc([], m, BROADCAST);
    } else {
      var n := |ms| - 1;
      BodiesCons(m, ms[..n]);
      assert [m] + ms == ([m] + ms[..n]) + [ms[n]];
      BodiesSnoc([m] + ms[..n], ms[n], BROADCAST);
    }
  }

  /** A read shows every broadcast it completes if and only if it completes none, or it pauses
      before the end of the stream and no broadcast stands behind a frame that ends the reading. */
  lemma NothingLostExactly(c: Client, recvs: seq<RecvResult>)
    requires c.conn.state in {WAITING_FOR_SERVER_HELLO, ACTIVE}
    ensures var ms := ParseAll(c.conn.inBuffer + Arrived(recvs)).messages;
            var lines := Bodies(ms, BROADCAST);
            HandleRead(c, recvs).client.screen == c.screen + lines
            <==> lines == [] || (EndOf(recvs).AtPause? && Undisturbed(c.conn.state, ms))
  {
    hide HandleRead, ParseAll, Undisturbed, Bodies, Shown;
    ReadShows(c, recvs);
    var ms := ParseAll(c.conn.inBuffer + Arrived(recvs)).messages;
    ShownExactly(c.conn.state, ms);
    SameAfter(c.screen, Shown(c.conn.state, ms), Bodies(ms, BROADCAST));
    SameAfter(c.screen, [], Bodies(ms, BROADCAST));
    ShownWithin(c.conn.state, ms);
  }

  lemma {:induction false} ShownWithin(state: ConnState, ms: seq<Message>)
    ensures |Shown(state, ms)| <= |Bodies(ms, BROADCAST)|
    decreases |ms|
  {
    hide Bodies;
    if ms != [] {
      assert ms == [ms[0]] + ms[1..];
      BodiesCons(ms[0], ms[1..]);
      ShownWithin(ACTIVE, ms[1..]);
    }
  }

  /** Of what the server sends to a member, only a CLOSE_CON can stand in the way of a broadcast
      (QuitRuns says when one does). */
  lemma OnlyCloseDisturbs(ms: seq<Message>)
    requires forall k | 0 <= k < |ms| :: ms[k].kind == BROADCAST || ms[k] == CLOSE_FRAME
    ensures Undisturbed(ACTIVE, ms)
       <==> forall j, k | 0 <= j < k < |ms| && ms[j] == CLOSE_FRAME :: ms[k] == CLOSE_FRAME
  {
    if Undisturbed(ACTIVE, ms) {
      forall j, k | 0 <= j < k < |ms| && ms[j] == CLOSE_FRAME
        ensures ms[k] == CLOSE_FRAME
      {
        assert !Welcome(ACTIVE, ms, j);
      }
    }
  }

  /** A line that stands behind a CLOSE_CON is never shown either. */
  lemma LineBehindCloseLost(c: Client, line: Text)
    requires c.conn.state == ACTIVE && c.conn.inBuffer == [] && |line| <= MAX_PAYLOAD_SIZE
    ensures var recvs := [Received(EncodeAll([CLOSE_FRAME, Message(BROADCAST, line)]))];
            EndOf(recvs).AtPause? && HandleRead(c, recvs).client.screen == c.screen
  {
    hide ParseFrame, Encode, HandleRead, ParseAll, EncodeAll;
    var ms := [CLOSE_FRAME, Message(BROADCAST, line)];
    var recvs := [Received(EncodeAll(ms))];
    RoundTrip(ms);
    EncodeAllLength(ms);
    assert c.conn.inBuffer + Arrived(recvs) == EncodeAll(ms) by { ArrivedOnce(EncodeAll(ms)); }
    ReadShows(c, recvs);
    assert Shown(ACTIVE, ms) == [];
    assert c.screen + [] == c.screen;
  }

  lemma ArrivedOnce(chunk: seq<Byte>)
    requires chunk != []
    ensures Arrived([Received(chunk)]) == chunk && EndOf([Received(chunk)]).AtPause?
  {
    assert chunk + [] == chunk;
  }

  /** The witness: a last line that arrives together with the end of the stream is never shown,
      and the client reports an unexpected message. */
  lemma LastLineLost(c: Client, line: Text)
    requires c.conn.state == ACTIVE && c.conn.inBuffer == [] && |line| <= MAX_PAYLOAD_SIZE
    ensures var r := HandleRead(c, [Received(Encode(Message(BROADCAST, line))), Received([])]);
            !r.ok && r.client.screen == c.screen && r.client.conn.fault == LateMessage
  {
    hide ParseFrame, Encode;
    var m := Message(BROADCAST, line);
    var recvs := [Received(Encode(m)), Received([])];
    assert |Encode(m)| > 0;
    var d := Take(c.conn, Encode(m));
    assert ReadIntoInBuffer(d, recvs[1..]) == Try(d.(state := CLOSED), true);
    assert d.inBuffer == Encode(m) + [];
    ParseEncoded(m, []);
  }

  /** That report is made only about frames that came with the end of the stream. */
  lemma LateOnlyAtEof(c: Client, recvs: seq<RecvResult>)
    requires ClientInv(c) && !c.quitting && c.conn.state in {WAITING_FOR_SERVER_HELLO, ACTIVE}
    ensures HandleRead(c, recvs).client.conn.fault == LateMessage ==> EndOf(recvs).AtEof?
  {
    hide ReadIntoInBuffer, ClientPast, Drain;
    ReadExact(c.conn, recvs);
    if EndOf(recvs).AtPause? {
      DrainNotLate(c.(conn := ReadIntoInBuffer(c.conn, recvs).conn));
    }
  }

  lemma {:induction false} DrainNotLate(c: Client)
    requires c.conn.state in {WAITING_FOR_SERVER_HELLO, ACTIVE} && c.conn.fault == NoFault
    ensures Drain(c).client.conn.fault != LateMessage
    decreases |c.conn.inBuffer|
  {
    hide ParseFrame;
    var (d, m) := ParseMessage(c.conn);
    if m.Some? {
      var r := HandleMessage(c.(conn := d), m.value);
      if r.ok {
        DrainNotLate(r.client);
      }
    }
  }

  // ---------- What is typed ----------

  /** A running client that is ACTIVE queues what its user types as one CHAT if and only if the line
      is not empty, not /quit, and not longer than a payload may be; the length of its name, under
      which the server will relay the line, does not matter. */
  lemma TypedExactly(c: Client, line: Option<Text>)
    requires ClientInv(c) && !c.quitting && c.conn.state == ACTIVE && line.Some?
    ensures var r := HandleStdin(c, line);
            r.ok && r.client.conn.queued == c.conn.queued + [Message(CHAT, line.value)]
            <==> line.value != [] && line.value != QuitCommand() && |line.value| <= MAX_PAYLOAD_SIZE
  {
    hide ClientPast, Running, QuitCommand, Ctl, Encode;
    var m := Message(CHAT, line.value);
    ArmKeeps(c.(conn := QueueMessage(c.conn, m).conn), IN_OUT_RDHUP);
    assert c.conn.queued + [CLOSE_FRAME] != c.conn.queued + [m] by {
      assert (c.conn.queued + [CLOSE_FRAME])[|c.conn.queued|] == CLOSE_FRAME;
    }
    assert |c.conn.queued + [m]| == |c.conn.queued| + 1;
  }
}
