/** What the record of one connection says about the room log, for a connection that is listed
    between events (`Good`) and for one that may be gone or caught by a failed handler (`Past`). */
module ServerRecords {
  import opened Frames
  import opened Options
  import opened Connections
  import opened Room
  import opened ServerSpec

  /** The streams an honest client queues: CLIENT_HELLO with a name, then CHATs, then possibly
      one CLOSE_CON as the last frame. */
  predicate UpShape(ms: seq<Message>) {
    ms != [] ==>
      && ms[0].kind == CLIENT_HELLO && ms[0].payload != []
      && forall k | 1 <= k < |ms| :: ms[k].kind == CHAT || (ms[k] == CLOSE_FRAME && k == |ms| - 1)
  }

  /** The streams the server queues: SERVER_HELLO, then BROADCASTs and CLOSE_CONs. */
  predicate DownShape(host: Text, ms: seq<Message>) {
    ms != [] ==>
      && ms[0] == Hello(host)
      && forall k | 1 <= k < |ms| :: ms[k].kind == BROADCAST || ms[k] == CLOSE_FRAME
  }

  lemma UpShapePrefix(ms: seq<Message>, ns: seq<Message>)
    requires ms <= ns && UpShape(ns)
    ensures UpShape(ms)
  {
  }

  /** The record has been ACTIVE: its join is in the log, and what it parsed and was sent starts
      with the hellos. */
  ghost predicate Member(host: Text, log: seq<Event>, c: Conn) {
    && c.joinedAt.Some?
    && c.joinedAt.value < |log|
    && log[c.joinedAt.value] == Joined(c.peer, c.name)
    && c.queued != [] && DownShape(host, c.queued)
    && c.parsed != [] && c.parsed[0] == Message(CLIENT_HELLO, c.name)
  }

  /** The lines of everything in the log since the join, except what the connection said itself. */
  function Feed(host: Text, log: seq<Event>, c: Conn): seq<Text>
    requires c.joinedAt.Some? && c.joinedAt.value <= |log|
  {
    Lines(host, Others(log[c.joinedAt.value..], c.peer))
  }

  /** The log entries a connection has caused: its join and one chat per CHAT parsed. */
  function Story(c: Conn): seq<Event> {
    [Joined(c.peer, c.name)] + Saids(c.peer, c.name, Bodies(c.parsed, CHAT))
  }

  /** An ACTIVE connection has been queued exactly its hello and its feed (and the CLOSE_CONs),
      and the log has exactly its story. */
  ghost predicate InRoom(host: Text, log: seq<Event>, c: Conn) {
    && Member(host, log, c)
    && c.name != []
    && UpShape(c.parsed)
    && Bodies(c.queued, BROADCAST) == Feed(host, log, c)
    && EventsOf(log, c.peer) == Story(c)
  }

  /** In the room, and blameless so far. */
  ghost predicate Present(host: Text, log: seq<Event>, c: Conn) {
    OutputKept(c) && InputKept(c) && c.fault == NoFault && InRoom(host, log, c)
  }

  /** Present, with nothing but CHATs parsed since the hello. */
  ghost predicate Talking(host: Text, log: seq<Event>, c: Conn) {
    Present(host, log, c) && forall k | 1 <= k < |c.parsed| :: c.parsed[k].kind == CHAT
  }

  ghost predicate Good(host: Text, log: seq<Event>, c: Conn) {
    && OutputKept(c) && InputKept(c)
    && c.fault == NoFault
    && match c.state
       case WAITING_FOR_CLIENT_HELLO =>
         && c.joinedAt.None? && EventsOf(log, c.peer) == []
         && c.name == [] && c.queued == [] && c.outBuffer == [] && c.parsed == []
         && ParseFrame(c.inBuffer).Incomplete?
       case SENDING_SERVER_HELLO =>
         && c.joinedAt.None? && EventsOf(log, c.peer) == []
         && c.name != [] && c.queued == [Hello(host)] && c.outBuffer != []
         && c.parsed == [Message(CLIENT_HELLO, c.name)]
       case ACTIVE =>
         Talking(host, log, c)
       case _ => false
  }

  /** Blame for CONNECTION_ERROR is real: the buffered header is oversized, or the frames parsed
      are not what an honest client sends. */
  ghost predicate Blamed(c: Conn) {
    && (c.fault == OversizedFrame ==> ParseFrame(c.inBuffer).Oversized?)
    && (c.fault == WrongMessage ==> !UpShape(c.parsed))
    && c.fault != LateMessage
  }

  ghost predicate Past(host: Text, log: seq<Event>, c: Conn) {
    && OutputKept(c) && InputKept(c) && Blamed(c)
    && if c.joinedAt.None? then
         && EventsOf(log, c.peer) == []
         && (c.queued == [] || c.queued == [Hello(host)])
       else
         && Member(host, log, c)
         && Bodies(c.queued, BROADCAST) <= Feed(host, log, c)
         && EventsOf(log, c.peer) <= Story(c) + [Left(c.peer, c.name)]
  }

  lemma GoodIsPast(host: Text, log: seq<Event>, c: Conn)
    requires Good(host, log, c)
    ensures Past(host, log, c)
  {
    hide OutputKept, InputKept, ParseFrame, EventsOf, Others, Bodies, Lines;
  }

  // ---------- How the log growing by one event moves the records ----------

  lemma FeedGrows(host: Text, log: seq<Event>, c: Conn, e: Event)
    requires c.joinedAt.Some? && c.joinedAt.value <= |log|
    ensures Feed(host, log + [e], c) ==
              Feed(host, log, c) + if Author(e) == Some(c.peer) then [] else [Render(host, e).payload]
  {
    hide Render, Others;
    var j := c.joinedAt.value;
    assert (log + [e])[j..] == log[j..] + [e];
    OthersSnoc(log[j..], e, c.peer);
  }

  lemma PastExtends(host: Text, log: seq<Event>, c: Conn, e: Event)
    requires Past(host, log, c) && Subject(e) != Some(c.peer)
    ensures Past(host, log + [e], c)
  {
    hide OutputKept, InputKept, Blamed, EventsOf, Others, Bodies, Lines, Story, DownShape, Feed;
    EventsOfSnoc(log, e, c.peer);
    if c.joinedAt.Some? {
      FeedGrows(host, log, c, e);
    }
  }

  /** A connection outside the room is untouched by events about others. */
  lemma GoodUnaffected(host: Text, log: seq<Event>, c: Conn, e: Event)
    requires Good(host, log, c) && c.state != ACTIVE && Subject(e) != Some(c.peer)
    ensures Good(host, log + [e], c)
  {
    hide OutputKept, InputKept, EventsOf, Others, Bodies, Lines, ParseFrame, InRoom;
    EventsOfSnoc(log, e, c.peer);
  }

  lemma QueueBroadcast(host: Text, c: Conn, e: Event)
    requires OutputKept(c) && Legal(Render(host, e))
    requires c.queued != [] && DownShape(host, c.queued)
    ensures var d := QueueMessage(c, Render(host, e)).conn;
            && OutputKept(d) && d.queued != [] && DownShape(host, d.queued) && d.outBuffer != []
            && Bodies(d.queued, BROADCAST) == Bodies(c.queued, BROADCAST) + [Render(host, e).payload]
  {
    hide OutputKept, Bodies, Encode, Format;
    QueueKeeps(c, Render(host, e));
    BodiesSnoc(c.queued, Render(host, e), BROADCAST);
    assert |Encode(Render(host, e))| > 0;
  }

  /** A member of the room takes one event about someone else. */
  lemma GoodReceives(host: Text, log: seq<Event>, c: Conn, e: Event)
    requires Good(host, log, c) && c.state == ACTIVE && Subject(e) != Some(c.peer)
    requires Legal(Render(host, e))
    ensures Good(host, log + [e], QueueMessage(c, Render(host, e)).conn)
  {
    hide OutputKept, EventsOf, Others, Bodies, Lines, Render, Legal, Encode, DownShape, Feed, Story, UpShape;
    var d := QueueMessage(c, Render(host, e)).conn;
    QueueBroadcast(host, c, e);
    EventsOfSnoc(log, e, c.peer);
    FeedGrows(host, log, c, e);
    assert Feed(host, log + [e], d) == Feed(host, log + [e], c) by { SameFeed(host, log + [e], c, d); }
    assert Story(d) == Story(c) by { SameStory(c, d); }
    assert InputKept(d);
  }

  lemma SameFeed(host: Text, log: seq<Event>, c: Conn, d: Conn)
    requires c.joinedAt.Some? && c.joinedAt.value <= |log|
    requires d.joinedAt == c.joinedAt && d.peer == c.peer
    ensures Feed(host, log, d) == Feed(host, log, c)
  {
    hide Others;
  }

  lemma SameStory(c: Conn, d: Conn)
    requires d.peer == c.peer && d.name == c.name && d.parsed == c.parsed
    ensures Story(d) == Story(c)
  {
    hide Bodies;
  }

  // ---------- The connection that an event is about ----------

  lemma PresentIsPast(host: Text, log: seq<Event>, c: Conn)
    requires Present(host, log, c)
    ensures Past(host, log, c)
  {
    hide OutputKept, InputKept, EventsOf, Others, Bodies, Lines, ParseFrame;
  }

  lemma JoinGood(host: Text, log: seq<Event>, c: Conn, d: Conn)
    requires OutputKept(c) && InputKept(c) && c.fault == NoFault && c.state == ACTIVE
    requires c.name != [] && c.queued == [Hello(host)] && c.parsed == [Message(CLIENT_HELLO, c.name)]
    requires EventsOf(log, c.peer) == []
    requires Legal(Render(host, Joined(c.peer, c.name)))
    requires d == QueueMessage(c, Render(host, Joined(c.peer, c.name))).conn.(joinedAt := Some(|log|))
    ensures Good(host, log + [Joined(c.peer, c.name)], d) && d.outBuffer != []
  {
    hide OutputKept, InputKept, EventsOf, Others, Lines, Render, Legal, Encode, Feed;
    var e := Joined(c.peer, c.name);
    QueueBroadcast(host, c, e);
    SameBuffers(QueueMessage(c, Render(host, e)).conn, d);
    QueueInput(c, Render(host, e));
    EventsOfSnoc(log, e, c.peer);
    JoinFeed(host, log, d);
    BodiesSnoc([], Hello(host), BROADCAST);
    BodiesSnoc([], c.parsed[0], CHAT);
    assert [] + [Hello(host)] == c.queued && [] + [c.parsed[0]] == c.parsed;
    assert Story(d) == [e];
  }

  lemma QueueInput(c: Conn, m: Message)
    requires InputKept(c)
    ensures InputKept(QueueMessage(c, m).conn)
  {
    hide EncodeAll;
  }

  lemma JoinFeed(host: Text, log: seq<Event>, d: Conn)
    requires d.joinedAt == Some(|log|)
    ensures var e := Joined(d.peer, d.name);
            Feed(host, log + [e], d) == [Render(host, e).payload]
  {
    hide Render;
    var e := Joined(d.peer, d.name);
    assert (log + [e])[|log|..] == [] + [e];
    OthersSnoc([], e, d.peer);
  }

  lemma StorySnoc(c: Conn, d: Conn, m: Message)
    requires d.peer == c.peer && d.name == c.name && d.parsed == c.parsed + [m]
    ensures Story(d) == Story(c) + if m.kind == CHAT then [Said(c.peer, c.name, m.payload)] else []
  {
    hide Bodies;
    BodiesSnoc(c.parsed, m, CHAT);
  }

  /** Parsing on, whatever the bytes say, never falsifies the record. */
  lemma ParsedIsPast(host: Text, log: seq<Event>, c: Conn)
    requires Talking(host, log, c)
    ensures Past(host, log, ParseMessage(c).0)
    ensures var (d, m) := ParseMessage(c);
            m.Some? && m.value.kind != CHAT && m.value != CLOSE_FRAME ==> Past(host, log, Failed(d, WrongMessage))
  {
    hide EventsOf, Others, Bodies, Lines, ParseFrame, Encode, EncodeAll, Feed, Story;
    var (d, m) := ParseMessage(c);
    ParseKeeps(c);
    SameFeed(host, log, c, d);
    if m.Some? {
      StorySnoc(c, d, m.value);
      assert d.parsed[|c.parsed|] == m.value;
    } else {
      SameStory(c, d);
    }
    SameStory(d, Failed(d, WrongMessage));
    SameFeed(host, log, d, Failed(d, WrongMessage));
    assert Blamed(d);
    assert OutputKept(d) && OutputKept(Failed(d, WrongMessage));
  }

  /** A CHAT was parsed and relayed: the story and the log have both grown by it. */
  lemma TalkingSaid(host: Text, log: seq<Event>, c: Conn)
    requires Talking(host, log, c)
    requires ParseMessage(c).1.Some? && ParseMessage(c).1.value.kind == CHAT
    ensures var (d, m) := ParseMessage(c);
            Talking(host, log + [Said(c.peer, c.name, m.value.payload)], d)
  {
    hide EventsOf, Others, Bodies, Lines, ParseFrame, Encode, EncodeAll, Feed, Story, Render;
    var (d, m) := ParseMessage(c);
    var e := Said(c.peer, c.name, m.value.payload);
    ParseKeeps(c);
    StorySnoc(c, d, m.value);
    EventsOfSnoc(log, e, c.peer);
    FeedGrows(host, log, c, e);
    SameFeed(host, log + [e], c, d);
    assert d.parsed == c.parsed + [m.value];
  }

  /** An empty CLOSE_CON was parsed: it adds nothing to the story. */
  lemma PresentClosing(host: Text, log: seq<Event>, c: Conn)
    requires Talking(host, log, c)
    requires ParseMessage(c).1 == Some(CLOSE_FRAME)
    ensures Present(host, log, ParseMessage(c).0)
  {
    hide EventsOf, Others, Bodies, Lines, ParseFrame, Encode, EncodeAll, Feed, Story;
    var (d, m) := ParseMessage(c);
    ParseKeeps(c);
    StorySnoc(c, d, m.value);
    SameFeed(host, log, c, d);
    assert d.parsed == c.parsed + [CLOSE_FRAME];
  }

  /** Once the departure is logged the record can be put away. */
  lemma PastLeft(host: Text, log: seq<Event>, c: Conn)
    requires Present(host, log, c)
    ensures Past(host, log + [Left(c.peer, c.name)], c)
  {
    hide OutputKept, InputKept, EventsOf, Others, Bodies, Lines, ParseFrame, Feed, Story, Render;
    var e := Left(c.peer, c.name);
    EventsOfSnoc(log, e, c.peer);
    FeedGrows(host, log, c, e);
  }

  /** Reading into the input buffer keeps everything but the state. */
  lemma ReadTalking(host: Text, log: seq<Event>, c: Conn, recvs: seq<RecvResult>)
    requires Talking(host, log, c)
    ensures var r := ReadIntoInBuffer(c, recvs);
            && Past(host, log, r.conn)
            && (r.ok ==> Talking(host, log, r.conn))
  {
    hide EventsOf, Others, Bodies, Lines, ParseFrame, EncodeAll, Feed, Story, ReadIntoInBuffer;
    var d := ReadIntoInBuffer(c, recvs).conn;
    ReadExact(c, recvs);
    ReadKeepsInput(c, recvs);
    SameFeed(host, log, c, d);
    SameStory(c, d);
    assert OutputKept(d);
  }
}
