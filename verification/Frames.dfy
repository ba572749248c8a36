/** The wire format: one type byte, a four-byte big-endian payload length, the payload.
    `Encode` is what protocol_queue_message appends to an output buffer and `ParseFrame` is one
    attempt of protocol_parse_message at the front of an input buffer; the lemmas say that the
    two are inverse and that the cut of the byte stream into reads cannot be observed. */
module Frames {
  type Byte = b: int | 0 <= b < 256
  type Text = seq<Byte>

  const MAX_PAYLOAD_SIZE := 65536
  const FRAME_HEADER_SIZE := 5

  const CLIENT_HELLO: Byte := 1
  const SERVER_HELLO: Byte := 2
  const CHAT: Byte := 3
  const BROADCAST: Byte := 4
  const CLOSE_CON: Byte := 6

  /** `kind` is the raw type byte: a received frame may carry any value there. */
  datatype Message = Message(kind: Byte, payload: Text)

  const CLOSE_FRAME := Message(CLOSE_CON, [])

  predicate Legal(m: Message) {
    |m.payload| <= MAX_PAYLOAD_SIZE
  }

  predicate AllLegal(ms: seq<Message>) {
    forall m <- ms :: Legal(m)
  }

  /** htonl of the length cast to 32 bits, as bytes in memory order. */
  function BigEndian(n: nat): (b: seq<Byte>)
    ensures |b| == 4
  {
    var w := n % 0x1_0000_0000;
    [w / 0x100_0000, w / 0x1_0000 % 0x100, w / 0x100 % 0x100, w % 0x100]
  }

  function FromBigEndian(b: seq<Byte>): nat
    requires |b| == 4
  {
    0x100_0000 * (b[0] as int) + 0x1_0000 * (b[1] as int) + 0x100 * (b[2] as int) + b[3]
  }

  function Encode(m: Message): (b: seq<Byte>)
    ensures |b| == FRAME_HEADER_SIZE + |m.payload|
  {
    [m.kind] + BigEndian(|m.payload|) + m.payload
  }

  function EncodeAll(ms: seq<Message>): seq<Byte> {
    if ms == [] then [] else Encode(ms[0]) + EncodeAll(ms[1..])
  }

  datatype Parse =
    | Incomplete
    | Oversized
    | Frame(message: Message, rest: seq<Byte>)

  function ParseFrame(b: seq<Byte>): (p: Parse)
    ensures p.Frame? ==> |p.rest| + FRAME_HEADER_SIZE <= |b|
  {
    if |b| < FRAME_HEADER_SIZE then Incomplete
    else
      var length := FromBigEndian(b[1..5]);
      if length > MAX_PAYLOAD_SIZE then Oversized
      else if |b| < FRAME_HEADER_SIZE + length then Incomplete
      else Frame(Message(b[0], b[5..5 + length]), b[5 + length..])
  }

  /** All leading complete frames, what is left, and whether what is left is an oversized header. */
  datatype Parsed = Parsed(messages: seq<Message>, residue: seq<Byte>, oversized: bool)

  function ParseAll(b: seq<Byte>): Parsed
    decreases |b|
  {
    match ParseFrame(b)
    case Incomplete => Parsed([], b, false)
    case Oversized => Parsed([], b, true)
    case Frame(m, rest) =>
      var p := ParseAll(rest);
      Parsed([m] + p.messages, p.residue, p.oversized)
  }

  // ---------- The codec is a bijection between legal messages and complete frames ----------

  lemma BigEndianRoundTrip(n: nat)
    requires n < 0x1_0000_0000
    ensures FromBigEndian(BigEndian(n)) == n
  {
    hide BigEndian, FromBigEndian;
    Digits(n);
    BigEndianDigits(n);
    FromDigits(n / 0x100_0000, n / 0x1_0000 % 0x100, n / 0x100 % 0x100, n % 0x100);
  }

  lemma BigEndianDigits(n: nat)
    requires n < 0x1_0000_0000 && n / 0x100_0000 < 0x100
    ensures BigEndian(n) == [n / 0x100_0000, n / 0x1_0000 % 0x100, n / 0x100 % 0x100, n % 0x100]
  {
  }

  lemma FromDigits(p: Byte, q: Byte, r: Byte, t: Byte)
    ensures FromBigEndian([p, q, r, t]) == 0x100_0000 * p + 0x1_0000 * q + 0x100 * r + t
  {
  }

  lemma Digits(n: nat)
    requires n < 0x1_0000_0000
    ensures var (q1, q2, q3) := (n / 0x100, n / 0x1_0000, n / 0x100_0000);
            && q3 < 0x100
            && n == 0x100_0000 * q3 + 0x1_0000 * (q2 % 0x100) + 0x100 * (q1 % 0x100) + n % 0x100
  {
    var (q1, q2, q3) := (n / 0x100, n / 0x1_0000, n / 0x100_0000);
    assert q2 == q1 / 0x100 && q3 == q2 / 0x100;
    assert n == 0x100 * q1 + n % 0x100;
    assert q1 == 0x100 * q2 + q1 % 0x100;
    assert q2 == 0x100 * q3 + q2 % 0x100;
  }

  lemma BigEndianCanonical(b: seq<Byte>)
    requires |b| == 4
    ensures BigEndian(FromBigEndian(b)) == b
  {
    FourDigits(b[0], b[1], b[2], b[3]);
    assert b == [b[0], b[1], b[2], b[3]];
  }

  lemma FourDigits(p: int, q: int, r: int, t: int)
    requires 0 <= p < 0x100 && 0 <= q < 0x100 && 0 <= r < 0x100 && 0 <= t < 0x100
    ensures var n := 0x100_0000 * p + 0x1_0000 * q + 0x100 * r + t;
            && 0 <= n < 0x1_0000_0000
            && n / 0x100_0000 == p
            && n / 0x1_0000 % 0x100 == q
            && n / 0x100 % 0x100 == r
            && n % 0x100 == t
  {
    var n := 0x100_0000 * p + 0x1_0000 * q + 0x100 * r + t;
    assert n / 0x1_0000 == 0x100 * p + q;
    assert n / 0x100 == 0x1_0000 * p + 0x100 * q + r;
  }

  lemma ParseEncoded(m: Message, rest: seq<Byte>)
    requires Legal(m)
    ensures ParseFrame(Encode(m) + rest) == Frame(m, rest)
  {
    hide BigEndian, FromBigEndian;
    var b := Encode(m) + rest;
    assert b[1..5] == BigEndian(|m.payload|);
    BigEndianRoundTrip(|m.payload|);
    assert b[5..5 + |m.payload|] == m.payload;
    assert b[5 + |m.payload|..] == rest;
  }

  /** A buffer yields a frame exactly when it starts with that frame's encoding. */
  lemma ParseExact(b: seq<Byte>, m: Message, rest: seq<Byte>)
    ensures ParseFrame(b) == Frame(m, rest) <==> Legal(m) && b == Encode(m) + rest
  {
    if ParseFrame(b) == Frame(m, rest) {
      BigEndianCanonical(b[1..5]);
      assert b == [b[0]] + b[1..5] + b[5..5 + |m.payload|] + b[5 + |m.payload|..];
    }
    if Legal(m) && b == Encode(m) + rest {
      ParseEncoded(m, rest);
    }
  }

  lemma {:induction false} EncodeAllAppend(ms: seq<Message>, ns: seq<Message>)
    ensures EncodeAll(ms + ns) == EncodeAll(ms) + EncodeAll(ns)
  {
    hide Encode;
    if ms == [] {
      assert ms + ns == ns;
    } else {
      EncodeAllAppend(ms[1..], ns);
      assert (ms + ns)[1..] == ms[1..] + ns;
    }
  }

  lemma EncodeAllSnoc(ms: seq<Message>, m: Message)
    ensures EncodeAll(ms + [m]) == EncodeAll(ms) + Encode(m)
  {
    EncodeAllAppend(ms, [m]);
    assert EncodeAll([m]) == Encode(m) + EncodeAll([]);
  }

  /** Any sequence of legal messages survives encoding, even with more bytes behind it. */
  lemma {:induction false} ParseAllEncoded(ms: seq<Message>, tail: seq<Byte>)
    requires AllLegal(ms)
    ensures var p := ParseAll(tail);
            ParseAll(EncodeAll(ms) + tail) == Parsed(ms + p.messages, p.residue, p.oversized)
  {
    hide BigEndian, FromBigEndian, ParseFrame;
    if ms == [] {
      assert EncodeAll(ms) + tail == tail;
    } else {
      var rest := EncodeAll(ms[1..]) + tail;
      assert EncodeAll(ms) + tail == Encode(ms[0]) + rest;
      ParseEncoded(ms[0], rest);
      ParseAllEncoded(ms[1..], tail);
    }
  }

  lemma RoundTrip(ms: seq<Message>)
    requires AllLegal(ms)
    ensures ParseAll(EncodeAll(ms)) == Parsed(ms, [], false)
  {
    ParseAllEncoded(ms, []);
    assert EncodeAll(ms) + [] == EncodeAll(ms);
  }

  /** Nothing is lost or invented by parsing: the messages and the residue are the buffer. */
  lemma {:induction false} ParseAllConserves(b: seq<Byte>)
    ensures var p := ParseAll(b);
            && AllLegal(p.messages)
            && b == EncodeAll(p.messages) + p.residue
            && (p.oversized <==> ParseFrame(p.residue).Oversized?)
            && (!p.oversized <==> ParseFrame(p.residue).Incomplete?)
    decreases |b|
  {
    hide BigEndian, FromBigEndian, ParseFrame;
    match ParseFrame(b)
    case Incomplete =>
    case Oversized =>
    case Frame(m, rest) =>
      ParseExact(b, m, rest);
      ParseAllConserves(rest);
      var q := ParseAll(rest);
      assert ([m] + q.messages)[1..] == q.messages;
      assert b == Encode(m) + (EncodeAll(q.messages) + q.residue);
  }

  /** The parse-until-none loop handles at most |b| / 5 frames and leaves less than one frame. */
  lemma {:induction false} ParseAllBound(b: seq<Byte>)
    ensures var p := ParseAll(b);
            && FRAME_HEADER_SIZE * |p.messages| + |p.residue| <= |b|
            && (!p.oversized ==> |p.residue| < FRAME_HEADER_SIZE + MAX_PAYLOAD_SIZE)
  {
    ParseAllConserves(b);
    EncodeAllLength(ParseAll(b).messages);
  }

  lemma {:induction false} EncodeAllLength(ms: seq<Message>)
    ensures |EncodeAll(ms)| >= FRAME_HEADER_SIZE * |ms|
  {
    if ms != [] {
      EncodeAllLength(ms[1..]);
    }
  }

  // ---------- Fragmentation cannot be observed ----------

  lemma ParseFrameExtends(a: seq<Byte>, b: seq<Byte>)
    ensures ParseFrame(a).Oversized? ==> ParseFrame(a + b).Oversized?
    ensures ParseFrame(a).Frame? ==>
              ParseFrame(a + b) == Frame(ParseFrame(a).message, ParseFrame(a).rest + b)
  {
    hide BigEndian, FromBigEndian;
    if |a| >= FRAME_HEADER_SIZE {
      assert (a + b)[1..5] == a[1..5];
      var length := FromBigEndian(a[1..5]);
      if length <= MAX_PAYLOAD_SIZE && |a| >= FRAME_HEADER_SIZE + length {
        assert (a + b)[5..5 + length] == a[5..5 + length];
        assert (a + b)[5 + length..] == a[5 + length..] + b;
      }
    }
  }

  lemma {:induction false} ParseAllSplits(a: seq<Byte>, b: seq<Byte>)
    ensures var p := ParseAll(a);
            if p.oversized
            then ParseAll(a + b) == Parsed(p.messages, p.residue + b, true)
            else var q := ParseAll(p.residue + b);
                 ParseAll(a + b) == Parsed(p.messages + q.messages, q.residue, q.oversized)
    decreases |a|
  {
    hide BigEndian, FromBigEndian, ParseFrame;
    ParseFrameExtends(a, b);
    match ParseFrame(a)
    case Incomplete =>
      assert [] + ParseAll(a + b).messages == ParseAll(a + b).messages;
    case Oversized =>
    case Frame(m, rest) =>
      ParseAllSplits(rest, b);
      var p, q := ParseAll(rest), ParseAll(ParseAll(rest).residue + b);
      assert ([m] + p.messages) + q.messages == [m] + (p.messages + q.messages);
  }

  /** One read event: append what arrived, then parse until none. A connection whose header was
      oversized is gone, so later chunks no longer reach it. */
  function FeedChunk(so: Parsed, chunk: seq<Byte>): Parsed {
    if so.oversized then so
    else
      var p := ParseAll(so.residue + chunk);
      Parsed(so.messages + p.messages, p.residue, p.oversized)
  }

  function FeedAll(so: Parsed, chunks: seq<seq<Byte>>): Parsed
    decreases |chunks|
  {
    if chunks == [] then so else FeedAll(FeedChunk(so, chunks[0]), chunks[1..])
  }

  function Concat(chunks: seq<seq<Byte>>): seq<Byte> {
    if chunks == [] then [] else chunks[0] + Concat(chunks[1..])
  }

  /** Feeding a stream in any chunks gives the messages and the verdict of parsing it at once,
      and the same residue unless the stream was cut off by an oversized header. */
  lemma FragmentationIndependence(chunks: seq<seq<Byte>>)
    ensures var whole := ParseAll(Concat(chunks));
            var fed := FeedAll(Parsed([], [], false), chunks);
            && fed.messages == whole.messages
            && fed.oversized == whole.oversized
            && (!whole.oversized ==> fed.residue == whole.residue)
  {
    FeedAllFrom(Parsed([], [], false), chunks);
    assert [] + Concat(chunks) == Concat(chunks);
  }

  /** What is left after parsing yields no further message. */
  lemma ResidueIsDone(b: seq<Byte>)
    ensures var p := ParseAll(b);
            ParseAll(p.residue) == Parsed([], p.residue, p.oversized)
  {
    hide BigEndian, FromBigEndian, ParseFrame, EncodeAll;
    ParseAllConserves(b);
  }

  lemma {:induction false} FeedAllFrom(so: Parsed, chunks: seq<seq<Byte>>)
    requires ParseAll(so.residue) == Parsed([], so.residue, so.oversized)
    ensures var whole := ParseAll(so.residue + Concat(chunks));
            var fed := FeedAll(so, chunks);
            && fed.messages == so.messages + whole.messages
            && fed.oversized == whole.oversized
            && (!whole.oversized ==> fed.residue == whole.residue)
    decreases |chunks|
  {
    hide ParseAll;
    if chunks == [] {
      assert so.residue + Concat(chunks) == so.residue;
    } else {
      var one := so.residue + chunks[0];
      var later := Concat(chunks[1..]);
      assert so.residue + Concat(chunks) == one + later;
      ParseAllSplits(so.residue, Concat(chunks));
      ParseAllSplits(one, later);
      ResidueIsDone(one);
      var next := FeedChunk(so, chunks[0]);
      FeedAllFrom(next, chunks[1..]);
      ParseAllSplits(next.residue, later);
    }
  }

  // ---------- Prefixes of encoded streams ----------

  /** Receiving a prefix of an encoded stream means receiving a prefix of its messages, with
      what is buffered being a prefix of the encoding of the others. */
  lemma {:induction false} EncodedPrefix(ms: seq<Message>, b: seq<Byte>, ns: seq<Message>)
    requires AllLegal(ms) && AllLegal(ns)
    requires EncodeAll(ms) + b <= EncodeAll(ns)
    ensures ms <= ns
    ensures b <= EncodeAll(ns[|ms|..])
  {
    hide BigEndian, FromBigEndian, ParseFrame;
    if ms == [] {
      assert ns[|ms|..] == ns;
      assert EncodeAll(ms) + b == b;
    } else {
      assert ns != [];
      var got := EncodeAll(ms) + b;
      var tail := EncodeAll(ns)[|got|..];
      assert EncodeAll(ns) == Encode(ms[0]) + (EncodeAll(ms[1..]) + b + tail);
      ParseEncoded(ms[0], EncodeAll(ms[1..]) + b + tail);
      ParseEncoded(ns[0], EncodeAll(ns[1..]));
      assert EncodeAll(ns[1..])[..|EncodeAll(ms[1..]) + b|] == EncodeAll(ms[1..]) + b;
      EncodedPrefix(ms[1..], b, ns[1..]);
      assert ns[1..][|ms[1..]|..] == ns[|ms|..];
      assert ms == [ms[0]] + ms[1..] && ns == [ns[0]] + ns[1..];
    }
  }

  /** A prefix of an encoded stream never looks oversized, and the frame it yields is the next. */
  lemma PrefixNotOversized(b: seq<Byte>, ns: seq<Message>)
    requires AllLegal(ns) && b <= EncodeAll(ns)
    ensures !ParseFrame(b).Oversized?
    ensures ParseFrame(b).Frame? ==> ns != [] && ParseFrame(b).message == ns[0]
  {
    hide BigEndian, FromBigEndian;
    var tail := EncodeAll(ns)[|b|..];
    assert EncodeAll(ns) == b + tail;
    ParseFrameExtends(b, tail);
    if ns != [] {
      ParseEncoded(ns[0], EncodeAll(ns[1..]));
    }
  }

  // ---------- What an incomplete buffer can still become ----------

  function Zeros(n: nat): (z: seq<Byte>)
    ensures |z| == n
  {
    seq(n, _ => 0)
  }

  /** The least payload length the header can still declare, its missing bytes read as zero. */
  function LeastLength(b: seq<Byte>): nat {
    FromBigEndian((b + Zeros(5))[1..5])
  }

  /** A waiting buffer need not be the start of any legal frame: three bytes can already declare
      more than 64 KiB, and the parser only looks once all five are there. It is such a start
      exactly when the length bytes received so far still leave room for a legal length. */
  lemma IncompleteExact(b: seq<Byte>)
    ensures (exists m :: Legal(m) && b < Encode(m))
       <==> ParseFrame(b).Incomplete? && LeastLength(b) <= MAX_PAYLOAD_SIZE
  {
    forall m | Legal(m) && b < Encode(m)
      ensures ParseFrame(b).Incomplete? && LeastLength(b) <= MAX_PAYLOAD_SIZE
    {
      StartOfLegalFrame(b, m);
    }
    if ParseFrame(b).Incomplete? && LeastLength(b) <= MAX_PAYLOAD_SIZE {
      var m := Completion(b);
      assert Legal(m) && b < Encode(m) by { CompletionExtends(b); }
    }
  }

  lemma StartOfLegalFrame(b: seq<Byte>, m: Message)
    requires Legal(m) && b < Encode(m)
    ensures ParseFrame(b).Incomplete? && LeastLength(b) <= MAX_PAYLOAD_SIZE
  {
    var e := Encode(m);
    var tail := e[|b|..];
    assert e == b + tail;
    ParseFrameExtends(b, tail);
    ParseEncoded(m, []);
    assert e + [] == e;
    BigEndianRoundTrip(|m.payload|);
    assert e[1..5] == BigEndian(|m.payload|);
    var z := (b + Zeros(5))[1..5];
    assert forall k | 0 <= k < 4 :: z[k] <= e[1..5][k];
  }

  /** The frame obtained by padding the header and then the payload with zeros. */
  function Completion(b: seq<Byte>): Message {
    var length := LeastLength(b);
    var kind := (b + Zeros(5))[0];
    var body := if |b| > 5 then b[5..] else [];
    Message(kind, body + Zeros(if length > |body| then length - |body| else 0))
  }

  lemma CompletionExtends(b: seq<Byte>)
    requires ParseFrame(b).Incomplete? && LeastLength(b) <= MAX_PAYLOAD_SIZE
    ensures Legal(Completion(b)) && b < Encode(Completion(b))
  {
    var m := Completion(b);
    var header := (b + Zeros(5))[..5];
    assert (b + Zeros(5))[1..5] == header[1..5];
    BigEndianCanonical(header[1..5]);
    if |b| >= 5 {
      assert header == b[..5];
      assert b[1..5] == header[1..5];
      assert b == header + b[5..];
    }
    assert Encode(m) == header + m.payload;
  }

  /** A buffer is refused exactly when its header is complete and declares too much, whether or not
      any payload has arrived. With `ParseExact` this settles every buffer: a frame exactly when it
      starts with one, refused exactly here, and otherwise the parser waits. */
  lemma OversizedExact(b: seq<Byte>)
    ensures ParseFrame(b).Oversized? <==> |b| >= FRAME_HEADER_SIZE && LeastLength(b) > MAX_PAYLOAD_SIZE
  {
    hide FromBigEndian;
    if |b| >= FRAME_HEADER_SIZE {
      assert (b + Zeros(5))[1..5] == b[1..5];
    }
  }

  /** The format in bytes: type, length with its high byte first, payload; and both sides of the
      limit. */
  lemma WireFormat()
    ensures Encode(Message(CHAT, [72, 105])) == [3, 0, 0, 0, 2, 72, 105]
    ensures Encode(CLOSE_FRAME) == [6, 0, 0, 0, 0]
    ensures BigEndian(0x0102_0304) == [1, 2, 3, 4]
    ensures ParseFrame([3, 0, 0, 0, 2, 72, 105, 6]) == Frame(Message(CHAT, [72, 105]), [6])
    ensures ParseFrame([3, 0, 1, 0, 1]).Oversized?
    ensures ParseFrame([3, 0, 1, 0, 0]).Incomplete?
    ensures [CLIENT_HELLO, SERVER_HELLO, CHAT, BROADCAST, CLOSE_CON] == [1, 2, 3, 4, 6]
  {
    var small: seq<Byte> := [3, 0, 0, 0, 2, 72, 105, 6];
    assert small[1..5] == [0, 0, 0, 2] && small[5..7] == [72, 105] && small[7..] == [6];
    var over: seq<Byte> := [3, 0, 1, 0, 1];
    assert over[1..5] == [0, 1, 0, 1];
    var full: seq<Byte> := [3, 0, 1, 0, 0];
    assert full[1..5] == [0, 1, 0, 0];
  }

  /** The witness: the parser waits on these two bytes although no legal frame starts so. */
  lemma WaitingForAnIllegalFrame()
    ensures ParseFrame([CHAT, 1]).Incomplete?
    ensures !exists m :: Legal(m) && [CHAT, 1] < Encode(m)
  {
    IncompleteExact([CHAT, 1]);
    assert ([CHAT, 1] + Zeros(5))[1..5] == [1, 0, 0, 0];
  }
}
