/** What happens in the room and the text each happening is broadcast as. */
module Room {
  import opened Frames
  import opened Options

  function Ascii(s: string): (t: Text)
    ensures |t| == |s|
  {
    seq(|s|, i requires 0 <= i < |s| => (s[i] as int) % 256)
  }

  const SPACE: Byte := 32

  function QuitCommand(): Text {
    Ascii("/quit")
  }

  lemma QuitText()
    ensures QuitCommand() == [47, 113, 117, 105, 116]
  {
  }

  /** format_broadcast_message: "[name] text". */
  function Format(name: Text, text: Text): Text {
    Ascii("[") + name + Ascii("] ") + text
  }

  /** One entry of the room log. `id` is the connection the event is about; names and texts are
      the bytes at the time. */
  datatype Event =
    | Joined(id: nat, name: Text)
    | Left(id: nat, name: Text)
    | Said(id: nat, name: Text, text: Text)
    | HostSaid(text: Text)
    | RoomClosing

  function ServerName(): Text {
    Ascii("server")
  }

  /** The BROADCAST frame of an event in the room of `host`. */
  function Render(host: Text, e: Event): Message {
    match e
    case Joined(_, name) => Message(BROADCAST, Format(ServerName(), Ascii("`") + name + Ascii("` connected.")))
    case Left(_, name) => Message(BROADCAST, Format(ServerName(), Ascii("`") + name + Ascii("` disconnected.")))
    case Said(_, name, text) => Message(BROADCAST, Format(name, text))
    case HostSaid(text) => Message(BROADCAST, Format(host, text))
    case RoomClosing => Message(BROADCAST, Format(ServerName(), Ascii("room is closing.")))
  }

  /** The exact frame lengths that the size bounds on names and chats come from. */
  lemma RenderedLength(host: Text, e: Event)
    ensures |Render(host, e).payload| ==
              match e
              case Joined(_, name) => |name| + 22
              case Left(_, name) => |name| + 25
              case Said(_, name, text) => |name| + |text| + 3
              case HostSaid(text) => |host| + |text| + 3
              case RoomClosing => 25
  {
  }

  lemma AsciiAppend(a: string, b: string)
    ensures Ascii(a) + Ascii(b) == Ascii(a + b)
  {
  }

  /** The texts of the room, spelled out for names and texts that are written in ASCII. */
  lemma RoomTexts(host: Text, id: nat, name: string, text: string)
    ensures Render(host, Joined(id, Ascii(name))).payload == Ascii("[server] `" + name + "` connected.")
    ensures Render(host, Left(id, Ascii(name))).payload == Ascii("[server] `" + name + "` disconnected.")
    ensures Render(host, Said(id, Ascii(name), Ascii(text))).payload == Ascii("[" + name + "] " + text)
    ensures Render(host, RoomClosing).payload == Ascii("[server] room is closing.")
  {
    hide Ascii;
    BracketText(name, text);
    BracketText("server", "`" + name + "` connected.");
    BracketText("server", "`" + name + "` disconnected.");
    BracketText("server", "room is closing.");
    QuotedText(name, "` connected.");
    QuotedText(name, "` disconnected.");
    Literals("`" + name + "` connected.");
    Literals("`" + name + "` disconnected.");
    Literals("room is closing.");
    assert "[server] " + ("`" + name + "` connected.") == "[server] `" + name + "` connected.";
    assert "[server] " + ("`" + name + "` disconnected.") == "[server] `" + name + "` disconnected.";
    assert "[server] " + "room is closing." == "[server] room is closing.";
  }

  lemma Literals(text: string)
    ensures "[" + "server" + "] " + text == "[server] " + text
  {
  }

  lemma BracketText(name: string, text: string)
    ensures Format(Ascii(name), Ascii(text)) == Ascii("[" + name + "] " + text)
  {
    hide Ascii;
    AsciiAppend("[", name);
    AsciiAppend("[" + name, "] ");
    AsciiAppend("[" + name + "] ", text);
  }

  lemma QuotedText(name: string, rest: string)
    ensures Ascii("`") + Ascii(name) + Ascii(rest) == Ascii("`" + name + rest)
  {
    hide Ascii;
    AsciiAppend("`", name);
    AsciiAppend("`" + name, rest);
  }

  /** The connection that is left out when the event is broadcast. */
  function Author(e: Event): Option<nat> {
    match e
    case Said(id, _, _) => Some(id)
    case Left(id, _) => Some(id)
    case _ => None
  }

  function Subject(e: Event): Option<nat> {
    if e.Joined? then Some(e.id) else Author(e)
  }

  /** The events of `log` that connection `id` is sent. */
  function Others(log: seq<Event>, id: nat): seq<Event> {
    if log == [] then []
    else
      var e := log[|log| - 1];
      var earlier := Others(log[..|log| - 1], id);
      if Author(e) == Some(id) then earlier else earlier + [e]
  }

  /** The events of `log` about connection `id`. */
  function EventsOf(log: seq<Event>, id: nat): seq<Event> {
    if log == [] then []
    else
      var e := log[|log| - 1];
      var earlier := EventsOf(log[..|log| - 1], id);
      if Subject(e) == Some(id) then earlier + [e] else earlier
  }

  /** The lines that the frames of `events` put on a client's screen. */
  function Lines(host: Text, events: seq<Event>): (texts: seq<Text>)
    ensures |texts| == |events|
  {
    seq(|events|, k requires 0 <= k < |events| => Render(host, events[k]).payload)
  }

  function Saids(id: nat, name: Text, texts: seq<Text>): (es: seq<Event>)
    ensures |es| == |texts|
  {
    seq(|texts|, k requires 0 <= k < |texts| => Said(id, name, texts[k]))
  }

  /** The payloads of the frames of one kind, in order. */
  function Bodies(ms: seq<Message>, kind: Byte): seq<Text> {
    if ms == [] then []
    else
      var m := ms[|ms| - 1];
      var earlier := Bodies(ms[..|ms| - 1], kind);
      if m.kind == kind then earlier + [m.payload] else earlier
  }

  lemma OthersSnoc(log: seq<Event>, e: Event, id: nat)
    ensures Others(log + [e], id) == Others(log, id) + if Author(e) == Some(id) then [] else [e]
  {
    assert (log + [e])[..|log|] == log;
  }

  lemma EventsOfSnoc(log: seq<Event>, e: Event, id: nat)
    ensures EventsOf(log + [e], id) == EventsOf(log, id) + if Subject(e) == Some(id) then [e] else []
  {
    assert (log + [e])[..|log|] == log;
  }

  lemma BodiesSnoc(ms: seq<Message>, m: Message, kind: Byte)
    ensures Bodies(ms + [m], kind) == Bodies(ms, kind) + if m.kind == kind then [m.payload] else []
  {
    assert (ms + [m])[..|ms|] == ms;
  }

  lemma {:induction false} BodiesPrefix(ms: seq<Message>, ns: seq<Message>, kind: Byte)
    requires ms <= ns
    ensures Bodies(ms, kind) <= Bodies(ns, kind)
    decreases |ns|
  {
    if |ms| < |ns| {
      BodiesPrefix(ms, ns[..|ns| - 1], kind);
    } else {
      assert ms == ns;
    }
  }

  // ---------- Room text is uniquely decodable for names without spaces ----------

  predicate Spaceless(name: Text) {
    SPACE !in name
  }

  function FirstSpace(t: Text): (k: nat)
    ensures k <= |t| && SPACE !in t[..k]
    ensures k < |t| ==> t[k] == SPACE
  {
    if t == [] || t[0] == SPACE then 0
    else
      var k := FirstSpace(t[1..]);
      assert t[..k + 1] == [t[0]] + t[1..][..k];
      k + 1
  }

  /** Name and text as a reader splits them: the name ends at the bracket before the first space. */
  function Decode(line: Text): Option<(Text, Text)> {
    var k := FirstSpace(line);
    if 2 <= k < |line| then Some((line[1..k - 1], line[k + 1..])) else None
  }

  lemma FirstSpaceIs(t: Text, k: nat)
    requires k < |t| && t[k] == SPACE && SPACE !in t[..k]
    ensures FirstSpace(t) == k
  {
    var j := FirstSpace(t);
    assert j < |t| && t[j] == SPACE;
  }

  /** The broadcast text determines who said what exactly for the names without a space. */
  lemma DecodeExact(name: Text, text: Text)
    ensures Decode(Format(name, text)) == Some((name, text)) <==> Spaceless(name)
  {
    var line := Format(name, text);
    var k := |name| + 2;
    assert line[..k] == Ascii("[") + name + [Ascii("] ")[0]];
    assert line[1..k - 1] == name && line[k + 1..] == text && line[k] == SPACE;
    if Spaceless(name) {
      FirstSpaceIs(line, k);
    } else {
      var i :| 0 <= i < |name| && name[i] == SPACE;
      var j := FirstSpace(line);
      assert line[i + 1] == SPACE;
      assert j <= i + 1;
      assert |line[j + 1..]| > |text|;
    }
  }

  function Lower(b: Byte): Byte {
    if 65 <= b <= 90 then b + 32 else b
  }

  function Lowercase(name: Text): Text {
    seq(|name|, k requires 0 <= k < |name| => Lower(name[k]))
  }

  /** name_is_reserved, the check the prompts make before a name is used. */
  predicate Reserved(name: Text) {
    var lower := Lowercase(name);
    lower == Ascii("client") || lower == Ascii("server") || lower == Ascii("app")
  }

  /** The names the prompts let through: one whitespace-free word that is not reserved. */
  predicate HonestName(name: Text) {
    name != [] && Spaceless(name) && !Reserved(name)
  }

  predicate Notice(e: Event) {
    e.Joined? || e.Left? || e.RoomClosing?
  }

  // ---------- Which names can forge a notice ----------

  const FORGING_PREFIX := "server] `"

  /** The names under which a line can be said that reads like a notice of the server: its own,
      and those that carry its bracket and the opening quote inside them. */
  predicate CanForge(name: Text) {
    name == ServerName() || Ascii(FORGING_PREFIX) <= name
  }

  function NoticeText(e: Event): Text
    requires Notice(e)
  {
    match e
    case Joined(_, name) => Ascii("`") + name + Ascii("` connected.")
    case Left(_, name) => Ascii("`") + name + Ascii("` disconnected.")
    case RoomClosing => Ascii("room is closing.")
  }

  /** A line to say under a forging name, and the notice it then reads like. */
  function Forgery(name: Text): (Text, Event)
    requires CanForge(name)
  {
    if name == ServerName() then (Ascii("room is closing."), RoomClosing)
    else (Ascii("` connected."), Joined(0, name[|FORGING_PREFIX|..] + Ascii("] ")))
  }

  lemma ForgeryWorks(host: Text, name: Text)
    requires CanForge(name)
    ensures var (text, notice) := Forgery(name);
            Notice(notice) && Format(name, text) == Render(host, notice).payload
  {
    if name != ServerName() {
      var w := name[|FORGING_PREFIX|..];
      assert name == Ascii(FORGING_PREFIX) + w;
      assert Ascii("[") + Ascii(FORGING_PREFIX) == Ascii("[") + ServerName() + Ascii("] ") + Ascii("`");
    }
  }

  const BRACKET: Byte := 93

  lemma FormatParts(name: Text, text: Text)
    ensures var line := Format(name, text);
            && |line| == |name| + |text| + 3
            && line[1..|name| + 1] == name && line[|name| + 3..] == text
            && line[|name| + 1] == BRACKET && line[|name| + 2] == SPACE
  {
    var line := Format(name, text);
    assert Ascii("] ") == [BRACKET, SPACE];
    assert line[1..|name| + 1] == name;
  }

  lemma ServerNameText()
    ensures ServerName() == [115, 101, 114, 118, 101, 114]
    ensures Ascii(FORGING_PREFIX) == ServerName() + [BRACKET, SPACE, 96]
  {
  }

  /** Whoever says a line that reads like a notice has a forging name. */
  lemma OnlyForgers(name: Text, text: Text, notice: Event)
    requires Notice(notice) && Format(name, text) == Format(ServerName(), NoticeText(notice))
    ensures CanForge(name)
  {
    hide Format, Ascii, ServerName, NoticeText;
    var line := Format(name, text);
    var body := NoticeText(notice);
    var n := |name|;
    FormatParts(name, text);
    FormatParts(ServerName(), body);
    ServerNameText();
    assert forall k | 0 <= k < 6 :: line[k + 1] == line[1..7][k] != BRACKET;
    if n > 6 {
      assert n != 7;
      assert body[n - 8] == line[9..][n - 8] == BRACKET;
      NoticeStarts(notice);
      assert line[9] == line[9..][0] == 96;
      LongNameForges(name, line, n);
    }
  }

  lemma LongNameForges(name: Text, line: Text, n: nat)
    requires 9 <= n < |line| && name == line[1..n + 1]
    requires line[1..7] == ServerName() && line[7] == BRACKET && line[8] == SPACE && line[9] == 96
    ensures Ascii(FORGING_PREFIX) <= name
  {
    hide Ascii, ServerName;
    ServerNameText();
    assert line[1..10] == line[1..7] + [line[7], line[8], line[9]];
    assert name[..9] == line[1..10];
  }

  /** A notice that has a bracket anywhere starts with the opening quote. */
  lemma NoticeStarts(notice: Event)
    requires Notice(notice) && BRACKET in NoticeText(notice)
    ensures NoticeText(notice)[0] == 96
  {
    NoBracket();
  }

  lemma NoBracket()
    ensures BRACKET !in Ascii("room is closing.")
  {
    var s := "room is closing.";
    assert forall k | 0 <= k < |s| :: s[k] != ']' && (s[k] as int) < 128;
  }

  /** Some line said under this name reads like a notice if and only if the name can forge one. */
  lemma ForgeryExactly(host: Text, id: nat, name: Text)
    ensures (exists text, notice :: Notice(notice) && Render(host, Said(id, name, text)) == Render(host, notice))
       <==> CanForge(name)
  {
    forall text, notice | Notice(notice) && Render(host, Said(id, name, text)) == Render(host, notice)
      ensures CanForge(name)
    {
      OnlyForgers(name, text, notice);
    }
    if CanForge(name) {
      ForgeryWorks(host, name);
      var (text, notice) := Forgery(name);
      assert Notice(notice) && Render(host, Said(id, name, text)) == Render(host, notice);
    }
  }

  /** The same of the host's own lines and name. */
  lemma HostForgeryExactly(host: Text)
    ensures (exists text, notice :: Notice(notice) && Render(host, HostSaid(text)) == Render(host, notice))
       <==> CanForge(host)
  {
    forall text, notice | Notice(notice) && Render(host, HostSaid(text)) == Render(host, notice)
      ensures CanForge(host)
    {
      OnlyForgers(host, text, notice);
    }
    if CanForge(host) {
      ForgeryWorks(host, host);
      var (text, notice) := Forgery(host);
      assert Notice(notice) && Render(host, HostSaid(text)) == Render(host, notice);
    }
  }

  /** The names the prompts let through are not among them. */
  lemma HonestCannotForge(name: Text)
    requires HonestName(name)
    ensures !CanForge(name)
  {
    assert Lowercase(ServerName()) == ServerName();
    assert ServerName() == [115, 101, 114, 118, 101, 114] == Ascii("server");
    assert Ascii(FORGING_PREFIX)[7] == SPACE;
  }
}
