/** One log orders the room: what two members are sent agrees wherever both are sent something,
    every member's life in the log runs join, chats, departure, and every descriptor the server
    ever held is closed once. */
module RoomOrder {
  import opened Frames
  import opened Options
  import opened Connections
  import opened Interest
  import opened Room
  import opened ServerSpec
  import opened ServerPlumbing
  import opened ServerRecords
  import opened ServerInvariant
  import opened ServerHandlers

  lemma {:induction false} OthersAppend(es: seq<Event>, fs: seq<Event>, id: nat)
    ensures Others(es + fs, id) == Others(es, id) + Others(fs, id)
    decreases |fs|
  {
    if fs == [] {
      assert es + fs == es;
    } else {
      var n := |fs| - 1;
      OthersAppend(es, fs[..n], id);
      assert (es + fs)[..|es + fs| - 1] == es + fs[..n];
    }
  }

  /** Leaving out one author and then another does not depend on the order. */
  lemma {:induction false} OthersCommute(es: seq<Event>, a: nat, b: nat)
    ensures Others(Others(es, a), b) == Others(Others(es, b), a)
    decreases |es|
  {
    if es != [] {
      var n := |es| - 1;
      var e := es[n];
      OthersCommute(es[..n], a, b);
      OthersSnoc(Others(es[..n], a), e, b);
      OthersSnoc(Others(es[..n], b), e, a);
    }
  }

  /** Every ACTIVE connection has been queued exactly SERVER_HELLO, then broadcasts whose lines
      are its own join notice and the later log without what it said itself (CLOSE_CONs apart). */
  lemma QueueIsProjection(s: Server, k: nat)
    requires ServerInv(s) && k < |s.conns| && s.conns[k].state == ACTIVE
    ensures var c := s.conns[k];
            && c.joinedAt.Some? && c.joinedAt.value < |s.log|
            && var j := c.joinedAt.value;
               && s.log[j] == Joined(c.peer, c.name)
               && c.queued != [] && c.queued[0] == Message(SERVER_HELLO, s.name) && DownShape(s.name, c.queued)
               && Bodies(c.queued, BROADCAST)
                  == [Render(s.name, s.log[j]).payload] + Lines(s.name, Others(s.log[j + 1..], c.peer))
               && EncodeAll(c.queued) == c.sent + Unsent(c)
  {
    hide Others, Render, Bodies, EncodeAll, EventsOf, ParseFrame;
    InvAt(s, k);
    var c := s.conns[k];
    var j := c.joinedAt.value;
    assert s.log[j..] == [s.log[j]] + s.log[j + 1..];
    OthersAppend([s.log[j]], s.log[j + 1..], c.peer);
    OthersSnoc([], s.log[j], c.peer);
    assert [] + [s.log[j]] == [s.log[j]];
    assert Others([], c.peer) == [] by { NoOthers(c.peer); }
  }

  lemma NoOthers(id: nat)
    ensures Others([], id) == []
  {
  }

  /** Two members: from the later join on, both are sent the same log, and leaving out what the
      other said gives the same sequence of events on both sides. */
  lemma CommonOrder(s: Server, a: nat, b: nat)
    requires ServerInv(s) && a < |s.conns| && b < |s.conns|
    requires s.conns[a].state == ACTIVE && s.conns[b].state == ACTIVE
    requires s.conns[a].joinedAt.Some? && s.conns[b].joinedAt.Some?
    requires s.conns[a].joinedAt.value <= s.conns[b].joinedAt.value <= |s.log|
    ensures var (c, d) := (s.conns[a], s.conns[b]);
            var (i, j) := (c.joinedAt.value, d.joinedAt.value);
            && Bodies(c.queued, BROADCAST) ==
               Lines(s.name, Others(s.log[i..j], c.peer)) + Lines(s.name, Others(s.log[j..], c.peer))
            && Bodies(d.queued, BROADCAST) == Lines(s.name, Others(s.log[j..], d.peer))
            && Others(Others(s.log[j..], c.peer), d.peer) == Others(Others(s.log[j..], d.peer), c.peer)
  {
    hide Others, Render, Bodies, EncodeAll, EventsOf, ParseFrame;
    InvAt(s, a);
    InvAt(s, b);
    var (c, d) := (s.conns[a], s.conns[b]);
    var (i, j) := (c.joinedAt.value, d.joinedAt.value);
    assert s.log[i..] == s.log[i..j] + s.log[j..];
    OthersAppend(s.log[i..j], s.log[j..], c.peer);
    OthersCommute(s.log[j..], c.peer, d.peer);
  }

  // ---------- Lifecycle ----------

  /** Where an event of `id` stands among the events of `id`. */
  lemma {:induction false} EventPlace(log: seq<Event>, id: nat, a: nat)
    requires a < |log| && Subject(log[a]) == Some(id)
    ensures |EventsOf(log[..a], id)| < |EventsOf(log, id)|
    ensures EventsOf(log, id)[|EventsOf(log[..a], id)|] == log[a]
    decreases |log|
  {
    var n := |log| - 1;
    if a < n {
      EventPlace(log[..n], id, a);
      assert log[..n][..a] == log[..a];
    }
  }

  lemma EventPlaceMonotone(log: seq<Event>, id: nat, a: nat, b: nat)
    requires a < b <= |log| && Subject(log[a]) == Some(id)
    ensures |EventsOf(log[..a], id)| < |EventsOf(log[..b], id)|
  {
    EventPlace(log[..b], id, a);
    assert log[..b][..a] == log[..a];
  }

  /** The record that a connection identity belongs to, listed or retired. */
  ghost predicate Recorded(s: Server, c: Conn) {
    c in s.conns || c in s.retired
  }

  /** No event of a connection precedes its join, there is no second join, and nothing follows its
      departure. */
  lemma Lifecycle(s: Server, a: nat, id: nat)
    requires Halted(s)
    requires a < |s.log| && Subject(s.log[a]) == Some(id)
    ensures exists j :: 0 <= j <= a && s.log[j].Joined? && s.log[j].id == id
    ensures forall b | a < b < |s.log| && Subject(s.log[b]) == Some(id) :: !s.log[b].Joined? && !s.log[a].Left?
  {
    hide Halted, Subject;
    JoinFirst(s, a, id);
    forall b | a < b < |s.log| && Subject(s.log[b]) == Some(id)
      ensures !s.log[b].Joined? && !s.log[a].Left?
    {
      InOrder(s, a, b, id);
    }
  }

  lemma InOrder(s: Server, a: nat, b: nat, id: nat)
    requires Halted(s)
    requires a < b < |s.log| && Subject(s.log[a]) == Some(id) && Subject(s.log[b]) == Some(id)
    ensures !s.log[b].Joined? && !s.log[a].Left?
  {
    hide Plumbed, Past, Others, Bodies, EncodeAll, ParseFrame, Story, EventsOf;
    EventPlace(s.log, id, a);
    EventPlace(s.log, id, b);
    EventPlaceMonotone(s.log, id, a, b);
    assert id in Ids(s);
    var c := RecordOf(s, id);
    RecordStory(s, c);
    StoryOrder(c);
  }

  lemma JoinFirst(s: Server, a: nat, id: nat)
    requires Halted(s)
    requires a < |s.log| && Subject(s.log[a]) == Some(id)
    ensures exists j :: 0 <= j <= a && s.log[j].Joined? && s.log[j].id == id
  {
    hide Plumbed, Past, Others, Bodies, EncodeAll, ParseFrame, Story, EventsOf;
    EventPlace(s.log, id, a);
    assert id in Ids(s);
    var c := RecordOf(s, id);
    RecordStory(s, c);
    StoryOrder(c);
    var j := c.joinedAt.value;
    assert s.log[j].Joined? && s.log[j].id == id;
    if a < j {
      EventPlaceMonotone(s.log, id, a, j);
      EventPlace(s.log, id, j);
    }
  }

  ghost function RecordOf(s: Server, id: nat): (c: Conn)
    requires id in Ids(s)
    ensures Recorded(s, c) && c.peer == id
  {
    if id in Peers(s.conns) then
      var k :| 0 <= k < |s.conns| && s.conns[k].peer == id; s.conns[k]
    else
      var k :| 0 <= k < |s.retired| && s.retired[k].peer == id; s.retired[k]
  }

  lemma RecordStory(s: Server, c: Conn)
    requires Halted(s) && Recorded(s, c) && EventsOf(s.log, c.peer) != []
    ensures EventsOf(s.log, c.peer) <= Story(c) + [Left(c.peer, c.name)]
    ensures c.joinedAt.Some? && c.joinedAt.value < |s.log| && s.log[c.joinedAt.value] == Joined(c.peer, c.name)
  {
    hide Others, Bodies, EncodeAll, ParseFrame, Story, EventsOf, Plumbed;
    assert Past(s.name, s.log, c);
  }

  lemma StoryOrder(c: Conn)
    ensures var es := Story(c) + [Left(c.peer, c.name)];
            && es[0].Joined?
            && (forall k | 0 <= k < |es| - 1 :: !es[k].Left?)
            && (forall k | 1 <= k < |es| :: !es[k].Joined?)
  {
    hide Bodies;
  }

  // ---------- Descriptors ----------

  lemma {:induction false} CloseCallsReplay(calls: seq<FdCall>, conns: seq<Conn>, open: set<int>)
    requires Replay(calls) == Some(open) && Fds(conns) <= open
    requires forall j, k | 0 <= j < k < |conns| :: conns[j].fd != conns[k].fd
    ensures Replay(calls + CloseCalls(conns)) == Some(open - Fds(conns))
    decreases |conns|
  {
    hide Replay;
    if conns == [] {
      assert calls + CloseCalls(conns) == calls;
      assert open - Fds(conns) == open;
    } else {
      var fd := conns[0].fd;
      var rest := conns[1..];
      assert fd in Fds(conns);
      ReplaySnoc(calls, Closed(fd));
      forall g | g in Fds(rest) ensures g in Fds(conns) && g != fd {
        var j :| 0 <= j < |rest| && rest[j].fd == g;
        assert conns[j + 1].fd == g;
      }
      forall g | g in Fds(conns) && g != fd ensures g in Fds(rest) {
        var j :| 0 <= j < |conns| && conns[j].fd == g;
        assert rest[j - 1].fd == g;
      }
      assert forall j | 0 <= j < |rest| :: rest[j] == conns[j + 1];
      CloseCallsReplay(calls + [Closed(fd)], rest, open - {fd});
      assert calls + CloseCalls(conns) == (calls + [Closed(fd)]) + CloseCalls(rest);
      assert open - {fd} - Fds(rest) == open - Fds(conns);
    }
  }

  /** Whatever stopped the loop, cleanup leaves no descriptor open and closes none twice: the
      whole sequence of opens and closes replays, and ends with nothing open. */
  lemma EveryDescriptorClosedOnce(name: Text, listenFd: int, wakeups: seq<Wakeup>)
    requires listenFd != STDIN_FD && LegalRun(Init(name, listenFd), wakeups)
    ensures var t := Cleanup(EventLoop(Init(name, listenFd), wakeups).server);
            Replay(t.calls) == Some({}) && t.conns == []
  {
    hide Rest, Halted, Init, EventLoop;
    EveryRun(name, listenFd, wakeups);
    var r := EventLoop(Init(name, listenFd), wakeups);
    if r.ok {
      InvHalts(r.server);
    }
    CleanupReplay(r.server);
  }

  lemma CleanupReplay(s: Server)
    requires Halted(s)
    ensures Replay(Cleanup(s).calls) == Some({})
  {
    hide Replay, Lookup, Find, Past;
    PlumbedFds(s);
    ReplaySnoc(s.calls, Closed(s.listenFd));
    assert s.listenFd !in Fds(s.conns);
    assert {s.listenFd} + Fds(s.conns) - {s.listenFd} == Fds(s.conns);
    CloseCallsReplay(s.calls + [Closed(s.listenFd)], s.conns, Fds(s.conns));
    assert Fds(s.conns) - Fds(s.conns) == {};
  }

  /** A closed descriptor is in neither the connection list nor the interest list, also after a
      handler has failed (InvHalts: what holds between events implies `Halted`). */
  lemma NoClosedDescriptorWatched(s: Server)
    requires Halted(s)
    ensures Replay(s.calls).Some?
    ensures forall k | 0 <= k < |s.conns| :: s.conns[k].fd in Replay(s.calls).value
    ensures forall k | 0 <= k < |s.entries| :: s.entries[k].fd == STDIN_FD || s.entries[k].fd in Replay(s.calls).value
  {
    hide Replay;
    forall k | 0 <= k < |s.entries|
      ensures s.entries[k].fd == STDIN_FD || s.entries[k].fd in Replay(s.calls).value
    {
      if k >= 2 {
        assert s.entries[k].fd == s.conns[k - 2].fd;
      }
    }
  }
}
