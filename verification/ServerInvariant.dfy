/** The invariant of the server between events, that every handler keeps when it returns true,
    and what is left of it when a handler returns false. */
module ServerInvariant {
  import opened Frames
  import opened Options
  import opened Connections
  import opened Interest
  import opened Room
  import opened ServerSpec
  import opened ServerPlumbing
  import opened ServerRecords

  /** EPOLLOUT is asked for exactly while there is something to send; and until the room is
      closing, input and hang-up are always asked for. */
  predicate OutFlag(s: Server, k: nat)
    requires k < |s.conns| && k + 2 < |s.entries|
  {
    var events := s.entries[k + 2].events;
    var sending := s.conns[k].outBuffer != [];
    && (events.output <==> sending)
    && (!s.closing ==> events == if sending then IN_OUT_RDHUP else IN_RDHUP)
  }

  ghost predicate SettledAt(s: Server, k: nat)
    requires k < |s.conns| && k + 2 < |s.entries|
  {
    Good(s.name, s.log, s.conns[k]) && OutFlag(s, k)
  }

  /** Nothing is logged about connections that were never accepted. */
  ghost predicate NoStrangers(s: Server) {
    forall id: nat :: id !in Ids(s) ==> EventsOf(s.log, id) == []
  }

  ghost predicate RetiredPast(s: Server) {
    forall k | 0 <= k < |s.retired| :: Past(s.name, s.log, s.retired[k])
  }

  /** Everything is in order, except perhaps connection number i, which is being handled. */
  ghost predicate Rest(s: Server, i: int) {
    && Plumbed(s) && NoStrangers(s) && RetiredPast(s)
    && forall k | 0 <= k < |s.conns| && k != i :: SettledAt(s, k)
  }

  const NOBODY := -1

  /** The invariant between events. */
  ghost predicate ServerInv(s: Server) {
    Rest(s, NOBODY)
  }

  /** What is left once a handler has returned false. */
  ghost predicate Halted(s: Server) {
    && Plumbed(s) && NoStrangers(s) && RetiredPast(s)
    && forall k | 0 <= k < |s.conns| :: Past(s.name, s.log, s.conns[k])
  }

  lemma RestHalts(s: Server, i: int)
    requires Rest(s, i)
    requires 0 <= i < |s.conns| ==> Past(s.name, s.log, s.conns[i])
    ensures Halted(s)
  {
    hide Good, Past, NoStrangers, RetiredPast, OutFlag;
    forall k | 0 <= k < |s.conns|
      ensures Past(s.name, s.log, s.conns[k])
    {
      if k != i {
        assert SettledAt(s, k);
        GoodIsPast(s.name, s.log, s.conns[k]);
      }
    }
  }

  /** Everyone is settled once the connection being handled is. */
  lemma RestSettles(s: Server, i: int)
    requires Rest(s, i)
    requires 0 <= i < |s.conns| ==> SettledAt(s, i)
    ensures ServerInv(s)
  {
  }

  /** Handling a connection may change anything about it but who it is. */
  lemma PutRest(s: Server, i: nat, c: Conn)
    requires Rest(s, NOBODY) || Rest(s, i)
    requires i < |s.conns| && c.fd == s.conns[i].fd && c.peer == s.conns[i].peer
    ensures Rest(Put(s, i, c), i) && Ids(Put(s, i, c)) == Ids(s)
  {
    hide Good, Past, Ids;
    var t := Put(s, i, c);
    SameWiringPlumbed(s, t);
    forall k | 0 <= k < |t.conns| && k != i
      ensures SettledAt(t, k)
    {
      assert SettledAt(s, k);
    }
    assert NoStrangers(t);
  }

  /** So may its entry in the interest list. */
  lemma ModRest(s: Server, i: nat, events: Events)
    requires Rest(s, i) && i < |s.conns|
    ensures var r := Ctl(s.entries, Mod, s.conns[i].fd, events);
            && r.ok
            && r.entries == s.entries[i + 2 := Entry(s.conns[i].fd, events)]
            && Rest(s.(entries := r.entries), i)
            && Ids(s.(entries := r.entries)) == Ids(s)
  {
    hide Good, Past, Ids, Find, Lookup;
    PlumbedFds(s);
    var r := Ctl(s.entries, Mod, s.conns[i].fd, events);
    var t := s.(entries := r.entries);
    SameWiringPlumbed(s, t);
    forall k | 0 <= k < |t.conns| && k != i
      ensures SettledAt(t, k)
    {
      assert SettledAt(s, k);
    }
    assert NoStrangers(t);
  }

  lemma RemoveRest(s: Server, i: nat)
    requires Rest(s, i) && i < |s.conns| && Past(s.name, s.log, s.conns[i])
    ensures ServerInv(Remove(s, i)) && Ids(Remove(s, i)) == Ids(s)
  {
    hide Good, Past, Ids, Find, Lookup, Plumbed, Ctl;
    assert Wired(s) by { PlumbedIsWired(s); }
    RemovePlumbed(s, i);
    var t := Remove(s, i);
    PlumbedIsWired(t);
    forall k | 0 <= k < |t.conns|
      ensures SettledAt(t, k)
    {
      assert SettledAt(s, Skip(i, k));
    }
    assert NoStrangers(t);
    assert RetiredPast(t);
  }

  lemma PlumbedIsWired(s: Server)
    requires Plumbed(s)
    ensures Wired(s)
  {
  }

  // ---------- Broadcast ----------

  /** Re-arming entries touches exactly the entries of the chosen connections. */
  lemma ArmAt(s: Server, fds: set<int>, events: Events, k: nat)
    requires Wired(s) && k < |s.conns|
    ensures Arm(s.entries, fds, events)[k + 2] ==
              if s.conns[k].fd in fds then Entry(s.conns[k].fd, events) else s.entries[k + 2]
  {
  }

  lemma RecipientFdsAt(s: Server, e: Event, k: nat)
    requires Wired(s) && k < |s.conns|
    ensures s.conns[k].fd in RecipientFds(s.conns, e) <==> Recipient(s.conns[k], e)
  {
    hide Recipient, Lookup, Find;
    PlumbedFds(s);
  }

  /** One event about nobody but connection i reaches everyone else, or nothing happens to the
      buffers because its frame is too large for someone to receive. */
  lemma DeliverRest(s: Server, i: int, e: Event)
    requires Rest(s, i)
    requires Subject(e).Some? ==> 0 <= i < |s.conns| && Subject(e).value == s.conns[i].peer
    ensures var r := Deliver(s, e);
            && |r.server.conns| == |s.conns|
            && (r.ok ==> Rest(r.server, i))
            && (!r.ok && (0 <= i < |s.conns| ==> Past(s.name, s.log, s.conns[i])) ==> Halted(r.server))
  {
    hide Rest, Halted, Recipient, Legal, Render, QueueMessage, Arm, RecipientFds, Past;
    var r := Deliver(s, e);
    if r.ok {
      DeliveredRest(s, i, e, r.server);
    } else if 0 <= i < |s.conns| ==> Past(s.name, s.log, s.conns[i]) {
      RestHalts(s, i);
      RefusedHalts(s, FirstRecipient(s.conns, e));
    }
  }

  lemma RefusedHalts(s: Server, k: nat)
    requires Halted(s) && k < |s.conns|
    ensures Halted(Put(s, k, Failed(s.conns[k], OversizedQueue)))
  {
    hide Ids, Feed, EventsOf, Bodies, EncodeAll, ParseFrame, Story;
    var t := Put(s, k, Failed(s.conns[k], OversizedQueue));
    SameWiringPlumbed(s, t);
    var c := s.conns[k];
    assert Past(s.name, s.log, c);
    if c.joinedAt.Some? {
      SameFeed(s.name, s.log, c, t.conns[k]);
    }
    SameStory(c, t.conns[k]);
    assert Past(s.name, s.log, t.conns[k]);
    assert NoStrangers(t);
  }

  lemma DeliveredRest(s: Server, i: int, e: Event, t: Server)
    requires Rest(s, i) && Deliver(s, e) == Step(t, true)
    requires Subject(e).Some? ==> 0 <= i < |s.conns| && Subject(e).value == s.conns[i].peer
    ensures Rest(t, i)
  {
    hide Good, Past, Render, Ids, FirstRecipient, EventsOf;
    SameWiringPlumbed(s, t);
    forall k | 0 <= k < |t.conns| && k != i
      ensures SettledAt(t, k)
    {
      DeliveredAt(s, i, e, t, k);
    }
    forall k | 0 <= k < |t.retired|
      ensures Past(t.name, t.log, t.retired[k])
    {
      if Subject(e).Some? {
        assert s.conns[i].peer in Peers(s.conns) && s.retired[k].peer in Peers(s.retired);
      }
      PastExtends(s.name, s.log, s.retired[k], e);
    }
    forall id: nat | id !in Ids(t)
      ensures EventsOf(t.log, id) == []
    {
      if Subject(e).Some? {
        assert s.conns[i].peer in Ids(s) by { PeerKnown(s, i); }
      }
      EventsOfSnoc(s.log, e, id);
    }
  }

  lemma PeerKnown(s: Server, i: nat)
    requires i < |s.conns|
    ensures s.conns[i].peer in Ids(s)
  {
    assert s.conns[i].peer in Peers(s.conns);
  }

  lemma DeliveredAt(s: Server, i: int, e: Event, t: Server, k: nat)
    requires Rest(s, i) && Deliver(s, e) == Step(t, true) && Wired(t)
    requires Subject(e).Some? ==> 0 <= i < |s.conns| && Subject(e).value == s.conns[i].peer
    requires k < |s.conns| && k != i
    ensures SettledAt(t, k)
  {
    hide Past, Render, Ids, FirstRecipient, EventsOf, Rest, Wired, Arm, RecipientFds, Good, Legal, QueueMessage;
    hide Subject, Author;
    assert Wired(s) && SettledAt(s, k) && DistinctPeers(s.conns) by { UnfoldRest(s, i, k); }
    ArmAt(s, RecipientFds(s.conns, e), IN_OUT_RDHUP, k);
    RecipientFdsAt(s, e, k);
    assert |t.conns| == |s.conns| && |t.entries| == |s.conns| + 2 by { Sizes(t); }
    NotSubject(s, i, e, k);
    if s.conns[k].state == ACTIVE {
      assert Recipient(s.conns[k], e) && Legal(Render(s.name, e)) by { RecipientLegal(s, e, k, t); }
      GoodReceives(s.name, s.log, s.conns[k], e);
      Lengthens(s.conns[k], Render(s.name, e));
    } else {
      GoodUnaffected(s.name, s.log, s.conns[k], e);
    }
  }

  lemma UnfoldRest(s: Server, i: int, k: nat)
    requires Rest(s, i) && k < |s.conns| && k != i
    ensures Wired(s) && SettledAt(s, k) && DistinctPeers(s.conns)
  {
  }

  lemma Sizes(t: Server)
    requires Wired(t)
    ensures |t.entries| == |t.conns| + 2
  {
  }

  lemma NotSubject(s: Server, i: int, e: Event, k: nat)
    requires DistinctPeers(s.conns) && k < |s.conns| && k != i
    requires Subject(e).Some? ==> 0 <= i < |s.conns| && Subject(e).value == s.conns[i].peer
    ensures Subject(e) != Some(s.conns[k].peer) && Author(e) != Some(s.conns[k].peer)
  {
  }

  lemma RecipientLegal(s: Server, e: Event, k: nat, t: Server)
    requires k < |s.conns| && s.conns[k].state == ACTIVE && Author(e) != Some(s.conns[k].peer)
    requires Deliver(s, e) == Step(t, true)
    ensures Recipient(s.conns[k], e) && Legal(Render(s.name, e))
  {
  }

  lemma Lengthens(c: Conn, m: Message)
    requires Legal(m)
    ensures QueueMessage(c, m).conn.outBuffer != []
  {
    assert |Encode(m)| > 0;
  }
}
