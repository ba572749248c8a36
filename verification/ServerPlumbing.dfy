/** Descriptors, the interest list and connection identities: what every handler keeps, whether
    or not it succeeds. */
module ServerPlumbing {
  import opened Options
  import opened Connections
  import opened Interest
  import opened ServerSpec

  /** Replays descriptor calls from a set of open descriptors: opening one that is open, or
      closing one that is not, has no meaning. */
  function Replay(calls: seq<FdCall>): Option<set<int>> {
    if calls == [] then Some({})
    else
      var before := Replay(calls[..|calls| - 1]);
      if before.None? then None
      else match calls[|calls| - 1]
        case Opened(fd) => if fd in before.value then None else Some(before.value + {fd})
        case Closed(fd) => if fd in before.value then Some(before.value - {fd}) else None
  }

  function Fds(conns: seq<Conn>): set<int> {
    set j | 0 <= j < |conns| :: conns[j].fd
  }

  function Peers(conns: seq<Conn>): set<nat> {
    set j | 0 <= j < |conns| :: conns[j].peer
  }

  function Ids(s: Server): set<nat> {
    Peers(s.conns) + Peers(s.retired)
  }

  predicate DistinctPeers(conns: seq<Conn>) {
    forall j, k | 0 <= j < k < |conns| :: conns[j].peer != conns[k].peer
  }

  /** The interest list is the listening socket, stdin and the connections, in that order. */
  predicate Wired(s: Server) {
    && |s.entries| == |s.conns| + 2
    && s.entries[0] == Entry(s.listenFd, IN)
    && s.entries[1] == Entry(STDIN_FD, IN)
    && (forall k | 0 <= k < |s.conns| :: s.entries[k + 2].fd == s.conns[k].fd)
    && Unique(s.entries)
  }

  predicate Plumbed(s: Server) {
    && Wired(s)
    && DistinctPeers(s.conns) && DistinctPeers(s.retired)
    && Peers(s.conns) !! Peers(s.retired)
    && Replay(s.calls) == Some({s.listenFd} + Fds(s.conns))
  }

  lemma PlumbedFds(s: Server)
    requires Wired(s)
    ensures forall k | 0 <= k < |s.conns| ::
              && s.conns[k].fd != s.listenFd && s.conns[k].fd != STDIN_FD
              && Lookup(s.conns, s.conns[k].fd) == k
              && Find(s.entries, s.conns[k].fd) == k + 2
    ensures forall j, k | 0 <= j < k < |s.conns| :: s.conns[j].fd != s.conns[k].fd
  {
    hide Lookup, Find;
    forall j, k | 0 <= j < k < |s.conns|
      ensures s.conns[j].fd != s.conns[k].fd
    {
      assert s.entries[j + 2].fd != s.entries[k + 2].fd;
    }
    forall k | 0 <= k < |s.conns|
      ensures s.conns[k].fd != s.listenFd && s.conns[k].fd != STDIN_FD
      ensures Lookup(s.conns, s.conns[k].fd) == k
      ensures Find(s.entries, s.conns[k].fd) == k + 2
    {
      assert s.entries[0].fd != s.entries[k + 2].fd && s.entries[1].fd != s.entries[k + 2].fd;
      assert Lookup(s.conns, s.conns[k].fd) <= k;
      FindAt(s.entries, k + 2);
    }
  }

  /** States that agree on who is connected on which descriptor agree on the plumbing. */
  ghost predicate SameWiring(s: Server, t: Server) {
    && t.name == s.name && t.listenFd == s.listenFd && t.retired == s.retired && t.calls == s.calls
    && |t.conns| == |s.conns| && |t.entries| == |s.entries|
    && (forall k | 0 <= k < |s.conns| :: t.conns[k].fd == s.conns[k].fd && t.conns[k].peer == s.conns[k].peer)
    && (forall k | 0 <= k < |s.entries| :: t.entries[k].fd == s.entries[k].fd)
    && (forall k | 0 <= k < |s.entries| && k < 2 :: t.entries[k] == s.entries[k])
  }

  lemma SameWiringPlumbed(s: Server, t: Server)
    requires Plumbed(s) && SameWiring(s, t)
    ensures Plumbed(t) && Ids(t) == Ids(s) && Peers(t.conns) == Peers(s.conns)
  {
    assert Peers(t.conns) == Peers(s.conns) by {
      forall p | p in Peers(s.conns) ensures p in Peers(t.conns) {
        var j :| 0 <= j < |s.conns| && s.conns[j].peer == p;
        assert t.conns[j].peer == p;
      }
    }
    assert Fds(t.conns) == Fds(s.conns) by {
      forall fd | fd in Fds(s.conns) ensures fd in Fds(t.conns) {
        var j :| 0 <= j < |s.conns| && s.conns[j].fd == fd;
        assert t.conns[j].fd == fd;
      }
    }
  }

  lemma ReplaySnoc(calls: seq<FdCall>, call: FdCall)
    ensures Replay(calls + [call]) ==
              var before := Replay(calls);
              if before.None? then None
              else match call
                case Opened(fd) => if fd in before.value then None else Some(before.value + {fd})
                case Closed(fd) => if fd in before.value then Some(before.value - {fd}) else None
  {
    assert (calls + [call])[..|calls|] == calls;
  }

  /** The index in `conns` of position k once entry i is gone. */
  function Skip(i: nat, k: nat): nat {
    if k < i then k else k + 1
  }

  lemma RemovePlumbed(s: Server, i: nat)
    requires Plumbed(s) && i < |s.conns|
    ensures var t := Remove(s, i);
            && Plumbed(t) && Ids(t) == Ids(s)
            && |t.conns| == |s.conns| - 1
            && (forall k | 0 <= k < |t.conns| ::
                  t.conns[k] == s.conns[Skip(i, k)] && t.entries[k + 2] == s.entries[Skip(i, k) + 2])
  {
    hide Lookup, Find, Replay, Unique;
    PlumbedFds(s);
    RemoveWired(s, i, Remove(s, i));
    RemovePeers(s.conns, i);
    RetirePeers(s.retired, s.conns[i]);
    ReplaySnoc(s.calls, Closed(s.conns[i].fd));
    var t := Remove(s, i);
    assert {s.listenFd} + Fds(s.conns) - {s.conns[i].fd} == {s.listenFd} + Fds(t.conns);
  }

  lemma RemoveWired(s: Server, i: nat, t: Server)
    requires Wired(s) && i < |s.conns| && t == Remove(s, i)
    ensures Wired(t) && |t.conns| == |s.conns| - 1
    ensures forall k | 0 <= k < |t.conns| ::
              t.conns[k] == s.conns[Skip(i, k)] && t.entries[k + 2] == s.entries[Skip(i, k) + 2]
  {
    hide Lookup, Find, Unique;
    assert Find(s.entries, s.conns[i].fd) == i + 2 by { PlumbedFds(s); }
    DropEntry(s.entries, i + 2);
    assert t.entries == s.entries[..i + 2] + s.entries[i + 2 + 1..];
    forall k | 0 <= k < |t.conns|
      ensures t.conns[k] == s.conns[Skip(i, k)]
      ensures t.entries[k + 2] == s.entries[Skip(i, k) + 2]
    {
      assert t.entries[k + 2] == s.entries[Skip(i + 2, k + 2)];
    }
  }

  lemma DropEntry(entries: seq<Entry>, i: nat)
    requires Unique(entries) && i < |entries|
    ensures var after := entries[..i] + entries[i + 1..];
            && Unique(after)
            && forall k | 0 <= k < |after| :: after[k] == entries[Skip(i, k)]
  {
    var after := entries[..i] + entries[i + 1..];
    assert forall k | 0 <= k < |after| :: after[k] == entries[Skip(i, k)];
  }

  lemma RemovePeers(conns: seq<Conn>, i: nat)
    requires i < |conns| && DistinctPeers(conns)
    requires forall j, k | 0 <= j < k < |conns| :: conns[j].fd != conns[k].fd
    ensures var after := conns[..i] + conns[i + 1..];
            && DistinctPeers(after)
            && Peers(after) == Peers(conns) - {conns[i].peer}
            && Fds(after) == Fds(conns) - {conns[i].fd}
  {
    hide Peers, Fds;
    var after := conns[..i] + conns[i + 1..];
    assert forall k | 0 <= k < |after| :: after[k] == conns[Skip(i, k)];
    PeersWithout(conns, i, after);
    FdsWithout(conns, i, after);
  }

  lemma PeersWithout(conns: seq<Conn>, i: nat, after: seq<Conn>)
    requires i < |conns| && DistinctPeers(conns) && |after| == |conns| - 1
    requires forall k | 0 <= k < |after| :: after[k] == conns[Skip(i, k)]
    ensures Peers(after) == Peers(conns) - {conns[i].peer}
  {
    forall k | 0 <= k < |conns| && k != i
      ensures conns[k].peer in Peers(after)
    {
      assert after[if k < i then k else k - 1] == conns[k];
    }
  }

  lemma FdsWithout(conns: seq<Conn>, i: nat, after: seq<Conn>)
    requires i < |conns| && |after| == |conns| - 1
    requires forall j, k | 0 <= j < k < |conns| :: conns[j].fd != conns[k].fd
    requires forall k | 0 <= k < |after| :: after[k] == conns[Skip(i, k)]
    ensures Fds(after) == Fds(conns) - {conns[i].fd}
  {
    forall k | 0 <= k < |conns| && k != i
      ensures conns[k].fd in Fds(after)
    {
      assert after[if k < i then k else k - 1] == conns[k];
    }
  }

  lemma RetirePeers(retired: seq<Conn>, c: Conn)
    requires DistinctPeers(retired) && c.peer !in Peers(retired)
    ensures DistinctPeers(retired + [c]) && Peers(retired + [c]) == Peers(retired) + {c.peer}
  {
    var after := retired + [c];
    assert after[|retired|] == c;
    forall k | 0 <= k < |retired|
      ensures retired[k].peer in Peers(retired) && retired[k].peer in Peers(after)
    {
      assert after[k] == retired[k];
    }
  }

  /** What the kernel promises of accept: a descriptor that is not open, for a connection that
      was not accepted before. */
  predicate LegalAccept(s: Server, fd: int, peer: nat) {
    fd != STDIN_FD && fd != s.listenFd && fd !in Fds(s.conns) && peer !in Ids(s)
  }

  predicate LegalAccepts(s: Server, accepts: seq<AcceptResult>)
    decreases |accepts|
  {
    accepts != [] && accepts[0].Accepted? ==>
      && LegalAccept(s, accepts[0].fd, accepts[0].peer)
      && LegalAccepts(AcceptOne(s, accepts[0].fd, accepts[0].peer).server, accepts[1..])
  }

  lemma AcceptPlumbed(s: Server, fd: int, peer: nat)
    requires Plumbed(s) && LegalAccept(s, fd, peer)
    ensures var r := AcceptOne(s, fd, peer);
            && r.ok && Plumbed(r.server)
            && Ids(r.server) == Ids(s) + {peer}
            && r.server.conns == s.conns + [NewConn(fd, WAITING_FOR_CLIENT_HELLO, peer)]
            && r.server.entries == s.entries + [Entry(fd, IN_RDHUP)]
  {
    hide Lookup, Find;
    var r := AcceptOne(s, fd, peer);
    forall j | 0 <= j < |s.entries|
      ensures s.entries[j].fd != fd
    {
      if j >= 2 {
        assert s.conns[j - 2].fd in Fds(s.conns);
      }
    }
    var t := r.server;
    var c := NewConn(fd, WAITING_FOR_CLIENT_HELLO, peer);
    RetirePeers(s.conns, c);
    assert Fds(t.conns) == Fds(s.conns) + {fd} by {
      assert t.conns[|s.conns|] == c;
      forall j | 0 <= j < |s.conns| ensures s.conns[j].fd in Fds(t.conns) { assert t.conns[j] == s.conns[j]; }
    }
    ReplaySnoc(s.calls, Opened(fd));
    assert {s.listenFd} + Fds(s.conns) + {fd} == {s.listenFd} + Fds(t.conns);
    assert Wired(t);
  }
}
