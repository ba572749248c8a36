/** The server as the program runs it: one object whose handlers update a list of connection
    records and an interest list in place. Each method is proved equal to its function in
    ServerSpec. */
module ChatServerObject {
  import opened Frames
  import opened Options
  import opened Connections
  import opened Interest
  import opened Room
  import opened ServerSpec
  import opened ServerPlumbing
  import opened ServerHandlers
  import opened ServerTheorems

  ghost function Views(cs: seq<Connection>): (vs: seq<Conn>)
    reads cs
    ensures |vs| == |cs|
    ensures forall k | 0 <= k < |cs| :: vs[k] == cs[k].View()
  {
    seq(|cs|, k requires 0 <= k < |cs| reads cs => cs[k].View())
  }

  predicate DistinctObjects(cs: seq<Connection>) {
    forall j, k | 0 <= j < k < |cs| :: cs[j] != cs[k]
  }

  lemma Apart(cs: seq<Connection>, i: nat)
    requires DistinctObjects(cs) && i < |cs|
    ensures forall k | 0 <= k < |cs| && k != i :: cs[k] != cs[i]
  {
  }

  lemma DistinctSnoc(cs: seq<Connection>, c: Connection)
    requires DistinctObjects(cs) && c !in cs
    ensures DistinctObjects(cs + [c])
  {
  }

  class ChatServer {
    const name: Text
    const poll: PollInstance
    var listenFd: int
    var closing: bool
    var connections: seq<Connection>
    /** The static pointer of get_connection_of; it may point to a record long deleted. */
    var cached: Connection?
    /** Deleted records, whose memory `new` may hand out again. */
    var freed: seq<Connection>
    ghost var log: seq<Event>
    ghost var retired: seq<Conn>
    ghost var calls: seq<FdCall>
    /** Every record ever allocated. */
    ghost var pool: set<Connection>

    ghost function Model(): Server
      reads this`listenFd, this`closing, this`connections, this`log, this`retired, this`calls, poll, connections
    {
      Server(name, listenFd, closing, Views(connections), poll.entries, log, retired, calls)
    }

    ghost predicate Valid()
      reads this`listenFd, this`closing, this`connections, this`log, this`retired, this`calls, poll, connections
      reads this`freed, this`pool
    {
      && DistinctObjects(connections) && DistinctObjects(freed)
      && (forall c <- connections :: c in pool)
      && (forall c <- freed :: c in pool && c !in connections)
      && Wired(Model()) && DistinctPeers(Model().conns)
    }

    constructor (name: Text, listenFd: int)
      requires listenFd != STDIN_FD
      ensures Valid() && Model() == Init(name, listenFd)
      ensures fresh(pool) && fresh(poll)
    {
      this.name := name;
      this.listenFd := listenFd;
      closing := false;
      connections, freed, cached := [], [], null;
      log, retired, calls, pool := [], [], [Opened(listenFd)], {};
      poll := new PollInstance();
      new;
      hide Find;
      var added := poll.Control(Add, listenFd, IN);
      assert poll.entries == [Entry(listenFd, IN)] by { FirstAdd(Entry(listenFd, IN)); }
      SecondAdd(Entry(listenFd, IN), Entry(STDIN_FD, IN));
      added := poll.Control(Add, STDIN_FD, IN);
      assert Views(connections) == [];
      assert poll.entries == [Entry(listenFd, IN), Entry(STDIN_FD, IN)];
    }

    /** Whether a pointer is that of a listed record. */
    method IsListed(c: Connection) returns (listed: bool)
      ensures listed <==> c in connections
    {
      var k := 0;
      while k < |connections|
        invariant k <= |connections|
        invariant c !in connections[..k]
      {
        if connections[k] == c {
          return true;
        }
        k := k + 1;
      }
      return false;
    }

    /** What a lookup must return. */
    ghost predicate Found(fd: int, conn: Connection?)
      reads this`connections, connections
    {
      var i := Lookup(Views(connections), fd);
      conn == if i < |connections| then connections[i] else null
    }

    lemma FoundAt(fd: int, k: nat)
      requires Valid() && k < |connections| && connections[k].fd == fd
      ensures Found(fd, connections[k])
    {
      hide Lookup, Wired;
      PlumbedFds(Model());
      assert Model().conns[k].fd == fd;
    }

    lemma FoundNone(fd: int)
      requires forall j | 0 <= j < |connections| :: connections[j].fd != fd
      ensures Found(fd, null)
    {
      hide Lookup;
      assert forall j | 0 <= j < |connections| :: Views(connections)[j].fd != fd;
    }

    /** Cached lookup: whatever the cache points to, the result is that of the linear search. */
    method GetConnectionOf(fd: int) returns (conn: Connection?)
      requires Valid()
      modifies this`cached
      ensures Valid() && Model() == old(Model())
      ensures Found(fd, conn)
    {
      hide Lookup, Wired, DistinctPeers, DistinctObjects, Found, Valid, Model;
      if cached != null {
        var stillValid := IsListed(cached);
        if stillValid && cached.fd == fd {
          ghost var j :| 0 <= j < |connections| && connections[j] == cached;
          FoundAt(fd, j);
          return cached;
        }
        cached := null;
      }
      conn := SearchConnection(fd);
      cached := conn;
    }

    /** The linear search behind the cache. */
    method SearchConnection(fd: int) returns (conn: Connection?)
      requires Valid()
      ensures Found(fd, conn)
    {
      hide Lookup, Wired, DistinctPeers, DistinctObjects, Found, Valid, Model;
      var k := 0;
      while k < |connections|
        invariant k <= |connections|
        invariant forall j | 0 <= j < k :: connections[j].fd != fd
      {
        if connections[k].fd == fd {
          FoundAt(fd, k);
          return connections[k];
        }
        k := k + 1;
      }
      FoundNone(fd);
      return null;
    }

    /** Connection i has been handled and nothing else has moved. */
    ghost predicate Holds(before: Server, i: nat)
      requires i < |before.conns|
      reads this, poll, connections
    {
      && i < |connections|
      && Model() == Put(before, i, connections[i].View())
    }

    /** One record was updated in place: the model is the old one with that record put back. */
    lemma PutBack(before: Server, i: nat)
      requires i < |connections| && |before.conns| == |connections|
      requires before == Model().(conns := before.conns)
      requires forall k | 0 <= k < |connections| && k != i :: connections[k].View() == before.conns[k]
      ensures Holds(before, i)
    {
      assert Views(connections) == before.conns[i := connections[i].View()];
    }

    /** remove_connection: forget the descriptor, erase the record from the list, close, delete. */
    method RemoveConnection(conn: Connection, ghost i: nat)
      requires Valid() && i < |connections| && connections[i] == conn
      modifies this, poll, conn
      ensures Valid() && Model() == Remove(old(Model()), i)
      ensures pool == old(pool) && conn !in connections
      ensures forall c <- connections :: c in old(connections)
    {
      hide Wired, DistinctPeers, Lookup, Find;
      ghost var before := Model();
      ghost var listed := connections;
      var removed := poll.Control(Del, conn.fd, NO_EVENTS);
      var k := 0;
      while connections[k] != conn
        invariant k <= i
        invariant connections == listed
        decreases |connections| - k
      {
        k := k + 1;
      }
      connections := connections[..k] + connections[k + 1..];
      ErasedViews(listed, i, before.conns);
      RemovedWired(before, i);
      SameWires(Remove(before, i), Model());
      DeleteRecord(conn);
    }

    /** connection_cleanup of a record that is no longer listed. */
    method DeleteRecord(conn: Connection)
      requires Valid() && conn in pool && conn !in connections && conn !in freed
      modifies this`retired, this`calls, this`freed, conn
      ensures Valid()
      ensures Model() == old(Model()).(retired := old(retired) + [old(conn.View())],
                                       calls := old(calls) + [Closed(old(conn.fd))])
    {
      hide Wired, DistinctPeers;
      retired := retired + [conn.View()];
      calls := calls + [Closed(conn.fd)];
      conn.fd := -1;
      DistinctSnoc(freed, conn);
      freed := freed + [conn];
      assert Views(connections) == old(Views(connections));
      SameWires(old(Model()), Model());
    }

    lemma ErasedViews(listed: seq<Connection>, i: nat, before: seq<Conn>)
      requires DistinctObjects(listed) && i < |listed| == |before|
      requires connections == listed[..i] + listed[i + 1..]
      requires forall k | 0 <= k < |listed| && k != i :: listed[k].View() == before[k]
      ensures Views(connections) == before[..i] + before[i + 1..]
      ensures DistinctObjects(connections) && listed[i] !in connections
      ensures forall c <- connections :: c in listed
    {
      assert forall k | 0 <= k < |connections| :: connections[k] == listed[Skip(i, k)];
    }

    /** protocol_queue_message and, if it succeeds, epoll_fd_mod for a listed connection. */
    method QueueAndArm(conn: Connection, m: Message, events: Events, ghost i: nat) returns (ok: bool)
      requires Valid() && i < |connections| && connections[i] == conn
      modifies poll, conn
      ensures Valid()
      ensures var q := QueueMessage(old(conn.View()), m);
              var r := Ctl(old(poll.entries), Mod, old(conn.fd), events);
              Step(Model(), ok) == if q.ok then Step(Put(old(Model()), i, q.conn).(entries := r.entries), true)
                                   else Step(Put(old(Model()), i, q.conn), false)
    {
      hide Wired, DistinctPeers, QueueMessage, Ctl, DistinctObjects;
      ghost var before := Model();
      assert forall k | 0 <= k < |connections| && k != i :: connections[k] != conn by { Apart(connections, i); }
      QueueIdentity(conn.View(), m);
      ok := conn.Queue(m);
      PutBack(before, i);
      StillValid(before, i);
      if ok {
        ok := Rearm(conn, events, i);
      }
    }

    /** broadcast_message_to_other_clients: queue to every ACTIVE record but the sender's. */
    method Broadcast(sender: Connection?, m: Message, ghost e: Event) returns (ok: bool)
      requires Valid() && m == Render(name, e)
      requires sender != null ==> sender in connections
      requires Author(e) == if sender == null then None else Some(sender.peer)
      modifies this`log, poll, connections
      ensures Valid() && Step(Model(), ok) == Deliver(old(Model()), e)
    {
      hide Wired, DistinctPeers, Lookup, Find, Render, Deliver, Partial, Recipient, Legal, QueueMessage, Ctl;
      hide DistinctObjects, Author;
      ghost var before := Model();
      var k := 0;
      PartialStart(before, e, m);
      while k < |connections|
        invariant k <= |connections| == |before.conns|
        invariant Valid() && Model() == Partial(before, e, m, k) && log == before.log
        invariant (exists j :: 0 <= j < k && Recipient(before.conns[j], e)) ==> Legal(m)
      {
        var conn := connections[k];
        PartialAt(before, e, m, k);
        assert conn.View() == before.conns[k];
        if conn == sender || conn.state != ACTIVE {
          assert !Recipient(before.conns[k], e) by { NotRecipient(before, e, k, sender); }
          PartialSkip(before, e, m, k);
          k := k + 1;
          continue;
        }
        assert Recipient(before.conns[k], e) by { IsRecipient(before, e, k, sender); }
        QueueOk(before.conns[k], m);
        ok := QueueAndArm(conn, m, IN_OUT_RDHUP, k);
        if !ok {
          RefusedFirst(before, e, m, k);
          return false;
        }
        PartialNext(before, e, m, k);
        k := k + 1;
      }
      log := log + [e];
      PartialEnd(before, e, m);
      DeliverWired(before, e);
      return true;
    }

    // ---------- Accept ----------

    /** `new Connection`: the memory may be that of a deleted record. */
    method Allocate(fd: int, ghost peer: nat) returns (conn: Connection)
      requires Valid()
      modifies this`freed, this`pool, pool
      ensures conn.View() == NewConn(fd, WAITING_FOR_CLIENT_HELLO, peer)
      ensures Valid() && Model() == old(Model())
      ensures conn in pool && conn !in connections && conn !in freed
      ensures old(pool) <= pool && fresh(pool - old(pool))
    {
      hide Wired, DistinctPeers;
      ghost var before := Model();
      if freed != [] {
        if * {
          var k: nat :| k < |freed|;
          conn := freed[k];
          assert conn in freed && conn !in connections;
          DropObject(freed, k);
          freed := freed[..k] + freed[k + 1..];
          conn.Reinitialize(fd, WAITING_FOR_CLIENT_HELLO, peer);
          assert forall j | 0 <= j < |connections| :: connections[j].View() == before.conns[j];
          assert Views(connections) == before.conns;
          SameWires(before, Model());
          return;
        }
      }
      conn := new Connection(fd, WAITING_FOR_CLIENT_HELLO, peer);
      pool := pool + {conn};
      assert Views(connections) == before.conns;
      SameWires(before, Model());
    }

    /** One iteration of the accept loop. */
    method AcceptConnection(fd: int, ghost peer: nat) returns (ok: bool)
      requires Valid() && peer !in Peers(Model().conns)
      modifies this, poll, pool
      ensures Valid() && Step(Model(), ok) == AcceptOne(old(Model()), fd, peer)
      ensures old(pool) <= pool && fresh(pool - old(pool))
    {
      hide Wired, DistinctPeers, Ctl, DistinctObjects, AcceptOne;
      ghost var before := Model();
      var conn := Allocate(fd, peer);
      calls := calls + [Opened(fd)];
      SameWires(before, Model());
      ok := Register(conn);
      AcceptedAs(before, fd, peer);
    }

    /** Put a new record on the list and register it, or take it back and clean up. */
    method Register(conn: Connection) returns (ok: bool)
      requires Valid() && conn in pool && conn !in connections && conn !in freed
      requires conn.peer !in Peers(Model().conns)
      modifies this`connections, this`retired, this`calls, this`freed, poll, conn
      ensures Valid()
      ensures var r := Ctl(old(poll.entries), Add, old(conn.fd), IN_RDHUP);
              Step(Model(), ok) ==
                if r.ok then
                  Step(old(Model()).(conns := old(Model()).conns + [old(conn.View())], entries := r.entries), true)
                else
                  Step(old(Model()).(retired := old(retired) + [old(conn.View())],
                                     calls := old(calls) + [Closed(old(conn.fd))]), false)
    {
      hide Wired, DistinctPeers, Ctl, DistinctObjects;
      ghost var before := Model();
      ghost var listed := connections;
      DistinctSnoc(connections, conn);
      connections := connections + [conn];
      ok := poll.Control(Add, conn.fd, IN_RDHUP);
      if ok {
        assert Views(connections) == before.conns + [conn.View()];
        AddedWired(before, conn.View());
      } else {
        assert poll.entries == before.entries by { RefusedAdd(before.entries, conn.fd, IN_RDHUP); }
        connections := connections[..|connections| - 1];
        assert connections == listed;
        assert Views(connections) == before.conns;
        SameWires(before, Model());
        DeleteRecord(conn);
      }
    }

    method HandleAcceptEvent(accepts: seq<AcceptResult>) returns (ok: bool)
      requires Valid() && FreshPeers(Model(), accepts)
      modifies this, poll, pool
      ensures Valid() && Step(Model(), ok) == HandleAccept(old(Model()), accepts)
      ensures old(pool) <= pool && fresh(pool - old(pool))
    {
      hide Wired, DistinctPeers, AcceptOne;
      var k := 0;
      while true
        invariant k <= |accepts| && Valid() && FreshPeers(Model(), accepts[k..])
        invariant HandleAccept(Model(), accepts[k..]) == HandleAccept(old(Model()), accepts)
        invariant old(pool) <= pool && fresh(pool - old(pool))
        decreases |accepts| - k
      {
        var result := if k < |accepts| then accepts[k] else AcceptFailed(EAGAIN);
        if result.AcceptFailed? {
          return result.errno == EINTR || result.errno == EAGAIN;
        }
        ok := AcceptConnection(result.fd, result.peer);
        assert accepts[k..][1..] == accepts[k + 1..];
        if !ok {
          return false;
        }
        k := k + 1;
      }
    }

    // ---------- CLIENT_HELLO ----------

    /** The record of connection i has changed but not who it is: everything is still wired. */
    lemma StillValid(before: Server, i: nat)
      requires Wired(before) && DistinctPeers(before.conns)
      requires i < |before.conns| && Holds(before, i)
      requires connections[i].fd == before.conns[i].fd && connections[i].peer == before.conns[i].peer
      requires DistinctObjects(connections) && DistinctObjects(freed)
      requires forall c <- connections :: c in pool
      requires forall c <- freed :: c in pool && c !in connections
      ensures Valid()
    {
      hide Wired, DistinctPeers;
      PutFrame(before, i, connections[i].View());
    }

    method HandleHelloEvent(fd: int, recvs: seq<RecvResult>) returns (ok: bool)
      requires Valid()
      modifies this, poll, pool
      ensures Valid() && Step(Model(), ok) == HandleHello(old(Model()), fd, recvs)
      ensures pool == old(pool)
    {
      hide Wired, DistinctPeers, Lookup, ReadIntoInBuffer, ParseMessage, HelloParsed, Remove;
      ghost var before := Model();
      var conn := GetConnectionOf(fd);
      ghost var i := Lookup(before.conns, fd);
      if conn == null {
        return false;
      }
      ReadExact(conn.View(), recvs);
      ok := conn.ReadAvailable(recvs);
      PutBack(before, i);
      StillValid(before, i);
      if !ok {
        RemoveConnection(conn, i);
        return true;
      }
      ParseIdentity(conn.View());
      var message := conn.Parse();
      PutBack(before, i);
      StillValid(before, i);
      ok := AnswerHello(conn, message, i);
    }

    /** The hello handler from its parsed message on. */
    method AnswerHello(conn: Connection, message: Option<Message>, ghost i: nat) returns (ok: bool)
      requires Valid() && i < |connections| && connections[i] == conn
      modifies this, poll, conn
      ensures Valid() && Step(Model(), ok) == HelloParsed(old(Model()), i, message)
      ensures pool == old(pool)
    {
      hide Wired, DistinctPeers, Lookup, Remove, QueueMessage, Ctl;
      ghost var before := Model();
      if conn.state == CONNECTION_ERROR {
        RemoveConnection(conn, i);
        return true;
      }
      if message.None? {
        if conn.state == CLOSED {
          RemoveConnection(conn, i);
        }
        return true;
      }
      if message.value.kind != CLIENT_HELLO || message.value.payload == [] {
        Reject(conn, i);
        return true;
      }
      QueueIdentity(conn.View().(name := message.value.payload), Hello(name));
      ok := Introduce(conn, message.value.payload, i);
      if ok {
        ok := Rearm(conn, IN_OUT_RDHUP, i);
      }
    }

    /** A peer that broke the protocol is marked and dropped. */
    method Reject(conn: Connection, ghost i: nat)
      requires Valid() && i < |connections| && connections[i] == conn
      modifies this, poll, conn
      ensures Valid() && Model() == Remove(Put(old(Model()), i, Failed(old(conn.View()), WrongMessage)), i)
      ensures pool == old(pool)
    {
      hide Wired, DistinctPeers, Remove;
      ghost var before := Model();
      conn.Fail(WrongMessage);
      PutBack(before, i);
      StillValid(before, i);
      RemoveConnection(conn, i);
    }

    /** Note the client's name and queue SERVER_HELLO. */
    method Introduce(conn: Connection, clientName: Text, ghost i: nat) returns (ok: bool)
      requires Valid() && i < |connections| && connections[i] == conn
      modifies conn
      ensures Valid()
      ensures var q := QueueMessage(old(conn.View()).(name := clientName), Hello(name));
              && ok == q.ok
              && Model() == Put(old(Model()), i, if ok then q.conn.(state := SENDING_SERVER_HELLO) else q.conn)
    {
      hide Wired, DistinctPeers, QueueMessage, DistinctObjects;
      ghost var before := Model();
      assert forall k | 0 <= k < |connections| && k != i :: connections[k] != conn by { Apart(connections, i); }
      conn.name := clientName;
      QueueIdentity(conn.View(), Hello(name));
      ok := conn.Queue(Hello(name));
      if ok {
        conn.state := SENDING_SERVER_HELLO;
      }
      PutBack(before, i);
      StillValid(before, i);
    }

    /** epoll_fd_mod for a listed connection. */
    method Rearm(conn: Connection, events: Events, ghost i: nat) returns (ok: bool)
      requires Valid() && i < |connections| && connections[i] == conn
      modifies poll
      ensures Valid() && ok
      ensures CtlResult(poll.entries, ok) == Ctl(old(poll.entries), Mod, conn.fd, events)
    {
      hide Ctl, Wired;
      ghost var before := Model();
      ok := poll.Control(Mod, conn.fd, events);
      assert Views(connections) == before.conns;
      ModWired(before, i, events);
    }

    // ---------- Send ----------

    method HandleSendEvent(fd: int, sends: seq<SendResult>) returns (ok: bool)
      requires Valid()
      modifies this, poll, pool
      ensures Valid() && Step(Model(), ok) == HandleSend(old(Model()), fd, sends)
      ensures pool == old(pool)
    {
      hide Wired, DistinctPeers, Lookup, Flush, Admit, Ctl;
      ghost var before := Model();
      var conn := GetConnectionOf(fd);
      ghost var i := Lookup(before.conns, fd);
      if conn == null {
        return false;
      }
      FlushIdentity(conn.View(), sends);
      ok := conn.FlushOutBuffer(sends);
      PutBack(before, i);
      StillValid(before, i);
      if !ok {
        return false;
      }
      if conn.outBuffer != [] {
        return true;
      }
      if conn.state == SENDING_SERVER_HELLO {
        ok := AdmitConnection(conn, i);
        return;
      }
      ok := Rearm(conn, IN_RDHUP, i);
    }

    method AdmitConnection(conn: Connection, ghost i: nat) returns (ok: bool)
      requires Valid() && i < |connections| && connections[i] == conn
      modifies this, poll, connections
      ensures Valid() && Step(Model(), ok) == Admit(old(Model()), i)
      ensures pool == old(pool)
    {
      hide Wired, DistinctPeers, Deliver;
      ghost var before := Model();
      ghost var e := Joined(conn.peer, conn.name);
      conn.state := ACTIVE;
      PutBack(before, i);
      StillValid(before, i);
      ghost var admitted := Model();
      ok := Broadcast(null, ConnectedMessage(conn.name), e);
      DeliverSizes(admitted, e);
      if ok {
        ghost var delivered := Model();
        conn.joinedAt := Some(|before.log|);
        PutBack(delivered, i);
        StillValid(delivered, i);
      }
    }

    // ---------- Read ----------

    method HandleReadEvent(fd: int, recvs: seq<RecvResult>) returns (ok: bool)
      requires Valid()
      modifies this, poll, pool
      ensures Valid() && Step(Model(), ok) == HandleRead(old(Model()), fd, recvs)
      ensures pool == old(pool)
    {
      hide Wired, DistinctPeers, Lookup, ReadIntoInBuffer, Remove, Drain;
      ghost var before := Model();
      var conn := GetConnectionOf(fd);
      ghost var i := Lookup(before.conns, fd);
      if conn == null {
        return false;
      }
      ReadExact(conn.View(), recvs);
      ok := conn.ReadAvailable(recvs);
      PutBack(before, i);
      StillValid(before, i);
      if !ok {
        RemoveConnection(conn, i);
        return true;
      }
      ok := RelayMessages(conn, i);
    }

    /** The parse-until-none loop. */
    method RelayMessages(conn: Connection, ghost i: nat) returns (ok: bool)
      requires Valid() && i < |connections| && connections[i] == conn
      modifies this, poll, connections
      ensures Valid() && Step(Model(), ok) == Drain(old(Model()), i)
      ensures pool == old(pool)
    {
      hide Wired, DistinctPeers, Drain;
      var more := true;
      ok := true;
      while more
        invariant Valid() && pool == old(pool)
        invariant more ==> connections == old(connections) && Drain(Model(), i) == Drain(old(Model()), i)
        invariant !more ==> Step(Model(), ok) == Drain(old(Model()), i)
        decreases more, |conn.inBuffer|
      {
        more, ok := RelayOne(conn, i);
      }
    }

    /** One iteration: parse, then relay a CHAT or part with the connection. */
    method RelayOne(conn: Connection, ghost i: nat) returns (more: bool, ok: bool)
      requires Valid() && i < |connections| && connections[i] == conn
      modifies this, poll, connections
      ensures Valid() && pool == old(pool)
      ensures more ==> connections == old(connections) && Drain(Model(), i) == Drain(old(Model()), i)
      ensures more ==> |conn.inBuffer| < |old(conn.inBuffer)|
      ensures !more ==> Step(Model(), ok) == Drain(old(Model()), i)
    {
      hide Wired, DistinctPeers, Remove, Deliver, ParseMessage, Leave, Format;
      ghost var before := Model();
      ParseIdentity(conn.View());
      ParseShrinks(conn.View());
      var message := conn.Parse();
      PutBack(before, i);
      StillValid(before, i);
      if conn.state == CONNECTION_ERROR {
        RemoveConnection(conn, i);
        return false, true;
      }
      if message.None? {
        if conn.state == CLOSED {
          ok := SayGoodbye(conn, i);
          return false, ok;
        }
        return false, true;
      }
      if message.value.kind == CLOSE_CON && message.value.payload == [] {
        ok := SayGoodbye(conn, i);
        return false, ok;
      }
      if message.value.kind != CHAT {
        PutTwice(before, i, conn.View(), Failed(conn.View(), WrongMessage));
        Reject(conn, i);
        return false, true;
      }
      ok := Relay(conn, message.value.payload, i);
      more := ok;
    }

    /** What a member says goes to the others under its name. */
    method Relay(conn: Connection, text: Text, ghost i: nat) returns (ok: bool)
      requires Valid() && i < |connections| && connections[i] == conn
      modifies this`log, poll, connections
      ensures Valid() && connections == old(connections)
      ensures Step(Model(), ok) == Deliver(old(Model()), Said(old(conn.peer), old(conn.name), text))
      ensures ok ==> conn.inBuffer == old(conn.inBuffer)
    {
      hide Wired, DistinctPeers, DistinctObjects, Deliver, Format;
      ghost var e := Said(conn.peer, conn.name, text);
      DeliverInput(Model(), i, e);
      ok := Broadcast(conn, Message(BROADCAST, Format(conn.name, text)), e);
    }

    method SayGoodbye(conn: Connection, ghost i: nat) returns (ok: bool)
      requires Valid() && i < |connections| && connections[i] == conn
      modifies this, poll, connections
      ensures Valid() && Step(Model(), ok) == Leave(old(Model()), i)
      ensures pool == old(pool)
    {
      hide Wired, DistinctPeers, Remove, Deliver;
      ghost var before := Model();
      ghost var e := Left(conn.peer, conn.name);
      DeliverSizes(before, e);
      ok := Broadcast(conn, DisconnectedMessage(conn.name), e);
      if ok {
        RemoveConnection(conn, i);
      }
    }

    // ---------- Stdin ----------

    method HandleStdinEvent(line: Option<Text>) returns (ok: bool)
      requires Valid()
      modifies this, poll, pool
      ensures Valid() && Step(Model(), ok) == HandleStdin(old(Model()), line)
      ensures pool == old(pool)
    {
      hide Wired, DistinctPeers, DistinctObjects, Deliver, QueueClose, QuitCommand, Format;
      if line.None? {
        return false;
      }
      if line.value == [] {
        return true;
      }
      if line.value == QuitCommand() {
        ok := CloseRoom();
        return;
      }
      if |line.value| > MAX_PAYLOAD_SIZE {
        return true;
      }
      ok := Broadcast(null, Message(BROADCAST, Format(name, line.value)), HostSaid(line.value));
    }

    /** The /quit command. */
    method CloseRoom() returns (ok: bool)
      requires Valid()
      modifies this, poll, connections
      ensures Valid() && Step(Model(), ok) == HandleStdin(old(Model()), Some(QuitCommand()))
      ensures pool == old(pool)
    {
      hide Wired, DistinctPeers, DistinctObjects, Deliver, QueueClose, Format;
      ghost var before := Model();
      closing := true;
      assert Views(connections) == before.conns;
      SameWires(before, Model());
      ok := Broadcast(null, Message(BROADCAST, Format(ServerName(), Ascii("room is closing."))), RoomClosing);
      if !ok {
        return false;
      }
      ok := QueueCloseToAll();
      var empty := AllBuffersEmpty();
      return !empty;
    }

    method AllBuffersEmpty() returns (empty: bool)
      ensures empty <==> AllEmpty(Model().conns)
    {
      var k := 0;
      while k < |connections|
        invariant k <= |connections|
        invariant forall j | 0 <= j < k :: connections[j].outBuffer == []
      {
        if connections[k].outBuffer != [] {
          assert Model().conns[k].outBuffer != [];
          return false;
        }
        k := k + 1;
      }
      return true;
    }

    /** queue_close_to_all_clients; with everything registered it cannot fail part-way. */
    method QueueCloseToAll() returns (ok: bool)
      requires Valid()
      modifies poll, connections
      ensures Valid() && ok && Model() == QueueClose(old(Model()))
    {
      hide Wired, DistinctPeers, PartialClose, QueueMessage, Ctl, QueueClose, DistinctObjects;
      ghost var before := Model();
      var k := 0;
      PartialCloseStart(before);
      while k < |connections|
        invariant k <= |connections| == |before.conns|
        invariant Valid() && Model() == PartialClose(before, k)
      {
        var conn := connections[k];
        PartialCloseAt(before, k);
        assert conn.View() == before.conns[k];
        if conn.state != ACTIVE {
          PartialCloseSkip(before, k);
          k := k + 1;
          continue;
        }
        QueueOk(before.conns[k], CLOSE_FRAME);
        ok := QueueAndArm(conn, CLOSE_FRAME, OUT_RDHUP, k);
        PartialCloseNext(before, k);
        k := k + 1;
      }
      PartialCloseEnd(before);
      return true;
    }

    // ---------- The event loop ----------

    method EventIsSend(r: Ready) returns (b: bool)
      requires Valid()
      modifies this`cached
      ensures Valid() && Model() == old(Model()) && b == IsSend(Model(), r)
    {
      hide Lookup, Wired, DistinctPeers, DistinctObjects;
      var conn := GetConnectionOf(r.fd);
      b := && conn != null
           && (conn.state == SENDING_SERVER_HELLO || conn.state == ACTIVE)
           && conn.outBuffer != []
           && r.events.output;
    }

    method EventIsRead(r: Ready, state: ConnState) returns (b: bool)
      requires Valid()
      modifies this`cached
      ensures Valid() && Model() == old(Model())
      ensures b == (!closing && InState(Model(), r.fd, state) && Readable(r.events))
    {
      hide Lookup, Wired, DistinctPeers, DistinctObjects;
      if closing {
        return false;
      }
      var conn := GetConnectionOf(r.fd);
      b := conn != null && conn.state == state && Readable(r.events);
    }

    method HandleEvent(r: Ready, env: Env) returns (ok: bool)
      requires Valid() && FreshPeers(Model(), env.accepts)
      modifies this, poll, pool
      ensures Valid() && Step(Model(), ok) == Dispatch(old(Model()), r, env)
      ensures old(pool) <= pool && fresh(pool - old(pool))
    {
      hide Wired, DistinctPeers, DistinctObjects, Lookup, IsSend, InState,
           HandleAccept, HandleHello, HandleSend, HandleRead, HandleStdin;
      var isSend := EventIsSend(r);
      if closing && !isSend {
        return true;
      }
      if !closing && r.fd == listenFd && r.events.input {
        ok := HandleAcceptEvent(env.accepts);
        return;
      }
      var isHello := EventIsRead(r, WAITING_FOR_CLIENT_HELLO);
      if isHello {
        ok := HandleHelloEvent(r.fd, env.recvs);
        return;
      }
      if isSend {
        ok := HandleSendEvent(r.fd, env.sends);
        return;
      }
      var isRead := EventIsRead(r, ACTIVE);
      if isRead {
        ok := HandleReadEvent(r.fd, env.recvs);
        return;
      }
      if !closing && r.fd == STDIN_FD && r.events.input {
        ok := HandleStdinEvent(env.line);
        return;
      }
      return true;
    }

    /** The inner loop over the events of one batch. */
    method HandleEvents(batch: seq<Ready>, envs: seq<Env>) returns (ok: bool)
      requires Valid() && LegalBatch(Model(), batch, envs, 0)
      modifies this, poll, pool
      ensures Valid() && Step(Model(), ok) == RunBatch(old(Model()), batch, envs, 0)
      ensures old(pool) <= pool && fresh(pool - old(pool))
    {
      hide Valid, Wired, DistinctPeers, DistinctObjects, Dispatch, LegalAccepts;
      var k := 0;
      while k < |batch|
        invariant k <= |batch| && Valid() && LegalBatch(Model(), batch, envs, k)
        invariant RunBatch(Model(), batch, envs, k) == RunBatch(old(Model()), batch, envs, 0)
        invariant old(pool) <= pool && fresh(pool - old(pool))
      {
        LegalIsFresh(Model(), EnvAt(envs, k).accepts);
        ok := HandleEvent(batch[k], EnvAt(envs, k));
        if !ok {
          return false;
        }
        k := k + 1;
      }
      return true;
    }

    /** The outer loop; `stopped` tells a loop that ended from one that is still waiting. */
    method ServerEventLoop(wakeups: seq<Wakeup>) returns (running: bool)
      requires Valid() && LegalRun(Model(), wakeups)
      modifies this, poll, pool
      ensures Valid() && Step(Model(), running) == EventLoop(old(Model()), wakeups)
      ensures old(pool) <= pool && fresh(pool - old(pool))
    {
      hide Valid, Wired, DistinctPeers, DistinctObjects, RunBatch, LegalBatch, Wait, AllEmpty;
      var k := 0;
      while k < |wakeups|
        invariant k <= |wakeups| && Valid() && LegalRun(Model(), wakeups[k..])
        invariant EventLoop(Model(), wakeups[k..]) == EventLoop(old(Model()), wakeups)
        invariant old(pool) <= pool && fresh(pool - old(pool))
      {
        assert wakeups[k..][1..] == wakeups[k + 1..];
        match wakeups[k] {
          case Interrupted =>
          case WaitFailed => return false;
          case Woken(revents, envs) =>
            var batch := poll.WaitForEvents(revents, MAX_EPOLL_EVENTS);
            var ok := HandleEvents(batch, envs);
            if !ok {
              return false;
            }
            if closing {
              var empty := AllBuffersEmpty();
              if empty {
                return false;
              }
            }
        }
        k := k + 1;
      }
      return true;
    }

    /** server_cleanup: close the listening socket and every connection that is left. */
    method ServerCleanup()
      requires Valid()
      modifies this, connections
      ensures Model() == ServerSpec.Cleanup(old(Model()))
    {
      hide Wired, DistinctPeers, CloseCalls, DistinctObjects;
      ghost var before := Model();
      calls := calls + [Closed(listenFd)];
      listenFd := -1;
      var k := 0;
      assert CloseCalls([]) == [] by { NoCloseCalls(); }
      assert before.conns[..0] == [];
      while k < |connections|
        invariant k <= |connections| == |before.conns| && connections == old(connections)
        invariant listenFd == -1 && closing == before.closing && log == before.log
        invariant forall j | k <= j < |connections| :: connections[j].View() == before.conns[j]
        invariant retired == before.retired + before.conns[..k]
        invariant calls == before.calls + [Closed(before.listenFd)] + CloseCalls(before.conns[..k])
      {
        var conn := connections[k];
        CloseCallsSnoc(before.conns[..k], before.conns[k]);
        assert before.conns[..k + 1] == before.conns[..k] + [before.conns[k]];
        Elsewhere(connections, k);
        retired := retired + [conn.View()];
        calls := calls + [Closed(conn.fd)];
        conn.fd := -1;
        k := k + 1;
      }
      assert before.conns[..k] == before.conns;
      connections := [];
      assert Views(connections) == [];
    }

    lemma NotRecipient(before: Server, e: Event, k: nat, sender: Connection?)
      requires k < |connections| && k < |before.conns| && connections[k].View() == before.conns[k]
      requires Author(e) == if sender == null then None else Some(sender.peer)
      requires connections[k] == sender || connections[k].state != ACTIVE
      ensures !Recipient(before.conns[k], e)
    {
    }

    lemma IsRecipient(before: Server, e: Event, k: nat, sender: Connection?)
      requires k < |connections| == |before.conns| && connections[k].View() == before.conns[k]
      requires DistinctPeers(before.conns)
      requires forall j | 0 <= j < |connections| :: connections[j].peer == before.conns[j].peer
      requires sender != null ==> sender in connections
      requires Author(e) == if sender == null then None else Some(sender.peer)
      requires connections[k] != sender && connections[k].state == ACTIVE
      ensures Recipient(before.conns[k], e)
    {
      if sender != null {
        var j :| 0 <= j < |connections| && connections[j] == sender;
        assert before.conns[j].peer != before.conns[k].peer;
      }
    }
  }

  // ---------- The broadcast loop after k records ----------

  lemma SameWires(s: Server, t: Server)
    requires Wired(s) && DistinctPeers(s.conns)
    requires t.listenFd == s.listenFd && t.conns == s.conns && t.entries == s.entries
    ensures Wired(t) && DistinctPeers(t.conns)
  {
  }

  lemma PutTwice(s: Server, i: nat, c: Conn, d: Conn)
    requires i < |s.conns|
    ensures Put(Put(s, i, c), i, d) == Put(s, i, d)
  {
  }

  lemma QueueOk(c: Conn, m: Message)
    ensures QueueMessage(c, m).ok <==> Legal(m)
  {
  }

  function Partial(s: Server, e: Event, m: Message, k: nat): Server
    requires k <= |s.conns|
  {
    s.(conns := QueueToRecipients(s.conns[..k], e, m) + s.conns[k..],
       entries := Arm(s.entries, RecipientFds(s.conns[..k], e), IN_OUT_RDHUP))
  }

  lemma PartialStart(s: Server, e: Event, m: Message)
    ensures Partial(s, e, m, 0) == s
  {
    assert RecipientFds(s.conns[..0], e) == {};
    assert Arm(s.entries, {}, IN_OUT_RDHUP) == s.entries;
    assert QueueToRecipients(s.conns[..0], e, m) + s.conns[0..] == s.conns;
  }

  lemma PartialAt(s: Server, e: Event, m: Message, k: nat)
    requires k < |s.conns|
    ensures |Partial(s, e, m, k).conns| == |s.conns|
    ensures Partial(s, e, m, k).conns[k] == s.conns[k]
    ensures forall j | 0 <= j < |s.conns| :: Partial(s, e, m, k).conns[j].peer == s.conns[j].peer
  {
    hide Encode, Legal, Recipient;
    assert forall j | 0 <= j < k :: s.conns[..k][j] == s.conns[j];
  }

  lemma PartialSkip(s: Server, e: Event, m: Message, k: nat)
    requires k < |s.conns| && !Recipient(s.conns[k], e)
    ensures Partial(s, e, m, k + 1) == Partial(s, e, m, k)
  {
    hide QueueMessage, Recipient;
    var (p, q) := (s.conns[..k], s.conns[..k + 1]);
    assert q == p + [s.conns[k]];
    assert RecipientFds(q, e) == RecipientFds(p, e) by { FdsSnoc(p, s.conns[k], e); }
    assert QueueToRecipients(q, e, m) + s.conns[k + 1..] == QueueToRecipients(p, e, m) + s.conns[k..];
  }

  lemma FdsSnoc(conns: seq<Conn>, c: Conn, e: Event)
    ensures RecipientFds(conns + [c], e) ==
              RecipientFds(conns, e) + if Recipient(c, e) then {c.fd} else {}
  {
    hide Recipient;
    var after := conns + [c];
    assert after[|conns|] == c;
    forall fd | fd in RecipientFds(conns, e) ensures fd in RecipientFds(after, e) {
      var j :| 0 <= j < |conns| && Recipient(conns[j], e) && conns[j].fd == fd;
      assert after[j] == conns[j];
    }
  }

  lemma PartialNext(s: Server, e: Event, m: Message, k: nat)
    requires Wired(s) && k < |s.conns| && Recipient(s.conns[k], e) && Legal(m)
    ensures var p := Partial(s, e, m, k);
            var r := Ctl(p.entries, Mod, s.conns[k].fd, IN_OUT_RDHUP);
            && r.ok && k < |p.conns|
            && Partial(s, e, m, k + 1) == Put(p, k, QueueMessage(s.conns[k], m).conn).(entries := r.entries)
  {
    hide QueueMessage, Recipient, Find, Lookup;
    var (p, q) := (s.conns[..k], s.conns[..k + 1]);
    assert q == p + [s.conns[k]];
    FdsSnoc(p, s.conns[k], e);
    var fd := s.conns[k].fd;
    var armed := Arm(s.entries, RecipientFds(p, e), IN_OUT_RDHUP);
    assert Unique(armed);
    assert armed[k + 2].fd == fd;
    FindAt(armed, k + 2);
    assert Arm(s.entries, RecipientFds(q, e), IN_OUT_RDHUP) == armed[k + 2 := Entry(fd, IN_OUT_RDHUP)];
    assert QueueToRecipients(q, e, m) + s.conns[k + 1..]
        == (QueueToRecipients(p, e, m) + s.conns[k..])[k := QueueMessage(s.conns[k], m).conn];
  }

  lemma RefusedFirst(s: Server, e: Event, m: Message, k: nat)
    requires k < |s.conns| && Recipient(s.conns[k], e) && m == Render(s.name, e) && !Legal(m)
    requires !exists j :: 0 <= j < k && Recipient(s.conns[j], e)
    ensures Deliver(s, e) == Step(Put(Partial(s, e, m, k), k, QueueMessage(s.conns[k], m).conn), false)
  {
    hide Render, Legal, Encode, Recipient;
    NoRecipients(s, e, m, k);
    assert Partial(s, e, m, k) == s;
    assert FirstRecipient(s.conns, e) == k;
  }

  lemma NoRecipients(s: Server, e: Event, m: Message, k: nat)
    requires k <= |s.conns|
    requires !exists j :: 0 <= j < k && Recipient(s.conns[j], e)
    ensures Partial(s, e, m, k) == s
  {
    hide QueueMessage, Recipient;
    assert RecipientFds(s.conns[..k], e) == {};
    assert Arm(s.entries, {}, IN_OUT_RDHUP) == s.entries;
    assert QueueToRecipients(s.conns[..k], e, m) == s.conns[..k];
    assert s.conns[..k] + s.conns[k..] == s.conns;
  }

  lemma PartialEnd(s: Server, e: Event, m: Message)
    requires m == Render(s.name, e)
    requires (exists j :: 0 <= j < |s.conns| && Recipient(s.conns[j], e)) ==> Legal(m)
    ensures Deliver(s, e) == Step(Partial(s, e, m, |s.conns|).(log := s.log + [e]), true)
  {
    hide Render, Legal, QueueMessage, Recipient, Arm;
    assert s.conns[..|s.conns|] == s.conns;
    assert QueueToRecipients(s.conns, e, m) + s.conns[|s.conns|..] == QueueToRecipients(s.conns, e, m);
  }

  lemma DeliverWired(s: Server, e: Event)
    requires Wired(s) && DistinctPeers(s.conns)
    ensures Wired(Deliver(s, e).server) && DistinctPeers(Deliver(s, e).server.conns)
  {
    hide Deliver, Wired;
    DeliverSizes(s, e);
  }

  lemma RemovedWired(s: Server, i: nat)
    requires Wired(s) && DistinctPeers(s.conns) && i < |s.conns|
    ensures Wired(Remove(s, i)) && DistinctPeers(Remove(s, i).conns)
  {
    hide Wired, Ctl, Lookup;
    PlumbedFds(s);
    RemoveWired(s, i, Remove(s, i));
    RemovePeers(s.conns, i);
  }

  /** The kernel does not hand over a TCP connection that is listed already. */
  predicate FreshPeers(s: Server, accepts: seq<AcceptResult>)
    decreases |accepts|
  {
    accepts != [] && accepts[0].Accepted? ==>
      && accepts[0].peer !in Peers(s.conns)
      && var r := AcceptOne(s, accepts[0].fd, accepts[0].peer);
         r.ok ==> FreshPeers(r.server, accepts[1..])
  }

  lemma DropObject(cs: seq<Connection>, k: nat)
    requires DistinctObjects(cs) && k < |cs|
    ensures var after := cs[..k] + cs[k + 1..];
            DistinctObjects(after) && cs[k] !in after && forall c <- after :: c in cs
  {
    var after := cs[..k] + cs[k + 1..];
    assert forall j | 0 <= j < |after| :: after[j] == cs[Skip(k, j)];
  }

  lemma FirstAdd(e: Entry)
    ensures Ctl([], Add, e.fd, e.events) == CtlResult([e], true)
  {
  }

  lemma SecondAdd(e: Entry, f: Entry)
    requires e.fd != f.fd
    ensures Ctl([e], Add, f.fd, f.events) == CtlResult([e, f], true)
  {
  }

  lemma RefusedAdd(entries: seq<Entry>, fd: int, events: Events)
    ensures var r := Ctl(entries, Add, fd, events);
            !r.ok ==> r.entries == entries
  {
  }

  lemma AddedWired(s: Server, c: Conn)
    requires Wired(s) && DistinctPeers(s.conns) && c.peer !in Peers(s.conns)
    ensures var r := Ctl(s.entries, Add, c.fd, IN_RDHUP);
            var t := s.(conns := s.conns + [c], entries := r.entries);
            r.ok ==> Wired(t) && DistinctPeers(t.conns)
  {
    hide Find;
    RetirePeers(s.conns, c);
  }

  lemma AcceptedAs(s: Server, fd: int, peer: nat)
    ensures var c := NewConn(fd, WAITING_FOR_CLIENT_HELLO, peer);
            var r := Ctl(s.entries, Add, fd, IN_RDHUP);
            var t := s.(calls := s.calls + [Opened(fd)]);
            AcceptOne(s, fd, peer) ==
              if r.ok then Step(t.(conns := s.conns + [c], entries := r.entries), true)
              else Step(t.(retired := s.retired + [c], calls := t.calls + [Closed(fd)]), false)
  {
    hide Ctl;
    assert s.calls + [Opened(fd), Closed(fd)] == s.calls + [Opened(fd)] + [Closed(fd)];
  }

  /** announce_client_connected's frame. */
  function ConnectedMessage(name: Text): Message {
    Message(BROADCAST, Format(ServerName(), Ascii("`") + name + Ascii("` connected.")))
  }

  /** announce_client_disconnected's frame. */
  function DisconnectedMessage(name: Text): Message {
    Message(BROADCAST, Format(ServerName(), Ascii("`") + name + Ascii("` disconnected.")))
  }

  lemma ParseShrinks(c: Conn)
    ensures var (d, m) := ParseMessage(c);
            m.Some? ==> |d.inBuffer| < |c.inBuffer|
  {
    hide BigEndian, FromBigEndian;
  }

  lemma ParseIdentity(c: Conn)
    ensures var d := ParseMessage(c).0;
            d.fd == c.fd && d.peer == c.peer && d.name == c.name
  {
    hide ParseFrame;
  }

  lemma ModWired(s: Server, i: nat, events: Events)
    requires Wired(s) && i < |s.conns|
    ensures var r := Ctl(s.entries, Mod, s.conns[i].fd, events);
            r.ok && Wired(s.(entries := r.entries))
  {
    hide Find, Lookup;
    PlumbedFds(s);
  }

  // ---------- The loop of queue_close_to_all_clients after k records ----------

  function PartialClose(s: Server, k: nat): Server
    requires k <= |s.conns|
  {
    s.(conns := QueueCloseToActive(s.conns[..k]) + s.conns[k..],
       entries := Arm(s.entries, ActiveFds(s.conns[..k]), OUT_RDHUP))
  }

  lemma PartialCloseStart(s: Server)
    ensures PartialClose(s, 0) == s
  {
    assert ActiveFds(s.conns[..0]) == {};
    assert Arm(s.entries, {}, OUT_RDHUP) == s.entries;
    assert QueueCloseToActive(s.conns[..0]) + s.conns[0..] == s.conns;
  }

  lemma PartialCloseAt(s: Server, k: nat)
    requires k < |s.conns|
    ensures |PartialClose(s, k).conns| == |s.conns|
    ensures PartialClose(s, k).conns[k] == s.conns[k]
  {
    hide QueueMessage;
  }

  lemma ActiveFdsSnoc(conns: seq<Conn>, c: Conn)
    ensures ActiveFds(conns + [c]) == ActiveFds(conns) + if c.state == ACTIVE then {c.fd} else {}
  {
    var after := conns + [c];
    assert after[|conns|] == c;
    forall fd | fd in ActiveFds(conns) ensures fd in ActiveFds(after) {
      var j :| 0 <= j < |conns| && conns[j].state == ACTIVE && conns[j].fd == fd;
      assert after[j] == conns[j];
    }
  }

  lemma PartialCloseSkip(s: Server, k: nat)
    requires k < |s.conns| && s.conns[k].state != ACTIVE
    ensures PartialClose(s, k + 1) == PartialClose(s, k)
  {
    hide QueueMessage;
    var (p, q) := (s.conns[..k], s.conns[..k + 1]);
    assert q == p + [s.conns[k]];
    ActiveFdsSnoc(p, s.conns[k]);
    assert ActiveFds(q) == ActiveFds(p);
    assert QueueCloseToActive(q) + s.conns[k + 1..] == QueueCloseToActive(p) + s.conns[k..];
  }

  lemma PartialCloseNext(s: Server, k: nat)
    requires Wired(s) && k < |s.conns| && s.conns[k].state == ACTIVE
    ensures var p := PartialClose(s, k);
            var r := Ctl(p.entries, Mod, s.conns[k].fd, OUT_RDHUP);
            && r.ok && k < |p.conns|
            && PartialClose(s, k + 1) == Put(p, k, QueueMessage(s.conns[k], CLOSE_FRAME).conn).(entries := r.entries)
  {
    hide QueueMessage, Find, Lookup;
    var (p, q) := (s.conns[..k], s.conns[..k + 1]);
    assert q == p + [s.conns[k]];
    ActiveFdsSnoc(p, s.conns[k]);
    var fd := s.conns[k].fd;
    var armed := Arm(s.entries, ActiveFds(p), OUT_RDHUP);
    assert Unique(armed);
    assert armed[k + 2].fd == fd;
    FindAt(armed, k + 2);
    assert Arm(s.entries, ActiveFds(q), OUT_RDHUP) == armed[k + 2 := Entry(fd, OUT_RDHUP)];
    assert QueueCloseToActive(q) + s.conns[k + 1..]
        == (QueueCloseToActive(p) + s.conns[k..])[k := QueueMessage(s.conns[k], CLOSE_FRAME).conn];
  }

  lemma PartialCloseEnd(s: Server)
    requires Wired(s) && DistinctPeers(s.conns)
    ensures QueueClose(s) == PartialClose(s, |s.conns|)
    ensures Wired(QueueClose(s)) && DistinctPeers(QueueClose(s).conns)
  {
    hide QueueMessage;
    assert s.conns[..|s.conns|] == s.conns;
    assert QueueCloseToActive(s.conns) + s.conns[|s.conns|..] == QueueCloseToActive(s.conns);
    var t := QueueClose(s);
    forall k | 0 <= k < |s.conns|
      ensures t.conns[k].fd == s.conns[k].fd && t.conns[k].peer == s.conns[k].peer
    {
      QueueIdentity(s.conns[k], CLOSE_FRAME);
    }
  }

  lemma {:induction false} LegalIsFresh(s: Server, accepts: seq<AcceptResult>)
    requires LegalAccepts(s, accepts)
    ensures FreshPeers(s, accepts)
    decreases |accepts|
  {
    if accepts != [] && accepts[0].Accepted? {
      LegalIsFresh(AcceptOne(s, accepts[0].fd, accepts[0].peer).server, accepts[1..]);
    }
  }

  lemma NoCloseCalls()
    ensures CloseCalls([]) == []
  {
  }

  lemma Elsewhere(cs: seq<Connection>, k: nat)
    requires DistinctObjects(cs) && k < |cs|
    ensures forall j | k < j < |cs| :: cs[j] != cs[k]
  {
  }

  lemma {:induction false} CloseCallsSnoc(conns: seq<Conn>, c: Conn)
    ensures CloseCalls(conns + [c]) == CloseCalls(conns) + [Closed(c.fd)]
    decreases |conns|
  {
    if conns != [] {
      assert (conns + [c])[1..] == conns[1..] + [c];
      CloseCallsSnoc(conns[1..], c);
    }
  }

  /** server_init from the listening socket on: set up, run the loop, clean up. */
  method RunServer(name: Text, listenFd: int, wakeups: seq<Wakeup>) returns (server: ChatServer)
    requires listenFd != STDIN_FD && LegalRun(Init(name, listenFd), wakeups)
    ensures server.Model() == Cleanup(EventLoop(Init(name, listenFd), wakeups).server)
  {
    server := new ChatServer(name, listenFd);
    var running := server.ServerEventLoop(wakeups);
    server.ServerCleanup();
  }
}
