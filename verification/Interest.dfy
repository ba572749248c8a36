/** The poll()-backed interest list. epoll_ctl searches a list of (fd, events) entries, so the
    list acts as a finite map as long as no fd is entered twice; epoll_wait reports ready entries
    in list order, at most `limit` of them. */
module Interest {
  import opened Options

  /** One epoll event mask, a field per flag. */
  datatype Events = Events(input: bool, output: bool, error: bool, hup: bool, rdhup: bool)

  const IN := Events(true, false, false, false, false)
  const IN_RDHUP := Events(true, false, false, false, true)
  const OUT_RDHUP := Events(false, true, false, false, true)
  const IN_OUT_RDHUP := Events(true, true, false, false, true)

  predicate Readable(events: Events) {
    events.input || events.rdhup || events.hup
  }

  datatype Entry = Entry(fd: int, events: Events)

  const STDIN_FD := 0

  datatype Op = Add | Mod | Del

  /** Index of the first entry for fd, or the length of the list. */
  function Find(entries: seq<Entry>, fd: int): (k: nat)
    ensures k <= |entries|
    ensures k < |entries| ==> entries[k].fd == fd
    ensures forall j | 0 <= j < k :: entries[j].fd != fd
  {
    if entries == [] then 0
    else if entries[0].fd == fd then 0
    else
      var k := Find(entries[1..], fd);
      assert forall j | 1 <= j < k + 1 :: entries[j] == entries[1..][j - 1];
      k + 1
  }

  datatype CtlResult = CtlResult(entries: seq<Entry>, ok: bool)

  function Ctl(entries: seq<Entry>, op: Op, fd: int, events: Events): CtlResult {
    var k := Find(entries, fd);
    match op
    case Add =>
      if k < |entries| then CtlResult(entries, false)
      else CtlResult(entries + [Entry(fd, events)], true)
    case Mod =>
      if k == |entries| then CtlResult(entries, false)
      else CtlResult(entries[k := Entry(fd, events)], true)
    case Del =>
      if k == |entries| then CtlResult(entries, false)
      else CtlResult(entries[..k] + entries[k + 1..], true)
  }

  predicate Unique(entries: seq<Entry>) {
    forall j, k | 0 <= j < k < |entries| :: entries[j].fd != entries[k].fd
  }

  /** What the list says about fd when read as a finite map. */
  function Get(entries: seq<Entry>, fd: int): Option<Events> {
    var k := Find(entries, fd);
    if k < |entries| then Some(entries[k].events) else None
  }

  /** epoll_ctl refines a finite map: it keeps the entries unique, it fails exactly on a second
      Add and on a missing Mod or Del and then changes nothing, and when it succeeds it changes
      what the list says about fd and about no other descriptor. */
  lemma CtlRefinesMap(entries: seq<Entry>, op: Op, fd: int, events: Events)
    requires Unique(entries)
    ensures var r := Ctl(entries, op, fd, events);
            && Unique(r.entries)
            && r.ok == ((op == Add) == Get(entries, fd).None?)
            && forall g :: Get(r.entries, g) ==
                 if !r.ok || g != fd then Get(entries, g)
                 else if op == Del then None
                 else Some(events)
  {
    var r := Ctl(entries, op, fd, events);
    if r.ok {
      forall g
        ensures Get(r.entries, g) ==
                  if g != fd then Get(entries, g) else if op == Del then None else Some(events)
      {
        match op
        case Add => GetAfterAdd(entries, Entry(fd, events), g);
        case Mod => GetAfterMod(entries, Entry(fd, events), g);
        case Del => GetAfterDel(entries, fd, g);
      }
    }
  }

  lemma GetAfterAdd(entries: seq<Entry>, e: Entry, g: int)
    requires Find(entries, e.fd) == |entries|
    ensures Get(entries + [e], g) == if g == e.fd then Some(e.events) else Get(entries, g)
  {
    FirstIs(entries + [e], g, if g == e.fd then |entries| else
                              if Find(entries, g) == |entries| then |entries| + 1 else Find(entries, g));
  }

  lemma GetAfterMod(entries: seq<Entry>, e: Entry, g: int)
    requires Find(entries, e.fd) < |entries|
    ensures Get(entries[Find(entries, e.fd) := e], g) == if g == e.fd then Some(e.events) else Get(entries, g)
  {
    FirstIs(entries[Find(entries, e.fd) := e], g, Find(entries, g));
  }

  lemma GetAfterDel(entries: seq<Entry>, fd: int, g: int)
    requires Unique(entries) && Find(entries, fd) < |entries|
    ensures var k := Find(entries, fd);
            Get(entries[..k] + entries[k + 1..], g) == if g == fd then None else Get(entries, g)
  {
    hide Find;
    var k := Find(entries, fd);
    var j := Find(entries, g);
    var after := entries[..k] + entries[k + 1..];
    var at := if g == fd then |after| else if j < k then j else j - 1;
    forall i | 0 <= i < at
      ensures after[i].fd != g
    {
      assert after[i] == entries[if i < k then i else i + 1];
    }
    if at < |after| {
      assert after[at] == entries[j];
    }
    FirstIs(after, g, at);
  }

  /** Find is the only position with its two properties. */
  lemma FirstIs(entries: seq<Entry>, fd: int, k: nat)
    requires k <= |entries|
    requires k < |entries| ==> entries[k].fd == fd
    requires forall j | 0 <= j < k :: entries[j].fd != fd
    ensures Find(entries, fd) == k
  {
  }

  /** In a list without repeated fds, the entry for fd is the one at its position. */
  lemma FindAt(entries: seq<Entry>, k: nat)
    requires Unique(entries) && k < |entries|
    ensures Find(entries, entries[k].fd) == k
  {
  }

  // ---------- epoll_wait ----------

  /** The revents bits of one pollfd. */
  datatype PollBits = PollBits(input: bool, urgent: bool, output: bool, error: bool, hup: bool)

  const QUIET := PollBits(false, false, false, false, false)

  function ToEpoll(b: PollBits): Events {
    Events(b.input || b.urgent, b.output, b.error, b.hup, b.hup)
  }

  const NO_EVENTS := Events(false, false, false, false, false)

  datatype Ready = Ready(fd: int, events: Events)

  function BitsAt(revents: seq<PollBits>, k: nat): PollBits {
    if k < |revents| then revents[k] else QUIET
  }

  /** The events reported from entry k on when `room` more fit; poll's answer is `revents`. */
  function Wait(entries: seq<Entry>, revents: seq<PollBits>, k: nat, room: nat): seq<Ready>
    decreases |entries| - k
  {
    if k >= |entries| || room == 0 then []
    else
      var events := ToEpoll(BitsAt(revents, k));
      if events == NO_EVENTS then Wait(entries, revents, k + 1, room)
      else [Ready(entries[k].fd, events)] + Wait(entries, revents, k + 1, room - 1)
  }

  predicate DistinctFds(batch: seq<Ready>) {
    forall j, k | 0 <= j < k < |batch| :: batch[j].fd != batch[k].fd
  }

  /** Some entry from k on is for this fd. */
  predicate Entered(entries: seq<Entry>, k: nat, fd: int) {
    exists i :: k <= i < |entries| && entries[i].fd == fd
  }

  /** A batch names each fd at most once and only fds in the interest list, and never exceeds
      the room the caller has. */
  lemma {:induction false} WaitBatch(entries: seq<Entry>, revents: seq<PollBits>, k: nat, room: nat)
    requires Unique(entries)
    ensures var batch := Wait(entries, revents, k, room);
            && |batch| <= room
            && DistinctFds(batch)
            && forall j | 0 <= j < |batch| :: Entered(entries, k, batch[j].fd)
    decreases |entries| - k
  {
    hide ToEpoll, BitsAt, Unique, DistinctFds;
    if k < |entries| && room > 0 {
      var events := ToEpoll(BitsAt(revents, k));
      var left := if events == NO_EVENTS then room else room - 1;
      var rest := Wait(entries, revents, k + 1, left);
      WaitBatch(entries, revents, k + 1, left);
      forall j | 0 <= j < |rest|
        ensures Entered(entries, k, rest[j].fd) && rest[j].fd != entries[k].fd
      {
        EnteredLater(entries, k, rest[j].fd);
      }
      if events != NO_EVENTS {
        DistinctCons(Ready(entries[k].fd, events), rest);
        assert Entered(entries, k, entries[k].fd);
      }
    } else {
      assert DistinctFds([]) by { DistinctNone(); }
    }
  }

  lemma EnteredLater(entries: seq<Entry>, k: nat, fd: int)
    requires Unique(entries) && k < |entries| && Entered(entries, k + 1, fd)
    ensures Entered(entries, k, fd) && fd != entries[k].fd
  {
  }

  lemma DistinctNone()
    ensures DistinctFds([])
  {
  }

  lemma DistinctCons(r: Ready, rest: seq<Ready>)
    requires DistinctFds(rest) && forall j | 0 <= j < |rest| :: rest[j].fd != r.fd
    ensures DistinctFds([r] + rest)
  {
  }

  /** How many of the entries from j up to k poll has something to report on. */
  function Loud(revents: seq<PollBits>, j: nat, k: nat): nat
    decreases k
  {
    if k <= j then 0 else Loud(revents, j, k - 1) + if BitsAt(revents, k - 1) == QUIET then 0 else 1
  }

  lemma {:induction false} LoudSplit(revents: seq<PollBits>, j: nat, k: nat)
    requires j < k
    ensures Loud(revents, j, k) == (if BitsAt(revents, j) == QUIET then 0 else 1) + Loud(revents, j + 1, k)
  {
    if j + 1 < k {
      LoudSplit(revents, j, k - 1);
    }
  }

  /** Exactly what a batch holds: an event for every entry that poll reports on, in list order, as
      far as there is room, with input for POLLIN and POLLPRI, output for POLLOUT, error for POLLERR
      and both hang-up flags for POLLHUP. */
  lemma WaitExact(entries: seq<Entry>, revents: seq<PollBits>, room: nat)
    ensures var batch := Wait(entries, revents, 0, room);
            && |batch| == (if Loud(revents, 0, |entries|) < room then Loud(revents, 0, |entries|) else room)
            && forall i | 0 <= i < |entries| && BitsAt(revents, i) != QUIET && Loud(revents, 0, i) < room ::
                 && Loud(revents, 0, i) < |batch|
                 && var b := BitsAt(revents, i);
                    batch[Loud(revents, 0, i)]
                    == Ready(entries[i].fd, Events(b.input || b.urgent, b.output, b.error, b.hup, b.hup))
  {
    WaitFrom(entries, revents, 0, room);
  }

  lemma {:induction false} WaitFrom(entries: seq<Entry>, revents: seq<PollBits>, k: nat, room: nat)
    requires k <= |entries|
    ensures var batch := Wait(entries, revents, k, room);
            && |batch| == (if Loud(revents, k, |entries|) < room then Loud(revents, k, |entries|) else room)
            && forall i | k <= i < |entries| && BitsAt(revents, i) != QUIET && Loud(revents, k, i) < room ::
                 && Loud(revents, k, i) < |batch|
                 && batch[Loud(revents, k, i)] == Ready(entries[i].fd, ToEpoll(BitsAt(revents, i)))
    decreases |entries| - k
  {
    hide BitsAt, Loud, ToEpoll;
    LoudSame(revents, k);
    if k < |entries| && room > 0 {
      QuietBits(BitsAt(revents, k));
      var quiet := BitsAt(revents, k) == QUIET;
      var left := if quiet then room else room - 1;
      WaitFrom(entries, revents, k + 1, left);
      LoudSplit(revents, k, |entries|);
      forall i | k < i < |entries|
        ensures Loud(revents, k, i) == (if quiet then 0 else 1) + Loud(revents, k + 1, i)
      {
        LoudSplit(revents, k, i);
      }
    }
  }

  lemma LoudSame(revents: seq<PollBits>, k: nat)
    ensures Loud(revents, k, k) == 0
  {
  }

  lemma QuietBits(b: PollBits)
    ensures ToEpoll(b) == NO_EVENTS <==> b == QUIET
  {
  }

  // ---------- The list updated in place ----------

  class PollInstance {
    var entries: seq<Entry>

    constructor ()
      ensures entries == []
    {
      entries := [];
    }

    method FindEntry(fd: int) returns (k: nat)
      ensures k == Find(entries, fd)
    {
      k := 0;
      while k < |entries|
        invariant k <= |entries|
        invariant Find(entries, fd) == k + Find(entries[k..], fd)
      {
        if entries[k].fd == fd {
          return;
        }
        assert entries[k..][1..] == entries[k + 1..];
        k := k + 1;
      }
    }

    /** epoll_ctl with the three operations. */
    method Control(op: Op, fd: int, events: Events) returns (ok: bool)
      modifies this
      ensures CtlResult(entries, ok) == Ctl(old(entries), op, fd, events)
    {
      var k := FindEntry(fd);
      match op {
        case Add =>
          if k < |entries| { return false; }
          entries := entries + [Entry(fd, events)];
        case Mod =>
          if k == |entries| { return false; }
          entries := entries[k := Entry(fd, events)];
        case Del =>
          if k == |entries| { return false; }
          entries := entries[..k] + entries[k + 1..];
      }
      return true;
    }

    method WaitForEvents(revents: seq<PollBits>, limit: nat) returns (batch: seq<Ready>)
      ensures batch == Wait(entries, revents, 0, limit)
    {
      batch := [];
      var k := 0;
      while k < |entries| && |batch| < limit
        invariant k <= |entries| && |batch| <= limit
        invariant batch + Wait(entries, revents, k, limit - |batch|) == Wait(entries, revents, 0, limit)
      {
        var events := ToEpoll(BitsAt(revents, k));
        if events != NO_EVENTS {
          batch := batch + [Ready(entries[k].fd, events)];
        }
        k := k + 1;
      }
    }
  }
}
