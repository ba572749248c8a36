/** What the room log has the host say, against what the host typed. */
module HostLines {
  import opened Frames
  import opened Options
  import opened Connections
  import opened Interest
  import opened Room
  import opened ServerSpec
  import opened ServerInvariant
  import opened ServerHandlers
  import opened ServerDispatch
  import opened ServerTheorems
  import opened ServerShutdown
  import opened ServerEvents
  import opened ChatSystem

  function HostTexts(log: seq<Event>): seq<Text> {
    if log == [] then []
    else
      var e := log[|log| - 1];
      HostTexts(log[..|log| - 1]) + if e.HostSaid? then [e.text] else []
  }

  /** The line that is typed in a step and meant for the room: stdin has input while the room is
      open, and the line is neither empty nor /quit nor longer than a payload may be. A line that
      stops the server because it is too long under the host's name does not count. */
  function TypedIn(y: System, a: Action, z: System): seq<Text> {
    if && a.ServerEvent? && a.ready.fd == STDIN_FD && a.ready.events.input && !y.server.closing
       && a.env.line.Some? && a.env.line.value != [] && a.env.line.value != QuitCommand()
       && |a.env.line.value| <= MAX_PAYLOAD_SIZE && z.running
    then [a.env.line.value]
    else []
  }

  function Typed(states: seq<System>, actions: seq<Action>): seq<Text>
    requires |states| == |actions| + 1
  {
    if actions == [] then []
    else
      var n := |actions| - 1;
      Typed(states[..n + 1], actions[..n]) + TypedIn(states[n], actions[n], states[n + 1])
  }

  lemma HostTextsSnoc(log: seq<Event>, e: Event)
    ensures HostTexts(log + [e]) == HostTexts(log) + if e.HostSaid? then [e.text] else []
  {
    assert (log + [e])[..|log|] == log;
  }

  /** Nothing is put into the host's mouth by delivering something else. */
  lemma DeliverHost(s: Server, e: Event)
    requires !e.HostSaid?
    ensures HostTexts(Deliver(s, e).server.log) == HostTexts(s.log)
  {
    hide Render, Legal, HostTexts;
    HostTextsSnoc(s.log, e);
  }

  lemma LeaveHost(s: Server, i: nat)
    requires i < |s.conns|
    ensures HostTexts(Leave(s, i).server.log) == HostTexts(s.log)
  {
    hide Deliver, HostTexts, Ctl;
    var e := Left(s.conns[i].peer, s.conns[i].name);
    DeliverHost(s, e);
    DeliverStates(s, e);
  }

  lemma {:induction false} DrainHost(s: Server, i: nat)
    requires i < |s.conns|
    ensures HostTexts(Drain(s, i).server.log) == HostTexts(s.log)
    decreases |s.conns[i].inBuffer|
  {
    hide Deliver, ParseFrame, Leave, HostTexts, Ctl;
    var (c, m) := ParseMessage(s.conns[i]);
    var t := Put(s, i, c);
    LeaveHost(t, i);
    if m.Some? && m.value.kind == CHAT {
      var e := Said(c.peer, c.name, m.value.payload);
      DeliverHost(t, e);
      DeliverStates(t, e);
      var r := Deliver(t, e);
      if r.ok {
        DeliverInput(t, i, e);
        DrainHost(r.server, i);
      }
    }
  }

  lemma ReadHost(s: Server, fd: int, recvs: seq<RecvResult>)
    ensures HostTexts(HandleRead(s, fd, recvs).server.log) == HostTexts(s.log)
  {
    hide Drain, ReadIntoInBuffer, HostTexts, Ctl, Lookup;
    var i := Lookup(s.conns, fd);
    if i < |s.conns| {
      DrainHost(Put(s, i, ReadIntoInBuffer(s.conns[i], recvs).conn), i);
    }
  }

  lemma HelloHost(s: Server, fd: int, recvs: seq<RecvResult>)
    ensures HandleHello(s, fd, recvs).server.log == s.log
  {
    hide ReadIntoInBuffer, Ctl, Lookup, ParseFrame, Encode;
  }

  lemma SendHost(s: Server, fd: int, sends: seq<SendResult>)
    ensures HostTexts(HandleSend(s, fd, sends).server.log) == HostTexts(s.log)
  {
    hide Flush, Ctl, Lookup, Deliver, HostTexts;
    var i := Lookup(s.conns, fd);
    if i < |s.conns| {
      var f := Flush(s.conns[i], sends).conn;
      var t := Put(Put(s, i, f), i, f.(state := ACTIVE));
      DeliverHost(t, Joined(f.peer, f.name));
      DeliverStates(t, Joined(f.peer, f.name));
    }
  }

  lemma {:induction false} AcceptHost(s: Server, accepts: seq<AcceptResult>)
    ensures HandleAccept(s, accepts).server.log == s.log
    decreases |accepts|
  {
    hide Ctl;
    if accepts != [] && accepts[0].Accepted? {
      AcceptHost(AcceptOne(s, accepts[0].fd, accepts[0].peer).server, accepts[1..]);
    }
  }

  /** Events on other descriptors than stdin, and stdin once the room is closing. */
  lemma ElsewhereHost(s: Server, r: Ready, env: Env)
    requires ServerInv(s) && !(r.fd == STDIN_FD && r.events.input && !s.closing)
    ensures HostTexts(Dispatch(s, r, env).server.log) == HostTexts(s.log)
  {
    hide Rest, Dispatch, HandleAccept, HandleHello, HandleSend, HandleRead, HandleStdin, HostTexts;
    DispatchExact(s, r, env);
    AcceptHost(s, env.accepts);
    HelloHost(s, r.fd, env.recvs);
    SendHost(s, r.fd, env.sends);
    ReadHost(s, r.fd, env.recvs);
  }

  lemma QuitHost(s: Server)
    ensures HostTexts(HandleStdin(s, Some(QuitCommand())).server.log) == HostTexts(s.log)
  {
    hide Deliver, HostTexts, QuitCommand, AllEmpty;
    DeliverHost(s.(closing := true), RoomClosing);
  }

  lemma StdinHost(s: Server, r: Ready, env: Env)
    requires ServerInv(s) && !s.closing && r.fd == STDIN_FD && r.events.input
    ensures var d := Dispatch(s, r, env);
            HostTexts(d.server.log) == HostTexts(s.log) +
              if && env.line.Some? && env.line.value != [] && env.line.value != QuitCommand()
                 && |env.line.value| <= MAX_PAYLOAD_SIZE && d.ok
              then [env.line.value] else []
  {
    hide Rest, Dispatch, HandleStdin, QuitCommand, HostTexts, AllGain, Audience;
    StdinEffect(s, r, env);
    QuitHost(s);
    if env.line.Some? {
      HostTextsSnoc(s.log, HostSaid(env.line.value));
    }
  }

  lemma StepHost(host: Text, y: System, a: Action, z: System)
    requires SystemInv(host, y) && Next(y, a, z)
    ensures HostTexts(z.server.log) == HostTexts(y.server.log) + TypedIn(y, a, z)
  {
    hide Rest, Halted, Dispatch, HostTexts, QuitCommand, LegalEnv, Network, ClientsInv, HonestName;
    if a.ServerEvent? {
      if a.ready.fd == STDIN_FD && a.ready.events.input && !y.server.closing {
        StdinHost(y.server, a.ready, a.env);
      } else {
        ElsewhereHost(y.server, a.ready, a.env);
      }
    }
  }

  /** In every run, what the log has the host say is exactly what the host typed for the room, line
      by line, in order and unaltered. */
  lemma {:induction false} HostSaidWhatWasTyped(host: Text, listenFd: int, states: seq<System>, actions: seq<Action>)
    requires Run(host, listenFd, states, actions)
    ensures HostTexts(states[|actions|].server.log) == Typed(states, actions)
    decreases |actions|
  {
    hide SystemInv, Next, TypedIn;
    if actions != [] {
      var n := |actions| - 1;
      HostSaidWhatWasTyped(host, listenFd, states[..n + 1], actions[..n]);
      RunInv(host, listenFd, states[..n + 1], actions[..n]);
      StepHost(host, states[n], actions[n], states[n + 1]);
    }
  }
}
