/**
 * The dispatcher as the server runs it, on the session object itself: its packed
 * flag byte, its numbered reads with one handler each, and its send window. Each
 * handler is proved to do one step of the control machine on what the object
 * amounts to.
 */
module SessionDispatcher {
  import opened Bytes
  import opened DispatchedReads
  import opened Dispatcher
  import opened KcpSession
  import opened ReadPath
  import opened StateFlags
  import Tunnel
  import TunnelSession

  class ServerSession {
    const session: KCPSession
    // what sessions_ and connections_ say about it
    var registered: bool
    var entry: bool
    // the handler of every read issued so far, and how many completions were run
    var readers: seq<Reader>
    var ran: nat
    var upstream: Upstream
    // histories
    ghost var connects: nat
    ghost var writes: nat
    ghost var written: seq<byte>
    ghost var trace: Trace

    ghost predicate Valid()
      reads this, session
    {
      Booked(session.RxView(), readers, ran)
    }

    /** What every event finds and leaves; the tcp->kcp loop was started exactly when forwarding began. */
    ghost predicate Consistent()
      reads this, session
    {
      Valid() && Inv(View()) && (session.started <==> upstream == Forwarding)
    }

    ghost function FlagView(): Dispatcher.Flags
      reads session
    {
      var w := session.Flags();
      Dispatcher.Flags(w.proto, w.socks, w.forward, w.connect, session.handshakeDone, session.targetClosed)
    }

    ghost function View(): Control
      requires Valid()
      reads this, session
    {
      Control(session.Running(), registered, entry, AsReads(session.RxView(), readers, ran), FlagView(),
              Target(upstream, connects, writes, written), trace)
    }

    constructor (session: KCPSession)
      requires session.View() == TunnelSession.Fresh(session.salt)
      requires session.Flags() == Word(true, false, false, false, false) && !session.handshakeDone
      ensures this.session == session && Consistent() && View() == Fresh(session.salt)
    {
      this.session := session;
      registered, entry, readers, ran, upstream := true, false, [], 0, NoConnect;
      connects, writes, written, trace := 0, 0, [], Trace([], 0, 0, [], false);
    }

    /** A read by this handler; its number is the next one. */
    method AsyncReadSome(reader: Reader)
      requires Valid()
      modifies session`inbox, session`consumed, session`pending, session`completions, session`peerFin
      modifies session`issued, `readers
      ensures Valid() && View() == Read(old(View()), reader)
    {
      ReadCorresponds(session.RxView(), readers, ran, session.Running(), reader);
      readers := readers + [reader];
      session.OnAsyncReadSome(FWD_BUF_SIZE);
    }

    method StopSession()
      requires Valid()
      modifies session`stateFlags, session`writer, session`pending, session`completions
      ensures Valid() && View() == Stop(old(View()))
    {
      AbortCorresponds(session.RxView(), readers, ran);
      session.Halt();
    }

    method CloseConnection()
      requires Valid()
      modifies session`stateFlags, session`writer, session`pending, session`completions, `registered, `entry
      ensures Valid() && View() == Close(old(View()))
    {
      if registered {
        registered, entry := false, false;
        StopSession();
      }
    }

    /** A full window or a failed flush stops the session; `lost` says so. */
    method SendReply(fails: bool) returns (lost: bool)
      requires Valid()
      modifies session`stateFlags, session`writer, session`pending, session`completions, session`control, session`queued
      ensures Valid() && View() == Reply(old(View()), lost)
    {
      AbortCorresponds(session.RxView(), readers, ran);
      lost := session.Answer(fails);
    }

    method GiveUpOn()
      requires Valid()
      modifies session, `registered, `entry, `trace
      ensures Valid() && View() == Abandon(old(View()))
      ensures session.started == old(session.started)
    {
      if session.Running() && !registered {
        trace := StartedOver(trace, |Strip(session.consumed, session.salt)|);
      }
      CloseConnection();
    }

    method RefuseRequest(fails: bool) returns (lost: bool)
      requires Valid()
      modifies session, `registered, `entry, `trace
      ensures Valid() && View() == GiveUp(old(View()), lost)
      ensures session.started == old(session.started)
    {
      session.SetSocks5ReadPending(false);
      lost := SendReply(fails);
      GiveUpOn();
    }

    method StartConnect(initial: seq<byte>)
      requires Valid()
      modifies session`stateFlags, `upstream, `connects
      ensures Valid() && View() == Act(old(View()), [], Connect(initial), false)
    {
      session.SetSocks5ReadPending(false);
      session.SetConnectPending(true);
      upstream, connects := Connecting(initial), connects + 1;
    }

    /** Parses the accumulated bytes, and reads on only if they are an unfinished request. */
    method ReadMoreSocks5(accum: seq<byte>, fails: bool) returns (lost: bool)
      requires Valid()
      modifies session, `readers, `registered, `entry, `trace, `upstream, `connects
      ensures Valid() && View() == ReadMore(old(View()), accum, lost)
      ensures session.started == old(session.started)
    {
      lost := false;
      var d := if accum == [] then More else Decide(accum);
      match d
      case More =>
        session.SetSocks5ReadPending(true);
        AsyncReadSome(Socks(accum));
      case Refuse =>
        lost := RefuseRequest(fails);
      case Connect(initial) =>
        StartConnect(initial);
    }

    /** The claim is taken before anything else is looked at, and given back when the loop cannot start. */
    method ForwardKcpToTcp()
      requires Valid()
      modifies session, `readers
      ensures Valid() && View() == StartForward(old(View()))
      ensures session.started == old(session.started)
    {
      if session.targetClosed || session.peerFin {
        session.SetForwardReadPending(false);
        return;
      }
      var taken := session.TrySetForwardReadPending();
      if taken {
        return;
      }
      if !session.Running() || !registered || !entry {
        session.SetForwardReadPending(false);
        return;
      }
      AsyncReadSome(Forward);
    }

    method HandleKcpData()
      requires Valid()
      modifies session, `readers, `registered, `entry, `trace, `upstream, `connects
      ensures Valid() && View() == Dispatch(old(View()))
      ensures session.started == old(session.started)
    {
      if session.inbox == [] || session.inbox[0] == [] {
        return;
      }
      var w := session.Flags();
      if !w.proto {
        if !w.socks {
          session.SetSocks5ReadPending(true);
          AsyncReadSome(Hello);
        }
      } else if session.handshakeDone {
        ForwardKcpToTcp();
      } else if !w.socks && !w.connect {
        session.SetSocks5ReadPending(true);
        AsyncReadSome(Socks([]));
      }
    }

    /** A datagram: its messages and ACKs go into KCP, then the dispatcher looks at the queue. */
    method DatagramArrived(msgs: seq<Msg>, ackData: nat, ackControl: nat, ackFin: nat)
      requires Consistent()
      requires ackData <= session.data && ackControl <= session.control && ackFin <= session.fin
      modifies session, `readers, `registered, `entry, `trace, `upstream, `connects
      ensures Consistent() && View() == Step(old(View()), Datagram(msgs))
    {
      StepKeeps(View(), Datagram(msgs));
      DispatchTarget(Feed(View(), msgs));
      Receive(msgs, ackData, ackControl, ackFin);
      HandleKcpData();
    }

    method Receive(msgs: seq<Msg>, ackData: nat, ackControl: nat, ackFin: nat)
      requires Valid() && ackData <= session.data && ackControl <= session.control && ackFin <= session.fin
      modifies session
      ensures Valid() && View() == Feed(old(View()), msgs)
      ensures session.started == old(session.started)
    {
      FeedCorresponds(session.RxView(), readers, ran, msgs);
      session.TakeDatagram(msgs, ackData, ackControl, ackFin);
    }

    /** The acknowledgement, and another look at the queue for a request that came with the HELLO. */
    method Greet(m: Msg, fails: bool) returns (lost: bool)
      requires Valid()
      modifies session, `readers, `registered, `entry, `trace, `upstream, `connects
      ensures Valid() && View() == Dispatch(Reply(old(View()), lost))
      ensures session.started == old(session.started)
    {
      if m == HELLO_V2 {
        session.EnableHalfClose();
      }
      lost := SendReply(fails);
      HandleKcpData();
    }

    method HelloCompleted(o: Outcome, fails: bool) returns (lost: bool)
      requires Valid()
      modifies session, `readers, `registered, `entry, `trace, `upstream, `connects
      ensures Valid() && View() == OnHello(old(View()), o, lost)
      ensures session.started == old(session.started)
    {
      lost := false;
      session.SetSocks5ReadPending(false);
      if o.Data? {
        lost := FirstArrived(o.msg, fails);
      } else {
        GiveUpOn();
      }
    }

    method FirstArrived(m: Msg, fails: bool) returns (lost: bool)
      requires Valid()
      modifies session, `readers, `registered, `entry, `trace, `upstream, `connects
      ensures Valid() && View() == FirstMessage(old(View()), m, lost)
      ensures session.started == old(session.started)
    {
      TakeFirst(m);
      if IsHello(m) {
        lost := Greet(m, fails);
      } else {
        lost := ReadMoreSocks5(m, fails);
      }
    }

    method TakeFirst(m: Msg)
      requires Valid()
      modifies session`stateFlags, `trace
      ensures Valid()
      ensures View() == TookFirst(old(View()), m)
    {
      session.MarkProtocolHandshakeDone();
      trace := if IsHello(m) then Greeted(trace, m) else Took(trace, m);
    }

    /** The accumulator is bounded before it grows. */
    method SocksCompleted(accum: seq<byte>, o: Outcome, fails: bool) returns (lost: bool)
      requires Valid()
      modifies session, `readers, `registered, `entry, `trace, `upstream, `connects
      ensures Valid() && View() == OnSocks(old(View()), accum, o, lost)
      ensures session.started == old(session.started)
    {
      if !o.Data? {
        lost := RefuseRequest(fails);
        return;
      }
      trace := Took(trace, o.msg);
      if |accum| + |o.msg| > FWD_BUF_SIZE {
        lost := RefuseRequest(fails);
      } else {
        lost := ReadMoreSocks5(accum + o.msg, fails);
      }
    }

    method ForwardCompleted(o: Outcome)
      requires Valid()
      modifies session, `registered, `entry, `trace, `writes, `written
      ensures Valid() && View() == OnForward(old(View()), o)
      ensures session.started == old(session.started)
    {
      match o
      case Eof => session.SetForwardReadPending(false);
      case Data(m) =>
        trace := Took(trace, m);
        WriteToTarget(m);
      case _ => CloseConnection();
    }

    method WriteToTarget(m: Msg)
      requires Valid()
      modifies session`stateFlags, `writes, `written
      ensures Valid() && View() == Relay(old(View()), m)
    {
      if session.targetClosed {
        session.SetForwardReadPending(false);
      } else {
        writes, written := writes + 1, written + m;
      }
    }

    /** Runs the handler of the oldest completion that is still due. */
    method RunNextPosted(fails: bool) returns (lost: bool)
      requires Consistent() && ran < |session.completions|
      modifies this, session
      ensures Consistent() && old(View()).rd.posted != []
      ensures View() == Step(old(View()), RunPosted(lost))
    {
      ghost var before := View();
      RunCorresponds(session.RxView(), readers, ran);
      var c := session.completions[ran];
      ran := ran + 1;
      lost := RunHandler(readers[c.id], c.outcome, fails);
      HandledKeeps(before, lost);
    }

    method RunHandler(reader: Reader, o: Outcome, fails: bool) returns (lost: bool)
      requires Valid()
      modifies session, `readers, `registered, `entry, `trace, `upstream, `connects, `writes, `written
      ensures Valid() && View() == Handle(old(View()), Post(reader, o), lost)
      ensures session.started == old(session.started)
    {
      lost := false;
      match reader
      case Hello => lost := HelloCompleted(o, fails);
      case Socks(accum) => lost := SocksCompleted(accum, o, fails);
      case Forward => ForwardCompleted(o);
    }

    method StartForwarding()
      requires Valid() && !session.started
      modifies session, `readers, `entry, `upstream
      ensures Valid() && View() == BeginForwarding(old(View()))
      ensures session.started <==> upstream == Forwarding
    {
      if !registered {
        upstream := Ended;
      } else {
        StoreSocket();
        ForwardKcpToTcp();
      }
    }

    method StoreSocket()
      requires Valid() && !session.started
      modifies session`started, session`drainHook, session`writer, `entry, `upstream
      ensures Valid() && View() == old(View()).(entry := true, target := old(View()).target.(state := Forwarding))
      ensures session.started
    {
      entry, upstream := true, Forwarding;
      session.BeginForwarding();
    }

    /** The initial payload is written before forwarding may start. */
    method ConnectSucceeded(fails: bool) returns (lost: bool)
      requires Consistent() && upstream.Connecting?
      modifies session, `readers, `entry, `upstream, `writes, `written
      ensures Consistent() && View() == Step(old(View()), ConnectDone(true, lost))
    {
      ghost var before := View();
      var initial := upstream.initial;
      lost := AnswerConnect(fails);
      BeginTransfer(initial);
      StepKeeps(before, ConnectDone(true, lost));
    }

    method AnswerConnect(fails: bool) returns (lost: bool)
      requires Valid()
      modifies session`stateFlags, session`writer, session`pending, session`completions
      modifies session`control, session`queued, session`handshakeDone
      ensures Valid()
      ensures var c := Reply(old(View()), lost); View() == c.(flags := c.flags.(handshake := true, connect := false))
    {
      lost := SendReply(fails);
      session.MarkHandshakeDone();
    }

    method BeginTransfer(initial: seq<byte>)
      requires Valid() && !session.started
      modifies session, `readers, `entry, `upstream, `writes, `written
      ensures Valid() && View() == Transfer(old(View()), initial)
      ensures session.started <==> upstream == Forwarding
    {
      if initial == [] {
        StartForwarding();
      } else {
        upstream, writes, written := InitialWrite, writes + 1, written + initial;
      }
    }

    method TargetFailed(looped: bool, fails: bool) returns (lost: bool)
      requires Valid()
      modifies session
      ensures Valid() && View() == if lost then Stop(TargetGone(old(View()))) else TargetGone(old(View()))
      ensures session.started == old(session.started)
    {
      lost := CloseTarget(looped, fails);
      session.SetForwardReadPending(false);
    }

    method CloseTarget(looped: bool, fails: bool) returns (lost: bool)
      requires Valid()
      modifies session
      ensures Valid()
      ensures var c := old(View()).(flags := old(View()).flags.(targetClosed := true));
              View() == if lost then Stop(c) else c
      ensures session.started == old(session.started)
    {
      AbortCorresponds(session.RxView(), readers, ran);
      lost := session.LoseTarget(looped, fails);
    }

    method ForwardWriteCompleted(ok: bool, fails: bool) returns (lost: bool)
      requires Consistent() && upstream == Forwarding && writes > 0
      modifies session, `readers, `writes
      ensures Consistent()
      ensures View() == OrHalted(old(View()), ForwardWritten(ok), lost)
    {
      ghost var before := View();
      FinishWrite();
      lost := LeaveWrite(ok, fails);
      WrittenThen(before, ok, lost);
    }

    method LeaveWrite(ok: bool, fails: bool) returns (lost: bool)
      requires Valid()
      modifies session, `readers
      ensures Valid() && session.started == old(session.started)
      ensures var after := AfterForward(old(View()), ok); View() == if lost then Stop(after) else after
    {
      lost := false;
      if !ok {
        lost := TargetFailed(false, fails);
      } else {
        ReArm();
      }
    }

    /** The tcp->kcp loop saw the target's end. */
    method TargetEnded(fails: bool) returns (lost: bool)
      requires Consistent() && upstream == Forwarding
      modifies session
      ensures Consistent()
      ensures View() == OrHalted(old(View()), TargetEof, lost)
    {
      ghost var before := View();
      lost := TargetFailed(true, fails);
      ThenHalted(before, TargetEof, lost);
    }

    ghost method FinishWrite()
      requires Valid() && writes > 0
      modifies `writes
      ensures Valid() && View() == old(View()).(target := old(View()).target.(writes := old(writes) - 1))
    {
      writes := writes - 1;
    }

    method ReArm()
      requires Valid()
      modifies session, `readers
      ensures Valid() && View() == Rearm(old(View()))
      ensures session.started == old(session.started)
    {
      session.SetForwardReadPending(false);
      if session.Running() {
        ForwardKcpToTcp();
      }
    }

    method ConnectRefused(fails: bool) returns (lost: bool)
      requires Consistent() && upstream.Connecting?
      modifies session, `registered, `entry, `upstream
      ensures Consistent() && View() == Step(old(View()), ConnectDone(false, lost))
    {
      ghost var before := View();
      lost := SendReply(fails);
      EndUpstream();
      StepKeeps(before, ConnectDone(false, lost));
    }

    method InitialWriteCompleted(ok: bool)
      requires Consistent() && upstream == InitialWrite && writes > 0
      modifies session, `readers, `registered, `entry, `upstream, `writes
      ensures Consistent() && View() == Step(old(View()), InitialWritten(ok))
    {
      ghost var before := View();
      FinishWrite();
      LeaveInitial(ok);
      StepKeeps(before, InitialWritten(ok));
    }

    method LeaveInitial(ok: bool)
      requires Valid() && !session.started
      modifies session, `readers, `registered, `entry, `upstream
      ensures Valid() && View() == AfterInitial(old(View()), ok)
      ensures session.started <==> upstream == Forwarding
    {
      if ok {
        StartForwarding();
      } else {
        EndUpstream();
      }
    }

    method EndUpstream()
      requires Valid() && !session.started
      modifies session, `registered, `entry, `upstream
      ensures Valid() && View() == Close(old(View()).(target := old(View()).target.(state := Ended)))
      ensures upstream == Ended && !session.started
    {
      upstream := Ended;
      CloseConnection();
    }

    /** A tick amounts to a fulfilment and at most a stop before or after it. */
    method TickSession(flushFails: bool, finFails: bool, due: bool) returns (drained: bool)
      requires Valid() && session.Running()
      modifies session
      ensures Valid()
      ensures AfterTick(old(View()), View(), false)
      ensures drained && registered ==> !session.Running()
      ensures session.started == old(session.started)
    {
      FulfillCorresponds(session.RxView(), readers, ran);
      AbortCorresponds(session.RxView(), readers, ran);
      AbortCorresponds(Tunnel.Fulfill(session.RxView()), readers, ran);
      drained := session.TickReader(flushFails, finFails, due, registered);
    }

    /** The drained callback closes the connection if the table still holds the session. */
    method Ticked(flushFails: bool, finFails: bool, due: bool) returns (closed: bool)
      requires Consistent() && session.Running()
      modifies session, `registered, `entry
      ensures Consistent() && AfterTick(old(View()), View(), closed)
    {
      ghost var before := View();
      var drained := TickSession(flushFails, finFails, due);
      TickedKeeps(before);
      closed := drained && registered;
      ghost var ticked := View();
      if closed {
        registered, entry := false, false;
        ClosedTick(before, ticked, View());
      }
    }
  }

  lemma HandledKeeps(c: Control, fails: bool)
    requires Inv(c) && c.rd.posted != []
    ensures Inv(Step(c, RunPosted(fails)))
    ensures Step(c, RunPosted(fails)).target.state == Forwarding <==> c.target.state == Forwarding
  {
    StepKeeps(c, RunPosted(fails));
    HandleTarget(c.(rd := c.rd.(posted := c.rd.posted[1..])), c.rd.posted[0], fails);
  }

  /** One step, and a stop after it if the handler lost the session. */
  function OrHalted(c: Control, ev: Event, lost: bool): Control
    requires Enabled(c, ev)
  {
    if lost then Step(Step(c, ev), Halt) else Step(c, ev)
  }

  lemma ThenHalted(c: Control, ev: Event, lost: bool)
    requires Inv(c) && Enabled(c, ev)
    ensures Inv(OrHalted(c, ev, lost))
  {
    StepKeeps(c, ev);
    StepKeeps(Step(c, ev), Halt);
  }

  lemma WrittenThen(c: Control, ok: bool, lost: bool)
    requires Inv(c) && Enabled(c, ForwardWritten(ok))
    ensures var after := AfterForward(c.(target := c.target.(writes := c.target.writes - 1)), ok);
            OrHalted(c, ForwardWritten(ok), lost) == if lost then Stop(after) else after
    ensures Inv(OrHalted(c, ForwardWritten(ok), lost))
  {
    ThenHalted(c, ForwardWritten(ok), lost);
  }

  /** What a tick of a running session may come to: a fulfilment, a stop before or after it, or then a close. */
  predicate AfterTick(c: Control, d: Control, closed: bool)
  {
    var fulfilled := Step(c, UpdateTick);
    if closed then d == Step(Step(c, Halt), Shut) || d == Step(Step(fulfilled, Halt), Shut)
    else if d.running then d == fulfilled
    else d == Step(c, Halt) || d == Step(fulfilled, Halt)
  }

  lemma ClosedTick(c: Control, d: Control, e: Control)
    requires AfterTick(c, d, false) && !d.running && d.registered && e == d.(registered := false, entry := false)
    ensures AfterTick(c, e, true)
  {
  }

  lemma TickedKeeps(c: Control)
    requires Inv(c)
    ensures forall d, closed :: AfterTick(c, d, closed) ==> Inv(d)
  {
    var fulfilled := Step(c, UpdateTick);
    StepKeeps(c, UpdateTick);
    StepKeeps(c, Halt);
    StepKeeps(fulfilled, Halt);
    StepKeeps(Step(c, Halt), Shut);
    StepKeeps(Step(fulfilled, Halt), Shut);
  }
}
