/**
 * The server's per-session control: which reader owns the next client message
 * (server.cpp, handle_kcp_data to forward_kcp_to_tcp). A read completion is
 * posted, so its handler runs as a later step and others may come between.
 */
module Dispatcher {
  import opened Bytes
  import opened ReadPath
  import opened Socks5

  const HELLO_V1: Msg := Ascii("KCP_PROXY_HELLO_V1")
  const HELLO_V2: Msg := Ascii("KCP_PROXY_HELLO_V2")

  predicate IsHello(m: Msg) { m == HELLO_V1 || m == HELLO_V2 }

  /** Who registered a read; a SOCKS5 reader owns the bytes accumulated so far. */
  datatype Reader = Hello | Socks(accum: seq<byte>) | Forward

  datatype Post = Post(reader: Reader, outcome: Outcome)

  /** Histories: `consumed`, `heard` (what was handed over as data), `lossy` (something was reported otherwise). */
  datatype Reads = Reads(
    salt: seq<byte>, inbox: seq<Msg>, pending: Option<Reader>, posted: seq<Post>, peerFin: bool,
    consumed: seq<Msg>, heard: seq<Msg>, lossy: bool)

  /** The bits of state_flags_, and target_closed_. */
  datatype Flags = Flags(proto: bool, socks: bool, forward: bool, connect: bool, handshake: bool, targetClosed: bool)

  datatype Upstream = NoConnect | Connecting(initial: seq<byte>) | InitialWrite | Forwarding | Ended

  /** `writes` counts the writes outstanding on the target socket, `written` all bytes handed to it. */
  datatype Target = Target(state: Upstream, connects: nat, writes: nat, written: seq<byte>)

  /**
   * The messages whose handlers ran; `base` of them precede the current request,
   * as do `start` messages of the client's stream; `used` are the bytes of the
   * handled ones that follow. `orphaned` says that a handshake or request was
   * given up on while the session, no longer in the table, was not stopped by it.
   */
  datatype Trace = Trace(handled: seq<Msg>, base: nat, start: nat, used: seq<byte>, orphaned: bool)

  /** A handler took the message as part of the request. */
  function Took(t: Trace, m: Msg): Trace
  {
    t.(handled := t.handled + [m], used := t.used + m)
  }

  /** A handler took it as the HELLO before the request. */
  function Greeted(t: Trace, m: Msg): Trace
  {
    t.(handled := t.handled + [m], base := |t.handled| + 1, start := t.start + 1)
  }

  /** The next request starts after the `sent` messages the client's stream has so far. */
  function StartedOver(t: Trace, sent: nat): Trace
  {
    Trace(t.handled, |t.handled|, sent, [], true)
  }

  /** `registered`: the table still holds this session; `entry`: connections_ holds its socket. */
  datatype Control = Control(
    running: bool, registered: bool, entry: bool, rd: Reads, flags: Flags, target: Target, trace: Trace)

  // ---- the session's read ----

  function Fulfill(rd: Reads): Reads
  {
    if rd.pending.None? then rd
    else
      var n := Taken(rd.inbox, rd.salt);
      var o := Found(rd.inbox, rd.salt, FWD_BUF_SIZE);
      var fed := rd.(inbox := rd.inbox[n..], consumed := rd.consumed + rd.inbox[..n]);
      if o.None? then fed else Finish(fed, o.value)
  }

  function Finish(rd: Reads, o: Outcome): Reads
    requires rd.pending.Some?
  {
    rd.(pending := None, posted := rd.posted + [Post(rd.pending.value, o)], peerFin := rd.peerFin || o.Eof?,
        heard := if o.Data? then rd.heard + [o.msg] else rd.heard, lossy := rd.lossy || o.Eof? || o.MessageSize?)
  }

  function Issue(rd: Reads, running: bool, reader: Reader): Reads
  {
    if !running then rd.(posted := rd.posted + [Post(reader, Aborted)])
    else if rd.pending.Some? then rd.(posted := rd.posted + [Post(reader, AlreadyStarted)])
    else Fulfill(rd.(pending := Some(reader)))
  }

  function Aborting(rd: Reads): Reads
  {
    if rd.pending.Some? then Finish(rd, Aborted) else rd
  }

  function Read(c: Control, reader: Reader): Control
  {
    c.(rd := Issue(c.rd, c.running, reader))
  }

  function Stop(c: Control): Control
  {
    if !c.running then c
    else
      c.(running := false, flags := c.flags.(socks := false, forward := false, connect := false), rd := Aborting(c.rd))
  }

  /** close_connection on behalf of this session: nothing happens once the table does not hold it. */
  function Close(c: Control): Control
  {
    if !c.registered then c else Stop(c.(registered := false, entry := false))
  }

  /** A reply may find the window full or fail to encrypt, and then stops the session. */
  function Reply(c: Control, fails: bool): Control
  {
    if fails then Stop(c) else c
  }

  function GiveUp(c: Control, fails: bool): Control
  {
    Abandon(Reply(c.(flags := c.flags.(socks := false)), fails))
  }

  /** The teardown passes over a session the table does not hold; it then starts on a new request. */
  function Abandon(c: Control): Control
  {
    if c.running && !c.registered then Restarted(c) else Close(c)
  }

  function Restarted(c: Control): Control
  {
    c.(trace := StartedOver(c.trace, |Strip(c.rd.consumed, c.rd.salt)|))
  }

  // ---- SOCKS5 ----

  datatype Decision = More | Connect(initial: seq<byte>) | Refuse

  function Decide(accum: seq<byte>): Decision
  {
    match ParseMessage(accum)
    case NeedMore => More
    case Invalid(_) => Refuse
    case Complete(code, _, _, _) => if code == CMD_CONNECT then Connect(Payload(accum)) else Refuse
  }

  /** read_more_socks5: parse what there is, or wait for the next fragment. */
  function ReadMore(c: Control, accum: seq<byte>, fails: bool): Control
  {
    Act(c, accum, if accum == [] then More else Decide(accum), fails)
  }

  function Act(c: Control, accum: seq<byte>, d: Decision, fails: bool): Control
  {
    match d
    case More => Read(c.(flags := c.flags.(socks := true)), Socks(accum))
    case Refuse => GiveUp(c, fails)
    case Connect(initial) =>
      c.(flags := c.flags.(socks := false, connect := true),
         target := c.target.(state := Connecting(initial), connects := c.target.connects + 1))
  }

  // ---- forwarding ----

  /** forward_kcp_to_tcp up to its read. */
  function StartForward(c: Control): Control
  {
    if c.flags.targetClosed || c.rd.peerFin then c.(flags := c.flags.(forward := false))
    else if c.flags.forward then c
    else if !c.running || !c.registered || !c.entry then c
    else Read(c.(flags := c.flags.(forward := true)), Forward)
  }

  /** start_forwarding: a session taken out of the table meanwhile is discarded. */
  function BeginForwarding(c: Control): Control
  {
    if !c.registered then c.(target := c.target.(state := Ended))
    else StartForward(c.(entry := true, target := c.target.(state := Forwarding)))
  }

  function TargetGone(c: Control): Control
  {
    c.(flags := c.flags.(targetClosed := true, forward := false))
  }

  // ---- dispatch and completion handlers ----

  /** handle_kcp_data. */
  function Dispatch(c: Control): Control
  {
    if c.rd.inbox == [] || c.rd.inbox[0] == [] then c
    else if !c.flags.proto then
      if c.flags.socks then c else Read(c.(flags := c.flags.(socks := true)), Hello)
    else if c.flags.handshake then StartForward(c)
    else if c.flags.socks || c.flags.connect then c
    else ReadMore(c, [], false)
  }

  /** on_receive: a stopped session takes nothing in. */
  function Feed(c: Control, msgs: seq<Msg>): Control
  {
    if c.running then c.(rd := Fulfill(c.rd.(inbox := c.rd.inbox + msgs))) else c
  }

  function OnHello(c: Control, o: Outcome, fails: bool): Control
  {
    var c := c.(flags := c.flags.(socks := false));
    if o.Data? then FirstMessage(c, o.msg, fails) else Abandon(c)
  }

  /** HELLO, or from an older client the request itself. */
  function FirstMessage(c: Control, m: Msg, fails: bool): Control
  {
    var c := TookFirst(c, m);
    if IsHello(m) then Dispatch(Reply(c, fails)) else ReadMore(c, m, fails)
  }

  function TookFirst(c: Control, m: Msg): Control
  {
    c.(flags := c.flags.(proto := true), trace := if IsHello(m) then Greeted(c.trace, m) else Took(c.trace, m))
  }

  function OnSocks(c: Control, accum: seq<byte>, o: Outcome, fails: bool): Control
  {
    if !o.Data? then GiveUp(c, fails)
    else
      var c := c.(trace := Took(c.trace, o.msg));
      if |accum| + |o.msg| > FWD_BUF_SIZE then GiveUp(c, fails) else ReadMore(c, accum + o.msg, fails)
  }

  function OnForward(c: Control, o: Outcome): Control
  {
    match o
    case Eof => c.(flags := c.flags.(forward := false))
    case Data(m) => Relay(c.(trace := Took(c.trace, m)), m)
    case _ => Close(c)
  }

  /** Client data for a target that is gone is dropped. */
  function Relay(c: Control, m: Msg): Control
  {
    if c.flags.targetClosed then c.(flags := c.flags.(forward := false))
    else c.(target := c.target.(writes := c.target.writes + 1, written := c.target.written + m))
  }

  function Handle(c: Control, p: Post, fails: bool): Control
  {
    match p.reader
    case Hello => OnHello(c, p.outcome, fails)
    case Socks(accum) => OnSocks(c, accum, p.outcome, fails)
    case Forward => OnForward(c, p.outcome)
  }

  function Connected(c: Control, initial: seq<byte>, fails: bool): Control
  {
    var c := Reply(c, fails);
    Transfer(c.(flags := c.flags.(handshake := true, connect := false)), initial)
  }

  /** Forwarding starts only after the initial payload was written. */
  function Transfer(c: Control, initial: seq<byte>): Control
  {
    if initial == [] then BeginForwarding(c)
    else
      var t := c.target;
      c.(target := t.(state := InitialWrite, writes := t.writes + 1, written := t.written + initial))
  }

  function ConnectFailed(c: Control, fails: bool): Control
  {
    Close(Reply(c, fails).(target := c.target.(state := Ended)))
  }

  function AfterInitial(c: Control, ok: bool): Control
  {
    if ok then BeginForwarding(c) else Close(c.(target := c.target.(state := Ended)))
  }

  /** A failed write counts as the target closing. */
  function AfterForward(c: Control, ok: bool): Control
  {
    if ok then Rearm(c) else TargetGone(c)
  }

  /** The claim is released and the loop started again. */
  function Rearm(c: Control): Control
  {
    var c := c.(flags := c.flags.(forward := false));
    if c.running then StartForward(c) else c
  }

  /**
   * `TakenOut` is another strand erasing the session from the table: a replacing
   * commit, the sweep, the stale reclaim of the pre-auth check, or the server's
   * stop. Each queues a stop on the session's strand, which is a later `Halt`.
   * `Shut` is a teardown by the session's own handlers, which erases and stops
   * in one go.
   */
  datatype Event =
    | Datagram(msgs: seq<Msg>)
    | RunPosted(fails: bool)
    | ConnectDone(ok: bool, fails: bool)
    | InitialWritten(ok: bool)
    | ForwardWritten(ok: bool)
    | TargetEof
    | UpdateTick
    | TakenOut
    | Shut
    | Halt

  predicate Enabled(c: Control, ev: Event)
  {
    match ev
    case RunPosted(_) => c.rd.posted != []
    case ConnectDone(_, _) => c.target.state.Connecting?
    case InitialWritten(_) => c.target.state == InitialWrite && c.target.writes > 0
    case ForwardWritten(_) => c.target.state == Forwarding && c.target.writes > 0
    case TargetEof => c.target.state == Forwarding
    case _ => true
  }

  function Step(c: Control, ev: Event): Control
    requires Enabled(c, ev)
  {
    match ev
    case Datagram(msgs) => Dispatch(Feed(c, msgs))
    case RunPosted(fails) => Handle(c.(rd := c.rd.(posted := c.rd.posted[1..])), c.rd.posted[0], fails)
    case ConnectDone(ok, fails) =>
      if ok then Connected(c, c.target.state.initial, fails) else ConnectFailed(c, fails)
    case InitialWritten(ok) => AfterInitial(c.(target := c.target.(writes := c.target.writes - 1)), ok)
    case ForwardWritten(ok) => AfterForward(c.(target := c.target.(writes := c.target.writes - 1)), ok)
    case TargetEof => TargetGone(c)
    case UpdateTick => if c.running then c.(rd := Fulfill(c.rd)) else c
    case TakenOut => c.(registered := false, entry := false)
    case Shut => Close(c)
    case Halt => Stop(c)
  }

  /** A session as Commit registers it. */
  function Fresh(salt: seq<byte>): Control
  {
    Control(true, true, false, Reads(salt, [], None, [], false, [], [], false),
            Flags(false, false, false, false, false, false), Target(NoConnect, 0, 0, []), Trace([], 0, 0, [], false))
  }

  ghost predicate Reaches(salt: seq<byte>, events: seq<Event>, c: Control)
    decreases |events|
  {
    if events == [] then c == Fresh(salt)
    else
      var n := |events| - 1;
      exists p :: Reaches(salt, events[..n], p) && Enabled(p, events[n]) && c == Step(p, events[n])
  }

  // ---- one reader, one connect, one write ----

  /** The reader whose handler may still receive a message. */
  function Active(rd: Reads): Option<Reader>
  {
    if rd.pending.Some? then rd.pending
    else if rd.posted != [] && !rd.posted[0].outcome.Aborted? then Some(rd.posted[0].reader)
    else None
  }

  ghost predicate AllAborted(ps: seq<Post>)
  {
    forall i :: 0 <= i < |ps| ==> ps[i].outcome.Aborted?
  }

  /** At most one read is outstanding or being reported; whatever else is posted was aborted by a stop. */
  ghost predicate OneReader(running: bool, rd: Reads)
  {
    && (rd.pending.Some? ==> running && rd.posted == [])
    && (rd.posted != [] ==> AllAborted(rd.posted[1..]) && !rd.posted[0].outcome.AlreadyStarted?)
    && (running && rd.posted != [] ==> |rd.posted| == 1 && !rd.posted[0].outcome.Aborted?)
  }

  /** No read is outstanding and no handler is due but those of aborted reads. */
  ghost predicate Vacant(running: bool, rd: Reads)
  {
    rd.pending.None? && AllAborted(rd.posted) && (running ==> rd.posted == [])
  }

  /** The kcp->tcp loop is taken, or can never be started again. */
  ghost predicate Claimed(c: Control)
  {
    c.flags.forward || c.flags.targetClosed || c.rd.peerFin
  }

  ghost predicate Owned(c: Control)
  {
    match Active(c.rd)
    case None => true
    case Some(Hello) => c.target.connects == 0 && !c.flags.proto && (c.running ==> c.flags.socks)
    case Some(Socks(_)) => c.target.connects == 0 && c.flags.proto && (c.running ==> c.flags.socks)
    case Some(Forward) => c.target.state == Forwarding && c.target.writes == 0
                          && (c.running ==> Claimed(c))
  }

  ghost predicate TargetInv(c: Control)
  {
    var t, f := c.target, c.flags;
    && t.connects <= 1 && (t.connects == 0 <==> t.state == NoConnect)
    && (t.connects == 0 ==> !f.handshake && !f.connect)
    && (t.connects == 1 ==> f.proto && (c.running ==> f.connect || f.handshake))
    && t.writes <= 1
    && (t.state == InitialWrite ==> t.writes == 1 && f.handshake)
    && (t.state == Forwarding ==> f.handshake && (c.running && t.writes == 1 ==> Claimed(c)))
    && (t.state.NoConnect? || t.state.Connecting? || t.state.Ended? ==> t.writes == 0)
    && (c.entry ==> c.registered && t.state == Forwarding)
  }

  ghost predicate Inv(c: Control)
  {
    OneReader(c.running, c.rd) && Owned(c) && TargetInv(c)
  }

  lemma FoundIsReport(rd: Reads)
    ensures var o := Found(rd.inbox, rd.salt, FWD_BUF_SIZE); o.Some? ==> o.value.Data? || Ill(o.value)
  {
    FetchShape(rd.inbox, rd.salt, FWD_BUF_SIZE);
  }

  /** A fulfilment leaves the same reader active. */
  lemma FulfillKeeps(rd: Reads)
    requires OneReader(true, rd)
    ensures OneReader(true, Fulfill(rd)) && Active(Fulfill(rd)) == Active(rd)
  {
    FoundIsReport(rd);
  }

  lemma ReadKeeps(c: Control, reader: Reader)
    requires Inv(c) && (c.running ==> Vacant(true, c.rd) && Owned(c.(rd := c.rd.(pending := Some(reader)))))
    ensures Inv(Read(c, reader))
  {
    if c.running {
      FulfillKeeps(c.rd.(pending := Some(reader)));
    } else {
      AbortedLast(c.rd.posted, reader);
    }
  }

  lemma AbortedLast(ps: seq<Post>, reader: Reader)
    requires ps != [] ==> AllAborted(ps[1..])
    ensures AllAborted((ps + [Post(reader, Aborted)])[1..])
    ensures AllAborted(ps) ==> AllAborted(ps + [Post(reader, Aborted)])
  {
  }

  lemma StopKeeps(c: Control)
    requires Inv(c)
    ensures Inv(Stop(c)) && (Vacant(c.running, c.rd) ==> Vacant(false, Stop(c).rd))
  {
  }

  lemma CloseKeeps(c: Control)
    requires Inv(c)
    ensures Inv(Close(c))
  {
  }

  lemma ReplyKeeps(c: Control, fails: bool)
    requires Inv(c)
    ensures Inv(Reply(c, fails)) && (Vacant(c.running, c.rd) ==> Vacant(Reply(c, fails).running, Reply(c, fails).rd))
  {
  }

  lemma GiveUpKeeps(c: Control, fails: bool)
    requires Inv(c) && Vacant(c.running, c.rd)
    ensures Inv(GiveUp(c, fails))
  {
  }

  lemma AbandonKeeps(c: Control)
    requires Inv(c)
    ensures Inv(Abandon(c))
  {
  }

  lemma ActKeeps(c: Control, accum: seq<byte>, d: Decision, fails: bool)
    requires Inv(c) && Vacant(c.running, c.rd) && c.target.connects == 0 && c.flags.proto
    ensures Inv(Act(c, accum, d, fails))
  {
    match d
    case More => ReadKeeps(c.(flags := c.flags.(socks := true)), Socks(accum));
    case Refuse => GiveUpKeeps(c, fails);
    case Connect(_) =>
  }

  lemma StartForwardKeeps(c: Control)
    requires Inv(c)
    ensures Inv(StartForward(c))
  {
    if !c.flags.targetClosed && !c.rd.peerFin && !c.flags.forward && c.running && c.registered && c.entry {
      ReadKeeps(c.(flags := c.flags.(forward := true)), Forward);
    }
  }

  lemma DispatchKeeps(c: Control)
    requires Inv(c)
    ensures Inv(Dispatch(c))
  {
    if !c.flags.proto {
      if !c.flags.socks {
        ReadKeeps(c.(flags := c.flags.(socks := true)), Hello);
      }
    } else if c.flags.handshake {
      StartForwardKeeps(c);
    } else if !c.flags.socks && !c.flags.connect {
      ReadKeeps(c.(flags := c.flags.(socks := true)), Socks([]));
    }
  }

  lemma BeginKeeps(c: Control)
    requires OneReader(c.running, c.rd) && Owned(c) && !c.entry && c.target.writes == 0 && c.target.connects == 1
    requires c.flags.handshake && c.flags.proto && c.target.state != Forwarding
    ensures Inv(BeginForwarding(c))
  {
    if c.registered {
      StartForwardKeeps(c.(entry := true, target := c.target.(state := Forwarding)));
    }
  }

  lemma OnHelloKeeps(c: Control, o: Outcome, fails: bool)
    requires Inv(c) && Vacant(c.running, c.rd) && (o.Data? ==> c.target.connects == 0)
    ensures Inv(OnHello(c, o, fails))
  {
    var d := c.(flags := c.flags.(socks := false));
    if !o.Data? {
      AbandonKeeps(d);
    } else {
      var e := TookFirst(d, o.msg);
      if IsHello(o.msg) {
        ReplyKeeps(e, fails);
        DispatchKeeps(Reply(e, fails));
      } else {
        ActKeeps(e, o.msg, if o.msg == [] then More else Decide(o.msg), fails);
      }
    }
  }

  lemma OnSocksKeeps(c: Control, accum: seq<byte>, o: Outcome, fails: bool)
    requires Inv(c) && Vacant(c.running, c.rd) && (o.Data? ==> c.target.connects == 0 && c.flags.proto)
    ensures Inv(OnSocks(c, accum, o, fails))
  {
    if !o.Data? {
      GiveUpKeeps(c, fails);
    } else {
      var d, all := c.(trace := Took(c.trace, o.msg)), accum + o.msg;
      GiveUpKeeps(d, fails);
      ActKeeps(d, all, if all == [] then More else Decide(all), fails);
    }
  }

  lemma OnForwardKeeps(c: Control, o: Outcome)
    requires Inv(c) && Vacant(c.running, c.rd)
    requires !o.Aborted? ==> c.target.state == Forwarding && c.target.writes == 0 && (c.running ==> Claimed(c))
    ensures Inv(OnForward(c, o))
  {
  }

  lemma PopKeeps(c: Control)
    requires Inv(c) && c.rd.posted != []
    ensures var d := c.(rd := c.rd.(posted := c.rd.posted[1..])); Inv(d) && Vacant(d.running, d.rd)
  {
  }

  lemma RunPostedKeeps(c: Control, fails: bool)
    requires Inv(c) && c.rd.posted != []
    ensures Inv(Step(c, RunPosted(fails)))
  {
    var d, p := c.(rd := c.rd.(posted := c.rd.posted[1..])), c.rd.posted[0];
    PopKeeps(c);
    match p.reader
    case Hello => OnHelloKeeps(d, p.outcome, fails);
    case Socks(accum) => OnSocksKeeps(d, accum, p.outcome, fails);
    case Forward => OnForwardKeeps(d, p.outcome);
  }

  lemma ConnectDoneKeeps(c: Control, ok: bool, fails: bool)
    requires Inv(c) && c.target.state.Connecting?
    ensures Inv(Step(c, ConnectDone(ok, fails)))
  {
    ReplyKeeps(c, fails);
    var d := Reply(c, fails);
    if ok {
      if c.target.state.initial == [] {
        BeginKeeps(d.(flags := d.flags.(handshake := true, connect := false)));
      }
    } else {
      CloseKeeps(d.(target := c.target.(state := Ended)));
    }
  }

  lemma WriteDoneKeeps(c: Control, ev: Event)
    requires Inv(c) && Enabled(c, ev) && (ev.InitialWritten? || ev.ForwardWritten?)
    ensures Inv(Step(c, ev))
  {
    var d := c.(target := c.target.(writes := c.target.writes - 1));
    if ev.InitialWritten? {
      if ev.ok {
        BeginKeeps(d);
      } else {
        CloseKeeps(d.(target := d.target.(state := Ended)));
      }
    } else if ev.ok && c.running {
      StartForwardKeeps(d.(flags := d.flags.(forward := false)));
    }
  }

  lemma DatagramKeeps(c: Control, msgs: seq<Msg>)
    requires Inv(c)
    ensures Inv(Step(c, Datagram(msgs)))
  {
    if c.running {
      var rd := c.rd.(inbox := c.rd.inbox + msgs);
      FulfillOwned(c.(rd := rd));
      DispatchKeeps(c.(rd := Fulfill(rd)));
    } else {
      DispatchKeeps(c);
    }
  }

  lemma FulfillOwned(c: Control)
    requires Inv(c) && c.running
    ensures Inv(c.(rd := Fulfill(c.rd)))
  {
    FulfillKeeps(c.rd);
  }

  lemma StepKeeps(c: Control, ev: Event)
    requires Inv(c) && Enabled(c, ev)
    ensures Inv(Step(c, ev))
  {
    match ev
    case Datagram(msgs) => DatagramKeeps(c, msgs);
    case RunPosted(fails) => RunPostedKeeps(c, fails);
    case ConnectDone(ok, fails) => ConnectDoneKeeps(c, ok, fails);
    case InitialWritten(_) => WriteDoneKeeps(c, ev);
    case ForwardWritten(_) => WriteDoneKeeps(c, ev);
    case TargetEof =>
    case UpdateTick => if c.running { FulfillOwned(c); }
    case TakenOut =>
    case Shut => CloseKeeps(c);
    case Halt => StopKeeps(c);
  }

  /**
   * Over every run of a session: no read is ever refused as already started,
   * at most one CONNECT is acted on, and at most one write, the request's
   * initial payload included, is outstanding on the target socket.
   */
  lemma {:induction false} OneOfEach(salt: seq<byte>, events: seq<Event>, c: Control)
    requires Reaches(salt, events, c)
    ensures Inv(c)
    ensures forall i :: 0 <= i < |c.rd.posted| ==> !c.rd.posted[i].outcome.AlreadyStarted?
    ensures c.target.connects <= 1 && c.target.writes <= 1
    decreases |events|
  {
    if events != [] {
      var n := |events| - 1;
      var p :| Reaches(salt, events[..n], p) && Enabled(p, events[n]) && c == Step(p, events[n]);
      OneOfEach(salt, events[..n], p);
      StepKeeps(p, events[n]);
    }
    forall i | 0 < i < |c.rd.posted| ensures c.rd.posted[i].outcome.Aborted? {
      assert c.rd.posted[i] == c.rd.posted[1..][i - 1];
    }
  }

  // ---- what reaches the target ----

  /** The bytes hold a complete CONNECT request. */
  predicate Asked(bytes: seq<byte>)
  {
    ParseMessage(bytes).Complete? && ParseMessage(bytes).code == CMD_CONNECT
  }

  /** Before the CONNECT nothing is written and the active reader owns every byte so far. */
  ghost predicate Collecting(c: Control)
  {
    && c.target.written == []
    && (!c.flags.proto ==> c.trace.used == [])
    && (Active(c.rd).None? && c.running ==> c.trace.used == [])
    && (Active(c.rd).Some? && Active(c.rd).value.Socks? ==> c.trace.used == Active(c.rd).value.accum)
  }

  /** After it, what was written is what followed the request, up to the point where the target was lost. */
  ghost predicate Relaying(t: Target, targetClosed: bool, used: seq<byte>)
  {
    && Asked(used)
    && t.written <= Payload(used)
    && (t.state.Connecting? ==> t.written == [] && t.state.initial == Payload(used))
    && (t.state.InitialWrite? || t.state.Forwarding? ==> targetClosed || t.written == Payload(used))
  }

  ghost predicate BytesInv(c: Control)
  {
    && (c.registered ==> !c.trace.orphaned)
    && (if c.target.connects == 0 then Collecting(c) else Relaying(c.target, c.flags.targetClosed, c.trace.used))
  }

  lemma ReadBytes(c: Control, reader: Reader)
    requires Inv(c) && BytesInv(c) && (c.running ==> Vacant(true, c.rd))
    requires reader.Socks? && c.running && c.target.connects == 0 ==> c.trace.used == reader.accum
    ensures BytesInv(Read(c, reader))
  {
  }

  lemma StopBytes(c: Control)
    requires Inv(c) && BytesInv(c)
    ensures BytesInv(Stop(c)) && BytesInv(Close(c))
  {
  }

  /** The part of BytesInv that does not depend on who is reading. */
  ghost predicate Quiet(c: Control)
  {
    && (c.registered ==> !c.trace.orphaned)
    && (if c.target.connects == 0 then c.target.written == [] && (!c.flags.proto ==> c.trace.used == [])
        else Relaying(c.target, c.flags.targetClosed, c.trace.used))
  }

  /** Giving up ends the session's run, or starts it on a new request. */
  lemma AbandonBytes(c: Control)
    requires Vacant(c.running, c.rd) && Quiet(c) && (c.running ==> c.target.connects == 0)
    ensures BytesInv(Abandon(c))
  {
  }

  lemma GiveUpBytes(c: Control, fails: bool)
    requires Vacant(c.running, c.rd) && Quiet(c) && (c.running ==> c.target.connects == 0)
    ensures BytesInv(GiveUp(c, fails))
  {
  }

  /** The parser's verdict on the collected bytes is what the connect is started with. */
  lemma ReadMoreBytes(c: Control, accum: seq<byte>, fails: bool)
    requires Inv(c) && Vacant(c.running, c.rd) && c.target.connects == 0 && c.flags.proto
    requires Quiet(c) && c.trace.used == accum
    ensures BytesInv(ReadMore(c, accum, fails))
  {
    var d := if accum == [] then More else Decide(accum);
    match d
    case More =>
      var e := c.(flags := c.flags.(socks := true));
      if e.running {
        FulfillKeeps(e.rd.(pending := Some(Socks(accum))));
      }
    case Refuse =>
      GiveUpBytes(c, fails);
    case Connect(_) =>
  }

  lemma StartForwardBytes(c: Control)
    requires Inv(c) && BytesInv(c) && (c.target.connects == 1 || !c.entry)
    ensures BytesInv(StartForward(c))
  {
  }

  lemma DispatchBytes(c: Control)
    requires Inv(c) && BytesInv(c)
    ensures BytesInv(Dispatch(c))
  {
    if c.rd.inbox == [] || c.rd.inbox[0] == [] {
    } else if !c.flags.proto {
      if !c.flags.socks {
        ReadBytes(c.(flags := c.flags.(socks := true)), Hello);
      }
    } else if c.flags.handshake {
      StartForwardBytes(c);
    } else if !c.flags.socks && !c.flags.connect {
      ReadBytes(c.(flags := c.flags.(socks := true)), Socks([]));
    }
  }

  lemma BeginBytes(c: Control)
    requires OneReader(c.running, c.rd) && Owned(c) && !c.entry && c.target.writes == 0 && c.target.connects == 1
    requires c.flags.handshake && c.flags.proto && c.target.state != Forwarding
    requires c.registered ==> !c.trace.orphaned
    requires Asked(c.trace.used) && c.target.written <= Payload(c.trace.used)
    requires c.flags.targetClosed || c.target.written == Payload(c.trace.used)
    ensures BytesInv(BeginForwarding(c))
  {
  }

  lemma OnHelloBytes(c: Control, o: Outcome, fails: bool)
    requires Inv(c) && Quiet(c) && Vacant(c.running, c.rd) && (c.running ==> c.target.connects == 0)
    requires o.Data? ==> c.target.connects == 0 && c.trace.used == []
    ensures BytesInv(OnHello(c, o, fails))
  {
    var d := c.(flags := c.flags.(socks := false));
    if !o.Data? {
      AbandonBytes(d);
    } else {
      var e := TookFirst(d, o.msg);
      if IsHello(o.msg) {
        ReplyKeeps(e, fails);
        StopBytes(e);
        DispatchBytes(Reply(e, fails));
      } else {
        assert d.trace.used + o.msg == o.msg;
        ReadMoreBytes(e, o.msg, fails);
      }
    }
  }

  lemma OnSocksBytes(c: Control, accum: seq<byte>, o: Outcome, fails: bool)
    requires Inv(c) && Quiet(c) && Vacant(c.running, c.rd) && (c.running ==> c.target.connects == 0)
    requires o.Data? ==> c.target.connects == 0 && c.flags.proto && c.trace.used == accum
    ensures BytesInv(OnSocks(c, accum, o, fails))
  {
    if !o.Data? {
      GiveUpBytes(c, fails);
    } else {
      var d := c.(trace := Took(c.trace, o.msg));
      GiveUpBytes(d, fails);
      ReadMoreBytes(d, accum + o.msg, fails);
    }
  }

  lemma OnForwardBytes(c: Control, o: Outcome)
    requires Inv(c) && BytesInv(c) && (!o.Aborted? ==> c.target.state == Forwarding)
    ensures BytesInv(OnForward(c, o))
  {
    match o
    case Eof =>
    case Data(m) =>
      VerdictIsStable(c.trace.used, m);
    case _ => StopBytes(c);
  }

  lemma RunPostedBytes(c: Control, fails: bool)
    requires Inv(c) && BytesInv(c) && c.rd.posted != []
    ensures BytesInv(Step(c, RunPosted(fails)))
  {
    var d, p := c.(rd := c.rd.(posted := c.rd.posted[1..])), c.rd.posted[0];
    PopKeeps(c);
    match p.reader
    case Hello => OnHelloBytes(d, p.outcome, fails);
    case Socks(accum) => OnSocksBytes(d, accum, p.outcome, fails);
    case Forward => OnForwardBytes(d, p.outcome);
  }

  lemma ConnectDoneBytes(c: Control, ok: bool, fails: bool)
    requires Inv(c) && BytesInv(c) && c.target.state.Connecting?
    ensures BytesInv(Step(c, ConnectDone(ok, fails)))
  {
    ReplyKeeps(c, fails);
    StopBytes(c);
    var d := Reply(c, fails);
    if !ok {
      CloseKeeps(d.(target := c.target.(state := Ended)));
    } else if c.target.state.initial == [] {
      BeginBytes(d.(flags := d.flags.(handshake := true, connect := false)));
    }
  }

  lemma WriteDoneBytes(c: Control, ev: Event)
    requires Inv(c) && BytesInv(c) && Enabled(c, ev) && (ev.InitialWritten? || ev.ForwardWritten?)
    ensures BytesInv(Step(c, ev))
  {
    var d := c.(target := c.target.(writes := c.target.writes - 1));
    if ev.InitialWritten? {
      if ev.ok {
        BeginBytes(d);
      }
    } else if ev.ok && c.running {
      StartForwardBytes(d.(flags := d.flags.(forward := false)));
    }
  }

  lemma FulfillBytes(c: Control)
    requires Inv(c) && BytesInv(c) && c.running
    ensures BytesInv(c.(rd := Fulfill(c.rd)))
  {
    FulfillKeeps(c.rd);
  }

  lemma DatagramBytes(c: Control, msgs: seq<Msg>)
    requires Inv(c) && BytesInv(c)
    ensures BytesInv(Step(c, Datagram(msgs)))
  {
    if c.running {
      var d := c.(rd := c.rd.(inbox := c.rd.inbox + msgs));
      FulfillOwned(d);
      FulfillBytes(d);
      DispatchBytes(d.(rd := Fulfill(d.rd)));
    } else {
      DispatchBytes(c);
    }
  }

  lemma StepBytes(c: Control, ev: Event)
    requires Inv(c) && BytesInv(c) && Enabled(c, ev)
    ensures BytesInv(Step(c, ev))
  {
    match ev
    case Datagram(msgs) => DatagramBytes(c, msgs);
    case RunPosted(fails) => RunPostedBytes(c, fails);
    case ConnectDone(ok, fails) => ConnectDoneBytes(c, ok, fails);
    case InitialWritten(_) => WriteDoneBytes(c, ev);
    case ForwardWritten(_) => WriteDoneBytes(c, ev);
    case TargetEof =>
    case UpdateTick => if c.running { FulfillBytes(c); }
    case TakenOut =>
    case Shut => StopBytes(c);
    case Halt => StopBytes(c);
  }

  // ---- the readers were handed the client's stream ----

  function Due(ps: seq<Post>): seq<Msg>
  {
    if ps != [] && ps[0].outcome.Data? then [ps[0].outcome.msg] else []
  }

  /** The messages an opening HELLO takes up. */
  function Opening(ms: seq<Msg>): nat
  {
    if ms != [] && IsHello(ms[0]) then 1 else 0
  }

  function Body(ms: seq<Msg>): seq<Msg>
  {
    if ms != [] && IsHello(ms[0]) then ms[1..] else ms
  }

  predicate Ill(o: Outcome) { o.Eof? || o.MessageSize? }

  /** After a read that was not data, no reader will be handed a message again. */
  ghost predicate Frozen(c: Control)
  {
    && c.rd.pending.None? && Due(c.rd.posted) == []
    && (!c.running
        || (c.rd.posted != [] && Ill(c.rd.posted[0].outcome))
        || Spent(c))
  }

  /** Client to target is over: FIN, target gone, or a failed loop whose claim nobody releases. */
  ghost predicate Spent(c: Control)
  {
    && c.target.state == Forwarding
    && (c.rd.peerFin || c.flags.targetClosed || (c.flags.forward && c.target.writes == 0 && !c.registered))
  }

  /** Readers and handlers went through the same messages, and the request starts at `base`. */
  ghost predicate Tied(heard: seq<Msg>, due: seq<Msg>, t: Trace, proto: bool)
  {
    && heard == t.handled + due
    && t.base <= |t.handled| && t.used == Concat(t.handled[t.base..])
    && (!proto ==> t.base == |t.handled|)
  }

  /** What the readers heard from `base` on is a block of the client's stream, from `start` on. */
  predicate Aligned(heard: seq<Msg>, sent: seq<Msg>, base: nat, start: nat)
  {
    base <= |heard| && start <= |sent| && heard[base..] <= sent[start..]
  }

  /** And they have heard all of it so far. */
  predicate Level(heard: seq<Msg>, sent: seq<Msg>, base: nat, start: nat)
  {
    base <= |heard| && start <= |sent| && heard[base..] == sent[start..]
  }

  /** The message after those heard was reported as no data, and is no HELLO. */
  predicate Missed(heard: seq<Msg>, sent: seq<Msg>, base: nat, start: nat)
  {
    base <= |heard| && start + |heard| - base < |sent| && !IsHello(sent[start + |heard| - base])
  }

  /** The request is the client's first exactly for a session that was never orphaned. */
  predicate Placed(heard: seq<Msg>, sent: seq<Msg>, t: Trace, proto: bool)
  {
    if t.orphaned then t.start > Opening(sent)
    else t.base == t.start == Opening(t.handled) && (proto <==> t.handled != []) && heard <= sent
  }

  ghost predicate Books(heard: seq<Msg>, due: seq<Msg>, sent: seq<Msg>, t: Trace, proto: bool)
  {
    Tied(heard, due, t, proto) && Aligned(heard, sent, t.base, t.start) && Placed(heard, sent, t, proto)
  }

  /** The client's messages consumed so far, keepalives taken out. */
  function Sent(rd: Reads): seq<Msg>
  {
    Strip(rd.consumed, rd.salt)
  }

  predicate LevelWith(rd: Reads, t: Trace)
  {
    Level(rd.heard, Sent(rd), t.base, t.start)
  }

  ghost predicate HeardInv(c: Control)
  {
    && (c.rd.posted != [] ==> Noted(c.rd, c.trace, c.rd.posted[0].outcome))
    && Books(c.rd.heard, Due(c.rd.posted), Sent(c.rd), c.trace, c.flags.proto)
    && (LevelWith(c.rd, c.trace) || (c.rd.lossy && Frozen(c)))
  }

  /** What a read that brought no data leaves behind. */
  predicate Noted(rd: Reads, t: Trace, o: Outcome)
  {
    (o.Eof? ==> rd.peerFin) && (Ill(o) ==> Missed(rd.heard, Sent(rd), t.base, t.start))
  }

  lemma FulfillDue(rd: Reads)
    requires rd.pending.Some? && rd.posted == []
    ensures var r := Fulfill(rd);
            && r.heard == rd.heard + Due(r.posted)
            && (r.posted != [] && r.posted[0].outcome.Eof? ==> r.peerFin)
            && (r.posted != [] ==> r.pending.None? && (r.posted[0].outcome.Data? || Ill(r.posted[0].outcome)))
            && (r.lossy <==> rd.lossy || (r.posted != [] && Ill(r.posted[0].outcome)))
  {
    FoundIsReport(rd);
  }

  /** A message that a full-size read reports as no data is never a HELLO. */
  lemma IllIsNoHello(m: Msg, salt: seq<byte>)
    requires Ill(Classify(m, salt, FWD_BUF_SIZE))
    ensures !IsHello(m)
  {
    if |m| <= FWD_BUF_SIZE {
      assert IsFin(m, salt);
      assert m[10] == FIN[10] && FIN[10] == 70 && HELLO_V1[10] == 72 && HELLO_V2[10] == 72;
    }
  }

  /** A fulfilment moves at most one message from the queue to the stream, the one it reports. */
  lemma FulfillStrip(rd: Reads)
    requires rd.pending.Some? && rd.posted == []
    ensures var r := Fulfill(rd);
            if r.posted == [] then Sent(r) == Sent(rd)
            else exists m :: Sent(r) == Sent(rd) + [m] && (r.posted[0].outcome.Data? ==> r.posted[0].outcome.msg == m)
                             && (Ill(r.posted[0].outcome) ==> !IsHello(m))
  {
    var n, o := Taken(rd.inbox, rd.salt), Found(rd.inbox, rd.salt, FWD_BUF_SIZE);
    FetchShape(rd.inbox, rd.salt, FWD_BUF_SIZE);
    StripAppend(rd.consumed, rd.inbox[..n], rd.salt);
    var sent, longer := Strip(rd.consumed, rd.salt), Strip(Fulfill(rd).consumed, rd.salt);
    assert longer == sent + Strip(rd.inbox[..n], rd.salt);
    if o.Some? {
      var m := rd.inbox[n - 1];
      if Ill(o.value) {
        IllIsNoHello(m, rd.salt);
      }
      assert longer == sent + [m];
    }
  }

  lemma OpeningExtends(sent: seq<Msg>, m: Msg)
    ensures sent != [] ==> Opening(sent + [m]) == Opening(sent)
  {
  }

  /** One more message consumed, heard or missed, keeps the block. */
  lemma AlignedStep(heard: seq<Msg>, sent: seq<Msg>, base: nat, start: nat, m: Msg)
    requires Level(heard, sent, base, start)
    ensures Level(heard + [m], sent + [m], base, start)
    ensures Aligned(heard, sent + [m], base, start)
    ensures !IsHello(m) ==> Missed(heard, sent + [m], base, start)
  {
    assert (heard + [m])[base..] == heard[base..] + [m] && (sent + [m])[start..] == sent[start..] + [m];
  }

  /** One more message in the stream, heard or not. */
  lemma BooksStep(heard: seq<Msg>, sent: seq<Msg>, t: Trace, proto: bool, m: Msg)
    requires Books(heard, [], sent, t, proto) && Level(heard, sent, t.base, t.start)
    ensures Books(heard + [m], [m], sent + [m], t, proto) && Level(heard + [m], sent + [m], t.base, t.start)
    ensures Books(heard, [], sent + [m], t, proto) && (!IsHello(m) ==> Missed(heard, sent + [m], t.base, t.start))
  {
    AlignedStep(heard, sent, t.base, t.start, m);
    OpeningExtends(sent, m);
  }

  lemma FulfillControl(c: Control)
    requires OneReader(true, c.rd) && HeardInv(c) && c.running
    ensures HeardInv(c.(rd := Fulfill(c.rd)))
  {
    if c.rd.pending.Some? {
      FulfillBooks(c.rd, c.trace, c.flags.proto);
    }
  }

  lemma FulfillBooks(rd: Reads, t: Trace, proto: bool)
    requires rd.pending.Some? && rd.posted == [] && Books(rd.heard, [], Sent(rd), t, proto) && LevelWith(rd, t)
    ensures var r := Fulfill(rd);
            && (r.posted != [] ==> r.pending.None? && Noted(r, t, r.posted[0].outcome))
            && Books(r.heard, Due(r.posted), Sent(r), t, proto)
            && (LevelWith(r, t) || (r.lossy && r.posted != [] && Ill(r.posted[0].outcome)))
  {
    var r := Fulfill(rd);
    FulfillDue(rd);
    FulfillStrip(rd);
    if r.posted == [] {
      assert rd.heard + [] == rd.heard;
    } else {
      var m :| Sent(r) == Sent(rd) + [m] && (r.posted[0].outcome.Data? ==> r.posted[0].outcome.msg == m)
               && (Ill(r.posted[0].outcome) ==> !IsHello(m));
      BooksStep(rd.heard, Sent(rd), t, proto, m);
      assert Due(r.posted) == if r.posted[0].outcome.Data? then [m] else [];
      assert rd.heard + [] == rd.heard;
    }
  }

  lemma AbortedHeard(c: Control, reader: Reader)
    requires HeardInv(c) && !c.running && c.rd.pending.None?
    ensures HeardInv(c.(rd := c.rd.(posted := c.rd.posted + [Post(reader, Aborted)])))
  {
    assert Due((c.rd.posted + [Post(reader, Aborted)])) == Due(c.rd.posted);
  }

  lemma ReadHeard(c: Control, reader: Reader)
    requires Inv(c) && HeardInv(c) && (c.running ==> Vacant(true, c.rd) && LevelWith(c.rd, c.trace))
    ensures HeardInv(Read(c, reader))
  {
    if c.running {
      var d := c.(rd := c.rd.(pending := Some(reader)));
      assert Read(c, reader) == c.(rd := Fulfill(d.rd));
      AskedHeard(c, reader);
      FulfillControl(d);
    } else {
      AbortedHeard(c, reader);
    }
  }

  lemma AskedHeard(c: Control, reader: Reader)
    requires HeardInv(c) && c.running && Vacant(true, c.rd) && LevelWith(c.rd, c.trace)
    ensures HeardInv(c.(rd := c.rd.(pending := Some(reader)))) && OneReader(true, c.rd.(pending := Some(reader)))
  {
  }

  lemma StopHeard(c: Control)
    requires Inv(c) && HeardInv(c)
    ensures HeardInv(Stop(c)) && HeardInv(Close(c))
  {
  }

  lemma StartForwardHeard(c: Control)
    requires Inv(c) && HeardInv(c)
    ensures HeardInv(StartForward(c))
  {
    if !c.flags.targetClosed && !c.rd.peerFin && !c.flags.forward && c.running && c.registered && c.entry {
      ReadHeard(c.(flags := c.flags.(forward := true)), Forward);
    }
  }

  lemma DispatchHeard(c: Control)
    requires Inv(c) && HeardInv(c)
    ensures HeardInv(Dispatch(c))
  {
    if c.rd.inbox == [] || c.rd.inbox[0] == [] {
    } else if !c.flags.proto {
      if !c.flags.socks {
        ReadHeard(c.(flags := c.flags.(socks := true)), Hello);
      }
    } else if c.flags.handshake {
      StartForwardHeard(c);
    } else if !c.flags.socks && !c.flags.connect {
      ReadHeard(c.(flags := c.flags.(socks := true)), Socks([]));
    }
  }

  /** HeardInv for a session whose first posted completion has just been taken off the queue. */
  ghost predicate HeardPost(c: Control, o: Outcome)
  {
    && Vacant(c.running, c.rd) && Noted(c.rd, c.trace, o) && (c.running ==> o.Data? || Ill(o))
    && Books(c.rd.heard, if o.Data? then [o.msg] else [], Sent(c.rd), c.trace, c.flags.proto)
    && (LevelWith(c.rd, c.trace) || (c.rd.lossy && !o.Data? && (!c.running || Ill(o) || Spent(c))))
  }

  lemma {:induction false} TailAppend(ms: seq<Msg>, base: nat, m: Msg)
    requires base <= |ms|
    ensures Concat((ms + [m])[base..]) == Concat(ms[base..]) + m
  {
    var one: seq<Msg> := [m];
    assert (ms + [m])[base..] == ms[base..] + one;
    ConcatAppend(ms[base..], one);
    assert one[1..] == [];
  }

  /** Starting over puts the request past the client's first. */
  lemma RestartedHeard(c: Control)
    requires Vacant(c.running, c.rd) && c.running && Tied(c.rd.heard, [], c.trace, c.flags.proto)
    requires |Sent(c.rd)| > Opening(Sent(c.rd))
    ensures HeardInv(Restarted(c))
  {
    assert c.trace.handled[|c.trace.handled|..] == [];
  }

  /** A refused request has brought at least one message, so what comes next is not the first. */
  lemma RefusedIsPast(heard: seq<Msg>, sent: seq<Msg>, t: Trace, proto: bool)
    requires Books(heard, [], sent, t, proto) && |t.handled| > t.base
    ensures |sent| > Opening(sent)
  {
  }

  /** So has a read that brought no data. */
  lemma MissedIsPast(heard: seq<Msg>, sent: seq<Msg>, t: Trace, proto: bool)
    requires Books(heard, [], sent, t, proto) && Missed(heard, sent, t.base, t.start)
    ensures |sent| > Opening(sent)
  {
  }

  lemma AbandonHeard(c: Control)
    requires Inv(c) && HeardInv(c) && Vacant(c.running, c.rd) && |c.trace.handled| > c.trace.base
    ensures HeardInv(Abandon(c))
  {
    if c.running && !c.registered {
      RefusedIsPast(c.rd.heard, Sent(c.rd), c.trace, c.flags.proto);
      RestartedHeard(c);
    } else {
      StopHeard(c);
    }
  }

  lemma ReplyHeard(c: Control, fails: bool)
    requires Inv(c) && HeardInv(c)
    ensures Inv(Reply(c, fails)) && HeardInv(Reply(c, fails))
  {
    ReplyKeeps(c, fails);
    StopHeard(c);
  }

  lemma GiveUpHeard(c: Control, fails: bool)
    requires Inv(c) && HeardInv(c) && Vacant(c.running, c.rd) && |c.trace.handled| > c.trace.base
    ensures HeardInv(GiveUp(c, fails))
  {
    var d := c.(flags := c.flags.(socks := false));
    ReplyHeard(d, fails);
    ReplyKeeps(d, fails);
    AbandonHeard(Reply(d, fails));
  }

  /** A handshake read that brought no data is given up on, whatever it brought. */
  lemma NoDataHeard(c: Control, o: Outcome, fails: bool)
    requires Inv(c) && HeardPost(c, o) && !o.Data?
    ensures HeardInv(GiveUp(c, fails)) && HeardInv(Abandon(c.(flags := c.flags.(socks := false))))
  {
    var d := c.(flags := c.flags.(socks := false));
    AbandonPost(d, o);
    ReplyPost(d, o, fails);
    AbandonPost(Reply(d, fails), o);
  }

  /** Whatever the read brought, giving up stops the session or starts it on a new request. */
  lemma AbandonPost(c: Control, o: Outcome)
    requires HeardPost(c, o) && !o.Data?
    ensures HeardInv(Abandon(c))
  {
    assert Due(c.rd.posted) == [];
    if c.running && !c.registered {
      MissedIsPast(c.rd.heard, Sent(c.rd), c.trace, c.flags.proto);
      RestartedHeard(c);
    }
  }

  lemma ReplyPost(c: Control, o: Outcome, fails: bool)
    requires HeardPost(c, o)
    ensures HeardPost(Reply(c, fails), o)
  {
  }

  lemma ActHeard(c: Control, accum: seq<byte>, d: Decision, fails: bool)
    requires Inv(c) && HeardInv(c) && Vacant(c.running, c.rd) && c.target.connects == 0 && c.flags.proto
    requires |c.trace.handled| > c.trace.base && LevelWith(c.rd, c.trace)
    ensures HeardInv(Act(c, accum, d, fails))
  {
    match d
    case More => ReadHeard(c.(flags := c.flags.(socks := true)), Socks(accum));
    case Refuse => GiveUpHeard(c, fails);
    case Connect(_) =>
  }

  /** After its handler took the message, readers and handlers are level. */
  ghost predicate Settled(c: Control)
  {
    HeardInv(c) && Vacant(c.running, c.rd) && LevelWith(c.rd, c.trace)
  }

  /** The handler takes the message that was due into the request. */
  lemma TookBooks(heard: seq<Msg>, sent: seq<Msg>, t: Trace, proto: bool, m: Msg)
    requires Books(heard, [m], sent, t, proto) && (proto || !IsHello(m))
    ensures Books(heard, [], sent, Took(t, m), true) && |Took(t, m).handled| > t.base
  {
    TailAppend(t.handled, t.base, m);
    assert heard == (t.handled + [m]) + [];
  }

  /** Or as the HELLO before it. */
  lemma GreetedBooks(heard: seq<Msg>, sent: seq<Msg>, t: Trace, m: Msg)
    requires Books(heard, [m], sent, t, false) && IsHello(m) && Level(heard, sent, t.base, t.start)
    ensures var u := Greeted(t, m); Books(heard, [], sent, u, true) && Level(heard, sent, u.base, u.start)
  {
    var u := Greeted(t, m);
    assert u.handled[u.base..] == [];
    assert heard == u.handled + [];
    PastHello(heard, sent, t.base, t.start);
  }

  lemma PastHello(heard: seq<Msg>, sent: seq<Msg>, base: nat, start: nat)
    requires Level(heard, sent, base, start) && |heard| == base + 1
    ensures Level(heard, sent, base + 1, start + 1)
  {
    assert heard[base + 1..] == heard[base..][1..] && sent[start + 1..] == sent[start..][1..];
  }

  lemma HandledHeard(c: Control, m: Msg, d: Control)
    requires HeardPost(c, Data(m)) && c.flags.proto && d == c.(trace := Took(c.trace, m))
    ensures Settled(d) && |d.trace.handled| > d.trace.base
  {
    TookBooks(c.rd.heard, Sent(c.rd), c.trace, true, m);
    assert Due(d.rd.posted) == [];
  }

  lemma OnHelloHeard(c: Control, o: Outcome, fails: bool)
    requires Inv(c) && HeardPost(c, o) && (o.Data? ==> c.target.connects == 0 && !c.flags.proto)
    ensures HeardInv(OnHello(c, o, fails))
  {
    if o.Data? {
      FirstHeard(c.(flags := c.flags.(socks := false)), o.msg, fails);
    } else {
      NoDataHeard(c, o, fails);
    }
  }

  lemma FirstHeard(c: Control, m: Msg, fails: bool)
    requires Inv(c) && HeardPost(c, Data(m)) && c.target.connects == 0 && !c.flags.proto
    ensures HeardInv(FirstMessage(c, m, fails))
  {
    if IsHello(m) {
      HelloHandled(c, m);
      GreetedHeard(TookFirst(c, m), fails);
    } else {
      RequestHandled(c, m);
      ActHeard(TookFirst(c, m), m, if m == [] then More else Decide(m), fails);
    }
  }

  lemma HelloHandled(c: Control, m: Msg)
    requires Inv(c) && HeardPost(c, Data(m)) && c.target.connects == 0 && !c.flags.proto && IsHello(m)
    ensures Inv(TookFirst(c, m)) && Settled(TookFirst(c, m))
  {
    GreetedBooks(c.rd.heard, Sent(c.rd), c.trace, m);
    assert Due(c.rd.posted) == [];
  }

  lemma RequestHandled(c: Control, m: Msg)
    requires Inv(c) && HeardPost(c, Data(m)) && c.target.connects == 0 && !c.flags.proto && !IsHello(m)
    ensures Inv(TookFirst(c, m)) && Settled(TookFirst(c, m))
    ensures |TookFirst(c, m).trace.handled| > TookFirst(c, m).trace.base
  {
    TookBooks(c.rd.heard, Sent(c.rd), c.trace, false, m);
    assert Due(c.rd.posted) == [];
  }

  lemma GreetedHeard(c: Control, fails: bool)
    requires Inv(c) && HeardInv(c)
    ensures HeardInv(Dispatch(Reply(c, fails)))
  {
    ReplyHeard(c, fails);
    DispatchHeard(Reply(c, fails));
  }

  lemma OnSocksHeard(c: Control, accum: seq<byte>, o: Outcome, fails: bool)
    requires Inv(c) && HeardPost(c, o) && (o.Data? ==> c.target.connects == 0 && c.flags.proto)
    ensures HeardInv(OnSocks(c, accum, o, fails))
  {
    if !o.Data? {
      NoDataHeard(c, o, fails);
    } else {
      var d, all := c.(trace := Took(c.trace, o.msg)), accum + o.msg;
      HandledHeard(c, o.msg, d);
      GiveUpHeard(d, fails);
      ActHeard(d, all, if all == [] then More else Decide(all), fails);
    }
  }

  lemma OnForwardHeard(c: Control, o: Outcome)
    requires Inv(c) && HeardPost(c, o) && (o.Data? ==> c.flags.proto)
    requires o.Aborted? ==> !c.running
    requires !o.Aborted? ==> c.target.state == Forwarding && c.target.writes == 0 && (c.running ==> Claimed(c))
    ensures HeardInv(OnForward(c, o))
  {
    if o.Data? {
      RelayedHeard(c, o.msg);
    } else {
      assert Due(c.rd.posted) == [];
    }
  }

  lemma RelayedHeard(c: Control, m: Msg)
    requires HeardPost(c, Data(m)) && c.flags.proto
    ensures HeardInv(Relay(c.(trace := Took(c.trace, m)), m))
  {
    HandledHeard(c, m, c.(trace := Took(c.trace, m)));
  }

  lemma PopHeard(c: Control)
    requires Inv(c) && HeardInv(c) && c.rd.posted != []
    ensures HeardPost(c.(rd := c.rd.(posted := c.rd.posted[1..])), c.rd.posted[0].outcome)
  {
  }

  lemma RunPostedHeard(c: Control, fails: bool)
    requires Inv(c) && HeardInv(c) && c.rd.posted != []
    ensures HeardInv(Step(c, RunPosted(fails)))
  {
    var d, p := c.(rd := c.rd.(posted := c.rd.posted[1..])), c.rd.posted[0];
    PopKeeps(c);
    PopHeard(c);
    match p.reader
    case Hello => OnHelloHeard(d, p.outcome, fails);
    case Socks(accum) => OnSocksHeard(d, accum, p.outcome, fails);
    case Forward => OnForwardHeard(d, p.outcome);
  }

  lemma BeginHeard(c: Control)
    requires OneReader(c.running, c.rd) && Owned(c) && !c.entry && c.target.writes == 0 && c.target.connects == 1
    requires c.flags.handshake && c.flags.proto && c.target.state != Forwarding && HeardInv(c)
    ensures HeardInv(BeginForwarding(c))
  {
    if c.registered {
      StartForwardHeard(c.(entry := true, target := c.target.(state := Forwarding)));
    }
  }

  lemma ConnectFailedHeard(c: Control, fails: bool)
    requires Inv(c) && HeardInv(c) && c.target.state.Connecting?
    ensures HeardInv(ConnectFailed(c, fails))
  {
    ReplyHeard(c, fails);
    EndedHeard(Reply(c, fails));
  }

  lemma EndedHeard(c: Control)
    requires Inv(c) && HeardInv(c) && c.target.connects == 1 && c.target.state != Forwarding
    ensures HeardInv(Close(c.(target := c.target.(state := Ended))))
  {
  }

  lemma ConnectedHeard(c: Control, fails: bool)
    requires Inv(c) && HeardInv(c) && c.target.state.Connecting?
    ensures HeardInv(Connected(c, c.target.state.initial, fails))
  {
    ReplyHeard(c, fails);
    var d := Reply(c, fails);
    if c.target.state.initial == [] {
      BeginHeard(d.(flags := d.flags.(handshake := true, connect := false)));
    } else {
      WritingHeard(d, c.target.state.initial);
    }
  }

  lemma WritingHeard(c: Control, initial: seq<byte>)
    requires HeardInv(c) && c.target.state.Connecting? && initial != []
    ensures HeardInv(Transfer(c.(flags := c.flags.(handshake := true, connect := false)), initial))
  {
  }

  lemma EndedInitial(c: Control)
    requires Inv(c) && HeardInv(c) && c.target.state == InitialWrite && c.target.writes > 0
    ensures HeardInv(Close(c.(target := c.target.(writes := c.target.writes - 1, state := Ended))))
  {
  }

  lemma InitialWrittenHeard(c: Control, ok: bool)
    requires Inv(c) && HeardInv(c) && Enabled(c, InitialWritten(ok))
    ensures HeardInv(Step(c, InitialWritten(ok)))
  {
    var d := c.(target := c.target.(writes := c.target.writes - 1));
    if ok {
      BeginHeard(d);
    } else {
      EndedInitial(c);
    }
  }

  lemma ForwardWrittenHeard(c: Control, ok: bool)
    requires Inv(c) && HeardInv(c) && Enabled(c, ForwardWritten(ok))
    ensures HeardInv(Step(c, ForwardWritten(ok)))
  {
    if ok && c.running {
      StartForwardHeard(c.(target := c.target.(writes := c.target.writes - 1), flags := c.flags.(forward := false)));
    }
  }

  lemma DatagramHeard(c: Control, msgs: seq<Msg>)
    requires Inv(c) && HeardInv(c)
    ensures HeardInv(Step(c, Datagram(msgs)))
  {
    if c.running {
      var d := c.(rd := c.rd.(inbox := c.rd.inbox + msgs));
      FulfillOwned(d);
      FulfillControl(d);
      DispatchHeard(d.(rd := Fulfill(d.rd)));
    } else {
      DispatchHeard(c);
    }
  }

  lemma StepHeard(c: Control, ev: Event)
    requires Inv(c) && HeardInv(c) && Enabled(c, ev)
    ensures HeardInv(Step(c, ev))
  {
    match ev
    case Datagram(msgs) => DatagramHeard(c, msgs);
    case RunPosted(fails) => RunPostedHeard(c, fails);
    case ConnectDone(ok, fails) => if ok { ConnectedHeard(c, fails); } else { ConnectFailedHeard(c, fails); }
    case InitialWritten(ok) => InitialWrittenHeard(c, ok);
    case ForwardWritten(ok) => ForwardWrittenHeard(c, ok);
    case TargetEof =>
    case UpdateTick => if c.running { FulfillControl(c); }
    case TakenOut =>
    case Shut => StopHeard(c);
    case Halt => StopHeard(c);
  }

  lemma {:induction false} RunKeeps(salt: seq<byte>, events: seq<Event>, c: Control)
    requires Reaches(salt, events, c)
    ensures Inv(c) && BytesInv(c) && HeardInv(c)
    decreases |events|
  {
    if events != [] {
      var n := |events| - 1;
      var p :| Reaches(salt, events[..n], p) && Enabled(p, events[n]) && c == Step(p, events[n]);
      RunKeeps(salt, events[..n], p);
      StepKeeps(p, events[n]);
      StepBytes(p, events[n]);
      StepHeard(p, events[n]);
    }
  }

  /** The client's messages so far, keepalives taken out. */
  function Stream(c: Control): seq<Msg>
  {
    Strip(c.rd.consumed + c.rd.inbox, c.rd.salt)
  }

  /** Their bytes after the opening HELLO, if there is one. */
  function ClientStream(c: Control): seq<byte>
  {
    Concat(Body(Stream(c)))
  }

  /** What the handlers took of the current request is where the client's stream goes on from `start`. */
  lemma UsedThenRest(c: Control)
    requires HeardInv(c)
    ensures c.trace.start <= |Stream(c)| && c.trace.used <= Concat(Stream(c)[c.trace.start..])
  {
    StripAppend(c.rd.consumed, c.rd.inbox, c.rd.salt);
    BlockOfStream(c.rd.heard, Due(c.rd.posted), Sent(c.rd), Strip(c.rd.inbox, c.rd.salt), c.trace, c.flags.proto);
  }

  lemma BlockOfStream(heard: seq<Msg>, due: seq<Msg>, sent: seq<Msg>, rest: seq<Msg>, t: Trace, proto: bool)
    requires Books(heard, due, sent, t, proto)
    ensures t.used <= Concat((sent + rest)[t.start..])
  {
    assert t.handled[t.base..] <= heard[t.base..] <= sent[t.start..];
    assert (sent + rest)[t.start..] == sent[t.start..] + rest;
    ConcatPrefix(t.handled[t.base..], (sent + rest)[t.start..]);
  }

  lemma ConcatPrefix(part: seq<Msg>, whole: seq<Msg>)
    requires part <= whole
    ensures Concat(part) <= Concat(whole)
  {
    assert whole == part + whole[|part|..];
    ConcatAppend(part, whole[|part|..]);
  }

  /**
   * In every run, with no condition: the bytes handed to the target, initial
   * payload first, are a prefix of what followed the one CONNECT request acted
   * on in the client's own stream, from its message number `start` on.
   */
  lemma TargetGetsWhatFollowed(salt: seq<byte>, events: seq<Event>, c: Control)
    requires Reaches(salt, events, c)
    ensures c.trace.start <= |Stream(c)| && c.target.written <= Payload(Concat(Stream(c)[c.trace.start..]))
    ensures c.target.connects == 1 ==> Asked(Concat(Stream(c)[c.trace.start..]))
  {
    RunKeeps(salt, events, c);
    UsedThenRest(c);
    if c.target.connects == 1 {
      RelayedPrefix(c.target, c.flags.targetClosed, c.trace.used, Concat(Stream(c)[c.trace.start..]));
    }
  }

  lemma RelayedPrefix(t: Target, targetClosed: bool, used: seq<byte>, all: seq<byte>)
    requires Relaying(t, targetClosed, used) && used <= all
    ensures Asked(all) && t.written <= Payload(all)
  {
    VerdictIsStable(used, all[|used|..]);
    assert all == used + all[|used|..];
  }

  /**
   * That request is the client's first, right after the HELLO if there was one,
   * if and only if the session was never orphaned; then the bytes handed to the
   * target are a prefix of what followed the request in all the client sent.
   */
  lemma TargetGetsPrefix(salt: seq<byte>, events: seq<Event>, c: Control)
    requires Reaches(salt, events, c)
    ensures c.target.connects == 1 ==> (c.trace.start == Opening(Stream(c)) <==> !c.trace.orphaned)
    ensures !c.trace.orphaned ==> c.target.written <= Payload(ClientStream(c))
  {
    RunKeeps(salt, events, c);
    TargetGetsWhatFollowed(salt, events, c);
    if c.target.connects == 1 {
      StripAppend(c.rd.consumed, c.rd.inbox, c.rd.salt);
      PlacedInStream(c.rd.heard, Due(c.rd.posted), Sent(c.rd), Strip(c.rd.inbox, c.rd.salt), c.trace);
    }
  }

  lemma PlacedInStream(heard: seq<Msg>, due: seq<Msg>, sent: seq<Msg>, rest: seq<Msg>, t: Trace)
    requires Books(heard, due, sent, t, true)
    ensures t.start == Opening(sent + rest) <==> !t.orphaned
    ensures !t.orphaned ==> (sent + rest)[t.start..] == Body(sent + rest)
  {
    if t.orphaned {
      assert sent != [] && Opening(sent + rest) == Opening(sent);
    } else {
      assert t.handled <= heard <= sent;
      assert t.handled[0] == (sent + rest)[0];
    }
  }

  /** And nothing is missing once the loop has caught up with what arrived. */
  lemma TargetGetsEverything(salt: seq<byte>, events: seq<Event>, c: Control)
    requires Reaches(salt, events, c) && !c.trace.orphaned && !c.rd.lossy
    requires c.target.state == Forwarding && !c.flags.targetClosed && c.rd.inbox == [] && c.rd.posted == []
    ensures c.target.written == Payload(ClientStream(c))
  {
    RunKeeps(salt, events, c);
    CaughtUp(c);
    assert Relaying(c.target, c.flags.targetClosed, c.trace.used);
  }

  lemma CaughtUp(c: Control)
    requires HeardInv(c) && !c.trace.orphaned && !c.rd.lossy && c.rd.inbox == [] && c.rd.posted == []
    ensures c.trace.used == ClientStream(c)
  {
    assert c.rd.consumed + c.rd.inbox == c.rd.consumed;
    assert c.trace.handled + Due(c.rd.posted) == c.trace.handled;
    assert |c.trace.handled| == |Stream(c)| && c.trace.handled <= Stream(c);
    assert c.trace.handled[Opening(c.trace.handled)..] == Body(c.trace.handled);
  }

  /** A session the table still holds is never orphaned, so the law holds for it. */
  lemma RegisteredGetsPrefix(salt: seq<byte>, events: seq<Event>, c: Control)
    requires Reaches(salt, events, c) && c.registered
    ensures !c.trace.orphaned && c.target.written <= Payload(ClientStream(c))
  {
    RunKeeps(salt, events, c);
    TargetGetsPrefix(salt, events, c);
  }

  /** Still in the table for as long as it runs. */
  predicate Anchored(c: Control)
  {
    !c.trace.orphaned && (c.running ==> c.registered)
  }

  lemma DispatchAnchored(c: Control)
    requires Anchored(c)
    ensures Anchored(Dispatch(c))
  {
  }

  lemma CloseAnchored(c: Control, fails: bool)
    requires Anchored(c)
    ensures Anchored(Close(c)) && Anchored(Reply(c, fails)) && Anchored(Abandon(c))
  {
  }

  lemma ReadMoreAnchored(c: Control, accum: seq<byte>, d: Decision, fails: bool)
    requires Anchored(c)
    ensures Anchored(Act(c, accum, d, fails)) && Anchored(GiveUp(c, fails))
  {
    CloseAnchored(c.(flags := c.flags.(socks := false)), fails);
    CloseAnchored(Reply(c.(flags := c.flags.(socks := false)), fails), fails);
  }

  lemma FirstAnchored(c: Control, m: Msg, fails: bool)
    requires Anchored(c)
    ensures Anchored(FirstMessage(c, m, fails))
  {
    var d := TookFirst(c, m);
    CloseAnchored(d, fails);
    DispatchAnchored(Reply(d, fails));
    ReadMoreAnchored(d, m, if m == [] then More else Decide(m), fails);
  }

  lemma HandleAnchored(c: Control, p: Post, fails: bool)
    requires Anchored(c)
    ensures Anchored(Handle(c, p, fails))
  {
    match p.reader
    case Hello =>
      var d := c.(flags := c.flags.(socks := false));
      CloseAnchored(d, fails);
      if p.outcome.Data? {
        FirstAnchored(d, p.outcome.msg, fails);
      }
    case Socks(accum) => SocksAnchored(c, accum, p.outcome, fails);
    case Forward => CloseAnchored(c, fails);
  }

  lemma SocksAnchored(c: Control, accum: seq<byte>, o: Outcome, fails: bool)
    requires Anchored(c)
    ensures Anchored(OnSocks(c, accum, o, fails))
  {
    ReadMoreAnchored(c, accum, More, fails);
    if o.Data? {
      var all := accum + o.msg;
      ReadMoreAnchored(c.(trace := Took(c.trace, o.msg)), all, if all == [] then More else Decide(all), fails);
    }
  }

  lemma StepAnchored(c: Control, ev: Event)
    requires Anchored(c) && Enabled(c, ev) && ev != TakenOut
    ensures Anchored(Step(c, ev))
  {
    match ev
    case Datagram(msgs) => DispatchAnchored(Feed(c, msgs));
    case RunPosted(fails) => HandleAnchored(c.(rd := c.rd.(posted := c.rd.posted[1..])), c.rd.posted[0], fails);
    case _ =>
  }

  /** Being orphaned takes another strand erasing the session: in a run without that the law needs no condition. */
  lemma {:induction false} NeverTakenOutNeverOrphaned(salt: seq<byte>, events: seq<Event>, c: Control)
    requires Reaches(salt, events, c) && TakenOut !in events
    ensures Anchored(c)
    decreases |events|
  {
    if events != [] {
      var n := |events| - 1;
      var p :| Reaches(salt, events[..n], p) && Enabled(p, events[n]) && c == Step(p, events[n]);
      NeverTakenOutNeverOrphaned(salt, events[..n], p);
      StepAnchored(p, events[n]);
    }
  }

  /** The handler of this completion gives up on the handshake or the request. */
  predicate GivesUp(p: Post)
  {
    match p.reader
    case Hello =>
      !p.outcome.Data? || (!IsHello(p.outcome.msg) && p.outcome.msg != [] && Decide(p.outcome.msg) == Refuse)
    case Socks(accum) =>
      !p.outcome.Data? || |accum| + |p.outcome.msg| > FWD_BUF_SIZE
      || (accum + p.outcome.msg != [] && Decide(accum + p.outcome.msg) == Refuse)
    case Forward => false
  }

  /** It does so in a running session the table does not hold, and its reply, if it sends one, does not stop it. */
  predicate Orphans(c: Control, ev: Event)
  {
    && ev.RunPosted? && c.rd.posted != [] && c.running && !c.registered && GivesUp(c.rd.posted[0])
    && (!ev.fails || (c.rd.posted[0].reader.Hello? && !c.rd.posted[0].outcome.Data?))
  }

  lemma AbandonOrphans(c: Control)
    ensures Abandon(c).trace.orphaned <==> c.trace.orphaned || (c.running && !c.registered)
  {
  }

  lemma GiveUpOrphans(c: Control, fails: bool)
    ensures GiveUp(c, fails).trace.orphaned <==> c.trace.orphaned || (c.running && !c.registered && !fails)
  {
    AbandonOrphans(Reply(c.(flags := c.flags.(socks := false)), fails));
  }

  lemma DispatchOrphans(c: Control)
    ensures Dispatch(c).trace == c.trace
  {
  }

  lemma FirstOrphans(c: Control, m: Msg, fails: bool)
    ensures FirstMessage(c, m, fails).trace.orphaned <==>
            c.trace.orphaned || (c.running && !c.registered && GivesUp(Post(Hello, Data(m))) && !fails)
  {
    DispatchOrphans(Reply(TookFirst(c, m), fails));
    GiveUpOrphans(TookFirst(c, m), fails);
  }

  lemma HelloOrphans(c: Control, o: Outcome, fails: bool)
    ensures OnHello(c, o, fails).trace.orphaned <==>
            c.trace.orphaned || (c.running && !c.registered && GivesUp(Post(Hello, o)) && (!fails || !o.Data?))
  {
    var d := c.(flags := c.flags.(socks := false));
    AbandonOrphans(d);
    if o.Data? {
      FirstOrphans(d, o.msg, fails);
    }
  }

  lemma SocksOrphans(c: Control, accum: seq<byte>, o: Outcome, fails: bool)
    ensures OnSocks(c, accum, o, fails).trace.orphaned <==>
            c.trace.orphaned || (c.running && !c.registered && GivesUp(Post(Socks(accum), o)) && !fails)
  {
  }

  lemma HandleOrphans(c: Control, p: Post, fails: bool)
    ensures Handle(c, p, fails).trace.orphaned <==>
            c.trace.orphaned
            || (c.running && !c.registered && GivesUp(p) && (!fails || (p.reader.Hello? && !p.outcome.Data?)))
  {
    match p.reader
    case Hello => HelloOrphans(c, p.outcome, fails);
    case Socks(accum) => SocksOrphans(c, accum, p.outcome, fails);
    case Forward =>
  }

  lemma OtherOrphans(c: Control, ev: Event)
    requires Enabled(c, ev) && !ev.RunPosted?
    ensures Step(c, ev).trace.orphaned == c.trace.orphaned
  {
    match ev
    case Datagram(msgs) => DispatchOrphans(Feed(c, msgs));
    case _ =>
  }

  /** One step orphans a session exactly so. */
  lemma StepOrphans(c: Control, ev: Event)
    requires Enabled(c, ev)
    ensures Step(c, ev).trace.orphaned <==> c.trace.orphaned || Orphans(c, ev)
  {
    if ev.RunPosted? {
      HandleOrphans(c.(rd := c.rd.(posted := c.rd.posted[1..])), c.rd.posted[0], ev.fails);
    } else {
      OtherOrphans(c, ev);
    }
  }

  /** Only an accepted CONNECT changes what a handler does to the upstream. */
  predicate OnlyConnects(t: Target, u: Target)
  {
    u.state == t.state || (u.state.Connecting? && u.connects == t.connects + 1)
  }

  lemma DispatchTarget(c: Control)
    ensures Dispatch(c).target == c.target
  {
  }

  lemma ActTarget(c: Control, accum: seq<byte>, d: Decision, fails: bool)
    ensures OnlyConnects(c.target, Act(c, accum, d, fails).target) && GiveUp(c, fails).target == c.target
  {
  }

  lemma HandleTarget(c: Control, p: Post, fails: bool)
    ensures OnlyConnects(c.target, Handle(c, p, fails).target)
  {
    match p.reader
    case Hello =>
      if p.outcome.Data? {
        var d := TookFirst(c.(flags := c.flags.(socks := false)), p.outcome.msg);
        DispatchTarget(Reply(d, fails));
        ActTarget(d, p.outcome.msg, if p.outcome.msg == [] then More else Decide(p.outcome.msg), fails);
      }
    case Socks(accum) =>
      ActTarget(c, accum, More, fails);
      if p.outcome.Data? {
        var all := accum + p.outcome.msg;
        ActTarget(c.(trace := Took(c.trace, p.outcome.msg)), all, if all == [] then More else Decide(all), fails);
      }
    case Forward =>
  }

  lemma {:induction false} OneState(salt: seq<byte>, events: seq<Event>, c: Control, d: Control)
    requires Reaches(salt, events, c) && Reaches(salt, events, d)
    ensures c == d
    decreases |events|
  {
    if events != [] {
      var n := |events| - 1;
      var p :| Reaches(salt, events[..n], p) && Enabled(p, events[n]) && c == Step(p, events[n]);
      var q :| Reaches(salt, events[..n], q) && Enabled(q, events[n]) && d == Step(q, events[n]);
      OneState(salt, events[..n], p, q);
    }
  }

  /** After the run `front`, the step `ev` gives up on a request in a running session the table does not hold. */
  ghost predicate OrphansAfter(salt: seq<byte>, front: seq<Event>, ev: Event)
  {
    exists p :: Reaches(salt, front, p) && Orphans(p, ev)
  }

  /** Some step of the run did. */
  ghost predicate GaveUpUnheld(salt: seq<byte>, events: seq<Event>)
  {
    events != []
    && (GaveUpUnheld(salt, events[..|events| - 1])
        || OrphansAfter(salt, events[..|events| - 1], events[|events| - 1]))
  }

  /** Over a run a session is orphaned if and only if that happened. */
  lemma {:induction false} OrphanedExactly(salt: seq<byte>, events: seq<Event>, c: Control)
    requires Reaches(salt, events, c)
    ensures c.trace.orphaned <==> GaveUpUnheld(salt, events)
    decreases |events|
  {
    if events != [] {
      var m := |events| - 1;
      var q :| Reaches(salt, events[..m], q) && Enabled(q, events[m]) && c == Step(q, events[m]);
      OrphanedExactly(salt, events[..m], q);
      StepOrphans(q, events[m]);
      OrphansOnce(salt, events[..m], events[m], q);
    }
  }

  lemma OrphansOnce(salt: seq<byte>, front: seq<Event>, ev: Event, q: Control)
    requires Reaches(salt, front, q)
    ensures OrphansAfter(salt, front, ev) <==> Orphans(q, ev)
  {
    if OrphansAfter(salt, front, ev) {
      var p :| Reaches(salt, front, p) && Orphans(p, ev);
      OneState(salt, front, p, q);
    }
  }

  // ---- why that condition is needed ----

  const STRAY: Msg := [9, 9, 9, 9]
  /** CONNECT to 1.2.3.4:80 with one byte of pipelined payload. */
  const REQUEST: Msg := [5, 1, 0, 1, 1, 2, 3, 4, 0, 80, 7]

  lemma Extend(salt: seq<byte>, events: seq<Event>, c: Control, ev: Event)
    requires Reaches(salt, events, c) && Enabled(c, ev)
    ensures Reaches(salt, events + [ev], Step(c, ev))
  {
    assert (events + [ev])[..|events|] == events;
  }

  lemma StrayIsInvalid()
    ensures Decide(STRAY) == Refuse && ParseMessage(STRAY).Invalid? && !IsHello(STRAY)
  {
  }

  lemma RequestAsks()
    ensures Decide(REQUEST) == Connect([7])
  {
  }

  /** A read that finds one plain message posts it. */
  lemma PlainRead(rd: Reads, m: Msg)
    requires rd.pending.Some? && rd.inbox == [m] && 0 < |m| < 16
    ensures var r := Fulfill(rd);
            r == rd.(pending := None, inbox := [], posted := rd.posted + [Post(rd.pending.value, Data(m))],
                     consumed := rd.consumed + [m], heard := rd.heard + [m])
  {
    assert |KEEPALIVE| == 22 && |FIN| == 16;
    assert rd.inbox[1..] == [] && rd.inbox[..1] == [m];
  }

  function Held(salt: seq<byte>, posted: seq<Post>, consumed: seq<Msg>): Reads
  {
    Reads(salt, [], None, posted, false, consumed, consumed, false)
  }

  /** The first message waits for its handler. */
  function Waiting(salt: seq<byte>): Control
  {
    Fresh(salt).(rd := Held(salt, [Post(Hello, Data(STRAY))], [STRAY]),
                 flags := Flags(false, true, false, false, false, false))
  }

  /** Taken out meanwhile, the session refused it but was not stopped by that. */
  function Orphan(salt: seq<byte>): Control
  {
    Control(true, false, false, Held(salt, [], [STRAY]), Flags(true, false, false, false, false, false),
            Target(NoConnect, 0, 0, []), Trace([STRAY], 1, 1, [], true))
  }

  /** The next message waits for a new request reader. */
  function Asking(salt: seq<byte>): Control
  {
    Orphan(salt).(rd := Held(salt, [Post(Socks([]), Data(REQUEST))], [STRAY, REQUEST]),
                  flags := Flags(true, true, false, false, false, false))
  }

  lemma StrayArrives(salt: seq<byte>)
    ensures Step(Fresh(salt), Datagram([STRAY])) == Waiting(salt)
  {
    var rd := Fresh(salt).rd.(inbox := Fresh(salt).rd.inbox + [STRAY]);
    assert rd.inbox == [STRAY];
    PlainRead(rd.(pending := Some(Hello)), STRAY);
  }

  lemma StripStray(salt: seq<byte>)
    ensures Strip([STRAY], salt) == [STRAY]
  {
    var one: seq<Msg> := [STRAY];
    assert |KEEPALIVE| == 22;
    assert one[..0] == [];
  }

  lemma StrayRefused(salt: seq<byte>)
    ensures Step(Waiting(salt).(registered := false), RunPosted(false)) == Orphan(salt)
  {
    StrayIsInvalid();
    StripStray(salt);
    assert Waiting(salt).rd.posted[1..] == [];
    assert [] + STRAY == STRAY;
  }

  lemma RequestArrives(salt: seq<byte>)
    ensures Step(Orphan(salt), Datagram([REQUEST])) == Asking(salt)
  {
    var rd := Orphan(salt).rd.(inbox := Orphan(salt).rd.inbox + [REQUEST]);
    assert rd.inbox == [REQUEST];
    PlainRead(rd.(pending := Some(Socks([]))), REQUEST);
  }

  lemma AskingRun(salt: seq<byte>) returns (events: seq<Event>)
    ensures Reaches(salt, events, Asking(salt))
  {
    StrayArrives(salt);
    Extend(salt, [], Fresh(salt), Datagram([STRAY]));
    events := [] + [Datagram([STRAY])];
    Extend(salt, events, Waiting(salt), TakenOut);
    events := events + [TakenOut];
    StrayRefused(salt);
    Extend(salt, events, Waiting(salt).(registered := false), RunPosted(false));
    events := events + [RunPosted(false)];
    RequestArrives(salt);
    Extend(salt, events, Orphan(salt), Datagram([REQUEST]));
    events := events + [Datagram([REQUEST])];
  }

  /** Then the queued stop runs. */
  lemma StoppedRun(salt: seq<byte>) returns (events: seq<Event>, c: Control)
    ensures Reaches(salt, events, c) && c.trace.orphaned && !c.running && !c.registered
    ensures c.rd == Held(salt, [Post(Socks([]), Data(REQUEST))], [STRAY, REQUEST])
    ensures c.target == Target(NoConnect, 0, 0, [])
  {
    events := AskingRun(salt);
    Extend(salt, events, Asking(salt), Halt);
    c := Step(Asking(salt), Halt);
    events := events + [Halt];
  }

  /** Its posted completion still runs, and asks for the connect. */
  lemma RequestRun(salt: seq<byte>) returns (events: seq<Event>, c: Control)
    ensures Reaches(salt, events, c) && c.trace.orphaned && !c.running
    ensures c.target == Target(Connecting([7]), 1, 0, []) && c.rd.consumed == [STRAY, REQUEST] && c.rd.inbox == []
  {
    var a;
    events, a := StoppedRun(salt);
    Extend(salt, events, a, RunPosted(false));
    TakeRequest(a.(rd := a.rd.(posted := a.rd.posted[1..])));
    c := Step(a, RunPosted(false));
    events := events + [RunPosted(false)];
  }

  lemma TakeRequest(c: Control)
    ensures var d := OnSocks(c, [], Data(REQUEST), false);
            d.target == c.target.(state := Connecting([7]), connects := c.target.connects + 1)
            && d.rd == c.rd && d.running == c.running && d.trace.orphaned == c.trace.orphaned
  {
    RequestAsks();
    assert [] + REQUEST == REQUEST;
  }

  /**
   * Without that condition the prefix law is false: the payload byte of the
   * second request is written to the target although the stream as a whole is
   * no request at all, and although the queued stop has run.
   */
  lemma GaveUpCanWriteElsewhere(salt: seq<byte>) returns (events: seq<Event>, c: Control)
    ensures Reaches(salt, events, c) && c.trace.orphaned
    ensures !(c.target.written <= Payload(ClientStream(c)))
  {
    var b;
    events, b := RequestRun(salt);
    Extend(salt, events, b, ConnectDone(true, false));
    c := Step(b, ConnectDone(true, false));
    events := events + [ConnectDone(true, false)];
    StreamOfBoth(salt, c);
  }

  lemma StreamOfBoth(salt: seq<byte>, c: Control)
    requires c.rd.consumed == [STRAY, REQUEST] && c.rd.inbox == []
    ensures Payload(ClientStream(c)) == []
  {
    var ms := c.rd.consumed;
    assert |KEEPALIVE| == 22;
    var first: seq<Msg> := [STRAY];
    assert ms + c.rd.inbox == ms && ms[..1] == first && first[..0] == [];
    assert Strip(first, c.rd.salt) == first;
    assert Body(ms) == ms;
    assert Concat(ms) == STRAY + Concat(ms[1..]);
    VerdictIsStable(STRAY, Concat(ms[1..]));
  }
}
