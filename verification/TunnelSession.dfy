/**
 * The whole server-side session as one step machine (kcp_session.cpp and the
 * tcp->kcp loop of server.cpp): the read protocol, and the send side with KCP's
 * window, the half-close FIN, the parked write loop and the drain before close.
 * Outbound KCP is a count of segments that ACKs take away; one strand handler
 * is one step.
 */
module TunnelSession {
  import opened Bytes
  import opened ReadPath
  import opened Tuning
  import opened Tunnel

  /** The tcp->kcp loop: not waiting, waiting for a TCP read, or parked on a full window. */
  datatype Writer = Idle | Reading | Parked

  /**
   * `data`, `control` and `fin` count unacknowledged segments by what they
   * carry; `queued` and `acked` are totals; `fins` and `drains` count events,
   * `closes` the drained callbacks that found the session still in the table.
   */
  datatype Tx = Tx(
    finEnabled: bool, finRequested: bool, finSent: bool, fins: nat,
    data: nat, control: nat, fin: nat, queued: nat, acked: nat,
    needsFlush: bool, writer: Writer, targetClosed: bool, started: bool, drainHook: bool, drains: nat, closes: nat)

  /** What the loop consults of the tuning; `largest` is the segments of a full forward buffer. */
  datatype Window = Window(sndwnd: int, largest: int, park: int, resume: int)

  function WindowOf(t: KcpTuning): Window
    requires Legal(t)
  {
    Window(t.sndwnd, MaxSegments(t), Threshold(t), Resume(t))
  }

  predicate Sound(k: Window)
  {
    && 0 < k.resume && 0 < k.largest
    && k.resume + KCP_BACKPRESSURE_BURST_MSGS * k.largest == k.park
    && k.park + k.largest == k.sndwnd - 8
  }

  /** Every legal tuning is sound, and every non-empty read of the loop is a message it allows for. */
  lemma TuningIsSound(t: KcpTuning, len: nat)
    requires Legal(t) && 0 < len <= FWD_BUF_SIZE
    ensures Sound(WindowOf(t)) && 1 <= Segments(t, len) <= WindowOf(t).largest
  {
    SegmentsBound(t, len);
    WatermarksOrdered(t);
  }

  datatype Session = Session(running: bool, rx: Rx, tx: Tx)

  function WaitSend(tx: Tx): nat { tx.data + tx.control + tx.fin }

  // ---- handlers ----

  /** stop(): drop the parked loop and fail the pending read. */
  function Stop(s: Session): Session
  {
    if !s.running then s
    else s.(running := false, rx := Abort(s.rx), tx := s.tx.(writer := Unparked(s.tx.writer)))
  }

  function Unparked(w: Writer): Writer { if w == Parked then Idle else w }

  /** A flush whose encryption fails tears the session down. */
  function Flush(s: Session, fails: bool): Session
  {
    if fails then Stop(s) else s
  }

  /** forward_tcp_to_kcp up to its next wait. */
  function ForwardLoop(k: Window, s: Session): Session
  {
    s.(tx := s.tx.(writer :=
        if s.tx.targetClosed || !s.running then Idle
        else if WaitSend(s.tx) >= k.park then Parked
        else Reading))
  }

  /** start_forwarding: the drained callback is set, and the loop may run. */
  function Started(s: Session): Session
  {
    s.(tx := s.tx.(started := true, drainHook := true))
  }

  function MaybeResume(k: Window, s: Session): Session
  {
    if s.tx.writer == Parked && WaitSend(s.tx) <= k.resume then ForwardLoop(k, s) else s
  }

  function DoSendFin(k: Window, s: Session, fails: bool): Session
  {
    if !s.tx.finEnabled || !s.running || s.tx.finSent || WaitSend(s.tx) >= k.sndwnd then s
    else Flush(FinQueued(s), fails)
  }

  function FinQueued(s: Session): Session
  {
    s.(tx := s.tx.(finSent := true, fins := s.tx.fins + 1, fin := s.tx.fin + 1, queued := s.tx.queued + 1))
  }

  function RetryFin(k: Window, s: Session, fails: bool): Session
  {
    if !s.tx.finRequested || s.tx.finSent || WaitSend(s.tx) >= k.sndwnd then s else DoSendFin(k, s, fails)
  }

  /** on_send: a refused send ends the session. */
  function SendData(k: Window, s: Session, segments: nat, fails: bool): Session
  {
    if !s.running then s
    else if WaitSend(s.tx) >= k.sndwnd then Stop(s)
    else Flush(Queued(s, segments), fails)
  }

  function Queued(s: Session, segments: nat): Session
  {
    s.(tx := s.tx.(data := s.tx.data + segments, queued := s.tx.queued + segments))
  }

  function SendControl(k: Window, s: Session, fails: bool): Session
  {
    if !s.running then s
    else if WaitSend(s.tx) >= k.sndwnd then Stop(s)
    else Flush(ControlQueued(s), fails)
  }

  function ControlQueued(s: Session): Session
  {
    s.(tx := s.tx.(control := s.tx.control + 1, queued := s.tx.queued + 1))
  }

  function Keepalive(k: Window, s: Session, due: bool): Session
  {
    if !due || (s.rx.inbox != [] && s.rx.inbox[0] != []) || WaitSend(s.tx) >= k.sndwnd then s
    else s.(tx := s.tx.(control := s.tx.control + 1, queued := s.tx.queued + 1, needsFlush := true))
  }

  /** on_receive after a successful decrypt: messages and ACKs come in together. */
  function Receive(k: Window, s: Session, msgs: seq<Msg>, data: nat, control: nat, fin: nat): Session
    requires data <= s.tx.data && control <= s.tx.control && fin <= s.tx.fin
  {
    if !s.running then s else ReadAndResume(k, Fed(s, msgs, data, control, fin))
  }

  /** feed_kcp_input: messages become readable, acknowledged segments leave the window. */
  function Fed(s: Session, msgs: seq<Msg>, data: nat, control: nat, fin: nat): Session
    requires data <= s.tx.data && control <= s.tx.control && fin <= s.tx.fin
  {
    s.(rx := Enqueue(s.rx, msgs),
       tx := s.tx.(data := s.tx.data - data, control := s.tx.control - control, fin := s.tx.fin - fin,
                   acked := s.tx.acked + data + control + fin, needsFlush := true))
  }

  /** handle_target_closed; `looped` says the tcp->kcp loop itself saw the end. */
  function TargetClosed(k: Window, s: Session, looped: bool, fails: bool): Session
  {
    var ended := s.(tx := s.tx.(writer := if looped then Idle else s.tx.writer));
    if s.tx.targetClosed then ended
    else
      var tx := ended.tx;
      var marked := ended.(tx := tx.(targetClosed := true, writer := Unparked(tx.writer), finRequested := true));
      DoSendFin(k, marked, fails)
  }

  /** The scheduler pass of a tick; the flag is only consumed when nothing is in flight. */
  function TickFlush(s: Session, fails: bool): Session
  {
    var wait := WaitSend(s.tx);
    var cleared := s.(tx := s.tx.(needsFlush := wait > 0 && s.tx.needsFlush));
    if wait > 0 || s.tx.needsFlush then Flush(cleared, fails) else cleared
  }

  function ReadAndResume(k: Window, s: Session): Session
  {
    MaybeResume(k, s.(rx := Fulfill(s.rx)))
  }

  function TickKeepalive(k: Window, s: Session, due: bool): Session
  {
    if s.tx.targetClosed then s else Keepalive(k, s, due)
  }

  /** Everything of on_update_tick before the drain check. */
  function TickWork(k: Window, s: Session, flushFails: bool, finFails: bool, due: bool): Session
  {
    RetryFin(k, TickKeepalive(k, ReadAndResume(k, TickFlush(s, flushFails)), due), finFails)
  }

  predicate Drained(s: Session)
  {
    s.tx.targetClosed && WaitSend(s.tx) == 0 && s.tx.drainHook
  }

  /** The tcp->kcp read completion: send, then go round the loop. */
  function TcpReadDone(k: Window, s: Session, segments: nat, fails: bool): Session
  {
    ForwardLoop(k, SendData(k, s, segments, fails))
  }

  /** on_update_tick; `owned` says the table still holds the session. */
  function Tick(k: Window, s: Session, flushFails: bool, finFails: bool, due: bool, owned: bool): Session
  {
    if !s.running then s else CloseIfDrained(TickWork(k, s, flushFails, finFails, due), owned)
  }

  /** The drained callback closes the connection, which passes over a session no longer in the table. */
  function CloseIfDrained(w: Session, owned: bool): Session
  {
    if !Drained(w) then w
    else if owned then Stop(CallbackRan(w, 1))
    else CallbackRan(w, 0)
  }

  function CallbackRan(w: Session, closed: nat): Session
  {
    w.(tx := w.tx.(drainHook := false, drains := w.tx.drains + 1, closes := w.tx.closes + closed))
  }

  /** `Reply` is the HELLO acknowledgement or the SOCKS5 reply; both precede forwarding. */
  datatype Event =
    | Arrive(msgs: seq<Msg>, data: nat, control: nat, fin: nat)
    | AsyncRead(capacity: nat)
    | TcpRead(segments: nat, fails: bool)
    | TcpReadEnded(fails: bool)
    | TcpWriteFailed(fails: bool)
    | Reply(fails: bool)
    | EnableFin
    | StartForwarding
    | UpdateTick(flushFails: bool, finFails: bool, due: bool, owned: bool)
    | Halt

  ghost predicate Enabled(k: Window, s: Session, ev: Event)
  {
    match ev
    case Arrive(_, data, control, fin) => data <= s.tx.data && control <= s.tx.control && fin <= s.tx.fin
    case TcpRead(segments, _) => s.tx.writer == Reading && 1 <= segments <= k.largest
    case TcpReadEnded(_) => s.tx.writer == Reading
    case TcpWriteFailed(_) => s.tx.started
    case Reply(_) => !s.tx.started
    case StartForwarding => !s.tx.started
    case _ => true
  }

  ghost function Step(k: Window, s: Session, ev: Event): Session
    requires Enabled(k, s, ev)
  {
    match ev
    case Arrive(msgs, data, control, fin) => Receive(k, s, msgs, data, control, fin)
    case AsyncRead(capacity) => s.(rx := StartRead(s.rx, s.running, capacity))
    case TcpRead(segments, fails) => TcpReadDone(k, s, segments, fails)
    case TcpReadEnded(fails) => TargetClosed(k, s, true, fails)
    case TcpWriteFailed(fails) => TargetClosed(k, s, false, fails)
    case Reply(fails) => SendControl(k, s, fails)
    case EnableFin => s.(tx := s.tx.(finEnabled := true))
    case StartForwarding => ForwardLoop(k, Started(s))
    case UpdateTick(flushFails, finFails, due, owned) => Tick(k, s, flushFails, finFails, due, owned)
    case Halt => Stop(s)
  }

  function Fresh(salt: seq<byte>): Session
  {
    Session(true, Rx(salt, [], [], [], None, 0, [], false),
            Tx(false, false, false, 0, 0, 0, 0, 0, 0, false, Idle, false, false, false, 0, 0))
  }

  /** The events, one after another, lead from a new session to `s`. */
  ghost predicate Reaches(k: Window, salt: seq<byte>, events: seq<Event>, s: Session)
    decreases |events|
  {
    if events == [] then s == Fresh(salt)
    else
      var n := |events| - 1;
      exists p :: Reaches(k, salt, events[..n], p) && Enabled(k, p, events[n]) && s == Step(k, p, events[n])
  }

  // ---- invariants ----

  ghost predicate TxInv(k: Window, tx: Tx)
  {
    && tx.queued == tx.acked + WaitSend(tx)
    && tx.data <= k.sndwnd - 9
    && (tx.writer == Reading ==> tx.data < k.park)
    && tx.fins == (if tx.finSent then 1 else 0) && tx.fin <= tx.fins
    && (tx.finSent ==> tx.finEnabled && tx.finRequested)
    && (tx.targetClosed ==> tx.finRequested && tx.writer != Parked)
    && (tx.drainHook ==> tx.started && tx.drains == 0)
    && tx.closes <= tx.drains <= 1 && (tx.drains == 1 ==> tx.started)
  }

  ghost predicate Settled(k: Window, s: Session)
  {
    && TxInv(k, s.tx)
    && (!s.running ==> s.rx.pending.None? && s.tx.writer != Parked)
    && (s.tx.closes == 1 ==> !s.running && WaitSend(s.tx) == 0)
  }

  ghost predicate Inv(k: Window, s: Session)
  {
    RxInv(s.rx) && Settled(k, s)
  }

  lemma FreshIsSound(k: Window, salt: seq<byte>)
    requires Sound(k)
    ensures Inv(k, Fresh(salt))
  {
  }

  // ---- every step keeps the read protocol ----

  lemma FinRx(k: Window, s: Session, fails: bool)
    requires RxInv(s.rx)
    ensures RxInv(DoSendFin(k, s, fails).rx)
  {
    AbortKeeps(s.rx);
  }

  lemma TickWorkRx(k: Window, s: Session, flushFails: bool, finFails: bool, due: bool)
    requires RxInv(s.rx)
    ensures RxInv(TickWork(k, s, flushFails, finFails, due).rx)
  {
    TickFlushRx(s, flushFails);
    FulfillKeeps(TickFlush(s, flushFails).rx);
    FinRx(k, TickKeepalive(k, ReadAndResume(k, TickFlush(s, flushFails)), due), finFails);
  }

  lemma TickFlushRx(s: Session, fails: bool)
    requires RxInv(s.rx)
    ensures RxInv(TickFlush(s, fails).rx)
  {
    AbortKeeps(s.rx);
  }

  lemma TickRx(k: Window, s: Session, flushFails: bool, finFails: bool, due: bool, owned: bool)
    requires RxInv(s.rx)
    ensures RxInv(Tick(k, s, flushFails, finFails, due, owned).rx)
  {
    TickWorkRx(k, s, flushFails, finFails, due);
    AbortKeeps(TickWork(k, s, flushFails, finFails, due).rx);
  }

  lemma StepRx(k: Window, s: Session, ev: Event)
    requires Sound(k) && Enabled(k, s, ev) && RxInv(s.rx)
    ensures RxInv(Step(k, s, ev).rx)
  {
    match ev
    case Arrive(msgs, _, _, _) =>
      EnqueueKeeps(s.rx, msgs);
      FulfillKeeps(Enqueue(s.rx, msgs));
    case AsyncRead(capacity) => ReadKeeps(s.rx, s.running, capacity);
    case UpdateTick(flushFails, finFails, due, owned) => TickRx(k, s, flushFails, finFails, due, owned);
    case _ => AbortKeeps(s.rx);
  }

  // ---- every step keeps the send side ----

  lemma QueuedTx(k: Window, s: Session, n: nat)
    requires Sound(k) && Settled(k, s) && s.running && s.tx.writer == Reading && n <= k.largest
    ensures Settled(k, ForwardLoop(k, Queued(s, n))) && Settled(k, ForwardLoop(k, Stop(Queued(s, n))))
  {
  }

  lemma TcpReadTx(k: Window, s: Session, n: nat, fails: bool)
    requires Sound(k) && Settled(k, s) && s.tx.writer == Reading && n <= k.largest
    ensures Settled(k, TcpReadDone(k, s, n, fails))
  {
    if s.running && WaitSend(s.tx) < k.sndwnd {
      QueuedTx(k, s, n);
    } else {
      IdleTx(k, s);
    }
  }

  /** Whatever a turn of the loop started from, it ends reading, parked or idle as the window says. */
  lemma IdleTx(k: Window, s: Session)
    requires Sound(k) && TxInv(k, s.tx.(writer := Idle)) && (!s.running ==> s.rx.pending.None?)
    requires s.tx.closes == 1 ==> !s.running && WaitSend(s.tx) == 0
    ensures Settled(k, ForwardLoop(k, s)) && Settled(k, ForwardLoop(k, Stop(s)))
  {
  }

  lemma StopTx(k: Window, s: Session)
    requires Sound(k) && Settled(k, s)
    ensures Settled(k, Stop(s))
  {
  }

  lemma ReceiveTx(k: Window, s: Session, msgs: seq<Msg>, data: nat, control: nat, fin: nat)
    requires Sound(k) && Settled(k, s) && data <= s.tx.data && control <= s.tx.control && fin <= s.tx.fin
    ensures Settled(k, Receive(k, s, msgs, data, control, fin))
  {
  }

  lemma FinTx(k: Window, s: Session, fails: bool)
    requires Sound(k) && Settled(k, s) && s.tx.finRequested
    ensures Settled(k, DoSendFin(k, s, fails))
  {
  }

  lemma TargetClosedTx(k: Window, s: Session, looped: bool, fails: bool)
    requires Sound(k) && Settled(k, s)
    ensures Settled(k, TargetClosed(k, s, looped, fails))
  {
    var writer := if looped then Idle else s.tx.writer;
    FinTx(k, s.(tx := s.tx.(targetClosed := true, writer := Unparked(writer), finRequested := true)), fails);
  }

  lemma ControlTx(k: Window, s: Session, fails: bool)
    requires Sound(k) && Settled(k, s)
    ensures Settled(k, SendControl(k, s, fails))
  {
    if s.running {
      StopTx(k, s);
      StopTx(k, s.(tx := s.tx.(control := s.tx.control + 1, queued := s.tx.queued + 1)));
    }
  }

  lemma TickFlushTx(k: Window, s: Session, fails: bool)
    requires Sound(k) && Settled(k, s)
    ensures Settled(k, TickFlush(s, fails))
  {
  }

  lemma ReadAndResumeTx(k: Window, s: Session)
    requires Sound(k) && Settled(k, s)
    ensures Settled(k, ReadAndResume(k, s))
  {
  }

  lemma TickKeepaliveTx(k: Window, s: Session, due: bool)
    requires Sound(k) && Settled(k, s) && s.tx.closes == 0
    ensures Settled(k, TickKeepalive(k, s, due))
  {
  }

  lemma RetryTx(k: Window, s: Session, fails: bool)
    requires Sound(k) && Settled(k, s)
    ensures Settled(k, RetryFin(k, s, fails))
  {
  }

  lemma TickWorkTx(k: Window, s: Session, flushFails: bool, finFails: bool, due: bool)
    requires Sound(k) && Settled(k, s) && s.running
    ensures Settled(k, TickWork(k, s, flushFails, finFails, due))
  {
    TickFlushEffect(s, flushFails);
    ReadAndResumeEffect(k, TickFlush(s, flushFails));
    TickFlushTx(k, s, flushFails);
    ReadAndResumeTx(k, TickFlush(s, flushFails));
    TickKeepaliveTx(k, ReadAndResume(k, TickFlush(s, flushFails)), due);
    RetryTx(k, TickKeepalive(k, ReadAndResume(k, TickFlush(s, flushFails)), due), finFails);
  }

  lemma TickTx(k: Window, s: Session, flushFails: bool, finFails: bool, due: bool, owned: bool)
    requires Sound(k) && Settled(k, s)
    ensures Settled(k, Tick(k, s, flushFails, finFails, due, owned))
  {
    if s.running {
      TickWorkTx(k, s, flushFails, finFails, due);
      DrainTx(k, TickWork(k, s, flushFails, finFails, due), owned);
    }
  }

  lemma DrainTx(k: Window, w: Session, owned: bool)
    requires Sound(k) && Settled(k, w)
    ensures Settled(k, CloseIfDrained(w, owned))
  {
  }

  lemma AsyncReadTx(k: Window, s: Session, capacity: nat)
    requires Settled(k, s)
    ensures Settled(k, s.(rx := StartRead(s.rx, s.running, capacity)))
  {
  }

  lemma StepTx(k: Window, s: Session, ev: Event)
    requires Sound(k) && Enabled(k, s, ev) && Settled(k, s)
    ensures Settled(k, Step(k, s, ev))
  {
    match ev
    case Arrive(msgs, data, control, fin) => ReceiveTx(k, s, msgs, data, control, fin);
    case AsyncRead(capacity) => AsyncReadTx(k, s, capacity);
    case TcpRead(n, fails) => TcpReadTx(k, s, n, fails);
    case TcpReadEnded(fails) => TargetClosedTx(k, s, true, fails);
    case TcpWriteFailed(fails) => TargetClosedTx(k, s, false, fails);
    case Reply(fails) => ControlTx(k, s, fails);
    case EnableFin =>
    case StartForwarding => IdleTx(k, Started(s));
    case UpdateTick(flushFails, finFails, due, owned) => TickTx(k, s, flushFails, finFails, due, owned);
    case Halt => StopTx(k, s);
  }

  /** Every state of every run, whatever is sent, read, refused or torn down, meets the invariant. */
  lemma {:induction false} RunKeeps(k: Window, salt: seq<byte>, events: seq<Event>, s: Session)
    requires Sound(k) && Reaches(k, salt, events, s)
    ensures Inv(k, s)
    decreases |events|
  {
    if events == [] {
    } else {
      var n := |events| - 1;
      var p :| Reaches(k, salt, events[..n], p) && Enabled(k, p, events[n]) && s == Step(k, p, events[n]);
      RunKeeps(k, salt, events[..n], p);
      StepRx(k, p, events[n]);
      StepTx(k, p, events[n]);
    }
  }

  // ---- reads ----

  /**
   * In every state of every run a read that was ever issued has exactly one
   * completion or is the pending one, never both; after a stop none is pending.
   */
  lemma EveryReadAnsweredOnce(k: Window, salt: seq<byte>, events: seq<Event>, s: Session, id: nat)
    requires Sound(k) && Reaches(k, salt, events, s) && id < s.rx.issued
    ensures Answered(s.rx.completions, id) <==> !IsPending(s.rx, id)
    ensures forall i, j :: 0 <= i < j < |s.rx.completions| && s.rx.completions[i].id == id ==>
              s.rx.completions[j].id != id
    ensures !s.running ==> Answered(s.rx.completions, id)
  {
    RunKeeps(k, salt, events, s);
  }

  /**
   * The readers are told, in order, exactly the consumed messages without the
   * keepalives: data verbatim, the FIN as end of stream, and a stream end is
   * remembered as `peerFin` if and only if a reader was told so.
   */
  lemma ReadersSeeTheStream(k: Window, salt: seq<byte>, events: seq<Event>, s: Session)
    requires Sound(k) && Reaches(k, salt, events, s)
    ensures s.rx.consumed <= s.rx.arrived
    ensures var told, sent := Answers(s.rx.completions), Strip(s.rx.consumed, s.rx.salt);
            |told| == |sent| && forall i :: 0 <= i < |sent| ==> Reports(told[i], sent[i], s.rx.salt)
    ensures s.rx.peerFin <==> HasEof(s.rx.completions)
  {
    RunKeeps(k, salt, events, s);
  }

  /** Of the read side nothing changed, unless the session was stopped. */
  ghost predicate AtMostStopped(s: Session, t: Session)
  {
    (t.running ==> s.running) && t.rx == if s.running && !t.running then Abort(s.rx) else s.rx
  }

  /** Sending a reply, and half-closing after the target went, leave the reads to the readers. */
  lemma SendingLeavesReads(k: Window, s: Session, looped: bool, fails: bool)
    ensures AtMostStopped(s, SendControl(k, s, fails))
    ensures AtMostStopped(s, TargetClosed(k, s, looped, fails)) && TargetClosed(k, s, looped, fails).tx.targetClosed
  {
  }

  /** A tick fulfils the read, unless its flush stops the session first; it may stop it afterwards. */
  lemma TickReads(k: Window, s: Session, flushFails: bool, finFails: bool, due: bool, owned: bool)
    requires s.running
    ensures var t := Tick(k, s, flushFails, finFails, due, owned);
            && (t.running ==> t.rx == Fulfill(s.rx))
            && (!t.running ==> t.rx == Abort(s.rx) || t.rx == Abort(Fulfill(s.rx)))
            && (t.tx.drainHook != s.tx.drainHook && owned ==> !t.running)
            && t.tx.targetClosed == s.tx.targetClosed && t.tx.started == s.tx.started
  {
    TickWorkReads(k, s, flushFails, finFails, due);
    DrainReads(TickWork(k, s, flushFails, finFails, due), owned);
  }

  lemma TickWorkReads(k: Window, s: Session, flushFails: bool, finFails: bool, due: bool)
    requires s.running
    ensures var w := TickWork(k, s, flushFails, finFails, due);
            && (w.running ==> w.rx == Fulfill(s.rx))
            && (!w.running ==> w.rx == Abort(s.rx) || w.rx == Abort(Fulfill(s.rx)))
            && SameClosing(w.tx, s.tx)
  {
    var flushed := TickFlush(s, flushFails);
    FlushReads(s, flushFails);
    MiddleReads(k, flushed, due);
    AbortedStays(s.rx);
    RetryReads(k, TickKeepalive(k, ReadAndResume(k, flushed), due), finFails);
  }

  lemma MiddleReads(k: Window, s: Session, due: bool)
    ensures var t := TickKeepalive(k, ReadAndResume(k, s), due);
            t.running == s.running && t.rx == Fulfill(s.rx) && SameClosing(t.tx, s.tx)
  {
  }

  /** An aborted read stays aborted. */
  lemma AbortedStays(rx: Rx)
    ensures Fulfill(Abort(rx)) == Abort(rx)
  {
  }

  lemma DrainReads(w: Session, owned: bool)
    ensures var t := CloseIfDrained(w, owned);
            && t.rx == (if w.running && !t.running then Abort(w.rx) else w.rx) && (t.running ==> w.running)
            && (t.tx.drainHook != w.tx.drainHook && owned ==> !t.running)
            && t.tx.targetClosed == w.tx.targetClosed && t.tx.started == w.tx.started
  {
  }

  lemma FlushReads(s: Session, fails: bool)
    ensures AtMostStopped(s, TickFlush(s, fails))
    ensures SameClosing(TickFlush(s, fails).tx, s.tx)
  {
  }

  lemma RetryReads(k: Window, s: Session, fails: bool)
    ensures AtMostStopped(s, RetryFin(k, s, fails))
    ensures SameClosing(RetryFin(k, s, fails).tx, s.tx)
  {
  }

  // ---- backpressure ----

  /**
   * The loop's own data never comes within 8 segments of the window, so while it
   * waits for a TCP read a refusal of what it will send takes at least
   * largest + 9 control segments in flight at once.
   */
  lemma DataNeverFillsWindow(k: Window, salt: seq<byte>, events: seq<Event>, s: Session)
    requires Sound(k) && Reaches(k, salt, events, s)
    ensures s.tx.data <= k.sndwnd - 9
    ensures s.tx.writer == Reading && WaitSend(s.tx) >= k.sndwnd ==> s.tx.control + s.tx.fin >= k.largest + 9
    ensures s.tx.queued == s.tx.acked + WaitSend(s.tx)
  {
    RunKeeps(k, salt, events, s);
  }

  /** Reads completing one after another, no ACK in between. */
  function Burst(k: Window, s: Session, sizes: seq<nat>): Session
  {
    if sizes == [] then s else TcpReadDone(k, Burst(k, s, sizes[..|sizes| - 1]), sizes[|sizes| - 1], false)
  }

  function Total(sizes: seq<nat>): nat
  {
    if sizes == [] then 0 else Total(sizes[..|sizes| - 1]) + sizes[|sizes| - 1]
  }

  ghost predicate Admissible(k: Window, sizes: seq<nat>)
  {
    forall i :: 0 <= i < |sizes| ==> sizes[i] <= k.largest
  }

  /** As long as the sum stays under the high watermark every message is queued and the loop goes on reading. */
  lemma {:induction false} BurstQueues(k: Window, s: Session, sizes: seq<nat>)
    requires Sound(k) && s.running && !s.tx.targetClosed && s.tx.writer == Reading
    requires WaitSend(s.tx) + Total(sizes) < k.park
    ensures Burst(k, s, sizes) == Queued(s, Total(sizes))
  {
    if sizes != [] {
      BurstQueues(k, s, sizes[..|sizes| - 1]);
    }
  }

  lemma {:induction false} TotalBound(k: Window, sizes: seq<nat>)
    requires Sound(k) && Admissible(k, sizes) && |sizes| <= 4
    ensures Total(sizes) <= |sizes| * k.largest
  {
    if sizes != [] {
      TotalBound(k, sizes[..|sizes| - 1]);
    }
  }

  lemma ThreeFull(k: Window)
    requires Sound(k)
    ensures Total([k.largest, k.largest, k.largest]) == 3 * k.largest
  {
    var one, two, three := [k.largest], [k.largest, k.largest], [k.largest, k.largest, k.largest];
    assert one[..0] == [] && two[..1] == one && three[..2] == two;
    assert Total(one) == k.largest;
    assert Total(two) == k.largest + k.largest;
  }

  /**
   * A wakeup at the low watermark admits four messages of any size: with three
   * sent the loop is still reading. The bound is exact: four full-size messages
   * from the low watermark park it again.
   */
  lemma WakeupAdmitsFour(k: Window, s: Session, sizes: seq<nat>)
    requires Sound(k) && s.running && !s.tx.targetClosed && s.tx.writer == Parked && WaitSend(s.tx) <= k.resume
    requires Admissible(k, sizes) && |sizes| <= 3
    ensures var b := Burst(k, MaybeResume(k, s), sizes);
            b.tx.writer == Reading && b.tx.queued == s.tx.queued + Total(sizes) && b.running
    ensures var four := [k.largest, k.largest, k.largest, k.largest];
            WaitSend(s.tx) == k.resume ==> Burst(k, MaybeResume(k, s), four).tx.writer == Parked
  {
    TotalBound(k, sizes);
    BurstQueues(k, MaybeResume(k, s), sizes);
    var three := [k.largest, k.largest, k.largest];
    var four := three + [k.largest];
    assert four[..3] == three;
    TotalBound(k, three);
    ThreeFull(k);
    BurstQueues(k, MaybeResume(k, s), three);
    assert four == [k.largest, k.largest, k.largest, k.largest];
  }

  /** A parked loop belongs to a live session whose window really is above the low watermark. */
  predicate ParkedWithReason(k: Window, s: Session)
  {
    s.tx.writer == Parked ==> WaitSend(s.tx) > k.resume
  }

  lemma ResumeUnparks(k: Window, s: Session)
    requires Sound(k)
    ensures ParkedWithReason(k, MaybeResume(k, s))
  {
  }

  lemma LateTickKeepsReason(k: Window, s: Session, finFails: bool, due: bool)
    requires ParkedWithReason(k, s)
    ensures ParkedWithReason(k, RetryFin(k, TickKeepalive(k, s, due), finFails))
  {
  }

  lemma TickWorkParked(k: Window, s: Session, flushFails: bool, finFails: bool, due: bool)
    requires Sound(k)
    ensures ParkedWithReason(k, TickWork(k, s, flushFails, finFails, due))
  {
    var flushed := TickFlush(s, flushFails);
    ResumeUnparks(k, flushed.(rx := Fulfill(flushed.rx)));
    LateTickKeepsReason(k, ReadAndResume(k, flushed), finFails, due);
  }

  /** After a tick, and after a datagram, no loop stays parked at or below the low watermark. */
  lemma NoParkedLoopIsForgotten(k: Window, s: Session, ev: Event)
    requires Sound(k) && s.running && Enabled(k, s, ev) && (ev.UpdateTick? || ev.Arrive?)
    ensures ParkedWithReason(k, Step(k, s, ev))
  {
    match ev
    case Arrive(msgs, data, control, fin) =>
      var fed := Fed(s, msgs, data, control, fin);
      ResumeUnparks(k, fed.(rx := Fulfill(fed.rx)));
    case UpdateTick(flushFails, finFails, due, owned) =>
      TickWorkParked(k, s, flushFails, finFails, due);
      DrainEffect(TickWork(k, s, flushFails, finFails, due), owned);
  }

  // ---- half-close and drain ----

  /**
   * In every run: at most one FIN, only when negotiated and asked for; at most
   * one drained callback, and if that found its session in the table, the session
   * is stopped for good with every segment it ever queued acknowledged.
   */
  lemma OneFinOneDrain(k: Window, salt: seq<byte>, events: seq<Event>, s: Session)
    requires Sound(k) && Reaches(k, salt, events, s)
    ensures s.tx.fins <= 1 && (s.tx.fins == 1 ==> s.tx.finEnabled && s.tx.finRequested)
    ensures s.tx.closes <= s.tx.drains <= 1 && (s.tx.closes == 1 ==> !s.running && s.tx.acked == s.tx.queued)
  {
    RunKeeps(k, salt, events, s);
  }

  /** The negotiated half-close reached the peer: queued and acknowledged. */
  predicate FinDelivered(tx: Tx)
  {
    tx.finEnabled ==> tx.finSent && tx.fin == 0
  }

  /** The tick's own flush will tear the session down while the FIN is still owed. */
  predicate FinLost(s: Session, flushFails: bool)
  {
    s.tx.finEnabled && !s.tx.finSent && flushFails && s.tx.needsFlush
  }

  /** What no stage of a tick touches. */
  ghost predicate SameClosing(a: Tx, b: Tx)
  {
    && a.targetClosed == b.targetClosed && a.finEnabled == b.finEnabled
    && a.drainHook == b.drainHook && a.drains == b.drains && a.closes == b.closes && a.started == b.started
  }

  lemma TickFlushEffect(s: Session, fails: bool)
    ensures var t := TickFlush(s, fails);
            && SameClosing(t.tx, s.tx) && WaitSend(t.tx) == WaitSend(s.tx) && t.tx.finSent == s.tx.finSent
            && t.tx.finRequested == s.tx.finRequested
            && (t.running <==> s.running && !(fails && (WaitSend(s.tx) > 0 || s.tx.needsFlush)))
  {
  }

  lemma ReadAndResumeEffect(k: Window, s: Session)
    ensures var t := ReadAndResume(k, s);
            && SameClosing(t.tx, s.tx) && WaitSend(t.tx) == WaitSend(s.tx) && t.tx.finSent == s.tx.finSent
            && t.tx.finRequested == s.tx.finRequested && t.running == s.running
  {
  }

  lemma RetryEffect(k: Window, s: Session, fails: bool)
    ensures var t := RetryFin(k, s, fails);
            && SameClosing(t.tx, s.tx)
            && (t.tx.finSent <==>
                  s.tx.finSent || (s.tx.finRequested && s.tx.finEnabled && s.running && WaitSend(s.tx) < k.sndwnd))
            && WaitSend(t.tx) == WaitSend(s.tx) + (if t.tx.finSent && !s.tx.finSent then 1 else 0)
  {
  }

  /** A tick of a closing session queues nothing but the owed FIN, and that exactly when it can. */
  lemma ClosingTick(k: Window, s: Session, flushFails: bool, finFails: bool, due: bool)
    requires s.running && s.tx.targetClosed && s.tx.finRequested
    ensures var w := TickWork(k, s, flushFails, finFails, due);
            && SameClosing(w.tx, s.tx)
            && WaitSend(w.tx) == WaitSend(s.tx) + (if w.tx.finSent && !s.tx.finSent then 1 else 0)
            && (w.tx.finSent <==> s.tx.finSent || (s.tx.finEnabled && WaitSend(s.tx) < k.sndwnd
                                                   && !(flushFails && (WaitSend(s.tx) > 0 || s.tx.needsFlush))))
  {
    var flushed := TickFlush(s, flushFails);
    TickFlushEffect(s, flushFails);
    ReadAndResumeEffect(k, flushed);
    RetryEffect(k, ReadAndResume(k, flushed), finFails);
  }

  /**
   * The drained callback runs only when every segment ever queued was
   * acknowledged, and then the negotiated FIN was delivered too if and only if
   * this tick's flush did not stop the session with the FIN still owed. It stops
   * the session if the table still holds it, and changes nothing else if not.
   */
  lemma DrainedMeansDelivered(k: Window, s: Session, flushFails: bool, finFails: bool, due: bool, owned: bool)
    requires Sound(k) && Inv(k, s) && s.running && Drained(TickWork(k, s, flushFails, finFails, due))
    ensures var w, t := TickWork(k, s, flushFails, finFails, due), Tick(k, s, flushFails, finFails, due, owned);
            && t.tx.drains == s.tx.drains + 1 && t.tx.acked == t.tx.queued
            && (FinDelivered(t.tx) <==> !FinLost(s, flushFails))
            && (t.running <==> w.running && !owned)
            && (!owned ==> t.rx == w.rx && t.tx.writer == w.tx.writer)
  {
    TickWorkTx(k, s, flushFails, finFails, due);
    DrainedWasClosing(k, s, flushFails, finFails, due);
    ClosingTick(k, s, flushFails, finFails, due);
    DrainEffect(TickWork(k, s, flushFails, finFails, due), owned);
  }

  lemma DrainEffect(w: Session, owned: bool)
    ensures var t := CloseIfDrained(w, owned);
            && (t.tx.writer == Parked ==> w.tx.writer == Parked) && WaitSend(t.tx) == WaitSend(w.tx)
            && (Drained(w) ==>
                  && (t.running <==> w.running && !owned) && (!owned ==> t.rx == w.rx && t.tx.writer == w.tx.writer)
                  && t.tx == w.tx.(drainHook := false, drains := w.tx.drains + 1,
                                   closes := t.tx.closes, writer := t.tx.writer))
  {
  }

  lemma DrainedWasClosing(k: Window, s: Session, flushFails: bool, finFails: bool, due: bool)
    requires Drained(TickWork(k, s, flushFails, finFails, due))
    ensures s.tx.targetClosed
  {
    var flushed := TickFlush(s, flushFails);
    TickFlushEffect(s, flushFails);
    ReadAndResumeEffect(k, flushed);
    RetryEffect(k, TickKeepalive(k, ReadAndResume(k, flushed), due), finFails);
  }

  // ---- a run whose drain loses the FIN ----

  /**
   * FIN negotiated, both replies in flight, and after them `data` segments from
   * the target and `beats` keepalives, none of them acknowledged.
   */
  function Filling(salt: seq<byte>, data: nat, beats: nat, writer: Writer, needsFlush: bool): Session
  {
    var s := Fresh(salt);
    s.(tx := s.tx.(finEnabled := true, started := true, drainHook := true, writer := writer, needsFlush := needsFlush,
                   data := data, control := 2 + beats, queued := data + 2 + beats))
  }

  /** The session forwards, with the replies still unacknowledged. */
  lemma FillStart(k: Window, salt: seq<byte>) returns (events: seq<Event>)
    requires Sound(k)
    ensures Reaches(k, salt, events, Filling(salt, 0, 0, Reading, false))
  {
    var s := Fresh(salt);
    Extend(k, salt, [], s, EnableFin);
    s := s.(tx := s.tx.(finEnabled := true));
    events := [] + [EnableFin];
    Extend(k, salt, events, s, Reply(false));
    s := ControlQueued(s);
    events := events + [Reply(false)];
    Extend(k, salt, events, s, Reply(false));
    s := ControlQueued(s);
    events := events + [Reply(false)];
    Extend(k, salt, events, s, StartForwarding);
    events := events + [StartForwarding];
  }

  lemma FillStep(k: Window, salt: seq<byte>, n: nat, segments: nat, writer: Writer)
    requires Sound(k) && n + 2 < k.park && n + 2 < k.sndwnd
    requires writer == if n + segments + 2 >= k.park then Parked else Reading
    ensures TcpReadDone(k, Filling(salt, n, 0, Reading, false), segments, false)
            == Filling(salt, n + segments, 0, writer, false)
  {
  }

  /** One-segment reads up to just below the high watermark. */
  lemma {:induction false} FillRun(k: Window, salt: seq<byte>, n: nat) returns (events: seq<Event>)
    requires Sound(k) && n + 2 < k.park
    ensures Reaches(k, salt, events, Filling(salt, n, 0, Reading, false))
  {
    if n == 0 {
      events := FillStart(k, salt);
    } else {
      events := FillRun(k, salt, n - 1);
      FillStep(k, salt, n - 1, 1, Reading);
      Extend(k, salt, events, Filling(salt, n - 1, 0, Reading, false), TcpRead(1, false));
      events := events + [TcpRead(1, false)];
    }
  }

  /** A full-size read then parks the loop nine segments short of the window. */
  lemma ParkRun(k: Window, salt: seq<byte>) returns (events: seq<Event>)
    requires Sound(k)
    ensures Reaches(k, salt, events, Filling(salt, k.sndwnd - 11, 0, Parked, false))
  {
    var n := k.park - 3;
    events := FillRun(k, salt, n);
    FillStep(k, salt, n, k.largest, Parked);
    Extend(k, salt, events, Filling(salt, n, 0, Reading, false), TcpRead(k.largest, false));
    events := events + [TcpRead(k.largest, false)];
  }

  /** The peer is heard but acknowledges nothing, and a keepalive falls due. */
  lemma BeatStep(k: Window, salt: seq<byte>, data: nat, beats: nat, needsFlush: bool)
    requires k.resume < data + 2 + beats < k.sndwnd
    ensures Receive(k, Filling(salt, data, beats, Parked, needsFlush), [], 0, 0, 0)
            == Filling(salt, data, beats, Parked, true)
    ensures Tick(k, Filling(salt, data, beats, Parked, true), false, false, true, true)
            == Filling(salt, data, beats + 1, Parked, true)
  {
  }

  lemma BeatOnce(k: Window, salt: seq<byte>, data: nat, beats: nat, needsFlush: bool, events: seq<Event>)
    returns (longer: seq<Event>)
    requires k.resume < data + 2 + beats < k.sndwnd
    requires Reaches(k, salt, events, Filling(salt, data, beats, Parked, needsFlush))
    ensures Reaches(k, salt, longer, Filling(salt, data, beats + 1, Parked, true))
  {
    BeatStep(k, salt, data, beats, needsFlush);
    Extend(k, salt, events, Filling(salt, data, beats, Parked, needsFlush), Arrive([], 0, 0, 0));
    longer := events + [Arrive([], 0, 0, 0)];
    Extend(k, salt, longer, Filling(salt, data, beats, Parked, true), UpdateTick(false, false, true, true));
    longer := longer + [UpdateTick(false, false, true, true)];
  }

  lemma {:induction false} BeatRun(k: Window, salt: seq<byte>, beats: nat) returns (events: seq<Event>)
    requires Sound(k) && beats <= 9
    ensures Reaches(k, salt, events, Filling(salt, k.sndwnd - 11, beats, Parked, beats > 0))
  {
    if beats == 0 {
      events := ParkRun(k, salt);
    } else {
      events := BeatRun(k, salt, beats - 1);
      events := BeatOnce(k, salt, k.sndwnd - 11, beats - 1, beats - 1 > 0, events);
    }
  }

  lemma Extend(k: Window, salt: seq<byte>, events: seq<Event>, s: Session, ev: Event)
    requires Reaches(k, salt, events, s) && Enabled(k, s, ev)
    ensures Reaches(k, salt, events + [ev], Step(k, s, ev))
  {
    assert (events + [ev])[..|events|] == events;
  }

  /** The write to the target fails with the window full: the FIN is asked for and refused. */
  lemma RefusedStep(k: Window, salt: seq<byte>, s: Session)
    requires Sound(k) && s == Filling(salt, k.sndwnd - 11, 9, Parked, true)
    ensures TargetClosed(k, s, false, false)
            == s.(tx := s.tx.(targetClosed := true, finRequested := true, writer := Idle))
  {
  }

  /** All ACKs come at once, with the window empty and a flush still owed. */
  lemma EmptiedStep(k: Window, s: Session)
    requires s.running && s.rx.pending.None? && s.tx.writer == Idle && s.rx.inbox == []
    ensures var t := Receive(k, s, [], s.tx.data, s.tx.control, s.tx.fin);
            t == s.(rx := Enqueue(s.rx, []), tx := s.tx.(data := 0, control := 0, fin := 0, needsFlush := true,
                                                         acked := s.tx.acked + s.tx.data + s.tx.control + s.tx.fin))
  {
  }

  lemma LosingTick(k: Window, s: Session, owned: bool)
    requires s.running && Drained(s) && s.tx.needsFlush && s.tx.finEnabled && !s.tx.finSent
    ensures FinLost(s, true)
    ensures Tick(k, s, true, false, false, owned).tx.drains == s.tx.drains + 1
    ensures !FinDelivered(Tick(k, s, true, false, false, owned).tx)
  {
  }

  /**
   * For every window there is such a run. The target's data parks the loop nine
   * segments short of the window while the peer acknowledges nothing, nine
   * keepalives fill the rest, a write to the target fails and the FIN is
   * refused, all ACKs come at once, and the next tick's flush fails; the drained
   * callback then runs and the peer never sees a FIN.
   */
  lemma DrainCanLoseFin(k: Window, salt: seq<byte>, owned: bool) returns (events: seq<Event>, s: Session)
    requires Sound(k)
    ensures Reaches(k, salt, events, s) && FinLost(s, true)
    ensures Tick(k, s, true, false, false, owned).tx.drains == s.tx.drains + 1
    ensures !FinDelivered(Tick(k, s, true, false, false, owned).tx)
  {
    events := BeatRun(k, salt, 9);
    s := Filling(salt, k.sndwnd - 11, 9, Parked, true);
    RefusedStep(k, salt, s);
    Extend(k, salt, events, s, TcpWriteFailed(false));
    events := events + [TcpWriteFailed(false)];
    s := s.(tx := s.tx.(targetClosed := true, finRequested := true, writer := Idle));
    EmptiedStep(k, s);
    var acks := Arrive([], s.tx.data, s.tx.control, s.tx.fin);
    Extend(k, salt, events, s, acks);
    events := events + [acks];
    s := Step(k, s, acks);
    LosingTick(k, s, owned);
  }
}
