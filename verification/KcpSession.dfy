/** The session object: its fields updated in place, each handler proved against the step machine. */
module KcpSession {
  import opened Bytes
  import opened ReadPath
  import opened StateFlags
  import opened Tunnel
  import opened TunnelSession

  class KCPSession {
    const window: Window
    const salt: seq<byte>
    var stateFlags: bv8
    var handshakeDone: bool
    // receive side: KCP's message queue and the pending read
    var inbox: seq<Msg>
    var pending: Option<Pending>
    var completions: seq<Completion>
    var peerFin: bool
    // send side: unacknowledged segments, FIN latches, the parked loop
    var data: nat
    var control: nat
    var fin: nat
    var needsFlush: bool
    var finEnabled: bool
    var finRequested: bool
    var finSent: bool
    var writer: Writer
    var targetClosed: bool
    var started: bool
    var drainHook: bool
    // histories
    ghost var arrived: seq<Msg>
    ghost var consumed: seq<Msg>
    var issued: nat
    ghost var fins: nat
    ghost var queued: nat
    ghost var acked: nat
    ghost var drains: nat
    ghost var closes: nat

    ghost function RxView(): Rx
      reads `arrived, `consumed, `inbox, `pending, `issued, `completions, `peerFin
    {
      Rx(salt, arrived, consumed, inbox, pending, issued, completions, peerFin)
    }

    ghost function TxView(): Tx
      reads `finEnabled, `finRequested, `finSent, `fins, `data, `control, `fin, `queued, `acked, `needsFlush,
            `writer, `targetClosed, `started, `drainHook, `drains, `closes
    {
      Tx(finEnabled, finRequested, finSent, fins, data, control, fin, queued, acked,
         needsFlush, writer, targetClosed, started, drainHook, drains, closes)
    }

    function Flags(): Word
      reads `stateFlags
    {
      Decode(stateFlags)
    }

    predicate Running()
      reads `stateFlags
    {
      Flags().running
    }

    ghost function View(): Session
      reads this
    {
      Session(Running(), RxView(), TxView())
    }

    constructor (window: Window, salt: seq<byte>)
      requires Sound(window)
      ensures View() == Fresh(salt) && Inv(window, View()) && this.window == window && this.salt == salt
      ensures Flags() == Word(true, false, false, false, false) && !handshakeDone
    {
      this.window, this.salt := window, salt;
      stateFlags, handshakeDone := RUNNING, false;
      inbox, pending, completions, peerFin := [], None, [], false;
      data, control, fin, needsFlush := 0, 0, 0, false;
      finEnabled, finRequested, finSent, writer := false, false, false, Idle;
      targetClosed, started, drainHook := false, false, false;
      arrived, consumed, issued, fins, queued, acked, drains, closes := [], [], 0, 0, 0, 0, 0, 0;
      new;
      FreshIsSound(window, salt);
    }

    method CompletePendingRead(o: Outcome)
      modifies `pending, `completions
      ensures RxView() == if old(pending).Some? then Complete(old(RxView()), o) else old(RxView())
      ensures TxView() == old(TxView()) && pending.None?
    {
      if pending.Some? {
        completions, pending := completions + [Completion(pending.value.id, pending.value.capacity, o)], None;
      }
    }

    /** Hands a consumed message, not a keepalive, to the pending read. */
    method Deliver(m: Msg)
      requires pending.Some?
      modifies `pending, `completions, `peerFin
      ensures var o := Classify(m, salt, old(pending).value.capacity);
              RxView() == Complete(old(RxView()).(peerFin := old(peerFin) || o.Eof?), o)
    {
      if |m| > FWD_BUF_SIZE {
        CompletePendingRead(MessageSize);
      } else if IsFin(m, salt) {
        peerFin := true;
        CompletePendingRead(Eof);
      } else if |m| > pending.value.capacity {
        CompletePendingRead(MessageSize);
      } else {
        CompletePendingRead(Data(m));
      }
    }

    /** Each turn consumes one message; only keepalives are passed over. */
    method TryFulfillRead()
      modifies `inbox, `consumed, `pending, `completions, `peerFin
      ensures RxView() == Fulfill(old(RxView()))
    {
      if pending.None? { return; }
      ghost var queue, before, taken := inbox, consumed, 0;
      while inbox != [] && inbox[0] != []
        invariant Passed(queue, before, taken)
        invariant pending == old(pending) && completions == old(completions) && peerFin == old(peerFin)
        decreases |inbox|
      {
        var m := inbox[0];
        PassOne(queue, before, taken);
        consumed, inbox, taken := consumed + [m], inbox[1..], taken + 1;
        if !Skipped(m, salt) {
          assert Taken(queue, salt) == taken;
          Deliver(m);
          return;
        }
      }
    }

    /** `taken` keepalives of the queue are consumed and the answer lies in the rest. */
    ghost predicate Passed(queue: seq<Msg>, before: seq<Msg>, taken: nat)
      reads this
    {
      && taken <= |queue| && inbox == queue[taken..] && consumed == before + queue[..taken]
      && Taken(queue, salt) == taken + Taken(inbox, salt)
      && forall capacity: nat :: Found(queue, salt, capacity) == Found(inbox, salt, capacity)
    }

    lemma PassOne(queue: seq<Msg>, before: seq<Msg>, taken: nat)
      requires Passed(queue, before, taken) && inbox != []
      ensures taken < |queue| && inbox[1..] == queue[taken + 1..]
      ensures consumed + [inbox[0]] == before + queue[..taken + 1]
    {
    }

    method OnAsyncReadSome(capacity: nat)
      modifies `inbox, `consumed, `pending, `completions, `peerFin, `issued
      ensures RxView() == StartRead(old(RxView()), Running(), capacity)
    {
      issued := issued + 1;
      if !Running() {
        completions := completions + [Completion(issued - 1, capacity, Aborted)];
      } else if pending.Some? {
        completions := completions + [Completion(issued - 1, capacity, AlreadyStarted)];
      } else {
        pending := Some(Pending(issued - 1, capacity));
        TryFulfillRead();
      }
    }

    /** Atomic in the source; both return the word before. */
    method FetchOr(mask: bv8) returns (was: bv8)
      modifies `stateFlags
      ensures was == old(stateFlags) && stateFlags == was | mask
    {
      was := stateFlags;
      stateFlags := stateFlags | mask;
    }

    method FetchAnd(mask: bv8) returns (was: bv8)
      modifies `stateFlags
      ensures was == old(stateFlags) && stateFlags == was & mask
    {
      was := stateFlags;
      stateFlags := stateFlags & mask;
    }

    /** Only the first of any number of stops finds the running bit set. */
    method ClearRunning() returns (first: bool)
      modifies `stateFlags
      ensures first == old(Flags()).running
      ensures Flags() == Halted(old(Flags()))
    {
      StopMasks(stateFlags);
      var was := FetchAnd(!RUNNING);
      first := was & RUNNING != 0;
      if first {
        was := FetchAnd(!(FORWARD_READ_PENDING | SOCKS5_READ_PENDING | CONNECT_PENDING));
      }
    }

    method Halt()
      modifies `stateFlags, `writer, `pending, `completions
      ensures View() == Stop(old(View())) && Flags() == Halted(old(Flags()))
    {
      var first := ClearRunning();
      if first {
        UnparkWrite();
        CompletePendingRead(Aborted);
      }
    }

    method EnableHalfClose()
      modifies `finEnabled
      ensures View() == Step(window, old(View()), EnableFin)
    {
      finEnabled := true;
    }

    method MarkProtocolHandshakeDone()
      modifies `stateFlags
      ensures Flags() == old(Flags()).(proto := true)
    {
      FlagsAreIndependent(stateFlags);
      var _ := FetchOr(PROTOCOL_HS_DONE);
    }

    method SetSocks5ReadPending(val: bool)
      modifies `stateFlags
      ensures Flags() == old(Flags()).(socks := val)
    {
      FlagsAreIndependent(stateFlags);
      if val {
        var _ := FetchOr(SOCKS5_READ_PENDING);
      } else {
        var _ := FetchAnd(!SOCKS5_READ_PENDING);
      }
    }

    method SetForwardReadPending(val: bool)
      modifies `stateFlags
      ensures Flags() == old(Flags()).(forward := val)
    {
      FlagsAreIndependent(stateFlags);
      if val {
        var _ := FetchOr(FORWARD_READ_PENDING);
      } else {
        var _ := FetchAnd(!FORWARD_READ_PENDING);
      }
    }

    /** Of any number of claims only the one that finds the bit clear owns the loop. */
    method TrySetForwardReadPending() returns (taken: bool)
      modifies `stateFlags
      ensures taken == old(Flags()).forward && Flags() == old(Flags()).(forward := true)
    {
      FlagsAreIndependent(stateFlags);
      var was := FetchOr(FORWARD_READ_PENDING);
      taken := was & FORWARD_READ_PENDING != 0;
    }

    method SetConnectPending(val: bool)
      modifies `stateFlags
      ensures Flags() == old(Flags()).(connect := val)
    {
      FlagsAreIndependent(stateFlags);
      if val {
        var _ := FetchOr(CONNECT_PENDING);
      } else {
        var _ := FetchAnd(!CONNECT_PENDING);
      }
    }

    method MarkHandshakeDone()
      modifies `stateFlags, `handshakeDone
      ensures Flags() == old(Flags()).(connect := false) && handshakeDone
    {
      SetConnectPending(false);
      handshakeDone := true;
    }

    method UnparkWrite()
      modifies `writer
      ensures writer == Unparked(old(writer))
    {
      if writer == Parked { writer := Idle; }
    }

    method FlushCycle(fails: bool)
      modifies `stateFlags, `writer, `pending, `completions
      ensures View() == Flush(old(View()), fails)
      ensures Flags() == if Running() then old(Flags()) else Halted(old(Flags()))
    {
      if fails { Halt(); }
    }

    method ForwardTcpToKcp()
      modifies `writer
      ensures View() == ForwardLoop(window, old(View()))
    {
      if targetClosed || !Running() {
        writer := Idle;
      } else if data + control + fin >= window.park {
        writer := Parked;
      } else {
        writer := Reading;
      }
    }

    method MaybeResumeWrite()
      modifies `writer
      ensures View() == MaybeResume(window, old(View()))
    {
      if writer == Parked && data + control + fin <= window.resume {
        ForwardTcpToKcp();
      }
    }

    method SendFinNow(fails: bool)
      modifies `stateFlags, `writer, `pending, `completions, `finSent, `fins, `fin, `queued
      ensures View() == DoSendFin(window, old(View()), fails)
      ensures Flags() == if Running() then old(Flags()) else Halted(old(Flags()))
    {
      if !finEnabled || !Running() || finSent || data + control + fin >= window.sndwnd { return; }
      ghost var s := View();
      QueueFin();
      assert View() == FinQueued(s);
      FlushCycle(fails);
    }

    method QueueFin()
      modifies `finSent, `fins, `fin, `queued
      ensures TxView() == FinQueued(old(View())).tx
    {
      finSent, fin := true, fin + 1;
      fins, queued := fins + 1, queued + 1;
    }

    method RetryPendingFin(fails: bool)
      modifies `stateFlags, `writer, `pending, `completions, `finSent, `fins, `fin, `queued
      ensures View() == RetryFin(window, old(View()), fails)
      ensures Flags() == if Running() then old(Flags()) else Halted(old(Flags()))
    {
      if !finRequested || finSent || data + control + fin >= window.sndwnd { return; }
      SendFinNow(fails);
    }

    method OnSend(segments: nat, fails: bool)
      modifies `stateFlags, `writer, `pending, `completions, `data, `queued
      ensures View() == SendData(window, old(View()), segments, fails)
      ensures Flags() == if Running() then old(Flags()) else Halted(old(Flags()))
    {
      if Running() {
        if data + control + fin >= window.sndwnd {
          Halt();
        } else {
          QueueAndFlush(segments, fails);
        }
      }
    }

    method QueueAndFlush(segments: nat, fails: bool)
      modifies `stateFlags, `writer, `pending, `completions, `data, `queued
      ensures View() == Flush(Queued(old(View()), segments), fails)
      ensures Flags() == if Running() then old(Flags()) else Halted(old(Flags()))
    {
      QueueData(segments);
      FlushCycle(fails);
    }

    method QueueData(segments: nat)
      modifies `data, `queued
      ensures View() == Queued(old(View()), segments)
    {
      data, queued := data + segments, queued + segments;
    }

    /** A handshake answer or a SOCKS5 reply: one segment through the same gate. */
    method SendReply(fails: bool)
      modifies `stateFlags, `writer, `pending, `completions, `control, `queued
      ensures View() == SendControl(window, old(View()), fails)
      ensures Flags() == if Running() then old(Flags()) else Halted(old(Flags()))
    {
      if Running() {
        if data + control + fin >= window.sndwnd {
          Halt();
        } else {
          QueueControl();
          FlushCycle(fails);
        }
      }
    }

    method QueueControl()
      modifies `control, `queued
      ensures View() == ControlQueued(old(View()))
    {
      control, queued := control + 1, queued + 1;
    }

    method BeginForwarding()
      requires !started
      modifies `started, `drainHook, `writer
      ensures View() == ForwardLoop(window, Started(old(View())))
    {
      SetDrainedCallback();
      ForwardTcpToKcp();
    }

    method SetDrainedCallback()
      modifies `started, `drainHook
      ensures View() == Started(old(View()))
    {
      started, drainHook := true, true;
    }

    method TcpReadCompleted(segments: nat, fails: bool)
      requires Inv(window, View()) && Sound(window) && writer == Reading && segments <= window.largest
      modifies `stateFlags, `writer, `pending, `completions, `data, `queued
      ensures View() == TcpReadDone(window, old(View()), segments, fails)
      ensures Flags() == if Running() then old(Flags()) else Halted(old(Flags()))
      ensures Settled(window, View())
    {
      TcpReadTx(window, View(), segments, fails);
      OnSend(segments, fails);
      ForwardTcpToKcp();
    }

    method Acknowledge(ackData: nat, ackControl: nat, ackFin: nat)
      requires ackData <= data && ackControl <= control && ackFin <= fin
      modifies `data, `control, `fin, `acked, `needsFlush
      ensures TxView() == old(TxView()).(data := old(data) - ackData, control := old(control) - ackControl,
                                         fin := old(fin) - ackFin, needsFlush := true,
                                         acked := old(acked) + ackData + ackControl + ackFin)
    {
      data, control, fin := data - ackData, control - ackControl, fin - ackFin;
      acked, needsFlush := acked + ackData + ackControl + ackFin, true;
    }

    method FeedKcpInput(msgs: seq<Msg>, ackData: nat, ackControl: nat, ackFin: nat)
      requires ackData <= data && ackControl <= control && ackFin <= fin
      modifies `inbox, `arrived, `data, `control, `fin, `acked, `needsFlush
      ensures View() == Fed(old(View()), msgs, ackData, ackControl, ackFin)
    {
      TakeIn(msgs);
      Acknowledge(ackData, ackControl, ackFin);
    }

    method TakeIn(msgs: seq<Msg>)
      modifies `inbox, `arrived
      ensures RxView() == Enqueue(old(RxView()), msgs)
    {
      inbox, arrived := inbox + msgs, arrived + msgs;
    }

    method FulfillAndResume()
      modifies `inbox, `consumed, `pending, `completions, `peerFin, `writer
      ensures View() == ReadAndResume(window, old(View()))
    {
      ghost var s := View();
      TryFulfillRead();
      assert View() == s.(rx := Fulfill(s.rx));
      MaybeResumeWrite();
    }

    method OnReceive(msgs: seq<Msg>, ackData: nat, ackControl: nat, ackFin: nat)
      requires ackData <= data && ackControl <= control && ackFin <= fin
      modifies `inbox, `arrived, `data, `control, `fin, `acked, `needsFlush
      modifies `consumed, `pending, `completions, `peerFin, `writer
      ensures View() == Receive(window, old(View()), msgs, ackData, ackControl, ackFin)
    {
      if Running() {
        FeedKcpInput(msgs, ackData, ackControl, ackFin);
        FulfillAndResume();
      }
    }

    method HandleTargetClosed(looped: bool, fails: bool)
      modifies `stateFlags, `writer, `pending, `completions
      modifies `finSent, `fins, `fin, `queued, `targetClosed, `finRequested
      ensures View() == TargetClosed(window, old(View()), looped, fails)
      ensures Flags() == if Running() then old(Flags()) else Halted(old(Flags()))
    {
      if looped { writer := Idle; }
      if !targetClosed {
        MarkTargetClosed();
        SendFinNow(fails);
      }
    }

    /** The loop is dropped and the FIN asked for, whether or not it can be sent now. */
    method MarkTargetClosed()
      modifies `targetClosed, `writer, `finRequested
      ensures TxView() == old(TxView()).(targetClosed := true, writer := Unparked(old(writer)), finRequested := true)
    {
      targetClosed := true;
      UnparkWrite();
      finRequested := true;
    }

    method MaybeSendKeepalive(due: bool)
      modifies `control, `queued, `needsFlush
      ensures View() == Keepalive(window, old(View()), due)
    {
      if !due || (inbox != [] && inbox[0] != []) || data + control + fin >= window.sndwnd { return; }
      control, queued, needsFlush := control + 1, queued + 1, true;
    }

    method FlushOnTick(fails: bool)
      modifies `stateFlags, `writer, `pending, `completions, `needsFlush
      ensures View() == TickFlush(old(View()), fails)
      ensures Flags() == if Running() then old(Flags()) else Halted(old(Flags()))
    {
      var scheduled := data + control + fin > 0;
      if !scheduled {
        scheduled := needsFlush;
        needsFlush := false;
      }
      if scheduled { FlushCycle(fails); }
    }

    method RunTick(flushFails: bool, finFails: bool, due: bool)
      modifies this
      ensures View() == TickWork(window, old(View()), flushFails, finFails, due)
      ensures Flags() == if Running() then old(Flags()) else Halted(old(Flags()))
      ensures handshakeDone == old(handshakeDone)
    {
      FlushAndRead(flushFails);
      if !targetClosed { MaybeSendKeepalive(due); }
      RetryPendingFin(finFails);
    }

    method FlushAndRead(fails: bool)
      modifies `stateFlags, `writer, `pending, `completions, `needsFlush, `inbox, `consumed, `peerFin
      ensures View() == ReadAndResume(window, TickFlush(old(View()), fails))
      ensures Flags() == if Running() then old(Flags()) else Halted(old(Flags()))
    {
      FlushOnTick(fails);
      FulfillAndResume();
    }

    /** `owned` is the answer of the table lookup the drained callback makes. */
    method CloseWhenDrained(owned: bool)
      modifies `stateFlags, `writer, `pending, `completions, `drainHook, `drains, `closes
      ensures View() == CloseIfDrained(old(View()), owned)
      ensures Flags() == if Running() then old(Flags()) else Halted(old(Flags()))
    {
      if targetClosed && data + control + fin == 0 && drainHook {
        NoteCallback(owned);
        if owned {
          Halt();
        }
      }
    }

    method NoteCallback(owned: bool)
      modifies `drainHook, `drains, `closes
      ensures View() == CallbackRan(old(View()), if owned then 1 else 0)
    {
      drainHook, drains := false, drains + 1;
      if owned {
        closes := closes + 1;
      }
    }

    method OnUpdateTick(flushFails: bool, finFails: bool, due: bool, owned: bool)
      modifies this
      ensures View() == Tick(window, old(View()), flushFails, finFails, due, owned)
      ensures Flags() == if Running() then old(Flags()) else Halted(old(Flags()))
      ensures handshakeDone == old(handshakeDone)
    {
      if Running() {
        RunTick(flushFails, finFails, due);
        CloseWhenDrained(owned);
      }
    }

    /** What a datagram means to the owner of the reads. */
    method TakeDatagram(msgs: seq<Msg>, ackData: nat, ackControl: nat, ackFin: nat)
      requires ackData <= data && ackControl <= control && ackFin <= fin
      modifies `inbox, `arrived, `data, `control, `fin, `acked, `needsFlush
      modifies `consumed, `pending, `completions, `peerFin, `writer
      ensures RxView() == if Running() then Fulfill(Enqueue(old(RxView()), msgs)) else old(RxView())
    {
      OnReceive(msgs, ackData, ackControl, ackFin);
    }

    /** What a reply means to the owner of the reads; `lost` says the session is stopped. */
    method Answer(fails: bool) returns (lost: bool)
      modifies `stateFlags, `writer, `pending, `completions, `control, `queued
      ensures lost == !Running() && (Running() ==> old(Running()))
      ensures RxView() == if old(Running()) && lost then Abort(old(RxView())) else old(RxView())
      ensures Flags() == if lost then Halted(old(Flags())) else old(Flags())
    {
      SendingLeavesReads(window, View(), false, fails);
      SendReply(fails);
      lost := !Running();
    }

    /** And what the loss of the target means to it. */
    method LoseTarget(looped: bool, fails: bool) returns (lost: bool)
      modifies `stateFlags, `writer, `pending, `completions
      modifies `finSent, `fins, `fin, `queued, `targetClosed, `finRequested
      ensures lost == !Running() && (Running() ==> old(Running())) && targetClosed
      ensures RxView() == if old(Running()) && lost then Abort(old(RxView())) else old(RxView())
      ensures Flags() == if lost then Halted(old(Flags())) else old(Flags())
    {
      SendingLeavesReads(window, View(), looped, fails);
      HandleTargetClosed(looped, fails);
      lost := !Running();
    }

    /** What a tick means to the owner of the reads; `drained` says the callback ran. */
    method TickReader(flushFails: bool, finFails: bool, due: bool, owned: bool) returns (drained: bool)
      requires Running()
      modifies this
      ensures Running() ==> RxView() == Fulfill(old(RxView()))
      ensures !Running() ==> RxView() == Abort(old(RxView())) || RxView() == Abort(Fulfill(old(RxView())))
      ensures drained && owned ==> !Running()
      ensures Flags() == if Running() then old(Flags()) else Halted(old(Flags()))
      ensures handshakeDone == old(handshakeDone) && targetClosed == old(targetClosed) && started == old(started)
    {
      TickReads(window, View(), flushFails, finFails, due, owned);
      var hook := drainHook;
      OnUpdateTick(flushFails, finFails, due, owned);
      drained := hook != drainHook;
    }
  }
}
