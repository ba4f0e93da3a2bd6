/**
 * The pending-read protocol of a tunnel (kcp_tunnel.cpp). KCP is an ordered
 * queue of whole messages; a read is answered by at most one completion.
 */
module Tunnel {
  import opened Bytes
  import opened ReadPath

  // ---- the pending-read protocol ----

  datatype Pending = Pending(id: nat, capacity: nat)
  /** `capacity` is the room the read was issued with. */
  datatype Completion = Completion(id: nat, capacity: nat, outcome: Outcome)

  /** `arrived`, `consumed` and `completions` are complete histories; reads are numbered. */
  datatype Rx = Rx(
    salt: seq<byte>, arrived: seq<Msg>, consumed: seq<Msg>, inbox: seq<Msg>,
    pending: Option<Pending>, issued: nat, completions: seq<Completion>, peerFin: bool)

  function Complete(rx: Rx, o: Outcome): Rx
    requires rx.pending.Some?
  {
    var answer := Completion(rx.pending.value.id, rx.pending.value.capacity, o);
    rx.(completions := rx.completions + [answer], pending := None)
  }

  /** try_fulfill_read. */
  function Fulfill(rx: Rx): Rx
  {
    if rx.pending.None? then rx
    else
      var n := Taken(rx.inbox, rx.salt);
      var o := Found(rx.inbox, rx.salt, rx.pending.value.capacity);
      var fed := rx.(inbox := rx.inbox[n..], consumed := rx.consumed + rx.inbox[..n]);
      if o.None? then fed else Complete(fed.(peerFin := rx.peerFin || o.value.Eof?), o.value)
  }

  /** on_async_read_some. */
  function StartRead(rx: Rx, running: bool, capacity: nat): Rx
  {
    if !running then Refused(rx, capacity, Aborted)
    else if rx.pending.Some? then Refused(rx, capacity, AlreadyStarted)
    else Fulfill(Issued(rx, capacity))
  }

  function Refused(rx: Rx, capacity: nat, o: Outcome): Rx
  {
    rx.(issued := rx.issued + 1, completions := rx.completions + [Completion(rx.issued, capacity, o)])
  }

  function Issued(rx: Rx, capacity: nat): Rx
  {
    rx.(issued := rx.issued + 1, pending := Some(Pending(rx.issued, capacity)))
  }

  function Abort(rx: Rx): Rx
  {
    if rx.pending.Some? then Complete(rx, Aborted) else rx
  }

  function Enqueue(rx: Rx, msgs: seq<Msg>): Rx
  {
    rx.(arrived := rx.arrived + msgs, inbox := rx.inbox + msgs)
  }

  /** The completions that consumed a message, in order. */
  function Answers(cs: seq<Completion>): seq<Completion>
  {
    if cs == [] then []
    else
      var c := cs[|cs| - 1];
      Answers(cs[..|cs| - 1]) + if c.outcome.Aborted? || c.outcome.AlreadyStarted? then [] else [c]
  }

  /** Neither the receive buffer nor the reader's own buffer overflows. */
  predicate Fits(m: Msg, capacity: nat)
  {
    |m| <= FWD_BUF_SIZE && |m| <= capacity
  }

  /**
   * A consumed message is reported verbatim exactly if it is data that fits, as
   * end of stream exactly if it is the FIN, and as too big exactly otherwise.
   */
  predicate Reports(c: Completion, m: Msg, salt: seq<byte>)
  {
    var fin := IsFin(m, salt) && |m| <= FWD_BUF_SIZE;
    && (c.outcome == Data(m) <==> Fits(m, c.capacity) && !fin)
    && (c.outcome.Data? ==> c.outcome == Data(m))
    && (c.outcome.Eof? <==> fin)
    && (c.outcome.MessageSize? <==> !Fits(m, c.capacity) && !fin)
  }

  ghost predicate HasEof(cs: seq<Completion>)
  {
    exists i :: 0 <= i < |cs| && cs[i].outcome.Eof?
  }

  ghost predicate Answered(cs: seq<Completion>, id: nat)
  {
    exists i :: 0 <= i < |cs| && cs[i].id == id
  }

  predicate IsPending(rx: Rx, id: nat)
  {
    rx.pending.Some? && rx.pending.value.id == id
  }

  /** Every read number below `issued` was answered once, except the one still pending. */
  ghost predicate Accounted(rx: Rx)
  {
    && (forall i, j :: 0 <= i < j < |rx.completions| ==> rx.completions[i].id != rx.completions[j].id)
    && (forall i :: 0 <= i < |rx.completions| ==> rx.completions[i].id < rx.issued)
    && (rx.pending.Some? ==> rx.pending.value.id < rx.issued && !Answered(rx.completions, rx.pending.value.id))
    && (forall id :: 0 <= id < rx.issued ==> Answered(rx.completions, id) || IsPending(rx, id))
  }

  /** The consumed stream, keepalives removed, is reported message by message and in order. */
  ghost predicate Faithful(rx: Rx)
  {
    var answers, stream := Answers(rx.completions), Strip(rx.consumed, rx.salt);
    && rx.arrived == rx.consumed + rx.inbox
    && |answers| == |stream|
    && (forall i :: 0 <= i < |stream| ==> Reports(answers[i], stream[i], rx.salt))
    && (rx.peerFin <==> HasEof(rx.completions))
  }

  ghost predicate RxInv(rx: Rx)
  {
    Accounted(rx) && Faithful(rx)
  }

  /** Answering the pending read, or refusing a new one, keeps the books. */
  lemma AccountedAnswer(rx: Rx, id: nat, capacity: nat, o: Outcome, after: Rx)
    requires Accounted(rx) && after.completions == rx.completions + [Completion(id, capacity, o)]
    requires (IsPending(rx, id) && after.pending.None? && after.issued == rx.issued)
             || (id == rx.issued && after.issued == rx.issued + 1 && after.pending == rx.pending)
    ensures Accounted(after)
  {
    var cs := rx.completions;
    AppendAnswered(cs, id, capacity, o);
    forall i | 0 <= i < |cs| ensures cs[i].id != id {
      assert Answered(cs, cs[i].id);
    }
  }

  lemma UnconsumedAnswer(rx: Rx, id: nat, capacity: nat, o: Outcome, after: Rx)
    requires Faithful(rx) && (o.Aborted? || o.AlreadyStarted?)
    requires after == rx.(completions := rx.completions + [Completion(id, capacity, o)],
                          pending := after.pending, issued := after.issued)
    ensures Faithful(after)
  {
  }

  lemma AppendAnswered(cs: seq<Completion>, id: nat, capacity: nat, o: Outcome)
    ensures forall k: nat :: Answered(cs + [Completion(id, capacity, o)], k) <==> Answered(cs, k) || k == id
  {
    var cs' := cs + [Completion(id, capacity, o)];
    forall k: nat ensures Answered(cs', k) <==> Answered(cs, k) || k == id {
      if Answered(cs, k) {
        var i :| 0 <= i < |cs| && cs[i].id == k;
        assert cs'[i].id == k;
      }
      assert cs'[|cs|].id == id;
    }
  }

  lemma AppendEof(cs: seq<Completion>, id: nat, capacity: nat, o: Outcome)
    ensures HasEof(cs + [Completion(id, capacity, o)]) <==> HasEof(cs) || o.Eof?
  {
    var cs' := cs + [Completion(id, capacity, o)];
    if HasEof(cs) {
      var i :| 0 <= i < |cs| && cs[i].outcome.Eof?;
      assert cs'[i].outcome.Eof?;
    }
    assert cs'[|cs|].outcome == o;
  }

  lemma AbortKeeps(rx: Rx)
    requires RxInv(rx)
    ensures RxInv(Abort(rx)) && Abort(rx).pending.None?
  {
    if rx.pending.Some? {
      AccountedAnswer(rx, rx.pending.value.id, rx.pending.value.capacity, Aborted, Abort(rx));
      UnconsumedAnswer(rx, rx.pending.value.id, rx.pending.value.capacity, Aborted, Abort(rx));
    }
  }

  lemma EnqueueKeeps(rx: Rx, msgs: seq<Msg>)
    requires RxInv(rx)
    ensures RxInv(Enqueue(rx, msgs))
  {
  }

  lemma ConsumeShifts(rx: Rx, n: nat)
    requires rx.arrived == rx.consumed + rx.inbox && n <= |rx.inbox|
    ensures rx.arrived == rx.consumed + rx.inbox[..n] + rx.inbox[n..]
    ensures Strip(rx.consumed + rx.inbox[..n], rx.salt) == Strip(rx.consumed, rx.salt) + Strip(rx.inbox[..n], rx.salt)
  {
    assert rx.inbox == rx.inbox[..n] + rx.inbox[n..];
    StripAppend(rx.consumed, rx.inbox[..n], rx.salt);
  }

  lemma AnswersAppend(cs: seq<Completion>, c: Completion)
    requires !c.outcome.Aborted? && !c.outcome.AlreadyStarted?
    ensures Answers(cs + [c]) == Answers(cs) + [c]
  {
  }

  lemma QuietFaithful(rx: Rx, n: nat)
    requires Faithful(rx) && n <= |rx.inbox| && Strip(rx.inbox[..n], rx.salt) == []
    ensures Faithful(rx.(inbox := rx.inbox[n..], consumed := rx.consumed + rx.inbox[..n]))
  {
    ConsumeShifts(rx, n);
  }

  lemma ReportAppends(answers: seq<Completion>, stream: seq<Msg>, c: Completion, m: Msg, salt: seq<byte>)
    requires |answers| == |stream| && Reports(c, m, salt)
    requires forall i :: 0 <= i < |stream| ==> Reports(answers[i], stream[i], salt)
    ensures forall i :: 0 <= i < |stream + [m]| ==> Reports((answers + [c])[i], (stream + [m])[i], salt)
  {
  }

  lemma AnsweringFaithful(rx: Rx, n: nat, c: Completion, after: Rx)
    requires Faithful(rx) && 0 < n <= |rx.inbox| && Strip(rx.inbox[..n], rx.salt) == [rx.inbox[n - 1]]
    requires Reports(c, rx.inbox[n - 1], rx.salt)
    requires after == rx.(inbox := rx.inbox[n..], consumed := rx.consumed + rx.inbox[..n],
                          completions := rx.completions + [c], pending := after.pending,
                          peerFin := rx.peerFin || c.outcome.Eof?)
    ensures Faithful(after)
  {
    ConsumeShifts(rx, n);
    AnswersAppend(rx.completions, c);
    AppendEof(rx.completions, c.id, c.capacity, c.outcome);
    ReportAppends(Answers(rx.completions), Strip(rx.consumed, rx.salt), c, rx.inbox[n - 1], rx.salt);
  }

  lemma FulfillFaithful(rx: Rx)
    requires Faithful(rx) && rx.pending.Some?
    ensures Faithful(Fulfill(rx))
  {
    var n, cap := Taken(rx.inbox, rx.salt), rx.pending.value.capacity;
    FetchShape(rx.inbox, rx.salt, cap);
    var o := Found(rx.inbox, rx.salt, cap);
    if o.None? {
      QuietFaithful(rx, n);
    } else {
      AnsweringFaithful(rx, n, Completion(rx.pending.value.id, cap, o.value), Fulfill(rx));
    }
  }

  lemma FulfillKeeps(rx: Rx)
    requires RxInv(rx)
    ensures RxInv(Fulfill(rx))
  {
    if rx.pending.Some? {
      FulfillFaithful(rx);
      var o := Found(rx.inbox, rx.salt, rx.pending.value.capacity);
      if o.Some? {
        AccountedAnswer(rx, rx.pending.value.id, rx.pending.value.capacity, o.value, Fulfill(rx));
      }
    }
  }

  lemma RefusedReadKeeps(rx: Rx, capacity: nat, o: Outcome)
    requires RxInv(rx) && (o.Aborted? || o.AlreadyStarted?)
    ensures RxInv(Refused(rx, capacity, o))
  {
    AccountedAnswer(rx, rx.issued, capacity, o, Refused(rx, capacity, o));
    UnconsumedAnswer(rx, rx.issued, capacity, o, Refused(rx, capacity, o));
  }

  lemma NewReadKeeps(rx: Rx, capacity: nat)
    requires RxInv(rx) && rx.pending.None?
    ensures RxInv(Issued(rx, capacity))
  {
  }

  lemma ReadKeeps(rx: Rx, running: bool, capacity: nat)
    requires RxInv(rx)
    ensures RxInv(StartRead(rx, running, capacity))
  {
    if !running {
      RefusedReadKeeps(rx, capacity, Aborted);
    } else if rx.pending.Some? {
      RefusedReadKeeps(rx, capacity, AlreadyStarted);
    } else {
      NewReadKeeps(rx, capacity);
      FulfillKeeps(Issued(rx, capacity));
    }
  }
}
