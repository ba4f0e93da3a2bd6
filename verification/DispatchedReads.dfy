/**
 * The session numbers its reads and keeps their completions; the dispatcher
 * thinks of them as a queue of handlers. These are the same thing: reads issued,
 * answered, aborted and run on the one side are so on the other.
 */
module DispatchedReads {
  import opened Bytes
  import opened ReadPath
  import T = Tunnel
  import D = Dispatcher

  /** Every read number has its handler, every completion a number, and `ran` of them were run. */
  ghost predicate Booked(rx: T.Rx, readers: seq<D.Reader>, ran: nat)
  {
    && |readers| == rx.issued && ran <= |rx.completions|
    && Numbered(rx.completions, |readers|)
    && (rx.pending.Some? ==> rx.pending.value.id < |readers| && rx.pending.value.capacity == FWD_BUF_SIZE)
  }

  ghost predicate Numbered(cs: seq<T.Completion>, n: nat)
  {
    forall i :: 0 <= i < |cs| ==> cs[i].id < n
  }

  ghost function Posts(cs: seq<T.Completion>, readers: seq<D.Reader>): seq<D.Post>
    requires Numbered(cs, |readers|)
  {
    seq(|cs|, i requires 0 <= i < |cs| => D.Post(readers[cs[i].id], cs[i].outcome))
  }

  /** The messages handed over as data, in order. */
  ghost function Datas(cs: seq<T.Completion>): seq<Msg>
  {
    if cs == [] then []
    else
      var o := cs[|cs| - 1].outcome;
      Datas(cs[..|cs| - 1]) + if o.Data? then [o.msg] else []
  }

  ghost predicate Lossy(cs: seq<T.Completion>)
  {
    cs != [] && (Lossy(cs[..|cs| - 1]) || D.Ill(cs[|cs| - 1].outcome))
  }

  ghost function AsReads(rx: T.Rx, readers: seq<D.Reader>, ran: nat): D.Reads
    requires Booked(rx, readers, ran)
  {
    D.Reads(rx.salt, rx.inbox, if rx.pending.Some? then Some(readers[rx.pending.value.id]) else None,
            Due(rx.completions, readers, ran), rx.peerFin, rx.consumed, Datas(rx.completions), Lossy(rx.completions))
  }

  ghost function Due(cs: seq<T.Completion>, readers: seq<D.Reader>, ran: nat): seq<D.Post>
    requires Numbered(cs, |readers|) && ran <= |cs|
  {
    Posts(cs[ran..], readers)
  }

  lemma {:induction false} CompletionAppends(cs: seq<T.Completion>, readers: seq<D.Reader>, ran: nat, c: T.Completion)
    requires Numbered(cs, |readers|) && ran <= |cs| && c.id < |readers|
    ensures Numbered(cs + [c], |readers|)
    ensures Due(cs + [c], readers, ran) == Due(cs, readers, ran) + [D.Post(readers[c.id], c.outcome)]
    ensures Datas(cs + [c]) == Datas(cs) + if c.outcome.Data? then [c.outcome.msg] else []
    ensures Lossy(cs + [c]) <==> Lossy(cs) || D.Ill(c.outcome)
  {
    assert (cs + [c])[ran..] == cs[ran..] + [c];
    assert (cs + [c])[..|cs|] == cs;
  }

  lemma ReaderAppends(cs: seq<T.Completion>, readers: seq<D.Reader>, ran: nat, reader: D.Reader)
    requires Numbered(cs, |readers|) && ran <= |cs|
    ensures Numbered(cs, |readers + [reader]|)
    ensures Due(cs, readers + [reader], ran) == Due(cs, readers, ran)
  {
  }

  lemma AnswerCorresponds(rx: T.Rx, readers: seq<D.Reader>, ran: nat, o: Outcome)
    requires Booked(rx, readers, ran) && rx.pending.Some?
    ensures var after := T.Complete(rx.(peerFin := rx.peerFin || o.Eof?), o);
            Booked(after, readers, ran) && AsReads(after, readers, ran) == D.Finish(AsReads(rx, readers, ran), o)
  {
    CompletionAppends(rx.completions, readers, ran, T.Completion(rx.pending.value.id, FWD_BUF_SIZE, o));
  }

  /** try_fulfill_read does to the numbered reads what it does to the queue of handlers. */
  lemma FulfillCorresponds(rx: T.Rx, readers: seq<D.Reader>, ran: nat)
    requires Booked(rx, readers, ran)
    ensures Booked(T.Fulfill(rx), readers, ran)
    ensures AsReads(T.Fulfill(rx), readers, ran) == D.Fulfill(AsReads(rx, readers, ran))
  {
    if rx.pending.Some? {
      var n := Taken(rx.inbox, rx.salt);
      var o := Found(rx.inbox, rx.salt, FWD_BUF_SIZE);
      var fed := rx.(inbox := rx.inbox[n..], consumed := rx.consumed + rx.inbox[..n]);
      if o.Some? {
        AnswerCorresponds(fed, readers, ran, o.value);
      }
    }
  }

  lemma RefusalCorresponds(rx: T.Rx, readers: seq<D.Reader>, ran: nat, reader: D.Reader, o: Outcome)
    requires Booked(rx, readers, ran) && !o.Data? && !D.Ill(o)
    ensures var answer := T.Completion(rx.issued, FWD_BUF_SIZE, o);
            var after := rx.(issued := rx.issued + 1, completions := rx.completions + [answer]);
            && Booked(after, readers + [reader], ran)
            && var before := AsReads(rx, readers, ran);
               AsReads(after, readers + [reader], ran) == before.(posted := before.posted + [D.Post(reader, o)])
  {
    ReaderAppends(rx.completions, readers, ran, reader);
    CompletionAppends(rx.completions, readers + [reader], ran, T.Completion(rx.issued, FWD_BUF_SIZE, o));
  }

  lemma IssueCorresponds(rx: T.Rx, readers: seq<D.Reader>, ran: nat, reader: D.Reader)
    requires Booked(rx, readers, ran) && rx.pending.None?
    ensures var after := rx.(issued := rx.issued + 1, pending := Some(T.Pending(rx.issued, FWD_BUF_SIZE)));
            && Booked(after, readers + [reader], ran)
            && AsReads(after, readers + [reader], ran) == AsReads(rx, readers, ran).(pending := Some(reader))
  {
    ReaderAppends(rx.completions, readers, ran, reader);
  }

  /** async_read_some: aborted, rejected, answered or left pending alike. */
  lemma ReadCorresponds(rx: T.Rx, readers: seq<D.Reader>, ran: nat, running: bool, reader: D.Reader)
    requires Booked(rx, readers, ran)
    ensures var after := T.StartRead(rx, running, FWD_BUF_SIZE);
            && Booked(after, readers + [reader], ran)
            && AsReads(after, readers + [reader], ran) == D.Issue(AsReads(rx, readers, ran), running, reader)
  {
    if !running {
      RefusalCorresponds(rx, readers, ran, reader, Aborted);
    } else if rx.pending.Some? {
      RefusalCorresponds(rx, readers, ran, reader, AlreadyStarted);
    } else {
      IssueCorresponds(rx, readers, ran, reader);
      var issued := rx.(issued := rx.issued + 1, pending := Some(T.Pending(rx.issued, FWD_BUF_SIZE)));
      FulfillCorresponds(issued, readers + [reader], ran);
    }
  }

  /** stop(): the pending read, if any, is aborted. */
  lemma AbortCorresponds(rx: T.Rx, readers: seq<D.Reader>, ran: nat)
    requires Booked(rx, readers, ran)
    ensures Booked(T.Abort(rx), readers, ran)
    ensures AsReads(T.Abort(rx), readers, ran) == D.Aborting(AsReads(rx, readers, ran))
  {
    if rx.pending.Some? {
      AnswerCorresponds(rx, readers, ran, Aborted);
    }
  }

  lemma EnqueueCorresponds(rx: T.Rx, readers: seq<D.Reader>, ran: nat, msgs: seq<Msg>)
    requires Booked(rx, readers, ran)
    ensures var before := AsReads(rx, readers, ran);
            && Booked(T.Enqueue(rx, msgs), readers, ran)
            && AsReads(T.Enqueue(rx, msgs), readers, ran) == before.(inbox := before.inbox + msgs)
  {
  }

  /** A datagram's messages are queued and then read alike. */
  lemma FeedCorresponds(rx: T.Rx, readers: seq<D.Reader>, ran: nat, msgs: seq<Msg>)
    requires Booked(rx, readers, ran)
    ensures var before, after := AsReads(rx, readers, ran), T.Fulfill(T.Enqueue(rx, msgs));
            && Booked(after, readers, ran)
            && AsReads(after, readers, ran) == D.Fulfill(before.(inbox := before.inbox + msgs))
  {
    EnqueueCorresponds(rx, readers, ran, msgs);
    FulfillCorresponds(T.Enqueue(rx, msgs), readers, ran);
  }

  /** Running the oldest completion that is still due takes it off the queue. */
  lemma RunCorresponds(rx: T.Rx, readers: seq<D.Reader>, ran: nat)
    requires Booked(rx, readers, ran) && ran < |rx.completions|
    ensures var before := AsReads(rx, readers, ran);
            && before.posted != []
            && before.posted[0] == D.Post(readers[rx.completions[ran].id], rx.completions[ran].outcome)
            && Booked(rx, readers, ran + 1)
            && AsReads(rx, readers, ran + 1) == before.(posted := before.posted[1..])
  {
    assert rx.completions[ran..][1..] == rx.completions[ran + 1..];
  }
}
