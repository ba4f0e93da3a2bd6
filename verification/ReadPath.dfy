/**
 * Control messages and the consuming loop of a tunnel's read (kcp_tunnel.cpp,
 * is_control and try_fulfill_read). KCP delivers whole messages in order.
 */
module ReadPath {
  import opened Bytes

  type Msg = seq<byte>

  function Ascii(s: string): (bs: seq<byte>)
    ensures |bs| == |s|
  {
    seq(|s|, i requires 0 <= i < |s| => (s[i] as int) % 256)
  }

  const KEEPALIVE: seq<byte> := Ascii("KCP_PROXY_KEEPALIVE_V1")
  const FIN: seq<byte> := Ascii("KCP_PROXY_FIN_V1")

  predicate IsControl(m: Msg, magic: seq<byte>, salt: seq<byte>)
  {
    && |m| == |magic| + |salt|
    && m[..|magic|] == magic
    && (|salt| > 0 ==> m[|magic|..] == salt)
  }

  /** A control message is recognised exactly: the bytes build_control_payload makes, and no others. */
  lemma ControlIsExact(m: Msg, magic: seq<byte>, salt: seq<byte>)
    ensures IsControl(m, magic, salt) <==> m == magic + salt
  {
  }

  predicate IsKeepalive(m: Msg, salt: seq<byte>) { IsControl(m, KEEPALIVE, salt) }
  predicate IsFin(m: Msg, salt: seq<byte>) { IsControl(m, FIN, salt) }

  datatype Outcome = Data(msg: Msg) | Eof | MessageSize | Aborted | AlreadyStarted

  /** How a message that is not a keepalive answers a read with this much room. */
  function Classify(m: Msg, salt: seq<byte>, capacity: nat): Outcome
  {
    if |m| > FWD_BUF_SIZE then MessageSize
    else if IsFin(m, salt) then Eof
    else if |m| > capacity then MessageSize
    else Data(m)
  }

  predicate Skipped(m: Msg, salt: seq<byte>)
  {
    |m| <= FWD_BUF_SIZE && IsKeepalive(m, salt)
  }

  /** How many messages one fulfilment consumes; an empty message blocks the queue for good. */
  function Taken(inbox: seq<Msg>, salt: seq<byte>): (n: nat)
    ensures n <= |inbox|
  {
    if inbox == [] || inbox[0] == [] then 0
    else if Skipped(inbox[0], salt) then 1 + Taken(inbox[1..], salt)
    else 1
  }

  /** The outcome of the read, if the queue holds anything for it. */
  function Found(inbox: seq<Msg>, salt: seq<byte>, capacity: nat): Option<Outcome>
  {
    if inbox == [] || inbox[0] == [] then None
    else if Skipped(inbox[0], salt) then Found(inbox[1..], salt, capacity)
    else Some(Classify(inbox[0], salt, capacity))
  }

  /** The stream content of a run of messages: everything but keepalives. */
  function Strip(ms: seq<Msg>, salt: seq<byte>): seq<Msg>
  {
    if ms == [] then []
    else Strip(ms[..|ms| - 1], salt) + if Skipped(ms[|ms| - 1], salt) then [] else [ms[|ms| - 1]]
  }

  lemma {:induction false} StripAppend(a: seq<Msg>, b: seq<Msg>, salt: seq<byte>)
    ensures Strip(a + b, salt) == Strip(a, salt) + Strip(b, salt)
  {
    if b == [] {
      assert a + b == a;
    } else {
      var n := |b| - 1;
      assert (a + b)[..|a + b| - 1] == a + b[..n];
      StripAppend(a, b[..n], salt);
    }
  }

  /** One fulfilment consumes keepalives and at most one message, the one that answers the read. */
  lemma {:induction false} FetchShape(inbox: seq<Msg>, salt: seq<byte>, capacity: nat)
    ensures var n := Taken(inbox, salt);
            if Found(inbox, salt, capacity).None? then Strip(inbox[..n], salt) == []
            else n > 0 && Strip(inbox[..n], salt) == [inbox[n - 1]]
                 && inbox[n - 1] != [] && !Skipped(inbox[n - 1], salt)
                 && Found(inbox, salt, capacity) == Some(Classify(inbox[n - 1], salt, capacity))
  {
    if inbox != [] && inbox[0] != [] {
      var n := Taken(inbox, salt);
      assert inbox[..n] == [inbox[0]] + inbox[1..n];
      StripAppend([inbox[0]], inbox[1..n], salt);
      var head: seq<Msg> := [inbox[0]];
      assert head[..0] == [];
      if Skipped(inbox[0], salt) {
        FetchShape(inbox[1..], salt, capacity);
        assert inbox[1..][..n - 1] == inbox[1..n];
      }
    }
  }
}
