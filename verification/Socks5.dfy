/**
 * The SOCKS5 codec of sections 4 and 6 of RFC 1928 (socks5.cpp, address.cpp).
 * A host is its wire bytes: the text form of an IP literal is not modelled.
 */
module Socks5 {
  import opened Bytes

  const SOCKS5_VERSION: byte := 5
  const ATYP_IPV4: byte := 1
  const ATYP_DOMAIN: byte := 3
  const ATYP_IPV6: byte := 4
  const CMD_CONNECT: byte := 1

  datatype Host = V4(bytes: seq<byte>) | V6(bytes: seq<byte>) | Domain(bytes: seq<byte>)

  type Port = x: int | 0 <= x < 65536

  /** What the wire can carry; a domain name is 1 to 255 bytes. */
  predicate Encodable(host: Host)
  {
    match host
    case V4(b) => |b| == 4
    case V6(b) => |b| == 16
    case Domain(b) => 1 <= |b| <= 255
  }

  function Atyp(host: Host): byte
  {
    match host case V4(_) => ATYP_IPV4 case V6(_) => ATYP_IPV6 case Domain(_) => ATYP_DOMAIN
  }

  /** ATYP, address, port: the address field shared by requests and replies. */
  function AddressBytes(host: Host, port: Port): seq<byte>
    requires Encodable(host)
  {
    [Atyp(host)] + (if host.Domain? then [|host.bytes| as byte] else []) + host.bytes + [port / 256, port % 256]
  }

  /** VER, CMD or REP, RSV, then the address field. */
  function MessageBytes(code: byte, host: Host, port: Port): seq<byte>
    requires Encodable(host)
  {
    [SOCKS5_VERSION, code, 0] + AddressBytes(host, port)
  }

  // ---- builders ----

  /** None where the source throws: a domain longer than 255 bytes. */
  method EncodeAddress(host: Host, port: Port) returns (r: Option<seq<byte>>)
    requires host.V4? ==> |host.bytes| == 4
    requires host.V6? ==> |host.bytes| == 16
    ensures r.None? <==> host.Domain? && |host.bytes| > 255
    ensures Encodable(host) ==> r == Some(AddressBytes(host, port))
    ensures host == Domain([]) ==> r == Some([ATYP_DOMAIN, 0, port / 256, port % 256])
  {
    var result: seq<byte> := [Atyp(host)];
    if host.Domain? {
      if |host.bytes| > 255 {
        return None;
      }
      result := result + [|host.bytes|];
    }
    ghost var head := result;
    for i := 0 to |host.bytes|
      invariant result == head + host.bytes[..i]
    {
      result := result + [host.bytes[i]];
    }
    assert result == head + host.bytes;
    result := result + [port / 256, port % 256];
    assert host == Domain([]) ==> result == [ATYP_DOMAIN, 0, port / 256, port % 256];
    r := Some(result);
  }

  /** SOCKS5Response::build; no host stands for the empty string and becomes 0.0.0.0. */
  method BuildResponse(reply: byte, host: Option<Host>, port: Port) returns (r: Option<seq<byte>>)
    requires host.Some? ==> host.value != Domain([])
    requires host.Some? && host.value.V4? ==> |host.value.bytes| == 4
    requires host.Some? && host.value.V6? ==> |host.value.bytes| == 16
    ensures host.None? ==> r == Some(MessageBytes(reply, V4([0, 0, 0, 0]), port))
    ensures host.Some? && Encodable(host.value) ==> r == Some(MessageBytes(reply, host.value, port))
    ensures host.Some? && !Encodable(host.value) ==> r.None?
  {
    var result: seq<byte> := [SOCKS5_VERSION, reply, 0];
    if host.None? {
      result := result + [ATYP_IPV4];
      for i := 0 to 4
        invariant result == [SOCKS5_VERSION, reply, 0, ATYP_IPV4] + seq(i, _ => 0)
      {
        result := result + [0];
      }
      assert seq(4, _ => 0) == [0, 0, 0, 0];
      result := result + [port / 256, port % 256];
      assert result == MessageBytes(reply, V4([0, 0, 0, 0]), port);
      r := Some(result);
    } else {
      var addr := EncodeAddress(host.value, port);
      if addr.None? {
        return None;
      }
      r := Some(result + addr.value);
    }
  }

  // ---- the parser ----

  function PortOf(high: byte, low: byte): (port: Port)
    ensures port / 256 == high && port % 256 == low
  {
    256 * (high as int) + low
  }

  /** `badAtyp` picks the reply code the server sends back. */
  datatype Parse = NeedMore | Invalid(badAtyp: bool) | Complete(code: byte, host: Host, port: Port, length: nat)

  function ParseAddress(data: seq<byte>, need: nat, offset: nat): Option<(Host, Port)>
    requires need <= |data|
  {
    if offset >= need then None
    else if data[offset] == ATYP_IPV4 then
      if need < offset + 7 then None
      else Some((V4(data[offset + 1..offset + 5]), PortOf(data[offset + 5], data[offset + 6])))
    else if data[offset] == ATYP_DOMAIN then
      if offset + 1 >= need then None
      else
        var len := data[offset + 1] as int;
        if offset + 2 + len + 2 > need then None
        else Some((Domain(data[offset + 2..offset + 2 + len]), PortOf(data[offset + 2 + len], data[offset + 3 + len])))
    else if data[offset] == ATYP_IPV6 then
      if need < offset + 19 then None
      else Some((V6(data[offset + 1..offset + 17]), PortOf(data[offset + 17], data[offset + 18])))
    else None
  }

  /** parse_socks5_request and parse_socks5_reply make the same decisions; `code` is CMD or REP. */
  function ParseMessage(data: seq<byte>): Parse
  {
    if |data| < 4 then NeedMore
    else if data[0] != SOCKS5_VERSION then Invalid(false)
    else if data[2] != 0 then Invalid(false)
    else if data[3] == ATYP_IPV4 then Finish(data, 4 + 4 + 2)
    else if data[3] == ATYP_IPV6 then Finish(data, 4 + 16 + 2)
    else if data[3] == ATYP_DOMAIN then
      if |data| < 5 then NeedMore
      else if data[4] == 0 then Invalid(false)
      else Finish(data, 4 + 1 + (data[4] as int) + 2)
    else Invalid(true)
  }

  function Finish(data: seq<byte>, need: nat): Parse
    requires |data| >= 4
  {
    if |data| < need then NeedMore
    else
      match ParseAddress(data, need, 3)
      case Some(a) => Complete(data[1], a.0, a.1, need)
      case None => Invalid(false)
  }

  /** The bytes after a complete message: a request's initial payload, a reply's first target bytes. */
  function Payload(data: seq<byte>): seq<byte>
  {
    match ParseMessage(data)
    case Complete(_, _, _, length) => if length <= |data| then data[length..] else []
    case _ => []
  }

  /**
   * Parsing a built message followed by any tail gives back the same fields and
   * leaves exactly that tail.
   */
  lemma ParseBuilt(code: byte, host: Host, port: Port, tail: seq<byte>)
    requires Encodable(host)
    ensures var m := MessageBytes(code, host, port);
            ParseMessage(m + tail) == Complete(code, host, port, |m|) && Payload(m + tail) == tail
  {
    var m := MessageBytes(code, host, port);
    var d := m + tail;
    var n := |host.bytes|;
    var start := if host.Domain? then 5 else 4;
    assert d[3] == Atyp(host);
    assert host.Domain? ==> d[4] == n;
    assert |m| == start + n + 2;
    assert d[start..start + n] == host.bytes;
    assert d[start + n] == port / 256 && d[start + n + 1] == port % 256;
    assert ParseMessage(d) == Complete(code, host, port, |m|);
    assert d[|m|..] == tail;
  }

  /** And nothing else parses: a complete verdict means the input starts with exactly that message. */
  lemma CompleteIsBuilt(data: seq<byte>)
    requires ParseMessage(data).Complete?
    ensures var p := ParseMessage(data);
            && Encodable(p.host)
            && p.length == |MessageBytes(p.code, p.host, p.port)| <= |data|
            && data == MessageBytes(p.code, p.host, p.port) + Payload(data)
  {
    var p := ParseMessage(data);
    CompleteShape(data);
    var m := MessageBytes(p.code, p.host, p.port);
    var n, start := |p.host.bytes|, if p.host.Domain? then 5 else 4;
    forall i | 0 <= i < |m| ensures m[i] == data[i] {
      if start <= i < start + n {
        assert m[i] == p.host.bytes[i - start];
      }
    }
    assert data[..p.length] == m;
  }

  lemma CompleteShape(data: seq<byte>)
    requires ParseMessage(data).Complete?
    ensures var p := ParseMessage(data);
            var n, start := |p.host.bytes|, if p.host.Domain? then 5 else 4;
            && Encodable(p.host)
            && p.length == start + n + 2 <= |data|
            && data[..3] == [SOCKS5_VERSION, p.code, 0]
            && data[3] == Atyp(p.host)
            && (p.host.Domain? ==> data[4] == n)
            && p.host.bytes == data[start..start + n]
            && p.port == PortOf(data[start + n], data[start + n + 1])
  {
  }

  /** A verdict never changes as more bytes arrive; they only extend the leftover. */
  lemma VerdictIsStable(data: seq<byte>, tail: seq<byte>)
    requires !ParseMessage(data).NeedMore?
    ensures ParseMessage(data + tail) == ParseMessage(data)
    ensures ParseMessage(data).Complete? ==> Payload(data + tail) == Payload(data) + tail
  {
    var p := ParseMessage(data);
    if p.Complete? {
      CompleteIsBuilt(data);
      var m := MessageBytes(p.code, p.host, p.port);
      ParseBuilt(p.code, p.host, p.port, Payload(data) + tail);
      assert data + tail == m + (Payload(data) + tail);
    } else {
      NeverInvalidLate(data);
      assert (data + tail)[..4] == data[..4];
    }
  }

  /** Every Invalid verdict is decided by the first five bytes. */
  lemma NeverInvalidLate(data: seq<byte>)
    requires ParseMessage(data).Invalid?
    ensures |data| >= 4
    ensures data[0] != SOCKS5_VERSION || data[2] != 0 || data[3] !in {ATYP_IPV4, ATYP_DOMAIN, ATYP_IPV6}
            || (data[3] == ATYP_DOMAIN && |data| >= 5 && data[4] == 0)
  {
  }

  /** NeedMore is only ever said of a strict prefix of some input that gets a verdict. */
  lemma NeedMoreIsPrefix(data: seq<byte>) returns (tail: seq<byte>)
    requires ParseMessage(data).NeedMore?
    ensures tail != [] && !ParseMessage(data + tail).NeedMore?
  {
    var pad: seq<byte> := seq(300, _ => 0);
    if |data| < 4 {
      tail := seq(4 - |data|, _ => 9);
      assert (data + tail)[3] == 9;
    } else {
      tail := pad;
      assert (data + tail)[..4] == data[..4];
      if |data| >= 5 {
        assert (data + tail)[4] == data[4];
      }
    }
  }

  // ---- accumulating a message from KCP messages ----

  /** What the client's reply loop (or the server's request loop) concludes. */
  datatype Accumulated =
    | StillReading(accum: seq<byte>)
    | TooLarge
    | Refused(badAtyp: bool)
    | Done(code: byte, host: Host, port: Port, rest: seq<byte>)

  /** The verdict on everything received at once. */
  function Verdict(accum: seq<byte>): Accumulated
  {
    match ParseMessage(accum)
    case NeedMore => StillReading(accum)
    case Invalid(bad) => Refused(bad)
    case Complete(code, host, port, _) => Done(code, host, port, Payload(accum))
  }

  /** No verdict yet on the first k chunks, and they fit the accumulator. */
  predicate Undecided(chunks: seq<seq<byte>>, k: nat)
    requires k <= |chunks|
  {
    ParseMessage(Concat(chunks[..k])).NeedMore? && |Concat(chunks[..k])| <= FWD_BUF_SIZE
  }

  /**
   * `used` chunks are read, up to the first with a verdict or an overflow, and
   * `r` is the verdict on their concatenation unless the last one overflows.
   */
  ghost predicate Accumulates(chunks: seq<seq<byte>>, r: Accumulated, used: nat)
  {
    && used <= |chunks|
    && (forall k :: 0 <= k < used ==> Undecided(chunks, k))
    && (r.StillReading? <==> Undecided(chunks, used))
    && (r.StillReading? ==> used == |chunks|)
    && r == (if |Concat(chunks[..used])| > FWD_BUF_SIZE then TooLarge else Verdict(Concat(chunks[..used])))
  }

  lemma NextChunk(chunks: seq<seq<byte>>, k: nat)
    requires k < |chunks|
    ensures Concat(chunks[..k + 1]) == Concat(chunks[..k]) + chunks[k]
  {
    var one := [chunks[k]];
    ConcatAppend(chunks[..k], one);
    assert chunks[..k + 1] == chunks[..k] + one;
    assert one[1..] == [];
  }

  /** Reads chunks until a verdict, checking the bound before each append. */
  method Accumulate(chunks: seq<seq<byte>>) returns (r: Accumulated, used: nat)
    ensures Accumulates(chunks, r, used)
  {
    var accum: seq<byte> := [];
    used := 0;
    assert chunks[..0] == [];
    while used < |chunks|
      invariant used <= |chunks|
      invariant accum == Concat(chunks[..used])
      invariant forall k :: 0 <= k <= used ==> Undecided(chunks, k)
    {
      NextChunk(chunks, used);
      used := used + 1;
      if |accum| + |chunks[used - 1]| > FWD_BUF_SIZE {
        return TooLarge, used;
      }
      accum := accum + chunks[used - 1];
      if !ParseMessage(accum).NeedMore? {
        return Verdict(accum), used;
      }
    }
    return StillReading(accum), used;
  }

  /** What a finished accumulation says of the whole stream it was cut from. */
  lemma VerdictOnStream(chunks: seq<seq<byte>>, r: Accumulated, used: nat)
    requires Accumulates(chunks, r, used) && r != TooLarge
    ensures ParseMessage(Concat(chunks)).NeedMore? <==> r.StillReading?
    ensures r.StillReading? ==> r.accum == Concat(chunks)
    ensures r.Refused? ==> ParseMessage(Concat(chunks)) == Invalid(r.badAtyp)
    ensures r.Done? ==>
              var p := ParseMessage(Concat(chunks));
              p.Complete? && p.code == r.code && p.host == r.host && p.port == r.port
              && Payload(Concat(chunks)) == r.rest + Concat(chunks[used..])
  {
    assert chunks == chunks[..used] + chunks[used..];
    ConcatAppend(chunks[..used], chunks[used..]);
    if !r.StillReading? {
      VerdictIsStable(Concat(chunks[..used]), Concat(chunks[used..]));
    } else {
      assert chunks[..used] == chunks;
    }
  }

  /**
   * However the same bytes are cut into chunks, two accumulations that do not
   * overflow come to the same verdict with the same fields, and the leftover of
   * each followed by its unread chunks is the same stream.
   */
  lemma FragmentationIsIrrelevant(a: seq<seq<byte>>, ra: Accumulated, ua: nat,
                                  b: seq<seq<byte>>, rb: Accumulated, ub: nat)
    requires Concat(a) == Concat(b) && ra != TooLarge && rb != TooLarge
    requires Accumulates(a, ra, ua) && Accumulates(b, rb, ub)
    ensures ra.Done? || rb.Done? ==>
              ra.Done? && rb.Done? && ra.code == rb.code && ra.host == rb.host && ra.port == rb.port
              && ra.rest + Concat(a[ua..]) == rb.rest + Concat(b[ub..])
    ensures !ra.Done? ==> ra == rb
  {
    VerdictOnStream(a, ra, ua);
    VerdictOnStream(b, rb, ub);
  }
}
