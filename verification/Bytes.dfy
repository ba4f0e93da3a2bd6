/** Bytes, optional values and the big-endian integers of the wire formats. */
module Bytes {

  type byte = x: int | 0 <= x < 256

  /** config.hpp: the largest message a forwarding loop reads or accumulates. */
  const FWD_BUF_SIZE: nat := 16384

  datatype Option<+T> = None | Some(value: T)

  /** The value of `bs` read most significant byte first. */
  function FromBigEndian(bs: seq<byte>): nat
  {
    if bs == [] then 0 else 256 * FromBigEndian(bs[..|bs| - 1]) + bs[|bs| - 1]
  }

  /** `n` modulo 256^width, most significant byte first. */
  function ToBigEndian(n: nat, width: nat): (bs: seq<byte>)
    ensures |bs| == width
  {
    if width == 0 then [] else ToBigEndian(n / 256, width - 1) + [n % 256]
  }

  function Pow256(width: nat): (p: nat)
    ensures p > 0
  {
    if width == 0 then 1 else 256 * Pow256(width - 1)
  }

  lemma FromAppend(front: seq<byte>, b: byte)
    ensures FromBigEndian(front + [b]) == 256 * FromBigEndian(front) + b
  {
    assert (front + [b])[..|front|] == front;
  }

  lemma DivBelow(n: nat, p: nat)
    requires n < 256 * p
    ensures n / 256 < p
  {
  }

  lemma {:induction false} BigEndianRoundTrip(n: nat, width: nat)
    requires n < Pow256(width)
    ensures FromBigEndian(ToBigEndian(n, width)) == n
  {
    if width != 0 {
      var q, r := n / 256, n % 256;
      DivBelow(n, Pow256(width - 1));
      BigEndianRoundTrip(q, width - 1);
      FromAppend(ToBigEndian(q, width - 1), r);
      assert ToBigEndian(n, width) == ToBigEndian(q, width - 1) + [r] && n == 256 * q + r;
    }
  }

  lemma {:induction false} FromBigEndianBound(bs: seq<byte>)
    ensures FromBigEndian(bs) < Pow256(|bs|)
  {
    if bs != [] {
      FromBigEndianBound(bs[..|bs| - 1]);
    }
  }

  /** All the bytes of a sequence of messages, in order. */
  function Concat(ms: seq<seq<byte>>): seq<byte>
  {
    if ms == [] then [] else ms[0] + Concat(ms[1..])
  }

  lemma {:induction false} ConcatAppend(a: seq<seq<byte>>, b: seq<seq<byte>>)
    ensures Concat(a + b) == Concat(a) + Concat(b)
  {
    if a == [] {
      assert a + b == b;
    } else {
      ConcatAppend(a[1..], b);
      assert (a + b)[1..] == a[1..] + b && (a + b)[0] == a[0];
      assert a[0] + (Concat(a[1..]) + Concat(b)) == (a[0] + Concat(a[1..])) + Concat(b);
    }
  }
}
