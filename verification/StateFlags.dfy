/** The packed flag byte of a session (kcp_session.hpp): masks, and the word they encode. */
module StateFlags {
  const RUNNING: bv8 := 0x01
  const PROTOCOL_HS_DONE: bv8 := 0x02
  const SOCKS5_READ_PENDING: bv8 := 0x08
  const FORWARD_READ_PENDING: bv8 := 0x10
  const CONNECT_PENDING: bv8 := 0x20

  datatype Word = Word(running: bool, proto: bool, socks: bool, forward: bool, connect: bool)

  function Decode(f: bv8): Word
  {
    Word(f & RUNNING != 0, f & PROTOCOL_HS_DONE != 0, f & SOCKS5_READ_PENDING != 0,
         f & FORWARD_READ_PENDING != 0, f & CONNECT_PENDING != 0)
  }

  /** What stop() leaves of a word. */
  function Halted(w: Word): Word
  {
    if w.running then Word(false, w.proto, false, false, false) else w
  }

  /** No two flags share a bit: setting or clearing one leaves the others as they were. */
  lemma FlagsAreIndependent(f: bv8)
    ensures Decode(f | PROTOCOL_HS_DONE) == Decode(f).(proto := true)
    ensures Decode(f | SOCKS5_READ_PENDING) == Decode(f).(socks := true)
    ensures Decode(f & !SOCKS5_READ_PENDING) == Decode(f).(socks := false)
    ensures Decode(f | FORWARD_READ_PENDING) == Decode(f).(forward := true)
    ensures Decode(f & !FORWARD_READ_PENDING) == Decode(f).(forward := false)
    ensures Decode(f | CONNECT_PENDING) == Decode(f).(connect := true)
    ensures Decode(f & !CONNECT_PENDING) == Decode(f).(connect := false)
  {
  }

  /** The two masks of stop(), one after the other. */
  lemma StopMasks(f: bv8)
    ensures var g := f & !RUNNING;
            && Decode(g) == Decode(f).(running := false)
            && Decode(g & !(FORWARD_READ_PENDING | SOCKS5_READ_PENDING | CONNECT_PENDING))
               == Word(false, Decode(f).proto, false, false, false)
  {
  }
}
