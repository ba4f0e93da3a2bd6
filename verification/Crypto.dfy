/**
 * One end of the secure channel (crypto.cpp). `Endpoint` is the abstract state
 * of a Crypto object; the class `Crypto` carries the source's fields and every
 * method is proved to move the abstract state as specified. The AEAD itself is
 * a parameter: `plain` is what the cipher returned for a datagram's body.
 */
module Endpoints {
  import opened Bytes
  import opened Replay

  const SESSION_SALT_SIZE: nat := 16
  const NONCE_SIZE: nat := 12
  const TAG_SIZE: nat := 16
  const HEADER_SIZE: nat := SESSION_SALT_SIZE + NONCE_SIZE
  const MIN_PACKET: nat := HEADER_SIZE + TAG_SIZE
  const MAX_COUNTER: nat := 0x1_0000_0000_0000
  const U64: nat := 0x1_0000_0000_0000_0000
  const NONCE_DIR_CLIENT: byte := 1
  const NONCE_DIR_SERVER: byte := 2

  datatype Error = InvalidArgument | PermissionDenied | ReplayRejected | AuthFailed | ValueTooLarge | IoError
  datatype Result<+T> = Ok(value: T) | Err(error: Error)

  function Peer(direction: byte): byte
  {
    if direction == NONCE_DIR_CLIENT then NONCE_DIR_SERVER else NONCE_DIR_CLIENT
  }

  // ---- wire format: [salt 16][nonce 12][ciphertext and tag] ----

  function SaltOf(packet: seq<byte>): seq<byte>
    requires |packet| >= MIN_PACKET
  {
    packet[..SESSION_SALT_SIZE]
  }

  function NonceOf(packet: seq<byte>): seq<byte>
    requires |packet| >= MIN_PACKET
  {
    packet[SESSION_SALT_SIZE..HEADER_SIZE]
  }

  function BodyOf(packet: seq<byte>): seq<byte>
    requires |packet| >= MIN_PACKET
  {
    packet[HEADER_SIZE..]
  }

  function CounterOf(nonce: seq<byte>): nat
    requires |nonce| == NONCE_SIZE
  {
    FromBigEndian(nonce[..8])
  }

  function DirectionOf(nonce: seq<byte>): byte
    requires |nonce| == NONCE_SIZE
  {
    nonce[8]
  }

  function NonceFor(counter: nat, direction: byte): (nonce: seq<byte>)
    ensures |nonce| == NONCE_SIZE
  {
    ToBigEndian(counter, 8) + [direction, 0, 0, 0]
  }

  lemma NonceRoundTrip(counter: nat, direction: byte)
    requires counter < U64
    ensures CounterOf(NonceFor(counter, direction)) == counter
    ensures DirectionOf(NonceFor(counter, direction)) == direction
  {
    Pow256Of8();
    BigEndianRoundTrip(counter, 8);
    assert NonceFor(counter, direction)[..8] == ToBigEndian(counter, 8);
  }

  /** A nonce determines its counter and its direction, so the two directions never collide. */
  lemma NonceInjective(c1: nat, d1: byte, c2: nat, d2: byte)
    requires c1 < U64 && c2 < U64
    ensures NonceFor(c1, d1) == NonceFor(c2, d2) <==> c1 == c2 && d1 == d2
  {
    NonceRoundTrip(c1, d1);
    NonceRoundTrip(c2, d2);
  }

  lemma Pow256Of8()
    ensures Pow256(8) == U64 && Pow256(6) == MAX_COUNTER
  {
  }

  // ---- the abstract endpoint ----

  /** `psk` says whether the pre-shared key is still held; `seen` is every counter accepted so far. */
  datatype Endpoint = Endpoint(local: byte, psk: bool, salt: Option<seq<byte>>, seen: set<nat>, counter: nat)

  ghost predicate Valid(e: Endpoint)
  {
    && e.counter < U64
    && (forall c | c in e.seen :: c < MAX_COUNTER)
    && (e.salt.Some? ==> |e.salt.value| == SESSION_SALT_SIZE && !e.psk)
    && (e.salt.None? ==> e.seen == {} && e.counter == 0)
  }

  /** First six salt bytes, big-endian. */
  function StartCounter(salt: seq<byte>): nat
    requires |salt| == SESSION_SALT_SIZE
  {
    FromBigEndian(salt[..6])
  }

  lemma StartCounterBound(salt: seq<byte>)
    requires |salt| == SESSION_SALT_SIZE
    ensures StartCounter(salt) < MAX_COUNTER
  {
    FromBigEndianBound(salt[..6]);
    Pow256Of8();
  }

  /** Exactly the datagrams a receiver delivers. */
  ghost predicate Accepts(e: Endpoint, packet: seq<byte>, plain: Option<seq<byte>>)
  {
    && |packet| >= MIN_PACKET
    && (e.salt == Some(SaltOf(packet)) || (e.salt.None? && e.psk))
    && DirectionOf(NonceOf(packet)) == Peer(e.local)
    && CounterOf(NonceOf(packet)) < MAX_COUNTER
    && Acceptable(e.seen, CounterOf(NonceOf(packet)))
    && plain.Some?
  }

  ghost function RejectReason(e: Endpoint, packet: seq<byte>): Error
  {
    if |packet| < MIN_PACKET then InvalidArgument
    else if e.salt.None? && !e.psk then IoError
    else if e.salt.Some? && e.salt.value != SaltOf(packet) then PermissionDenied
    else if DirectionOf(NonceOf(packet)) != Peer(e.local) then PermissionDenied
    else if CounterOf(NonceOf(packet)) >= MAX_COUNTER then PermissionDenied
    else if !Acceptable(e.seen, CounterOf(NonceOf(packet))) then ReplayRejected
    else AuthFailed
  }

  function WithSalt(e: Endpoint, salt: seq<byte>): Endpoint
    requires |salt| == SESSION_SALT_SIZE
  {
    if e.salt.Some? then e else e.(psk := false, salt := Some(salt), counter := StartCounter(salt))
  }

  /**
   * An accepted datagram adds its counter (and fixes the salt of an endpoint
   * that had none); a rejected one changes nothing, except that a salt-less
   * endpoint which tried to learn from it has spent its pre-shared key.
   */
  ghost function AfterDecrypt(e: Endpoint, packet: seq<byte>, plain: Option<seq<byte>>): Endpoint
  {
    if Accepts(e, packet, plain) then
      var learned := WithSalt(e, SaltOf(packet));
      learned.(seen := e.seen + {CounterOf(NonceOf(packet))})
    else if e.salt.None? && |packet| >= MIN_PACKET then
      e.(psk := false)
    else
      e
  }

  predicate CanSeal(e: Endpoint)
  {
    e.salt.Some? && e.counter < MAX_COUNTER
  }

  /** The uint64 counter advances on every call made with a salt, even a refused one. */
  function AfterEncrypt(e: Endpoint): Endpoint
  {
    if e.salt.None? then e else e.(counter := (e.counter + 1) % U64)
  }

  function Wire(e: Endpoint, body: seq<byte>): (packet: seq<byte>)
    requires e.salt.Some?
  {
    e.salt.value + NonceFor(e.counter, e.local) + body
  }

  lemma WireFields(e: Endpoint, body: seq<byte>)
    requires Valid(e) && CanSeal(e) && |body| >= TAG_SIZE
    ensures var p := Wire(e, body);
            && |p| >= MIN_PACKET
            && SaltOf(p) == e.salt.value
            && NonceOf(p) == NonceFor(e.counter, e.local)
            && BodyOf(p) == body
            && CounterOf(NonceOf(p)) == e.counter
            && DirectionOf(NonceOf(p)) == e.local
  {
    NonceRoundTrip(e.counter, e.local);
    var p := Wire(e, body);
    assert SaltOf(p) == e.salt.value;
    assert NonceOf(p) == NonceFor(e.counter, e.local);
    assert BodyOf(p) == body;
  }

  lemma DecryptKeepsValid(e: Endpoint, packet: seq<byte>, plain: Option<seq<byte>>)
    requires Valid(e)
    ensures Valid(AfterDecrypt(e, packet, plain))
  {
    if Accepts(e, packet, plain) {
      StartCounterBound(SaltOf(packet));
    }
  }

  // ---- whole lifetimes ----

  datatype Op = Encrypt(body: seq<byte>) | Decrypt(packet: seq<byte>, plain: Option<seq<byte>>)

  ghost function Apply(e: Endpoint, op: Op): Endpoint
  {
    match op
    case Encrypt(_) => AfterEncrypt(e)
    case Decrypt(packet, plain) => AfterDecrypt(e, packet, plain)
  }

  ghost predicate Succeeds(e: Endpoint, op: Op)
  {
    match op
    case Encrypt(_) => CanSeal(e)
    case Decrypt(packet, plain) => Accepts(e, packet, plain)
  }

  ghost function Run(e: Endpoint, ops: seq<Op>): Endpoint
  {
    if ops == [] then e else Apply(Run(e, ops[..|ops| - 1]), ops[|ops| - 1])
  }

  function Encrypts(ops: seq<Op>): nat
  {
    if ops == [] then 0
    else Encrypts(ops[..|ops| - 1]) + if ops[|ops| - 1].Encrypt? then 1 else 0
  }

  /** A salt, once set, is never replaced, and nothing accepted is ever forgotten. */
  lemma {:induction false} SaltIsPermanent(e: Endpoint, ops: seq<Op>)
    requires Valid(e) && e.salt.Some?
    ensures Valid(Run(e, ops))
    ensures Run(e, ops).salt == e.salt && Run(e, ops).local == e.local && e.seen <= Run(e, ops).seen
    ensures Run(e, ops).counter == (e.counter + Encrypts(ops)) % U64
  {
    if ops != [] {
      var n := |ops| - 1;
      SaltIsPermanent(e, ops[..n]);
      var m := Run(e, ops[..n]);
      if ops[n].Decrypt? {
        DecryptKeepsValid(m, ops[n].packet, ops[n].plain);
      }
    }
  }

  /** No salt and no pre-shared key: nothing this endpoint is ever asked to do succeeds. */
  lemma {:induction false} SpentEndpointIsDead(e: Endpoint, ops: seq<Op>, op: Op)
    requires Valid(e) && e.salt.None? && !e.psk
    ensures Run(e, ops) == e && !Succeeds(Run(e, ops), op)
  {
    if ops != [] {
      SpentEndpointIsDead(e, ops[..|ops| - 1], ops[|ops| - 1]);
    }
  }

  /** One full-length first datagram that fails authentication spends the endpoint for good. */
  lemma FailedFirstDatagramIsFatal(e: Endpoint, packet: seq<byte>, plain: Option<seq<byte>>, ops: seq<Op>, op: Op)
    requires Valid(e) && e.salt.None? && |packet| >= MIN_PACKET && !Accepts(e, packet, plain)
    ensures !Succeeds(Run(AfterDecrypt(e, packet, plain), ops), op)
  {
    SpentEndpointIsDead(AfterDecrypt(e, packet, plain), ops, op);
  }

  // ---- nonce freshness, exactly ----

  /** The counter of the k-th encrypt call after the salt was set. */
  function CallCounter(start: nat, k: nat): nat
  {
    (start + k) % U64
  }

  lemma NonceReuseDistance(start: nat, direction: byte, i: nat, j: nat)
    requires i <= j
    ensures NonceFor(CallCounter(start, i), direction) == NonceFor(CallCounter(start, j), direction)
            <==> (j - i) % U64 == 0
  {
    NonceInjective(CallCounter(start, i), direction, CallCounter(start, j), direction);
    ModDifference(start + i, start + j);
  }

  lemma ModDifference(a: nat, b: nat)
    requires a <= b
    ensures a % U64 == b % U64 <==> (b - a) % U64 == 0
  {
  }

  /** An endpoint that has just got its salt. */
  ghost predicate JustKeyed(e: Endpoint)
  {
    Valid(e) && e.salt.Some? && e.counter == StartCounter(e.salt.value)
  }

  /** The i-th operation is an encrypt that succeeds. */
  ghost predicate Seals(e: Endpoint, ops: seq<Op>, i: nat)
  {
    i < |ops| && ops[i].Encrypt? && Succeeds(Run(e, ops[..i]), ops[i])
  }

  ghost function CounterAt(e: Endpoint, ops: seq<Op>, i: nat): nat
    requires i < |ops|
  {
    Run(e, ops[..i]).counter
  }

  /** The successful encrypts of the run use strictly increasing counters in [start, 2^48). */
  ghost predicate FreshCounters(e: Endpoint, ops: seq<Op>)
    requires JustKeyed(e)
  {
    && (forall i: nat :: Seals(e, ops, i) ==> StartCounter(e.salt.value) <= CounterAt(e, ops, i) < MAX_COUNTER)
    && (forall i: nat, j: nat :: i < j && Seals(e, ops, i) && Seals(e, ops, j) ==>
          CounterAt(e, ops, i) < CounterAt(e, ops, j))
  }

  lemma {:induction false} EncryptsGrow(ops: seq<Op>, i: nat, j: nat)
    requires i < j <= |ops|
    ensures Encrypts(ops[..i]) + (if ops[i].Encrypt? then 1 else 0) <= Encrypts(ops[..j])
    decreases j
  {
    assert ops[..j][..j - 1] == ops[..j - 1];
    if i < j - 1 {
      EncryptsGrow(ops, i, j - 1);
    }
  }

  /** Every call below the total happened at some position. */
  lemma {:induction false} CallPosition(ops: seq<Op>, k: nat) returns (i: nat)
    requires k < Encrypts(ops)
    ensures i < |ops| && ops[i].Encrypt? && Encrypts(ops[..i]) == k
  {
    var n := |ops| - 1;
    if ops[n].Encrypt? && Encrypts(ops[..n]) == k {
      i := n;
    } else {
      i := CallPosition(ops[..n], k);
      assert ops[..n][..i] == ops[..i];
    }
  }

  lemma CounterOfCall(e: Endpoint, ops: seq<Op>, i: nat)
    requires JustKeyed(e) && i < |ops|
    ensures CounterAt(e, ops, i) == CallCounter(StartCounter(e.salt.value), Encrypts(ops[..i]))
    ensures Seals(e, ops, i) <==> ops[i].Encrypt? && CounterAt(e, ops, i) < MAX_COUNTER
  {
    SaltIsPermanent(e, ops[..i]);
  }

  /**
   * Whatever is encrypted and decrypted in between, the successful encrypts use
   * strictly increasing counters from the salt-derived start up, all below 2^48,
   * if and only if at most 2^64 - start encrypt calls are made.
   */
  lemma CountersFreshExactly(e: Endpoint, ops: seq<Op>)
    requires JustKeyed(e)
    ensures FreshCounters(e, ops) <==> Encrypts(ops) <= U64 - StartCounter(e.salt.value)
  {
    if Encrypts(ops) <= U64 - StartCounter(e.salt.value) {
      forall i: nat | Seals(e, ops, i) ensures StartCounter(e.salt.value) <= CounterAt(e, ops, i) < MAX_COUNTER {
        NoWrap(e, ops, i);
      }
      forall i: nat, j: nat | i < j && Seals(e, ops, i) && Seals(e, ops, j)
        ensures CounterAt(e, ops, i) < CounterAt(e, ops, j)
      {
        NoWrap(e, ops, i);
        NoWrap(e, ops, j);
        EncryptsGrow(ops, i, j);
      }
    } else {
      WrapBreaksOrder(e, ops);
    }
  }

  lemma NoWrap(e: Endpoint, ops: seq<Op>, i: nat)
    requires JustKeyed(e) && i < |ops| && ops[i].Encrypt? && Encrypts(ops) <= U64 - StartCounter(e.salt.value)
    ensures CounterAt(e, ops, i) == StartCounter(e.salt.value) + Encrypts(ops[..i])
  {
    CounterOfCall(e, ops, i);
    EncryptsGrow(ops, i, |ops|);
    assert ops[..|ops|] == ops;
    BelowWrap(StartCounter(e.salt.value), Encrypts(ops[..i]));
  }

  lemma BelowWrap(start: nat, k: nat)
    requires start + k < U64
    ensures CallCounter(start, k) == start + k
  {
  }

  /** The first call after the wrap succeeds with counter 0, below the counter of the very first. */
  lemma WrapBreaksOrder(e: Endpoint, ops: seq<Op>)
    requires JustKeyed(e) && Encrypts(ops) > U64 - StartCounter(e.salt.value)
    ensures !FreshCounters(e, ops)
  {
    var start := StartCounter(e.salt.value);
    StartCounterBound(e.salt.value);
    var i := CallPosition(ops, 0);
    var j := CallPosition(ops, U64 - start);
    CounterOfCall(e, ops, i);
    CounterOfCall(e, ops, j);
    if j < i {
      EncryptsGrow(ops, j, i);
    }
    assert Seals(e, ops, i) && Seals(e, ops, j);
  }

  /** Two successful encrypts of a run carry the same nonce exactly when they are a multiple of 2^64 calls apart. */
  lemma NonceReuseExactly(e: Endpoint, ops: seq<Op>, i: nat, j: nat)
    requires JustKeyed(e) && i <= j && Seals(e, ops, i) && Seals(e, ops, j)
    ensures Encrypts(ops[..i]) <= Encrypts(ops[..j])
    ensures NonceFor(CounterAt(e, ops, i), e.local) == NonceFor(CounterAt(e, ops, j), e.local)
            <==> (Encrypts(ops[..j]) - Encrypts(ops[..i])) % U64 == 0
  {
    CounterOfCall(e, ops, i);
    CounterOfCall(e, ops, j);
    if i < j {
      EncryptsGrow(ops, i, j);
    }
    NonceReuseDistance(StartCounter(e.salt.value), e.local, Encrypts(ops[..i]), Encrypts(ops[..j]));
  }

  function Calls(n: nat): seq<Op>
  {
    if n == 0 then [] else Calls(n - 1) + [Encrypt([])]
  }

  lemma {:induction false} CallsCount(n: nat)
    ensures Encrypts(Calls(n)) == n
  {
    if n > 0 {
      CallsCount(n - 1);
      assert Calls(n)[..|Calls(n)| - 1] == Calls(n - 1);
    }
  }

  /** The run that breaks it: one encrypt call too many, and nothing else. */
  lemma OneCallTooMany(e: Endpoint, n: nat)
    requires JustKeyed(e) && n == U64 - StartCounter(e.salt.value) + 1
    ensures !FreshCounters(e, Calls(n))
  {
    CallsCount(n);
    CountersFreshExactly(e, Calls(n));
  }

  lemma RepeatAfterWrap(e: Endpoint, ops: seq<Op>) returns (i: nat, j: nat)
    requires JustKeyed(e) && Encrypts(ops) > U64
    ensures i < j && Seals(e, ops, i) && Seals(e, ops, j)
    ensures NonceFor(CounterAt(e, ops, i), e.local) == NonceFor(CounterAt(e, ops, j), e.local)
  {
    StartCounterBound(e.salt.value);
    i := CallPosition(ops, 0);
    j := CallPosition(ops, U64);
    CounterOfCall(e, ops, i);
    CounterOfCall(e, ops, j);
    if j < i {
      EncryptsGrow(ops, j, i);
    }
    NonceReuseExactly(e, ops, i, j);
  }

  /** And the run that repeats a nonce: 2^64 calls after the first. */
  lemma NonceCanRepeat(e: Endpoint, n: nat) returns (i: nat, j: nat)
    requires JustKeyed(e) && n == U64 + 1
    ensures i < j && Seals(e, Calls(n), i) && Seals(e, Calls(n), j)
    ensures NonceFor(CounterAt(e, Calls(n), i), e.local) == NonceFor(CounterAt(e, Calls(n), j), e.local)
  {
    CallsCount(n);
    i, j := RepeatAfterWrap(e, Calls(n));
  }
}

module SecureEndpoint {
  import opened Bytes
  import opened Replay
  import opened Endpoints

  method GenerateNonce(counter: nat, direction: byte) returns (nonce: seq<byte>)
    ensures nonce == NonceFor(counter, direction)
  {
    var bytes: seq<byte> := [];
    var rest := counter;
    var i := 7;
    while i >= 0
      invariant -1 <= i <= 7 && |bytes| == 7 - i
      invariant ToBigEndian(counter, 8) == ToBigEndian(rest, i + 1) + bytes
    {
      bytes := [rest % 256] + bytes;
      assert ToBigEndian(rest, i + 1) == ToBigEndian(rest / 256, i) + [rest % 256];
      rest := rest / 256;
      i := i - 1;
    }
    nonce := bytes + [direction, 0, 0, 0];
  }

  method ReadBigEndian(bytes: seq<byte>) returns (n: nat)
    ensures n == FromBigEndian(bytes)
  {
    n := 0;
    for i := 0 to |bytes|
      invariant n == FromBigEndian(bytes[..i])
    {
      assert bytes[..i + 1][..i] == bytes[..i];
      n := 256 * n + bytes[i];
    }
    assert bytes[..|bytes|] == bytes;
  }

  class Crypto {
    const localDirection: byte
    const peerDirection: byte
    const serverMode: bool
    var key: seq<byte>
    var encryptCounter: nat
    var saltSet: bool
    var sessionSalt: seq<byte>
    const window: ReplayWindow

    ghost function View(): Endpoint
      reads this, window
    {
      Endpoint(localDirection, key != [], if saltSet then Some(sessionSalt) else None, window.seen, encryptCounter)
    }

    ghost predicate Inv()
      reads this, window, window.bits
    {
      && window.Valid()
      && Valid(View())
      && peerDirection == Peer(localDirection)
    }

    /** The object before any salt is known; the PSK may be empty. */
    constructor (key: seq<byte>, direction: byte, serverMode: bool)
      ensures Inv() && fresh(window) && fresh(window.bits)
      ensures View() == Endpoint(direction, key != [], None, {}, 0)
    {
      localDirection, peerDirection := direction, Peer(direction);
      this.serverMode, this.key := serverMode, key;
      encryptCounter, saltSet, sessionSalt := 0, false, [];
      window := new ReplayWindow();
    }

    /** Refuses (the source throws) on a wrong-sized salt or a spent pre-shared key. */
    method DeriveSessionKeys(salt: seq<byte>) returns (ok: bool)
      requires Inv() && !saltSet
      modifies this
      ensures Inv()
      ensures ok <==> |salt| == SESSION_SALT_SIZE && old(key) != []
      ensures View() == if ok then WithSalt(old(View()), salt) else old(View())
    {
      if |salt| != SESSION_SALT_SIZE || key == [] {
        return false;
      }
      encryptCounter := ReadBigEndian(salt[..6]);
      StartCounterBound(salt);
      sessionSalt, saltSet, key := salt, true, [];
      return true;
    }

    method ForgetLearnedSalt()
      requires window.Valid() && peerDirection == Peer(localDirection)
      modifies this, window, window.bits
      ensures Inv()
      ensures View() == Endpoint(localDirection, old(key) != [], None, {}, 0)
    {
      saltSet, sessionSalt, encryptCounter := false, [], 0;
      window.Reset();
    }

    method EncryptInto(body: seq<byte>) returns (r: Result<seq<byte>>)
      requires Inv()
      modifies this
      ensures Inv() && View() == AfterEncrypt(old(View()))
      ensures r == if !old(saltSet) then Err(InvalidArgument)
                   else if old(encryptCounter) >= MAX_COUNTER then Err(ValueTooLarge)
                   else Ok(Wire(old(View()), body))
    {
      if !saltSet {
        return Err(InvalidArgument);
      }
      var counter := encryptCounter;
      encryptCounter := (encryptCounter + 1) % U64;
      if counter >= MAX_COUNTER {
        return Err(ValueTooLarge);
      }
      var nonce := GenerateNonce(counter, localDirection);
      r := Ok(sessionSalt + nonce + body);
    }

    /** `plain` is the cipher's verdict on this body under this packet's salt and nonce. */
    method DecryptInto(packet: seq<byte>, plain: Option<seq<byte>>) returns (r: Result<seq<byte>>)
      requires Inv()
      modifies this, window, window.bits
      ensures Inv() && View() == AfterDecrypt(old(View()), packet, plain)
      ensures r == if Accepts(old(View()), packet, plain) then Ok(plain.value)
                   else Err(RejectReason(old(View()), packet))
    {
      if |packet| < MIN_PACKET {
        return Err(InvalidArgument);
      }
      var learning := !saltSet;
      if learning {
        var derived := DeriveSessionKeys(packet[..SESSION_SALT_SIZE]);
        if !derived {
          ForgetLearnedSalt();
          return Err(IoError);
        }
      } else if packet[..SESSION_SALT_SIZE] != sessionSalt {
        return Err(PermissionDenied);
      }
      var nonce := packet[SESSION_SALT_SIZE..HEADER_SIZE];
      if nonce[8] != peerDirection {
        if learning { ForgetLearnedSalt(); }
        return Err(PermissionDenied);
      }
      var counter := ReadBigEndian(nonce[..8]);
      if counter >= MAX_COUNTER {
        if learning { ForgetLearnedSalt(); }
        return Err(PermissionDenied);
      }
      // The first-packet bypass is never the deciding factor: an empty window
      // accepts every counter.
      var firstPacket := serverMode && !window.anyReceived;
      var inWindow := window.Check(counter);
      assert firstPacket ==> inWindow;
      if !firstPacket && !inWindow {
        return Err(ReplayRejected);
      }
      if plain.None? {
        if learning { ForgetLearnedSalt(); }
        return Err(AuthFailed);
      }
      window.Commit(counter);
      r := Ok(plain.value);
    }
  }

  /** The source constructor: with a salt it derives at once and fails (throws) if it cannot. */
  method Create(key: seq<byte>, direction: byte, salt: seq<byte>, serverMode: bool) returns (r: Result<Crypto>)
    ensures r.Ok? <==> salt == [] || (|salt| == SESSION_SALT_SIZE && key != [])
    ensures r.Ok? ==> r.value.Inv() && fresh(r.value)
    ensures r.Ok? ==> r.value.View() == var e := Endpoint(direction, key != [], None, {}, 0);
                                        if salt == [] then e else WithSalt(e, salt)
  {
    var crypto := new Crypto(key, direction, serverMode);
    if salt != [] {
      var ok := crypto.DeriveSessionKeys(salt);
      if !ok {
        return Err(IoError);
      }
    }
    r := Ok(crypto);
  }
}
