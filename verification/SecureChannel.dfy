/**
 * A client and a server endpoint over a network that may reorder, duplicate,
 * drop and forge datagrams: any bytes may be handed to either side at any time.
 * The AEAD is ideal: a body opens exactly when it was sealed under the same
 * direction, salt and nonce. Sessions of other clients sharing the pre-shared
 * key seal under other salts and may be replayed here too.
 */
module SecureChannel {
  import opened Bytes
  import opened Replay
  import opened Endpoints

  datatype Envelope = Envelope(direction: byte, salt: seq<byte>, nonce: seq<byte>, body: seq<byte>)

  type Log = map<Envelope, seq<byte>>

  function Open(log: Log, direction: byte, packet: seq<byte>): Option<seq<byte>>
  {
    if |packet| < MIN_PACKET then None
    else
      var env := EnvelopeOf(direction, packet);
      if env in log then Some(log[env]) else None
  }

  /** The counter a datagram carries. */
  function Counter(packet: seq<byte>): nat
  {
    if |packet| < MIN_PACKET then 0 else CounterOf(NonceOf(packet))
  }

  lemma Reassemble(direction: byte, packet: seq<byte>)
    requires |packet| >= MIN_PACKET
    ensures PacketOf(EnvelopeOf(direction, packet)) == packet
  {
  }

  function PacketOf(env: Envelope): seq<byte>
  {
    env.salt + env.nonce + env.body
  }

  function EnvelopeOf(direction: byte, packet: seq<byte>): Envelope
    requires |packet| >= MIN_PACKET
  {
    Envelope(direction, SaltOf(packet), NonceOf(packet), BodyOf(packet))
  }

  /** A sealed datagram, its plaintext, and how many encrypt calls preceded it. */
  datatype Sent = Sent(packet: seq<byte>, plain: seq<byte>, call: nat)

  /** One direction of traffic. */
  datatype Lane = Lane(sent: seq<Sent>, calls: nat, delivered: seq<seq<byte>>)

  datatype Channel = Channel(client: Endpoint, server: Endpoint, log: Log, up: Lane, down: Lane)

  datatype Event =
    | ClientSeals(plain: seq<byte>, body: seq<byte>)
    | ServerSeals(plain: seq<byte>, body: seq<byte>)
    | ServerReceives(packet: seq<byte>)
    | ClientReceives(packet: seq<byte>)
    | OtherSessionSeals(env: Envelope, plain: seq<byte>)

  /** What the ideal AEAD guarantees of a new sealing: a tag, and one plaintext per envelope. */
  ghost predicate Enabled(ch: Channel, ev: Event)
  {
    match ev
    case ClientSeals(plain, body) => SealAllowed(ch.client, ch.log, plain, body)
    case ServerSeals(plain, body) => SealAllowed(ch.server, ch.log, plain, body)
    case OtherSessionSeals(env, plain) =>
      Some(env.salt) != ch.client.salt && (env in ch.log ==> ch.log[env] == plain)
    case _ => true
  }

  ghost predicate SealAllowed(e: Endpoint, log: Log, plain: seq<byte>, body: seq<byte>)
  {
    && |body| == |plain| + TAG_SIZE
    && (CanSeal(e) ==> var env := SealedEnvelope(e, body); env in log ==> log[env] == plain)
  }

  function SealedEnvelope(e: Endpoint, body: seq<byte>): Envelope
    requires e.salt.Some?
  {
    Envelope(e.local, e.salt.value, NonceFor(e.counter, e.local), body)
  }

  function SealLane(e: Endpoint, lane: Lane, plain: seq<byte>, body: seq<byte>): Lane
  {
    var calls := if e.salt.Some? then lane.calls + 1 else lane.calls;
    if CanSeal(e) then Lane(lane.sent + [Sent(Wire(e, body), plain, lane.calls)], calls, lane.delivered)
    else lane.(calls := calls)
  }

  function SealLog(e: Endpoint, log: Log, plain: seq<byte>, body: seq<byte>): Log
  {
    if CanSeal(e) then log[SealedEnvelope(e, body) := plain] else log
  }

  ghost function ReceiveLane(e: Endpoint, lane: Lane, log: Log, packet: seq<byte>): Lane
  {
    if Accepts(e, packet, Open(log, Peer(e.local), packet)) then lane.(delivered := lane.delivered + [packet]) else lane
  }

  ghost function Step(ch: Channel, ev: Event): Channel
  {
    match ev
    case ClientSeals(plain, body) =>
      ch.(client := AfterEncrypt(ch.client), log := SealLog(ch.client, ch.log, plain, body),
          up := SealLane(ch.client, ch.up, plain, body))
    case ServerSeals(plain, body) =>
      ch.(server := AfterEncrypt(ch.server), log := SealLog(ch.server, ch.log, plain, body),
          down := SealLane(ch.server, ch.down, plain, body))
    case ServerReceives(packet) =>
      ch.(server := AfterDecrypt(ch.server, packet, Open(ch.log, NONCE_DIR_CLIENT, packet)),
          up := ReceiveLane(ch.server, ch.up, ch.log, packet))
    case ClientReceives(packet) =>
      ch.(client := AfterDecrypt(ch.client, packet, Open(ch.log, NONCE_DIR_SERVER, packet)),
          down := ReceiveLane(ch.client, ch.down, ch.log, packet))
    case OtherSessionSeals(env, plain) =>
      ch.(log := ch.log[env := plain])
  }

  /** A client holding a fresh salt, a server that has learned none, other sessions already running. */
  ghost predicate Start(ch: Channel)
  {
    && Valid(ch.client) && Valid(ch.server)
    && ch.client.local == NONCE_DIR_CLIENT && ch.server.local == NONCE_DIR_SERVER
    && ch.client.salt.Some? && ch.client.seen == {}
    && ch.client.counter == StartCounter(ch.client.salt.value)
    && ch.server.salt.None?
    && (forall env | env in ch.log :: env.salt != ch.client.salt.value)
    && ch.up == Lane([], 0, []) && ch.down == Lane([], 0, [])
  }

  ghost predicate Reaches(from: Channel, events: seq<Event>, to: Channel)
  {
    if events == [] then from == to
    else
      var n := |events| - 1;
      exists mid :: Reaches(from, events[..n], mid) && Enabled(mid, events[n]) && to == Step(mid, events[n])
  }

  // ---- the invariant of one lane ----

  ghost predicate SentOk(s: Endpoint, log: Log, m: Sent, calls: nat)
  {
    && s.salt.Some? && |s.salt.value| == SESSION_SALT_SIZE
    && |m.packet| >= MIN_PACKET
    && m.call < calls
    && SaltOf(m.packet) == s.salt.value
    && DirectionOf(NonceOf(m.packet)) == s.local
    && CounterOf(NonceOf(m.packet)) == CallCounter(StartCounter(s.salt.value), m.call) < MAX_COUNTER
    && EnvelopeOf(s.local, m.packet) in log && log[EnvelopeOf(s.local, m.packet)] == m.plain
  }

  ghost predicate SenderInv(own: seq<byte>, s: Endpoint, lane: Lane, log: Log)
  {
    && (s.salt.None? ==> lane.calls == 0 && lane.sent == [])
    && (s.salt.Some? ==> |s.salt.value| == SESSION_SALT_SIZE
                         && s.counter == CallCounter(StartCounter(s.salt.value), lane.calls))
    && (forall i :: 0 <= i < |lane.sent| ==> SentOk(s, log, lane.sent[i], lane.calls))
    && (forall i, j :: 0 <= i < j < |lane.sent| ==> lane.sent[i].call < lane.sent[j].call)
    && (forall env | env in log && env.salt == own && env.direction == s.local :: SentEnvelope(s, lane, env))
  }

  ghost predicate WasSent(lane: Lane, packet: seq<byte>)
  {
    exists i :: 0 <= i < |lane.sent| && lane.sent[i].packet == packet
  }

  ghost predicate SentEnvelope(s: Endpoint, lane: Lane, env: Envelope)
  {
    s.salt == Some(env.salt) &&
    WasSent(lane, PacketOf(env))
  }

  ghost predicate DeliveredOk(direction: byte, r: Endpoint, log: Log, packet: seq<byte>)
  {
    && |packet| >= MIN_PACKET
    && r.salt == Some(SaltOf(packet))
    && EnvelopeOf(direction, packet) in log
    && CounterOf(NonceOf(packet)) in r.seen
  }

  ghost predicate ReceiverInv(direction: byte, r: Endpoint, delivered: seq<seq<byte>>, log: Log)
  {
    && (forall i :: 0 <= i < |delivered| ==> DeliveredOk(direction, r, log, delivered[i]))
    && (forall i, j :: 0 <= i < j < |delivered| ==>
          CounterOf(NonceOf(delivered[i])) != CounterOf(NonceOf(delivered[j])))
    && (forall c | c in r.seen :: HasCounter(delivered, c))
  }

  ghost predicate HasCounter(delivered: seq<seq<byte>>, c: nat)
  {
    exists i :: 0 <= i < |delivered| && |delivered[i]| >= MIN_PACKET && CounterOf(NonceOf(delivered[i])) == c
  }

  ghost predicate Inv(ch: Channel)
  {
    && Valid(ch.client) && Valid(ch.server)
    && ch.client.local == NONCE_DIR_CLIENT && ch.server.local == NONCE_DIR_SERVER
    && ch.client.salt.Some?
    && SenderInv(ch.client.salt.value, ch.client, ch.up, ch.log)
    && SenderInv(ch.client.salt.value, ch.server, ch.down, ch.log)
    && ReceiverInv(NONCE_DIR_CLIENT, ch.server, ch.up.delivered, ch.log)
    && ReceiverInv(NONCE_DIR_SERVER, ch.client, ch.down.delivered, ch.log)
  }

  lemma SenderSeals(own: seq<byte>, s: Endpoint, lane: Lane, log: Log, plain: seq<byte>, body: seq<byte>)
    requires Valid(s) && SenderInv(own, s, lane, log) && SealAllowed(s, log, plain, body)
    ensures SenderInv(own, AfterEncrypt(s), SealLane(s, lane, plain, body), SealLog(s, log, plain, body))
  {
    var s', lane' := AfterEncrypt(s), SealLane(s, lane, plain, body);
    SenderAdvances(own, s, lane, log);
    if CanSeal(s) {
      var env := SealedEnvelope(s, body);
      var m := Sent(Wire(s, body), plain, lane.calls);
      WireFields(s, body);
      assert EnvelopeOf(s.local, m.packet) == env;
      SenderAppends(own, s', lane.(calls := lane.calls + 1), log, m);
    }
  }

  lemma SenderAdvances(own: seq<byte>, s: Endpoint, lane: Lane, log: Log)
    requires Valid(s) && SenderInv(own, s, lane, log)
    ensures SenderInv(own, AfterEncrypt(s), lane.(calls := if s.salt.Some? then lane.calls + 1 else lane.calls), log)
  {
    var s', lane' := AfterEncrypt(s), lane.(calls := if s.salt.Some? then lane.calls + 1 else lane.calls);
    forall i | 0 <= i < |lane.sent| ensures SentOk(s', log, lane.sent[i], lane'.calls) {
      assert SentOk(s, log, lane.sent[i], lane.calls);
    }
    forall e | e in log && e.salt == own && e.direction == s.local ensures SentEnvelope(s', lane', e) {
      assert SentEnvelope(s, lane, e);
    }
  }

  lemma AppendedOk(s: Endpoint, lane: Lane, log: Log, m: Sent)
    requires |m.packet| >= MIN_PACKET && forall i :: 0 <= i < |lane.sent| ==> SentOk(s, log, lane.sent[i], lane.calls)
    requires var env := EnvelopeOf(s.local, m.packet);
             SentOk(s, log[env := m.plain], m, lane.calls) && (env in log ==> log[env] == m.plain)
    ensures var log' := log[EnvelopeOf(s.local, m.packet) := m.plain];
            forall i :: 0 <= i < |lane.sent + [m]| ==> SentOk(s, log', (lane.sent + [m])[i], lane.calls)
  {
    var log' := log[EnvelopeOf(s.local, m.packet) := m.plain];
    forall i | 0 <= i < |lane.sent + [m]| ensures SentOk(s, log', (lane.sent + [m])[i], lane.calls) {
      if i < |lane.sent| {
        assert SentOk(s, log, lane.sent[i], lane.calls);
      }
    }
  }

  lemma StillSent(s: Endpoint, lane: Lane, m: Sent, env: Envelope)
    requires SentEnvelope(s, lane, env)
    ensures SentEnvelope(s, lane.(sent := lane.sent + [m]), env)
  {
    var i :| 0 <= i < |lane.sent| && lane.sent[i].packet == PacketOf(env);
    assert (lane.sent + [m])[i].packet == PacketOf(env);
  }

  lemma NowSent(s: Endpoint, lane: Lane, m: Sent)
    requires |m.packet| >= MIN_PACKET && s.salt == Some(SaltOf(m.packet))
    ensures SentEnvelope(s, lane.(sent := lane.sent + [m]), EnvelopeOf(s.local, m.packet))
  {
    Reassemble(s.local, m.packet);
    assert (lane.sent + [m])[|lane.sent|].packet == m.packet;
  }

  lemma SenderAppends(own: seq<byte>, s: Endpoint, lane: Lane, log: Log, m: Sent)
    requires SenderInv(own, s, lane, log) && |m.packet| >= MIN_PACKET
    requires var env := EnvelopeOf(s.local, m.packet);
             SentOk(s, log[env := m.plain], m, lane.calls) && (env in log ==> log[env] == m.plain)
    requires forall i :: 0 <= i < |lane.sent| ==> lane.sent[i].call < m.call
    ensures SenderInv(own, s, lane.(sent := lane.sent + [m]), log[EnvelopeOf(s.local, m.packet) := m.plain])
  {
    var env := EnvelopeOf(s.local, m.packet);
    AppendedOk(s, lane, log, m);
    NowSent(s, lane, m);
    forall e | e in log[env := m.plain] && e.salt == own && e.direction == s.local
      ensures SentEnvelope(s, lane.(sent := lane.sent + [m]), e)
    {
      if e != env {
        StillSent(s, lane, m, e);
      }
    }
  }

  lemma SenderUnaffectedBySeal(own: seq<byte>, s: Endpoint, lane: Lane, log: Log, env: Envelope, plain: seq<byte>)
    requires SenderInv(own, s, lane, log)
    requires env.salt != own || env.direction != s.local
    requires env in log ==> log[env] == plain
    ensures SenderInv(own, s, lane, log[env := plain])
  {
  }

  lemma ReceiverUnaffectedBySeal(direction: byte, r: Endpoint, delivered: seq<seq<byte>>, log: Log,
                                 env: Envelope, plain: seq<byte>)
    requires ReceiverInv(direction, r, delivered, log)
    ensures ReceiverInv(direction, r, delivered, log[env := plain])
  {
  }

  lemma StillDelivered(d: seq<seq<byte>>, packet: seq<byte>, c: nat)
    requires HasCounter(d, c) || (|packet| >= MIN_PACKET && CounterOf(NonceOf(packet)) == c)
    ensures HasCounter(d + [packet], c)
  {
    if HasCounter(d, c) {
      var i :| 0 <= i < |d| && |d[i]| >= MIN_PACKET && CounterOf(NonceOf(d[i])) == c;
      assert (d + [packet])[i] == d[i];
    } else {
      assert (d + [packet])[|d|] == packet;
    }
  }

  lemma ReceiverReceives(direction: byte, r: Endpoint, lane: Lane, log: Log, packet: seq<byte>)
    requires Valid(r) && direction == Peer(r.local) && ReceiverInv(direction, r, lane.delivered, log)
    ensures var r' := AfterDecrypt(r, packet, Open(log, direction, packet));
            ReceiverInv(direction, r', ReceiveLane(r, lane, log, packet).delivered, log)
  {
    if Accepts(r, packet, Open(log, direction, packet)) {
      var r' := AfterDecrypt(r, packet, Open(log, direction, packet));
      var d := lane.delivered;
      forall i | 0 <= i < |d| ensures DeliveredOk(direction, r', log, d[i]) {
        assert DeliveredOk(direction, r, log, d[i]);
      }
      forall c | c in r'.seen ensures HasCounter(d + [packet], c) {
        StillDelivered(d, packet, c);
      }
    } else {
      RefusedKeeps(direction, r, lane, log, packet);
    }
  }

  lemma RefusedKeeps(direction: byte, r: Endpoint, lane: Lane, log: Log, packet: seq<byte>)
    requires direction == Peer(r.local) && ReceiverInv(direction, r, lane.delivered, log)
    requires !Accepts(r, packet, Open(log, direction, packet))
    ensures ReceiverInv(direction, AfterDecrypt(r, packet, Open(log, direction, packet)), lane.delivered, log)
  {
    var r' := AfterDecrypt(r, packet, Open(log, direction, packet));
    assert r'.salt == r.salt && r'.seen == r.seen;
    forall i | 0 <= i < |lane.delivered| ensures DeliveredOk(direction, r', log, lane.delivered[i]) {
      assert DeliveredOk(direction, r, log, lane.delivered[i]);
    }
  }

  /** A sender that receives may learn its salt, but only while it has sent nothing. */
  lemma SenderReceives(own: seq<byte>, s: Endpoint, lane: Lane, log: Log, packet: seq<byte>, plain: Option<seq<byte>>)
    requires Valid(s) && SenderInv(own, s, lane, log)
    ensures SenderInv(own, AfterDecrypt(s, packet, plain), lane, log)
  {
    var s' := AfterDecrypt(s, packet, plain);
    if s.salt.Some? {
      assert s'.salt == s.salt && s'.counter == s.counter;
      forall i | 0 <= i < |lane.sent| ensures SentOk(s', log, lane.sent[i], lane.calls) {
        assert SentOk(s, log, lane.sent[i], lane.calls);
      }
      forall e | e in log && e.salt == own && e.direction == s.local ensures SentEnvelope(s', lane, e) {
        assert SentEnvelope(s, lane, e);
      }
    } else if s'.salt.Some? {
      StartCounterBound(s'.salt.value);
    }
  }

  lemma ReceiverSeals(direction: byte, r: Endpoint, delivered: seq<seq<byte>>, log: Log)
    requires ReceiverInv(direction, r, delivered, log)
    ensures ReceiverInv(direction, AfterEncrypt(r), delivered, log)
  {
  }

  lemma ClientSealKeeps(ch: Channel, plain: seq<byte>, body: seq<byte>)
    requires Inv(ch) && Enabled(ch, ClientSeals(plain, body))
    ensures Inv(Step(ch, ClientSeals(plain, body)))
  {
    var own := ch.client.salt.value;
    SenderSeals(own, ch.client, ch.up, ch.log, plain, body);
    ReceiverSeals(NONCE_DIR_SERVER, ch.client, ch.down.delivered, ch.log);
    if CanSeal(ch.client) {
      var env := SealedEnvelope(ch.client, body);
      SenderUnaffectedBySeal(own, ch.server, ch.down, ch.log, env, plain);
      ReceiverUnaffectedBySeal(NONCE_DIR_CLIENT, ch.server, ch.up.delivered, ch.log, env, plain);
      ReceiverUnaffectedBySeal(NONCE_DIR_SERVER, AfterEncrypt(ch.client), ch.down.delivered, ch.log, env, plain);
    }
  }

  lemma ServerSealKeeps(ch: Channel, plain: seq<byte>, body: seq<byte>)
    requires Inv(ch) && Enabled(ch, ServerSeals(plain, body))
    ensures Inv(Step(ch, ServerSeals(plain, body)))
  {
    var own := ch.client.salt.value;
    SenderSeals(own, ch.server, ch.down, ch.log, plain, body);
    ReceiverSeals(NONCE_DIR_CLIENT, ch.server, ch.up.delivered, ch.log);
    if CanSeal(ch.server) {
      var env := SealedEnvelope(ch.server, body);
      SenderUnaffectedBySeal(own, ch.client, ch.up, ch.log, env, plain);
      ReceiverUnaffectedBySeal(NONCE_DIR_SERVER, ch.client, ch.down.delivered, ch.log, env, plain);
      ReceiverUnaffectedBySeal(NONCE_DIR_CLIENT, AfterEncrypt(ch.server), ch.up.delivered, ch.log, env, plain);
    }
  }

  lemma ServerReceiveKeeps(ch: Channel, packet: seq<byte>)
    requires Inv(ch)
    ensures Inv(Step(ch, ServerReceives(packet)))
  {
    var plain := Open(ch.log, NONCE_DIR_CLIENT, packet);
    DecryptKeepsValid(ch.server, packet, plain);
    ReceiverReceives(NONCE_DIR_CLIENT, ch.server, ch.up, ch.log, packet);
    SenderReceives(ch.client.salt.value, ch.server, ch.down, ch.log, packet, plain);
    var up := ReceiveLane(ch.server, ch.up, ch.log, packet);
    SenderIgnoresDeliveries(ch.client.salt.value, ch.client, ch.up, up, ch.log);
  }

  lemma ClientReceiveKeeps(ch: Channel, packet: seq<byte>)
    requires Inv(ch)
    ensures Inv(Step(ch, ClientReceives(packet)))
  {
    var plain := Open(ch.log, NONCE_DIR_SERVER, packet);
    DecryptKeepsValid(ch.client, packet, plain);
    ReceiverReceives(NONCE_DIR_SERVER, ch.client, ch.down, ch.log, packet);
    SenderReceives(ch.client.salt.value, ch.client, ch.up, ch.log, packet, plain);
    var down := ReceiveLane(ch.client, ch.down, ch.log, packet);
    SenderIgnoresDeliveries(ch.client.salt.value, ch.server, ch.down, down, ch.log);
  }

  lemma SenderIgnoresDeliveries(own: seq<byte>, s: Endpoint, lane: Lane, lane': Lane, log: Log)
    requires SenderInv(own, s, lane, log) && lane'.sent == lane.sent && lane'.calls == lane.calls
    ensures SenderInv(own, s, lane', log)
  {
    forall e | e in log && e.salt == own && e.direction == s.local ensures SentEnvelope(s, lane', e) {
      assert SentEnvelope(s, lane, e);
    }
  }

  lemma StepKeeps(ch: Channel, ev: Event)
    requires Inv(ch) && Enabled(ch, ev)
    ensures Inv(Step(ch, ev))
  {
    var own := ch.client.salt.value;
    match ev
    case ClientSeals(plain, body) => ClientSealKeeps(ch, plain, body);
    case ServerSeals(plain, body) => ServerSealKeeps(ch, plain, body);
    case ServerReceives(packet) => ServerReceiveKeeps(ch, packet);
    case ClientReceives(packet) => ClientReceiveKeeps(ch, packet);
    case OtherSessionSeals(env, plain) =>
      SenderUnaffectedBySeal(own, ch.client, ch.up, ch.log, env, plain);
      SenderUnaffectedBySeal(own, ch.server, ch.down, ch.log, env, plain);
      ReceiverUnaffectedBySeal(NONCE_DIR_CLIENT, ch.server, ch.up.delivered, ch.log, env, plain);
      ReceiverUnaffectedBySeal(NONCE_DIR_SERVER, ch.client, ch.down.delivered, ch.log, env, plain);
  }

  lemma {:induction false} RunKeeps(from: Channel, events: seq<Event>, to: Channel)
    requires Start(from) && Reaches(from, events, to)
    ensures Inv(to) && to.client.salt == from.client.salt
  {
    if events == [] {
      StartCounterBound(from.client.salt.value);
    } else {
      var n := |events| - 1;
      var mid :| Reaches(from, events[..n], mid) && Enabled(mid, events[n]) && to == Step(mid, events[n]);
      RunKeeps(from, events[..n], mid);
      StepKeeps(mid, events[n]);
    }
  }

  // ---- what every run guarantees ----

  ghost predicate NoDuplicates<T>(s: seq<T>)
  {
    forall i, j :: 0 <= i < j < |s| ==> s[i] != s[j]
  }

  /**
   * However datagrams are reordered, duplicated, dropped or forged, each side
   * delivers a datagram at most once, the client delivers only what this server
   * sealed, and a server on this client's salt only what this client sealed.
   */
  lemma DeliveredOnceAndAuthentic(from: Channel, events: seq<Event>, to: Channel)
    requires Start(from) && Reaches(from, events, to)
    ensures NoDuplicates(to.up.delivered) && NoDuplicates(to.down.delivered)
    ensures forall p | p in to.down.delivered :: WasSent(to.down, p) && to.server.salt == to.client.salt
    ensures to.server.salt == to.client.salt ==> forall p | p in to.up.delivered :: WasSent(to.up, p)
  {
    RunKeeps(from, events, to);
    var own := to.client.salt.value;
    forall p | p in to.down.delivered ensures WasSent(to.down, p) && to.server.salt == to.client.salt {
      DeliveredWasSent(own, to.server, to.client, to.down, to.log, p);
    }
    if to.server.salt == to.client.salt {
      forall p | p in to.up.delivered ensures WasSent(to.up, p) {
        DeliveredWasSent(own, to.client, to.server, to.up, to.log, p);
      }
    }
  }

  lemma DeliveredWasSent(own: seq<byte>, s: Endpoint, r: Endpoint, lane: Lane, log: Log, packet: seq<byte>)
    requires SenderInv(own, s, lane, log) && ReceiverInv(s.local, r, lane.delivered, log)
    requires r.salt == Some(own) && packet in lane.delivered
    ensures WasSent(lane, packet) && s.salt == Some(own)
  {
    var k :| 0 <= k < |lane.delivered| && lane.delivered[k] == packet;
    assert DeliveredOk(s.local, r, log, lane.delivered[k]);
    var env := EnvelopeOf(s.local, packet);
    assert SentEnvelope(s, lane, env);
    Reassemble(s.local, packet);
  }

  /** A datagram handed to an endpoint that holds a salt and refuses it. */
  ghost predicate Refused(ch: Channel, ev: Event)
  {
    match ev
    case ServerReceives(p) => ch.server.salt.Some? && !Accepts(ch.server, p, Open(ch.log, NONCE_DIR_CLIENT, p))
    case ClientReceives(p) => ch.client.salt.Some? && !Accepts(ch.client, p, Open(ch.log, NONCE_DIR_SERVER, p))
    case _ => false
  }

  ghost function After(ch: Channel, events: seq<Event>): Channel
  {
    if events == [] then ch else Step(After(ch, events[..|events| - 1]), events[|events| - 1])
  }

  /** The run without the refused datagrams. */
  ghost function Accepted(ch: Channel, events: seq<Event>): seq<Event>
  {
    if events == [] then []
    else
      var n := |events| - 1;
      Accepted(ch, events[..n]) + if Refused(After(ch, events[..n]), events[n]) then [] else [events[n]]
  }

  lemma {:induction false} RunIsAfter(from: Channel, events: seq<Event>, to: Channel)
    requires Reaches(from, events, to)
    ensures to == After(from, events)
  {
    if events != [] {
      var n := |events| - 1;
      var mid :| Reaches(from, events[..n], mid) && Enabled(mid, events[n]) && to == Step(mid, events[n]);
      RunIsAfter(from, events[..n], mid);
    }
  }

  lemma RefusedStepIsNone(ch: Channel, ev: Event)
    requires ch.client.local == NONCE_DIR_CLIENT && ch.server.local == NONCE_DIR_SERVER && Refused(ch, ev)
    ensures Step(ch, ev) == ch
  {
  }

  /**
   * Two runs: a network that also injects any number of datagrams which
   * salt-holding endpoints refuse, anywhere between the other events, leads to
   * the same channel as the run without them, down to every later verdict.
   */
  lemma {:induction false} RefusalsAreInert(from: Channel, events: seq<Event>, to: Channel)
    requires Start(from) && Reaches(from, events, to)
    ensures Reaches(from, Accepted(from, events), to)
  {
    if events != [] {
      var n := |events| - 1;
      var mid :| Reaches(from, events[..n], mid) && Enabled(mid, events[n]) && to == Step(mid, events[n]);
      RefusalsAreInert(from, events[..n], mid);
      RunIsAfter(from, events[..n], mid);
      RunKeeps(from, events[..n], mid);
      var kept := Accepted(from, events[..n]);
      if Refused(mid, events[n]) {
        RefusedStepIsNone(mid, events[n]);
        assert kept + [] == kept;
      } else {
        assert (kept + [events[n]])[..|kept|] == kept;
      }
    }
  }

  /**
   * No genuine datagram is lost to the replay window while it is at most 2048
   * behind the greatest counter delivered: it is accepted, with its plaintext.
   */
  lemma GenuineIsAccepted(from: Channel, events: seq<Event>, to: Channel, k: nat)
    requires Start(from) && Reaches(from, events, to)
    requires to.server.salt == to.client.salt
    ensures Undelivered(to.up, k, to.server) ==>
              Accepts(to.server, to.up.sent[k].packet, Open(to.log, NONCE_DIR_CLIENT, to.up.sent[k].packet))
              && Open(to.log, NONCE_DIR_CLIENT, to.up.sent[k].packet) == Some(to.up.sent[k].plain)
    ensures Undelivered(to.down, k, to.client) ==>
              Accepts(to.client, to.down.sent[k].packet, Open(to.log, NONCE_DIR_SERVER, to.down.sent[k].packet))
              && Open(to.log, NONCE_DIR_SERVER, to.down.sent[k].packet) == Some(to.down.sent[k].plain)
  {
    RunKeeps(from, events, to);
    var own := to.client.salt.value;
    if Undelivered(to.up, k, to.server) {
      GenuineLane(own, to.client, to.server, to.up, to.log, k);
    }
    if Undelivered(to.down, k, to.client) {
      GenuineLane(own, to.server, to.client, to.down, to.log, k);
    }
  }

  /**
   * The first datagram: a server that still has its pre-shared key and no salt
   * accepts any datagram this client sealed, with its plaintext, and is on the
   * client's salt from then on.
   */
  lemma FirstGenuineIsAccepted(from: Channel, events: seq<Event>, to: Channel, k: nat)
    requires Start(from) && Reaches(from, events, to)
    requires to.server.salt.None? && to.server.psk && k < |to.up.sent|
    ensures var m := to.up.sent[k];
            var plain := Open(to.log, NONCE_DIR_CLIENT, m.packet);
            && plain == Some(m.plain) && Accepts(to.server, m.packet, plain)
            && AfterDecrypt(to.server, m.packet, plain).salt == to.client.salt
  {
    RunKeeps(from, events, to);
    assert SentOk(to.client, to.log, to.up.sent[k], to.up.calls);
  }

  /** The k-th datagram sent is still undelivered, within the window, and no nonce has been reused. */
  ghost predicate Undelivered(lane: Lane, k: nat, r: Endpoint)
  {
    && k < |lane.sent| && lane.calls <= U64
    && lane.sent[k].packet !in lane.delivered
    && forall d | d in r.seen :: d <= Counter(lane.sent[k].packet) + REPLAY_WINDOW_BITS
  }

  lemma GenuineLane(own: seq<byte>, s: Endpoint, r: Endpoint, lane: Lane, log: Log, k: nat)
    requires SenderInv(own, s, lane, log) && ReceiverInv(s.local, r, lane.delivered, log)
    requires s.local == Peer(r.local) && s.salt == r.salt == Some(own) && Undelivered(lane, k, r)
    ensures Open(log, s.local, lane.sent[k].packet) == Some(lane.sent[k].plain)
    ensures Accepts(r, lane.sent[k].packet, Some(lane.sent[k].plain))
  {
    assert SentOk(s, log, lane.sent[k], lane.calls);
    UndeliveredIsUnseen(own, s, r, lane, log, k);
  }

  lemma SeenWasDelivered(direction: byte, r: Endpoint, delivered: seq<seq<byte>>, log: Log, c: nat)
    returns (p: seq<byte>)
    requires ReceiverInv(direction, r, delivered, log) && c in r.seen
    ensures p in delivered && |p| >= MIN_PACKET && CounterOf(NonceOf(p)) == c
  {
    assert HasCounter(delivered, c);
    var i :| 0 <= i < |delivered| && |delivered[i]| >= MIN_PACKET && CounterOf(NonceOf(delivered[i])) == c;
    p := delivered[i];
  }

  lemma UndeliveredIsUnseen(own: seq<byte>, s: Endpoint, r: Endpoint, lane: Lane, log: Log, k: nat)
    requires SenderInv(own, s, lane, log) && ReceiverInv(s.local, r, lane.delivered, log)
    requires r.salt == Some(own) && lane.calls <= U64
    requires k < |lane.sent| && lane.sent[k].packet !in lane.delivered
    ensures Counter(lane.sent[k].packet) !in r.seen
  {
    if Counter(lane.sent[k].packet) in r.seen {
      var p := SeenWasDelivered(s.local, r, lane.delivered, log, Counter(lane.sent[k].packet));
      DeliveredWasSent(own, s, r, lane, log, p);
      var j :| 0 <= j < |lane.sent| && lane.sent[j].packet == p;
      SameCounterSameDatagram(s, lane, log, j, k);
      assert false;
    }
  }

  lemma SameCounterSameDatagram(s: Endpoint, lane: Lane, log: Log, j: nat, k: nat)
    requires j < |lane.sent| && k < |lane.sent| && lane.calls <= U64
    requires forall i :: 0 <= i < |lane.sent| ==> SentOk(s, log, lane.sent[i], lane.calls)
    requires forall i, i' :: 0 <= i < i' < |lane.sent| ==> lane.sent[i].call < lane.sent[i'].call
    requires Counter(lane.sent[j].packet) == Counter(lane.sent[k].packet)
    ensures j == k
  {
  }

  /** Every datagram sent carries the salt's own direction and a counter of its own, in sending order. */
  ghost predicate CountersInOrder(salt: seq<byte>, lane: Lane)
    requires |salt| == SESSION_SALT_SIZE
  {
    forall i, j :: 0 <= i < j < |lane.sent| ==>
      StartCounter(salt) <= Counter(lane.sent[i].packet) < Counter(lane.sent[j].packet) < MAX_COUNTER
  }

  ghost predicate DistinctCounters(lane: Lane)
  {
    forall j, k :: 0 <= j < k < |lane.sent| ==> Counter(lane.sent[j].packet) != Counter(lane.sent[k].packet)
  }

  /**
   * In every run the datagrams of a direction carry strictly increasing counters
   * from the salt-derived start up while at most 2^64 - start calls were made,
   * and pairwise different ones while at most 2^64 were.
   */
  lemma SentCountersInOrder(from: Channel, events: seq<Event>, to: Channel)
    requires Start(from) && Reaches(from, events, to)
    ensures KeyedLane(to.client, to.up) && KeyedLane(to.server, to.down)
  {
    RunKeeps(from, events, to);
    var own := to.client.salt.value;
    LaneInOrder(own, to.client, to.up, to.log);
    LaneDistinct(own, to.client, to.up, to.log);
    LaneInOrder(own, to.server, to.down, to.log);
    LaneDistinct(own, to.server, to.down, to.log);
  }

  ghost predicate KeyedLane(s: Endpoint, lane: Lane)
  {
    && (s.salt.Some? ==> |s.salt.value| == SESSION_SALT_SIZE)
    && (s.salt.Some? && lane.calls <= U64 - StartCounter(s.salt.value) ==> CountersInOrder(s.salt.value, lane))
    && (lane.calls <= U64 ==> DistinctCounters(lane))
  }

  lemma PlainCounter(s: Endpoint, log: Log, m: Sent, calls: nat)
    requires SentOk(s, log, m, calls) && calls <= U64 - StartCounter(s.salt.value)
    ensures Counter(m.packet) == StartCounter(s.salt.value) + m.call < MAX_COUNTER
  {
  }

  lemma LaneInOrder(own: seq<byte>, s: Endpoint, lane: Lane, log: Log)
    requires SenderInv(own, s, lane, log)
    ensures s.salt.Some? && lane.calls <= U64 - StartCounter(s.salt.value) ==> CountersInOrder(s.salt.value, lane)
  {
    if s.salt.Some? && lane.calls <= U64 - StartCounter(s.salt.value) {
      forall i, j | 0 <= i < j < |lane.sent|
        ensures StartCounter(s.salt.value) <= Counter(lane.sent[i].packet) < Counter(lane.sent[j].packet) < MAX_COUNTER
      {
        PlainCounter(s, log, lane.sent[i], lane.calls);
        PlainCounter(s, log, lane.sent[j], lane.calls);
      }
    }
  }

  lemma LaneDistinct(own: seq<byte>, s: Endpoint, lane: Lane, log: Log)
    requires SenderInv(own, s, lane, log)
    ensures lane.calls <= U64 ==> DistinctCounters(lane)
  {
    if lane.calls <= U64 {
      forall j, k | 0 <= j < k < |lane.sent| ensures Counter(lane.sent[j].packet) != Counter(lane.sent[k].packet) {
        if Counter(lane.sent[j].packet) == Counter(lane.sent[k].packet) {
          SameCounterSameDatagram(s, lane, log, j, k);
        }
      }
    }
  }
}
