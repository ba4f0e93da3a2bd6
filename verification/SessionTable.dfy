/**
 * Admission and the session table of the server (server.cpp): the pre-auth
 * check, the authenticated commit, teardown, sweep, connect completion and
 * stop. A datagram's pre-auth check and its commit are separate atomic steps,
 * so anything may happen between them. Routing a datagram to a live session and
 * the refresh of its activity clock are one step. A session object is a number;
 * `stopping` are the objects whose stop() has been dispatched.
 */
module SessionTable {
  import opened Bytes
  import opened SaltTombstones

  const MAX_CONCURRENT_SESSIONS: nat := 4096
  const KCP_TIMEOUT: nat := 60 * 1000000
  const HANDSHAKE_TIMEOUT: nat := 30 * 1000000

  type Sid = string

  datatype Session = Session(sid: Sid, salt: Salt, created: nat, lastActivity: nat, running: bool, handshakeDone: bool)

  datatype Table = Table(
    now: nat, stopped: bool,
    sessions: map<Sid, nat>, connections: map<Sid, nat>,
    objects: seq<Session>, stopping: set<nat>, log: seq<Acceptance>)

  predicate IsAlive(s: Session, now: nat)
  {
    s.running && now < s.lastActivity + KCP_TIMEOUT
  }

  predicate IsStalled(s: Session, now: nat)
  {
    !s.handshakeDone && now >= s.created + HANDSHAKE_TIMEOUT
  }

  predicate Live(t: Table, id: nat)
  {
    id < |t.objects| && IsAlive(t.objects[id], t.now)
  }

  predicate Registered(t: Table, id: nat)
  {
    id < |t.objects| && t.objects[id].sid in t.sessions && t.sessions[t.objects[id].sid] == id
  }

  predicate LiveAt(t: Table, sid: Sid)
  {
    sid in t.sessions && Live(t, t.sessions[sid])
  }

  predicate Speaks(t: Table, sid: Sid, salt: Salt)
  {
    sid in t.sessions && t.sessions[sid] < |t.objects| && t.objects[t.sessions[sid]].salt == salt
  }

  // ---- steps ----

  /** Stop the session registered under `sid` and forget it and its target socket. */
  function Drop(t: Table, sid: Sid): Table
    requires sid in t.sessions
  {
    t.(sessions := t.sessions - {sid}, connections := t.connections - {sid}, stopping := t.stopping + {t.sessions[sid]})
  }

  datatype PreVerdict = Existing(id: nat) | CapReached | NeedsAuth

  /** Before authentication only a dead session is ever reclaimed. */
  function PreAuth(t: Table, sid: Sid): Table
  {
    if sid in t.sessions && !LiveAt(t, sid) then Drop(t, sid) else t
  }

  function PreAuthVerdict(t: Table, sid: Sid, salt: Option<Salt>): PreVerdict
  {
    if LiveAt(t, sid) && salt.Some? && Speaks(t, sid, salt.value) then Existing(t.sessions[sid])
    else if |PreAuth(t, sid).sessions - if LiveAt(t, sid) then {sid} else {}| >= MAX_CONCURRENT_SESSIONS then CapReached
    else NeedsAuth
  }

  /** The cap counts the table without the live session this datagram would replace. */
  lemma EffectiveCount(t: Table, sid: Sid)
    ensures var u := PreAuth(t, sid).sessions;
            |u - if LiveAt(t, sid) then {sid} else {}| == |u| - if LiveAt(t, sid) then 1 else 0
  {
    var u := PreAuth(t, sid).sessions;
    if LiveAt(t, sid) {
      assert (u - {sid}).Keys == u.Keys - {sid};
    } else {
      assert u - {} == u;
    }
  }

  function Touch(t: Table, id: nat): Table
    requires id < |t.objects|
  {
    t.(objects := t.objects[id := t.objects[id].(lastActivity := t.now)])
  }

  /** A datagram arrives; `authentic` is whether it decrypts under its session's key. */
  function Datagram(t: Table, sid: Sid, salt: Option<Salt>, authentic: bool): Table
  {
    match PreAuthVerdict(t, sid, salt)
    case Existing(id) => if authentic && id < |t.objects| then Touch(t, id) else t
    case _ => PreAuth(t, sid)
  }

  datatype Outcome = Created(id: nat) | Found(id: nat) | Stopped | SessionCap | DuplicateSalt | ReplayedSalt

  ghost predicate Duplicate(t: Table, sid: Sid, salt: Salt)
  {
    exists other :: other in t.sessions && other != sid && LiveAt(t, other) && Speaks(t, other, salt)
  }

  /** A live incumbent survives only if the incoming salt is a remembered one. */
  ghost function Evict(t: Table, sid: Sid, salt: Salt): Table
  {
    if sid in t.sessions && !(LiveAt(t, sid) && Blocked(t.log, salt, t.now)) then Drop(t, sid) else t
  }

  ghost function CommitOutcome(t: Table, sid: Sid, salt: Salt): Outcome
  {
    var e := Evict(t, sid, salt);
    if t.stopped then Stopped
    else if LiveAt(t, sid) && Speaks(t, sid, salt) then Found(t.sessions[sid])
    else Judged(e, sid, salt)
  }

  /** The verdict once the incumbent, if any, has made way. */
  ghost function Judged(t: Table, sid: Sid, salt: Salt): Outcome
  {
    if |t.sessions| >= MAX_CONCURRENT_SESSIONS then SessionCap
    else if Duplicate(t, sid, salt) then DuplicateSalt
    else if Blocked(t.log, salt, t.now) then ReplayedSalt
    else Created(|t.objects|)
  }

  /** The write-locked section that runs once the datagram has authenticated under `salt`. */
  ghost function Commit(t: Table, sid: Sid, salt: Salt): Table
  {
    match CommitOutcome(t, sid, salt)
    case Stopped => t
    case Found(_) => t
    case Created(id) => Register(Evict(t, sid, salt), sid, salt)
    case _ => Evict(t, sid, salt)
  }

  /** Past the first two tests, the commit is an eviction and a verdict on what is left. */
  lemma CommitSplit(t: Table, sid: Sid, salt: Salt)
    requires !t.stopped && !(LiveAt(t, sid) && Speaks(t, sid, salt))
    ensures var e := Evict(t, sid, salt);
            && CommitOutcome(t, sid, salt) == Judged(e, sid, salt)
            && Commit(t, sid, salt) == if Judged(e, sid, salt).Created? then Register(e, sid, salt) else e
  {
  }

  function Register(t: Table, sid: Sid, salt: Salt): Table
  {
    t.(sessions := t.sessions[sid := |t.objects|],
       objects := t.objects + [Session(sid, salt, t.now, t.now, true, false)],
       log := t.log + [Acceptance(salt, t.now)])
  }

  /** close_connection on behalf of session object `owner`. */
  function Close(t: Table, owner: nat): Table
  {
    if Registered(t, owner) then Drop(t, t.objects[owner].sid) else t
  }

  /** start_forwarding's registration of the connected target socket. */
  function ConnectDone(t: Table, owner: nat): Table
  {
    if Registered(t, owner) then t.(connections := t.connections[t.objects[owner].sid := owner]) else t
  }

  predicate Reaped(t: Table, sid: Sid)
  {
    sid in t.sessions && (!LiveAt(t, sid) || IsStalled(t.objects[t.sessions[sid]], t.now))
  }

  function ReapedSet(t: Table): set<Sid>
  {
    set sid | sid in t.sessions && Reaped(t, sid)
  }

  function Sweep(t: Table): Table
  {
    Erased(t, ReapedSet(t))
  }

  /** The entries and sockets go, and their sessions are told to stop. */
  function Erased(t: Table, gone: set<Sid>): Table
    requires gone <= t.sessions.Keys
  {
    t.(sessions := t.sessions - gone, connections := t.connections - gone,
       stopping := t.stopping + set sid | sid in gone :: t.sessions[sid])
  }

  function Stop(t: Table): Table
  {
    t.(stopped := true, sessions := map[], connections := map[],
       stopping := t.stopping + set sid | sid in t.sessions :: t.sessions[sid])
  }

  datatype Event =
    | Advance(delta: nat)
    | Arrive(sid: Sid, carried: Option<Salt>, authentic: bool)
    | Authenticated(sid: Sid, salt: Salt)
    | CloseOwn(id: nat)
    | Connected(id: nat)
    | HandshakeDone(id: nat)
    | Halted(id: nat)
    | Cleanup
    | ServerStop

  ghost function Step(t: Table, ev: Event): Table
  {
    match ev
    case Advance(delta) => t.(now := t.now + delta)
    case Arrive(sid, salt, authentic) => Datagram(t, sid, salt, authentic)
    case Authenticated(sid, salt) => Commit(t, sid, salt)
    case CloseOwn(id) => Close(t, id)
    case Connected(id) => ConnectDone(t, id)
    case HandshakeDone(id) =>
      if id < |t.objects| then t.(objects := t.objects[id := t.objects[id].(handshakeDone := true)]) else t
    case Halted(id) =>
      if id < |t.objects| then t.(objects := t.objects[id := t.objects[id].(running := false)]) else t
    case Cleanup => Sweep(t)
    case ServerStop => Stop(t)
  }

  ghost function Run(t: Table, events: seq<Event>): Table
  {
    if events == [] then t else Step(Run(t, events[..|events| - 1]), events[|events| - 1])
  }

  const EMPTY: Table := Table(0, false, map[], map[], [], {}, [])

  // ---- what every reachable state keeps ----

  ghost predicate KeysOk(t: Table)
  {
    && (forall sid | sid in t.sessions :: t.sessions[sid] < |t.objects| && t.objects[t.sessions[sid]].sid == sid)
    && (forall sid | sid in t.connections :: sid in t.sessions && t.connections[sid] == t.sessions[sid])
    && |t.sessions| <= MAX_CONCURRENT_SESSIONS
    && (t.stopped ==> t.sessions == map[] && t.connections == map[])
  }

  ghost predicate SaltsDistinct(t: Table)
  {
    forall a, b :: !Clash(t, a, b)
  }

  /** Two live sessions at different endpoints under one salt. */
  ghost predicate Clash(t: Table, a: Sid, b: Sid)
  {
    a != b && LiveAt(t, a) && LiveAt(t, b) && t.objects[t.sessions[a]].salt == t.objects[t.sessions[b]].salt
  }

  ghost predicate Owned(t: Table)
  {
    forall id | 0 <= id < |t.objects| :: Registered(t, id) || id in t.stopping
  }

  ghost predicate Inv(t: Table)
  {
    KeysOk(t) && SaltsDistinct(t) && Owned(t)
  }

  lemma DropKeeps(t: Table, sid: Sid)
    requires Inv(t) && sid in t.sessions
    ensures Inv(Drop(t, sid)) && |Drop(t, sid).sessions| == |t.sessions| - 1
  {
    var d := Drop(t, sid);
    assert d.sessions.Keys == t.sessions.Keys - {sid};
    OwnedStill(t, d);
    FewerClashes(t, d);
  }

  /** Every object that lost its registration is in the new `stopping`. */
  lemma OwnedStill(t: Table, u: Table)
    requires Owned(t) && |u.objects| == |t.objects| && t.stopping <= u.stopping
    requires forall id | 0 <= id < |t.objects| && Registered(t, id) :: Registered(u, id) || id in u.stopping
    ensures Owned(u)
  {
  }

  lemma FewerClashes(t: Table, u: Table)
    requires SaltsDistinct(t)
    requires forall sid | LiveAt(u, sid) ::
               LiveAt(t, sid) && t.objects[t.sessions[sid]].salt == u.objects[u.sessions[sid]].salt
    ensures SaltsDistinct(u)
  {
    forall a, b ensures !Clash(u, a, b) {
      assert !Clash(t, a, b);
    }
  }

  lemma RegisterKeys(t: Table, sid: Sid, salt: Salt)
    requires KeysOk(t) && !t.stopped && sid !in t.sessions && |t.sessions| < MAX_CONCURRENT_SESSIONS
    ensures KeysOk(Register(t, sid, salt))
  {
    assert Register(t, sid, salt).sessions.Keys == t.sessions.Keys + {sid};
  }

  lemma RegisterOwned(t: Table, sid: Sid, salt: Salt)
    requires KeysOk(t) && Owned(t) && sid !in t.sessions
    ensures Owned(Register(t, sid, salt))
  {
    var r := Register(t, sid, salt);
    forall id | 0 <= id < |r.objects| ensures Registered(r, id) || id in r.stopping {
      if id < |t.objects| {
        assert Registered(t, id) || id in t.stopping;
      }
    }
  }

  lemma RegisterKeeps(t: Table, sid: Sid, salt: Salt)
    requires Inv(t) && !t.stopped && sid !in t.sessions && |t.sessions| < MAX_CONCURRENT_SESSIONS
    requires !Duplicate(t, sid, salt)
    ensures Inv(Register(t, sid, salt))
  {
    RegisterKeys(t, sid, salt);
    RegisterOwned(t, sid, salt);
    forall a, b ensures !Clash(Register(t, sid, salt), a, b) {
      RegisterNoClash(t, sid, salt, a, b);
    }
  }

  lemma RegisterNoClash(t: Table, sid: Sid, salt: Salt, a: Sid, b: Sid)
    requires KeysOk(t) && SaltsDistinct(t) && sid !in t.sessions && !Duplicate(t, sid, salt)
    ensures !Clash(Register(t, sid, salt), a, b)
  {
    var r := Register(t, sid, salt);
    if Clash(r, a, b) {
      if a != sid && b != sid {
        assert Clash(t, a, b);
      } else {
        var other := if a == sid then b else a;
        assert LiveAt(t, other) && Speaks(t, other, salt);
      }
      assert false;
    }
  }

  lemma SweepKeeps(t: Table)
    requires Inv(t)
    ensures Inv(Sweep(t))
  {
    SweepKeys(t);
    OwnedStill(t, Sweep(t));
    FewerClashes(t, Sweep(t));
  }

  lemma SweepKeys(t: Table)
    requires KeysOk(t)
    ensures KeysOk(Sweep(t))
  {
  }

  lemma CommitKeeps(t: Table, sid: Sid, salt: Salt)
    requires Inv(t)
    ensures Inv(Commit(t, sid, salt))
  {
    if sid in t.sessions {
      DropKeeps(t, sid);
    }
    if CommitOutcome(t, sid, salt).Created? {
      RegisterKeeps(Evict(t, sid, salt), sid, salt);
    }
  }

  lemma StopKeeps(t: Table)
    requires Inv(t)
    ensures Inv(Stop(t))
  {
  }

  /** Rewriting one object without changing its identity or salt, or reviving it. */
  lemma ObjectKeeps(t: Table, id: nat, s: Session)
    requires Inv(t) && id < |t.objects|
    requires s.sid == t.objects[id].sid && s.salt == t.objects[id].salt
    requires IsAlive(s, t.now) ==> IsAlive(t.objects[id], t.now)
    ensures Inv(t.(objects := t.objects[id := s]))
  {
    var u := t.(objects := t.objects[id := s]);
    OwnedStill(t, u);
    FewerClashes(t, u);
  }

  lemma AdvanceKeeps(t: Table, delta: nat)
    requires Inv(t)
    ensures Inv(Step(t, Advance(delta)))
  {
    var u := Step(t, Advance(delta));
    OwnedStill(t, u);
    FewerClashes(t, u);
  }

  lemma ConnectKeeps(t: Table, id: nat)
    requires Inv(t)
    ensures Inv(ConnectDone(t, id))
  {
    var u := ConnectDone(t, id);
    OwnedStill(t, u);
    FewerClashes(t, u);
  }

  /** A datagram refreshes the live session it belongs to, drops a dead entry, or changes nothing. */
  lemma DatagramShape(t: Table, sid: Sid, salt: Option<Salt>, authentic: bool)
    requires KeysOk(t)
    ensures var u := Datagram(t, sid, salt, authentic);
            if sid in t.sessions && !LiveAt(t, sid) then u == Drop(t, sid)
            else u == t || (sid in t.sessions && u == Touch(t, t.sessions[sid]))
  {
  }

  lemma ArriveKeeps(t: Table, sid: Sid, salt: Option<Salt>, authentic: bool)
    requires Inv(t)
    ensures Inv(Datagram(t, sid, salt, authentic))
  {
    DatagramShape(t, sid, salt, authentic);
    if sid in t.sessions {
      if LiveAt(t, sid) {
        ObjectKeeps(t, t.sessions[sid], t.objects[t.sessions[sid]].(lastActivity := t.now));
      } else {
        DropKeeps(t, sid);
      }
    }
  }

  lemma CloseKeeps(t: Table, id: nat)
    requires Inv(t)
    ensures Inv(Close(t, id))
  {
    if Registered(t, id) {
      DropKeeps(t, t.objects[id].sid);
    }
  }

  lemma MarkKeeps(t: Table, id: nat)
    requires Inv(t)
    ensures Inv(Step(t, HandshakeDone(id))) && Inv(Step(t, Halted(id)))
  {
    if id < |t.objects| {
      ObjectKeeps(t, id, t.objects[id].(handshakeDone := true));
      ObjectKeeps(t, id, t.objects[id].(running := false));
    }
  }

  lemma StepKeeps(t: Table, ev: Event)
    requires Inv(t)
    ensures Inv(Step(t, ev))
  {
    match ev
    case Advance(delta) => AdvanceKeeps(t, delta);
    case Arrive(sid, salt, authentic) => ArriveKeeps(t, sid, salt, authentic);
    case Authenticated(sid, salt) => CommitKeeps(t, sid, salt);
    case CloseOwn(id) => CloseKeeps(t, id);
    case Connected(id) => ConnectKeeps(t, id);
    case HandshakeDone(id) => MarkKeeps(t, id);
    case Halted(id) => MarkKeeps(t, id);
    case Cleanup => SweepKeeps(t);
    case ServerStop => StopKeeps(t);
  }

  /**
   * Every reachable state: at most 4096 sessions, every target socket belongs
   * to the session object registered under its key, no two live sessions share
   * a salt, no object is dropped without being stopped, and once stopped both
   * maps are empty.
   */
  lemma {:induction false} ReachableStates(events: seq<Event>)
    ensures Inv(Run(EMPTY, events))
  {
    if events != [] {
      var n := |events| - 1;
      ReachableStates(events[..n]);
      StepKeeps(Run(EMPTY, events[..n]), events[n]);
    }
  }

  /** After stop() nothing is ever registered again. */
  lemma {:induction false} StoppedForGood(t: Table, events: seq<Event>)
    requires Inv(t) && t.stopped
    ensures Inv(Run(t, events)) && Run(t, events).stopped
    ensures Run(t, events).sessions == map[] && Run(t, events).connections == map[]
  {
    if events != [] {
      var n := |events| - 1;
      StoppedForGood(t, events[..n]);
      StepKeeps(Run(t, events[..n]), events[n]);
    }
  }

  // ---- who may remove a live session ----

  /** Its own teardown, a stalled handshake at a sweep, an authenticated new salt at its endpoint, or server stop. */
  ghost predicate Removes(t: Table, ev: Event, id: nat)
    requires id < |t.objects|
  {
    match ev
    case CloseOwn(owner) => owner == id
    case Cleanup => IsStalled(t.objects[id], t.now)
    case Authenticated(sid, salt) =>
      sid == t.objects[id].sid && salt != t.objects[id].salt && !Blocked(t.log, salt, t.now)
    case ServerStop => true
    case _ => false
  }

  function Target(t: Table, id: nat): Option<nat>
    requires id < |t.objects|
  {
    if t.objects[id].sid in t.connections then Some(t.connections[t.objects[id].sid]) else None
  }

  /** What became of object `id` between two states. */
  ghost predicate Fate(t: Table, u: Table, id: nat, removed: bool, target: Option<nat>)
    requires id < |t.objects|
  {
    && id < |u.objects| && u.objects[id].sid == t.objects[id].sid
    && (Registered(u, id) <==> !removed)
    && (!removed ==> Target(u, id) == target)
  }

  lemma DropFate(t: Table, sid: Sid, id: nat)
    requires KeysOk(t) && Registered(t, id) && sid in t.sessions
    ensures Fate(t, Drop(t, sid), id, sid == t.objects[id].sid, Target(t, id))
  {
  }

  lemma EvictFate(t: Table, sid: Sid, salt: Salt, id: nat)
    requires KeysOk(t) && Registered(t, id) && Live(t, id)
    ensures Fate(t, Evict(t, sid, salt), id, sid == t.objects[id].sid && !Blocked(t.log, salt, t.now), Target(t, id))
  {
    if sid in t.sessions {
      DropFate(t, sid, id);
    }
  }

  lemma CommitFate(t: Table, sid: Sid, salt: Salt, id: nat)
    requires Inv(t) && Registered(t, id) && Live(t, id)
    ensures Fate(t, Commit(t, sid, salt), id, Removes(t, Authenticated(sid, salt), id), Target(t, id))
  {
    EvictFate(t, sid, salt, id);
    if CommitOutcome(t, sid, salt).Created? {
      AdmitFate(t, sid, salt, id);
    }
  }

  /** Registering a new session touches no other. */
  lemma AdmitFate(t: Table, sid: Sid, salt: Salt, id: nat)
    requires KeysOk(t) && Registered(t, id) && Live(t, id) && !Blocked(t.log, salt, t.now)
    ensures Fate(t, Register(Evict(t, sid, salt), sid, salt), id, sid == t.objects[id].sid, Target(t, id))
  {
    EvictFate(t, sid, salt, id);
    if sid in t.sessions {
      DropFate(t, sid, id);
    }
  }

  lemma TouchFate(t: Table, other: nat, id: nat)
    requires Registered(t, id) && other < |t.objects|
    ensures Fate(t, Touch(t, other), id, false, Target(t, id))
  {
  }

  lemma ArriveFate(t: Table, sid: Sid, salt: Option<Salt>, authentic: bool, id: nat)
    requires Inv(t) && Registered(t, id) && Live(t, id)
    ensures Fate(t, Datagram(t, sid, salt, authentic), id, false, Target(t, id))
  {
    DatagramShape(t, sid, salt, authentic);
    if sid in t.sessions {
      DropFate(t, sid, id);
      TouchFate(t, t.sessions[sid], id);
    }
  }

  lemma SweepFate(t: Table, id: nat)
    requires Inv(t) && Registered(t, id) && Live(t, id)
    ensures Fate(t, Sweep(t), id, IsStalled(t.objects[id], t.now), Target(t, id))
  {
  }

  lemma ConnectFate(t: Table, owner: nat, id: nat)
    requires Inv(t) && Registered(t, id)
    ensures Fate(t, ConnectDone(t, owner), id, false, if owner == id then Some(id) else Target(t, id))
  {
  }

  /**
   * One step removes a live registered session exactly for one of those four
   * causes, and gives it a target socket only when its own connect completed.
   */
  lemma DepartureExactly(t: Table, ev: Event, id: nat)
    requires Inv(t) && Registered(t, id) && Live(t, id)
    ensures Fate(t, Step(t, ev), id, Removes(t, ev, id), if ev == Connected(id) then Some(id) else Target(t, id))
  {
    match ev
    case Arrive(sid, salt, authentic) => ArriveFate(t, sid, salt, authentic, id);
    case Authenticated(sid, salt) => CommitFate(t, sid, salt, id);
    case Connected(owner) => ConnectFate(t, owner, id);
    case Cleanup => SweepFate(t, id);
    case CloseOwn(owner) =>
      if Registered(t, owner) {
        DropFate(t, t.objects[owner].sid, id);
      }
    case _ =>
  }

  /**
   * Over any run: live throughout and none of the four causes means still
   * registered, and with the same target unless its own connect completed.
   */
  lemma {:induction false} StaysRegistered(t: Table, events: seq<Event>, id: nat)
    requires Inv(t) && Registered(t, id)
    requires forall k :: 0 <= k < |events| ==> Undisturbed(Run(t, events[..k]), events[k], id)
    ensures Inv(Run(t, events)) && Registered(Run(t, events), id)
    ensures Target(Run(t, events), id) == if Connected(id) in events then Some(id) else Target(t, id)
  {
    if events != [] {
      var n := |events| - 1;
      forall k | 0 <= k < n ensures Undisturbed(Run(t, events[..n][..k]), events[..n][k], id) {
        assert events[..n][..k] == events[..k];
      }
      StaysRegistered(t, events[..n], id);
      StaysOneMore(Run(t, events[..n]), events[n], id);
      LastOrBefore(events, Connected(id));
    }
  }

  lemma LastOrBefore(events: seq<Event>, ev: Event)
    requires events != []
    ensures var n := |events| - 1; ev in events <==> ev in events[..n] || events[n] == ev
  {
    var n := |events| - 1;
    assert events == events[..n] + [events[n]];
  }

  lemma StaysOneMore(t: Table, ev: Event, id: nat)
    requires Inv(t) && Registered(t, id) && Undisturbed(t, ev, id)
    ensures Inv(Step(t, ev)) && Registered(Step(t, ev), id)
    ensures Target(Step(t, ev), id) == if ev == Connected(id) then Some(id) else Target(t, id)
  {
    StepKeeps(t, ev);
    DepartureExactly(t, ev, id);
  }

  ghost predicate Undisturbed(t: Table, ev: Event, id: nat)
  {
    Live(t, id) && !Removes(t, ev, id)
  }

  // ---- what a refused datagram costs ----

  /** A refusal for the cap or a remembered salt leaves every live session registered. */
  lemma CapAndReplayRefusalsAreHarmless(t: Table, sid: Sid, salt: Salt, id: nat)
    requires Inv(t) && Registered(t, id) && Live(t, id)
    requires CommitOutcome(t, sid, salt) in {SessionCap, ReplayedSalt}
    ensures Registered(Commit(t, sid, salt), id)
  {
    if sid in t.sessions {
      DropKeeps(t, sid);
    }
  }

  /** A duplicate-salt refusal spares a live session at the sender's own endpoint exactly if the salt is remembered. */
  lemma DuplicateRefusalExactly(t: Table, sid: Sid, salt: Salt, id: nat)
    requires Inv(t) && Registered(t, id) && Live(t, id)
    requires CommitOutcome(t, sid, salt) == DuplicateSalt
    ensures Registered(Commit(t, sid, salt), id) <==> t.objects[id].sid != sid || Blocked(t.log, salt, t.now)
  {
    if t.objects[id].sid == sid {
      assert LiveAt(t, sid);
    }
  }

  ghost predicate Reachable(t: Table)
  {
    exists events :: Run(EMPTY, events) == t
  }

  lemma ReachStep(t: Table, ev: Event)
    requires Reachable(t)
    ensures Reachable(Step(t, ev))
  {
    var events :| Run(EMPTY, events) == t;
    assert (events + [ev])[..|events|] == events;
    assert Run(EMPTY, events + [ev]) == Step(t, ev);
  }

  lemma ReachEmpty()
    ensures Reachable(EMPTY)
  {
    assert Run(EMPTY, []) == EMPTY;
  }

  /** `a` was admitted at time zero, has finished its handshake, and was heard of just now. */
  ghost predicate OnlySession(t: Table, a: Sid, s: Salt)
  {
    && t.sessions == map[a := 0] && t.connections == map[] && !t.stopped && t.stopping == {}
    && t.objects == [Session(a, s, 0, t.now, true, true)]
    && t.log == [Acceptance(s, 0)]
  }

  lemma Admitted(a: Sid, s: Salt) returns (t: Table)
    ensures Reachable(t) && OnlySession(t, a, s)
  {
    ReachEmpty();
    ReachStep(EMPTY, Authenticated(a, s));
    t := Register(EMPTY, a, s);
    assert Step(EMPTY, Authenticated(a, s)) == t;
    ReachStep(t, HandshakeDone(0));
    t := Step(t, HandshakeDone(0));
  }

  /** The sweep finds nothing to take. */
  lemma SweptClean(t: Table, a: Sid, s: Salt)
    requires OnlySession(t, a, s)
    ensures Sweep(t) == t
  {
    assert ReapedSet(t) == {};
    assert t.sessions - {} == t.sessions && t.connections - {} == t.connections;
  }

  lemma Refreshed(t: Table, a: Sid, s: Salt) returns (u: Table)
    requires t.now >= 30 * 1000000 && OnlySession(t.(now := t.now - 30 * 1000000), a, s)
    ensures u == Step(t, Arrive(a, Some(s), true)) && OnlySession(u, a, s) && u.now == t.now
  {
    u := Touch(t, 0);
    assert PreAuthVerdict(t, a, Some(s)) == Existing(0);
  }

  /** Half a minute on: a datagram from `a`, then the periodic sweep. */
  lemma HeardAgain(t: Table, a: Sid, s: Salt) returns (u: Table)
    requires Reachable(t) && OnlySession(t, a, s)
    ensures Reachable(u) && OnlySession(u, a, s) && u.now == t.now + 30 * 1000000
  {
    ReachStep(t, Advance(30 * 1000000));
    var late := t.(now := t.now + 30 * 1000000);
    ReachStep(late, Arrive(a, Some(s), true));
    u := Refreshed(late, a, s);
    SweptClean(u, a, s);
    ReachStep(u, Cleanup);
  }

  lemma {:induction false} KeptAlive(a: Sid, s: Salt, rounds: nat) returns (t: Table)
    ensures Reachable(t) && OnlySession(t, a, s) && t.now >= 30 * 1000000 * rounds
  {
    if rounds == 0 {
      t := Admitted(a, s);
    } else {
      t := KeptAlive(a, s, rounds - 1);
      t := HeardAgain(t, a, s);
    }
  }

  lemma AdmitSecond(t: Table, a: Sid, b: Sid, s: Salt, s': Salt)
    requires OnlySession(t, a, s) && t.now >= SALT_TOMBSTONE_TTL && a != b && s != s'
    ensures Step(t, Authenticated(b, s')) == Register(t, b, s')
    ensures Live(Register(t, b, s'), 1) && Registered(Register(t, b, s'), 1)
  {
  }

  lemma EvictSecond(t: Table, a: Sid, b: Sid, s: Salt, s': Salt)
    requires OnlySession(t, a, s) && t.now >= SALT_TOMBSTONE_TTL && a != b && s != s'
    ensures var u := Register(t, b, s'); CommitOutcome(u, b, s) == DuplicateSalt && !Registered(Commit(u, b, s), 1)
  {
    var u := Register(t, b, s');
    assert !Blocks(u.log, 0, s, u.now) && !Blocks(u.log, 1, s, u.now);
    assert !Blocked(u.log, s, u.now);
    var e := Evict(u, b, s);
    assert e == Drop(u, b);
    assert e.sessions == map[a := 0];
    assert a in e.sessions && LiveAt(e, a) && Speaks(e, a, s);
    assert Duplicate(e, b, s);
  }

  /**
   * The tombstone does not cover a session older than its TTL. There is a
   * reachable state, with the sweep run every 30 seconds, in which a datagram at endpoint b that carries a's salt is
   * refused as a duplicate, but only after b's live session was thrown out.
   */
  lemma DuplicateRefusalCanEvict(a: Sid, b: Sid, s: Salt, s': Salt) returns (t: Table)
    requires a != b && s != s'
    ensures Reachable(t) && Registered(t, 1) && Live(t, 1)
    ensures CommitOutcome(t, b, s) == DuplicateSalt && !Registered(Commit(t, b, s), 1)
  {
    var aged := KeptAlive(a, s, 20);
    t := SecondAdmitted(aged, a, b, s, s');
  }

  lemma SecondAdmitted(aged: Table, a: Sid, b: Sid, s: Salt, s': Salt) returns (t: Table)
    requires Reachable(aged) && OnlySession(aged, a, s) && aged.now >= SALT_TOMBSTONE_TTL && a != b && s != s'
    ensures Reachable(t) && Registered(t, 1) && Live(t, 1)
    ensures CommitOutcome(t, b, s) == DuplicateSalt && !Registered(Commit(t, b, s), 1)
  {
    t := Register(aged, b, s');
    ReachStep(aged, Authenticated(b, s'));
    AdmitSecond(aged, a, b, s, s');
    EvictSecond(aged, a, b, s, s');
  }
}
