/** The server object that carries the session table (server.cpp), method by method. */
module SessionServer {
  import opened Bytes
  import opened SaltTombstones
  import opened SessionTable

  class KCPServer {
    var sessions: map<Sid, nat>
    var connections: map<Sid, nat>
    var objects: seq<Session>
    /** Objects whose stop() was dispatched to their strand. */
    var stopping: set<nat>
    var stopped: bool
    const tombstones: Tombstones
    ghost var clock: nat

    ghost function View(): Table
      reads this, tombstones
    {
      Table(clock, stopped, sessions, connections, objects, stopping, tombstones.Log())
    }

    ghost function At(now: nat): Table
      reads this, tombstones
    {
      View().(now := now)
    }

    ghost predicate Valid()
      reads this, tombstones
    {
      tombstones.Valid() && Inv(View())
    }

    ghost predicate Ready(now: nat)
      reads this, tombstones
    {
      Valid() && clock <= now && tombstones.clock <= now
    }

    constructor ()
      ensures Valid() && View() == EMPTY && fresh(tombstones) && tombstones.clock == 0
    {
      sessions, connections, objects, stopping, stopped, clock := map[], map[], [], {}, false, 0;
      tombstones := new Tombstones();
    }

    method Tick(ghost now: nat)
      requires Ready(now)
      modifies this`clock
      ensures Ready(now) && View() == At(now) == old(At(now))
    {
      AdvanceKeeps(View(), now - clock);
      clock := now;
    }

    /** drop_replaced_target_locked together with the erase and stop() of its session. */
    method Drop(sid: Sid)
      requires Valid() && sid in sessions
      modifies this`sessions, this`connections, this`stopping
      ensures Valid() && View() == SessionTable.Drop(old(View()), sid)
    {
      DropKeeps(View(), sid);
      stopping := stopping + {sessions[sid]};
      sessions := sessions - {sid};
      connections := connections - {sid};
    }

    /** The unauthenticated half of get_or_create_session. */
    method PreAuthCheck(sid: Sid, salt: Option<Salt>, now: nat) returns (v: PreVerdict)
      requires Ready(now)
      modifies this
      ensures Ready(now) && View() == PreAuth(old(At(now)), sid)
      ensures v == PreAuthVerdict(old(At(now)), sid, salt)
    {
      Tick(now);
      EffectiveCount(View(), sid);
      var liveMismatch := false;
      if sid in sessions {
        var s := objects[sessions[sid]];
        if IsAlive(s, now) {
          if salt.Some? && s.salt == salt.value {
            return Existing(sessions[sid]);
          }
          liveMismatch := true;
        } else {
          Drop(sid);
        }
      }
      var effective := |sessions| - if liveMismatch then 1 else 0;
      v := if effective >= MAX_CONCURRENT_SESSIONS then CapReached else NeedsAuth;
    }

    /** Routing to a live session, with the activity refresh of an authentic datagram. */
    method RouteDatagram(sid: Sid, salt: Option<Salt>, authentic: bool, now: nat) returns (v: PreVerdict)
      requires Ready(now)
      modifies this
      ensures Ready(now) && View() == Datagram(old(At(now)), sid, salt, authentic)
      ensures v == PreAuthVerdict(old(At(now)), sid, salt)
    {
      v := PreAuthCheck(sid, salt, now);
      if v.Existing? && authentic {
        TouchActivity(v.id, now);
      }
    }

    method TouchActivity(id: nat, now: nat)
      requires Valid() && clock == now && Live(View(), id)
      modifies this`objects
      ensures Valid() && View() == Touch(old(View()), id)
    {
      ObjectKeeps(View(), id, objects[id].(lastActivity := now));
      objects := objects[id := objects[id].(lastActivity := now)];
    }

    /** The scan for another live session under the same salt. */
    method FindDuplicate(sid: Sid, salt: Salt, now: nat) returns (found: bool)
      requires Valid() && clock == now
      ensures found <==> Duplicate(View(), sid, salt)
    {
      var rest := sessions.Keys;
      found := false;
      while rest != {}
        invariant rest <= sessions.Keys
        invariant forall other | other in sessions && other !in rest ::
                    !(other != sid && LiveAt(View(), other) && Speaks(View(), other, salt))
        decreases |rest|
      {
        var other :| other in rest;
        rest := rest - {other};
        var s := objects[sessions[other]];
        if other != sid && s.salt == salt && IsAlive(s, now) {
          assert LiveAt(View(), other) && Speaks(View(), other, salt);
          return true;
        }
      }
    }

    /** The authenticated half, under the write lock; `later` is the clock remember_salt reads. */
    method CommitAuthenticated(sid: Sid, salt: Salt, now: nat, later: nat) returns (o: Outcome)
      requires Ready(now) && now <= later
      modifies this, tombstones
      ensures Valid() && View() == Commit(old(At(now)), sid, salt) && tombstones.clock <= later
      ensures o == CommitOutcome(old(At(now)), sid, salt)
    {
      Tick(now);
      CommitKeeps(View(), sid, salt);
      if stopped {
        return Stopped;
      }
      if sid in sessions && IsAlive(objects[sessions[sid]], now) && objects[sessions[sid]].salt == salt {
        return Found(sessions[sid]);
      }
      o := Replace(sid, salt, now, later);
    }

    /** The rest of the commit, for a datagram that is not from the session registered here. */
    method Replace(sid: Sid, salt: Salt, now: nat, later: nat) returns (o: Outcome)
      requires Valid() && clock == now && tombstones.clock <= now <= later && !stopped
      requires !(LiveAt(View(), sid) && Speaks(View(), sid, salt))
      modifies this`objects, this`sessions, this`connections, this`stopping, tombstones
      ensures tombstones.Valid() && tombstones.clock <= later
      ensures View() == Commit(old(View()), sid, salt) && o == CommitOutcome(old(View()), sid, salt)
    {
      CommitSplit(View(), sid, salt);
      var blocked := tombstones.IsBlocked(salt, now);
      EvictIncumbent(sid, salt, now, blocked);
      o := AdmitOrRefuse(sid, salt, now, later, blocked);
    }

    /** The cap, the duplicate scan and the tombstone, in that order. */
    method AdmitOrRefuse(sid: Sid, salt: Salt, now: nat, later: nat, blocked: bool) returns (o: Outcome)
      requires Valid() && clock == now && tombstones.clock <= now <= later
      requires blocked <==> Blocked(tombstones.Log(), salt, now)
      modifies this`objects, this`sessions, tombstones
      ensures tombstones.Valid() && tombstones.clock <= later
      ensures o == Judged(old(View()), sid, salt)
      ensures View() == if o.Created? then Register(old(View()), sid, salt) else old(View())
    {
      if |sessions| >= MAX_CONCURRENT_SESSIONS {
        return SessionCap;
      }
      var duplicate := FindDuplicate(sid, salt, now);
      if duplicate {
        return DuplicateSalt;
      }
      if blocked {
        return ReplayedSalt;
      }
      o := Created(|objects|);
      Admit(sid, salt, now, later);
    }

    /** A live incumbent is kept when the incoming salt is a remembered one; anything else makes way. */
    method EvictIncumbent(sid: Sid, salt: Salt, now: nat, blocked: bool)
      requires Valid() && clock == now && (blocked <==> Blocked(tombstones.Log(), salt, now))
      modifies this`sessions, this`connections, this`stopping
      ensures Valid() && View() == Evict(old(View()), sid, salt)
    {
      if sid in sessions {
        var replayed := IsAlive(objects[sessions[sid]], now) && blocked;
        if !replayed {
          Drop(sid);
        }
      }
    }

    method Admit(sid: Sid, salt: Salt, now: nat, later: nat)
      requires tombstones.Valid() && clock == now && tombstones.clock <= now <= later
      requires !Blocked(tombstones.Log(), salt, now)
      modifies this`objects, this`sessions, tombstones
      ensures tombstones.Valid() && View() == Register(old(View()), sid, salt) && tombstones.clock <= later
    {
      var id := |objects|;
      objects := objects + [Session(sid, salt, now, now, true, false)];
      tombstones.Remember(salt, now, later);
      sessions := sessions[sid := id];
    }

    /** close_connection with an owner: only the session still registered is torn down. */
    method CloseConnection(owner: nat)
      requires Valid() && owner < |objects|
      modifies this
      ensures Valid() && View() == Close(old(View()), owner)
    {
      var sid := objects[owner].sid;
      if sid !in sessions || sessions[sid] != owner {
        return;
      }
      Drop(sid);
    }

    /** The registration at the start of start_forwarding. */
    method StartForwarding(owner: nat) returns (registered: bool)
      requires Valid() && owner < |objects|
      modifies this
      ensures Valid() && View() == ConnectDone(old(View()), owner)
      ensures registered <==> Registered(old(View()), owner)
    {
      ConnectKeeps(View(), owner);
      var sid := objects[owner].sid;
      if sid !in sessions || sessions[sid] != owner {
        return false;
      }
      connections := connections[sid := owner];
      return true;
    }

    /** The sessions the sweep takes: idle, or stalled short of finishing the handshake. */
    method FindReaped(now: nat) returns (gone: set<Sid>)
      requires Valid() && clock == now
      ensures gone == ReapedSet(View())
    {
      gone := {};
      var rest := sessions.Keys;
      while rest != {}
        invariant rest <= sessions.Keys && gone <= sessions.Keys - rest
        invariant forall sid | sid in sessions && sid !in rest :: sid in gone <==> Reaped(View(), sid)
        decreases |rest|
      {
        var sid :| sid in rest;
        rest := rest - {sid};
        var s := objects[sessions[sid]];
        if !IsAlive(s, now) || IsStalled(s, now) {
          gone := gone + {sid};
        }
      }
    }

    method DoCleanup(now: nat)
      requires Ready(now)
      modifies this, tombstones
      ensures Valid() && View() == Sweep(old(At(now)))
    {
      Tick(now);
      SweepSessions(now);
      tombstones.Prune(now);
    }

    method SweepSessions(now: nat)
      requires Valid() && clock == now
      modifies this`sessions, this`connections, this`stopping
      ensures Valid() && View() == Sweep(old(View()))
    {
      SweepKeeps(View());
      var gone := FindReaped(now);
      Erase(gone);
    }

    method Erase(gone: set<Sid>)
      requires gone <= sessions.Keys
      modifies this`sessions, this`connections, this`stopping
      ensures View() == Erased(old(View()), gone)
    {
      stopping := stopping + set sid | sid in gone :: sessions[sid];
      sessions := sessions - gone;
      connections := connections - gone;
    }

    method Stop()
      requires Valid()
      modifies this
      ensures Valid() && View() == SessionTable.Stop(old(View()))
    {
      StopKeeps(View());
      stopping := stopping + set sid | sid in sessions :: sessions[sid];
      stopped, sessions, connections := true, map[], map[];
    }
  }
}
