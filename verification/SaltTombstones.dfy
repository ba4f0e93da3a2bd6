/**
 * The server's memory of accepted session salts (server.cpp,
 * prune_salt_tombstones_locked and remember_salt_locked): a map plus a queue,
 * proved to answer exactly like the complete log of acceptances.
 */
module SaltTombstones {
  import opened Bytes

  const MAX_SALT_TOMBSTONES: nat := 16384
  const SALT_TOMBSTONE_TTL: nat := 600 * 1000000

  type Salt = seq<byte>

  datatype Acceptance = Acceptance(salt: Salt, time: nat)

  /** The reference: accepted among the last 16384, and less than the TTL ago. */
  ghost predicate Blocked(log: seq<Acceptance>, salt: Salt, t: nat)
  {
    exists i :: 0 <= i < |log| && Blocks(log, i, salt, t)
  }

  ghost predicate Blocks(log: seq<Acceptance>, i: nat, salt: Salt, t: nat)
    requires i < |log|
  {
    log[i].salt == salt && log[i].time + SALT_TOMBSTONE_TTL > t && i + MAX_SALT_TOMBSTONES >= |log|
  }

  ghost predicate Sorted(log: seq<Acceptance>)
  {
    forall i, j :: 0 <= i < j < |log| ==> log[i].time <= log[j].time
  }

  /** Acceptances are logged in order of time, none of them in the future. */
  ghost predicate Timely(log: seq<Acceptance>, clock: nat)
  {
    Sorted(log) && (forall a | a in log :: a.time <= clock)
  }

  /** What pruning at `now` may leave of a map. */
  ghost predicate Pruned(before: map<Salt, nat>, after: map<Salt, nat>, now: nat)
  {
    && (forall s | s in after :: s in before && before[s] == after[s])
    && (forall s | s in before && before[s] > now :: s in after)
  }

  lemma PrunedStep(before: map<Salt, nat>, after: map<Salt, nat>, now: nat, s: Salt)
    requires Pruned(before, after, now) && s in after && after[s] <= now
    ensures Pruned(before, after - {s}, now)
  {
  }

  /** `order` and `expiry` hold exactly the acceptances `kept`, oldest first, each salt once. */
  ghost predicate Mirrors(kept: seq<Acceptance>, order: seq<Salt>, expiry: map<Salt, nat>)
  {
    && |order| == |kept| == |expiry|
    && (forall i :: 0 <= i < |kept| ==> EntryOk(kept[i], order[i], expiry))
    && (forall i, j :: 0 <= i < j < |order| ==> order[i] != order[j])
    && (forall s | s in expiry :: s in order)
  }

  ghost predicate EntryOk(a: Acceptance, salt: Salt, expiry: map<Salt, nat>)
  {
    salt == a.salt && salt in expiry && expiry[salt] == a.time + SALT_TOMBSTONE_TTL
  }

  /** Whatever was discarded, out of `total` acceptances, can block nothing any more. */
  ghost predicate Spent(dropped: seq<Acceptance>, total: nat, clock: nat)
  {
    forall i :: 0 <= i < |dropped| ==>
      dropped[i].time + SALT_TOMBSTONE_TTL <= clock || i + MAX_SALT_TOMBSTONES < total
  }

  lemma SpentOne(dropped: seq<Acceptance>, a: Acceptance, total: nat, clock: nat)
    requires Spent(dropped, total, clock)
    requires a.time + SALT_TOMBSTONE_TTL <= clock || |dropped| + MAX_SALT_TOMBSTONES < total
    ensures Spent(dropped + [a], total, clock)
  {
  }

  lemma MoveOne(dropped: seq<Acceptance>, kept: seq<Acceptance>)
    requires kept != []
    ensures dropped + [kept[0]] + kept[1..] == dropped + kept
  {
  }

  lemma SortedSuffix(dropped: seq<Acceptance>, kept: seq<Acceptance>)
    requires Sorted(dropped + kept)
    ensures Sorted(kept)
  {
    forall i, j | 0 <= i < j < |kept| ensures kept[i].time <= kept[j].time {
      assert (dropped + kept)[|dropped| + i] == kept[i] && (dropped + kept)[|dropped| + j] == kept[j];
    }
  }

  lemma SortedAppend(log: seq<Acceptance>, a: Acceptance, clock: nat)
    requires Timely(log, a.time) && a.time <= clock
    ensures Timely(log + [a], clock)
  {
  }

  lemma DropOldest(kept: seq<Acceptance>, order: seq<Salt>, expiry: map<Salt, nat>)
    requires Mirrors(kept, order, expiry) && order != []
    ensures Mirrors(kept[1..], order[1..], expiry - {order[0]})
  {
    var o, e := order[1..], expiry - {order[0]};
    assert EntryOk(kept[0], order[0], expiry);
    assert e.Keys == expiry.Keys - {order[0]};
    forall i | 0 <= i < |o| ensures EntryOk(kept[1..][i], o[i], e) {
      assert EntryOk(kept[i + 1], order[i + 1], expiry);
    }
    forall s | s in e ensures s in o {
      var i :| 0 <= i < |order| && order[i] == s;
      assert o[i - 1] == s;
    }
  }

  lemma AppendNewest(kept: seq<Acceptance>, order: seq<Salt>, expiry: map<Salt, nat>, a: Acceptance)
    requires Mirrors(kept, order, expiry) && a.salt !in expiry
    ensures Mirrors(kept + [a], order + [a.salt], expiry[a.salt := a.time + SALT_TOMBSTONE_TTL])
  {
  }

  lemma AllUnexpired(kept: seq<Acceptance>, order: seq<Salt>, expiry: map<Salt, nat>, now: nat)
    requires Mirrors(kept, order, expiry) && Sorted(kept)
    requires kept != [] ==> kept[0].time + SALT_TOMBSTONE_TTL > now
    ensures forall s | s in expiry :: expiry[s] > now
  {
  }

  class Tombstones {
    var expiry: map<Salt, nat>
    var order: seq<Salt>
    /** The acceptance log is dropped + kept. */
    ghost var dropped: seq<Acceptance>
    ghost var kept: seq<Acceptance>
    ghost var clock: nat

    ghost function Log(): seq<Acceptance>
      reads this
    {
      dropped + kept
    }

    ghost predicate Valid()
      reads this
    {
      && Mirrors(kept, order, expiry)
      && Timely(Log(), clock)
      && Spent(dropped, |Log()|, clock)
      && |order| <= MAX_SALT_TOMBSTONES
    }

    constructor ()
      ensures Valid() && Log() == [] && clock == 0
    {
      expiry, order, dropped, kept, clock := map[], [], [], [], 0;
    }

    /** The lookup made before a session is created. */
    method IsBlocked(salt: Salt, now: nat) returns (blocked: bool)
      requires Valid() && clock <= now
      ensures blocked <==> Blocked(Log(), salt, now)
    {
      blocked := salt in expiry && expiry[salt] > now;
      LookupAgrees(dropped, kept, order, expiry, clock, salt, now);
    }

    /** Pop the front of the queue and its map entry. */
    method Pop()
      requires Mirrors(kept, order, expiry) && order != []
      modifies this`expiry, this`order, this`dropped, this`kept
      ensures Mirrors(kept, order, expiry) && Log() == old(Log())
      ensures dropped == old(dropped) + [old(kept)[0]] && kept == old(kept)[1..]
      ensures order == old(order)[1..] && expiry == old(expiry) - {old(order)[0]}
    {
      DropOldest(kept, order, expiry);
      MoveOne(dropped, kept);
      expiry := expiry - {order[0]};
      order := order[1..];
      dropped, kept := dropped + [kept[0]], kept[1..];
    }

    /** Every entry has the same TTL, so the expired ones are exactly a prefix of the queue. */
    method Prune(now: nat)
      requires Valid() && clock <= now
      modifies this
      ensures Valid() && clock == now && Log() == old(Log())
      ensures Pruned(old(expiry), expiry, now) && forall s | s in expiry :: expiry[s] > now
    {
      clock := now;
      while order != [] && order[0] in expiry && expiry[order[0]] <= now
        invariant Mirrors(kept, order, expiry) && Spent(dropped, |Log()|, clock)
        invariant |order| <= MAX_SALT_TOMBSTONES && clock == now && Log() == old(Log())
        invariant Pruned(old(expiry), expiry, now)
        decreases |order|
      {
        assert EntryOk(kept[0], order[0], expiry);
        PrunedStep(old(expiry), expiry, now, order[0]);
        SpentOne(dropped, kept[0], |Log()|, clock);
        Pop();
      }
      assert kept != [] ==> EntryOk(kept[0], order[0], expiry);
      SortedSuffix(dropped, kept);
      AllUnexpired(kept, order, expiry, now);
    }

    /** Make room for one more by discarding the oldest. */
    method Evict()
      requires Valid()
      modifies this`expiry, this`order, this`dropped, this`kept
      ensures Mirrors(kept, order, expiry) && |order| < MAX_SALT_TOMBSTONES
      ensures Log() == old(Log()) && Spent(dropped, |Log()| + 1, clock)
      ensures expiry.Keys <= old(expiry.Keys)
    {
      while |expiry| >= MAX_SALT_TOMBSTONES
        invariant Mirrors(kept, order, expiry) && Spent(dropped, |Log()| + 1, clock)
        invariant |order| <= MAX_SALT_TOMBSTONES && Log() == old(Log())
        invariant expiry.Keys <= old(expiry.Keys)
        decreases |order|
      {
        Pop();
      }
    }

    /** Record an acceptance at `now`; `later` is the clock the pruning itself reads. */
    method Remember(salt: Salt, now: nat, later: nat)
      requires Valid() && clock <= now <= later
      requires !Blocked(Log(), salt, now)
      modifies this
      ensures Valid() && clock == later && Log() == old(Log()) + [Acceptance(salt, now)]
    {
      LookupAgrees(dropped, kept, order, expiry, clock, salt, now);
      SortedAppend(Log(), Acceptance(salt, now), later);
      Prune(later);
      assert salt !in expiry;
      MakeRoomAndPush(salt, now);
    }

    method MakeRoomAndPush(salt: Salt, now: nat)
      requires Valid() && salt !in expiry && Timely(Log() + [Acceptance(salt, now)], clock)
      modifies this`expiry, this`order, this`dropped, this`kept
      ensures Valid() && Log() == old(Log()) + [Acceptance(salt, now)]
    {
      Evict();
      Push(salt, now);
    }

    method Push(salt: Salt, now: nat)
      requires Mirrors(kept, order, expiry) && salt !in expiry
      modifies this`expiry, this`order, this`kept
      ensures Mirrors(kept, order, expiry) && |order| == |old(order)| + 1
      ensures Log() == old(Log()) + [Acceptance(salt, now)]
    {
      AppendNewest(kept, order, expiry, Acceptance(salt, now));
      order := order + [salt];
      expiry := expiry[salt := now + SALT_TOMBSTONE_TTL];
      kept := kept + [Acceptance(salt, now)];
    }
  }

  /** The map lookup and the log agree. */
  lemma LookupAgrees(dropped: seq<Acceptance>, kept: seq<Acceptance>, order: seq<Salt>, expiry: map<Salt, nat>,
                     clock: nat, salt: Salt, now: nat)
    requires Mirrors(kept, order, expiry) && Spent(dropped, |dropped + kept|, clock)
    requires |kept| <= MAX_SALT_TOMBSTONES && clock <= now
    ensures Blocked(dropped + kept, salt, now) <==> salt in expiry && expiry[salt] > now
  {
    var log := dropped + kept;
    if salt in expiry && expiry[salt] > now {
      var i :| 0 <= i < |order| && order[i] == salt;
      assert EntryOk(kept[i], order[i], expiry);
      assert Blocks(log, |dropped| + i, salt, now);
    }
    if Blocked(log, salt, now) {
      var j :| 0 <= j < |log| && Blocks(log, j, salt, now);
      assert j >= |dropped|;
      var i := j - |dropped|;
      assert EntryOk(kept[i], order[i], expiry);
    }
  }
}
