/**
 * The two-level throttle in front of the server's authentication decrypt
 * (server.cpp, get_or_create_session). The receive path is serialized, so the
 * gate, the decrypt and the failure count of one datagram are one step.
 * Times are microseconds of a monotone clock.
 */
module AuthThrottle {
  import opened Bytes

  const MAX_AUTH_ATTEMPTS_PER_SEC: nat := 5000
  const MAX_AUTH_FAILURES_PER_ADDR_PER_SEC: nat := 20
  const MAX_TRACKED_AUTH_ADDRS: nat := 8192
  const SECOND: nat := 1000000

  type Address = seq<byte>

  datatype Verdict = DropBadAddress | DropBudget | Decrypted(ok: bool)

  /** One decrypt that was paid for: in which window, and as which attempt of it. */
  datatype Paid = Paid(time: nat, addr: Address, ok: bool, window: nat, start: nat, position: nat)

  function Failures(paid: seq<Paid>, addr: Address, window: nat): nat
  {
    if paid == [] then 0
    else
      var last := paid[|paid| - 1];
      Failures(paid[..|paid| - 1], addr, window)
      + if last.addr == addr && last.window == window && !last.ok then 1 else 0
  }

  ghost predicate InWindow(p: Paid)
  {
    p.start <= p.time < p.start + SECOND && p.position < MAX_AUTH_ATTEMPTS_PER_SEC
  }

  ghost predicate Next(a: Paid, b: Paid)
  {
    && a.time <= b.time
    && if b.window == a.window then b.start == a.start && b.position == a.position + 1
       else b.window == a.window + 1 && b.start >= a.start + SECOND && b.position == 0
  }

  /** The logs the throttle can produce. */
  ghost predicate Legal(paid: seq<Paid>)
  {
    && (forall i :: 0 <= i < |paid| ==> InWindow(paid[i]))
    && Chained(paid)
    && (forall i :: 0 <= i < |paid| ==> Gated(paid, i))
  }

  ghost predicate Chained(paid: seq<Paid>)
  {
    forall i :: 0 < i < |paid| ==> Next(paid[i - 1], paid[i])
  }

  ghost predicate Gated(paid: seq<Paid>, i: nat)
    requires i < |paid|
  {
    Failures(paid[..i], paid[i].addr, paid[i].window) < MAX_AUTH_FAILURES_PER_ADDR_PER_SEC
  }

  ghost function Sum(m: map<Address, nat>): nat
  {
    if m == map[] then 0 else var a :| a in m; m[a] + Sum(m - {a})
  }

  lemma {:induction false} SumSplit(m: map<Address, nat>, a: Address)
    requires a in m
    ensures Sum(m) == m[a] + Sum(m - {a})
    decreases |m|
  {
    var b :| b in m && Sum(m) == m[b] + Sum(m - {b});
    if a != b {
      SumSplit(m - {b}, a);
      SumSplit(m - {a}, b);
      assert m - {a} - {b} == m - {b} - {a};
    }
  }

  lemma SumUpdate(m: map<Address, nat>, a: Address, v: nat)
    ensures Sum(m[a := v]) == Sum(m - {a}) + v
    ensures a !in m ==> Sum(m - {a}) == Sum(m)
  {
    SumSplit(m[a := v], a);
    assert m[a := v] - {a} == m - {a};
    if a !in m {
      assert m - {a} == m;
    }
  }

  lemma {:induction false} SizeAtMostSum(m: map<Address, nat>)
    requires forall a | a in m :: m[a] >= 1
    ensures |m| <= Sum(m)
    decreases |m|
  {
    if m != map[] {
      var a :| a in m;
      SumSplit(m, a);
      SizeAtMostSum(m - {a});
      assert m.Keys == (m - {a}).Keys + {a};
    }
  }

  class Throttle {
    var attempts: nat
    var windowStart: nat
    var failures: map<Address, nat>
    ghost var paid: seq<Paid>
    ghost var window: nat
    ghost var clock: nat

    /**
     * The failure table is exactly the log's failures of this window, its
     * values add up to at most the attempts, and the attempts to at most 5000.
     */
    ghost predicate Valid()
      reads this
    {
      && Legal(paid)
      && windowStart <= clock
      && Tally(paid, failures, attempts, window)
      && (if paid == [] then attempts == 0
          else
            var last := paid[|paid| - 1];
            last.window == window && last.start == windowStart && last.position + 1 == attempts && last.time <= clock)
    }

    constructor ()
      ensures Valid() && paid == [] && windowStart == 0 && clock == 0
    {
      attempts, windowStart, failures := 0, 0, map[];
      paid, window, clock := [], 0, 0;
    }

    /** Is the datagram decrypted at all, and what is recorded about it. */
    method Attempt(addr: Address, now: nat, authOk: bool) returns (v: Verdict)
      requires Valid() && clock <= now
      modifies this
      ensures Valid() && clock == now
      ensures windowStart == if now - old(windowStart) >= SECOND then now else old(windowStart)
      ensures v == if now - old(windowStart) >= SECOND then Decrypted(authOk)
                   else if Failures(old(paid), addr, old(window)) >= MAX_AUTH_FAILURES_PER_ADDR_PER_SEC
                   then DropBadAddress
                   else if old(attempts) >= MAX_AUTH_ATTEMPTS_PER_SEC then DropBudget
                   else Decrypted(authOk)
      ensures !v.Decrypted? ==> paid == old(paid)
      ensures v.Decrypted? ==> |paid| == |old(paid)| + 1 && paid[..|old(paid)|] == old(paid)
                               && var p := paid[|old(paid)|]; p.time == now && p.addr == addr && p.ok == authOk
    {
      clock := now;
      if now - windowStart >= SECOND {
        OpenWindow(now);
      }
      if addr in failures && failures[addr] >= MAX_AUTH_FAILURES_PER_ADDR_PER_SEC {
        return DropBadAddress;
      }
      if attempts >= MAX_AUTH_ATTEMPTS_PER_SEC {
        return DropBudget;
      }
      Charge(addr, now, authOk);
      return Decrypted(authOk);
    }

    method OpenWindow(now: nat)
      requires Valid() && clock == now && now - windowStart >= SECOND
      modifies this`attempts, this`windowStart, this`failures, this`window
      ensures attempts == 0 && windowStart == now && failures == map[] && window == old(window) + 1
      ensures forall a: Address :: Failures(paid, a, window) == 0
    {
      NoFailuresYet(paid, window + 1);
      attempts, windowStart, failures, window := 0, now, map[], window + 1;
    }

    /** Count the attempt, and the failure when the decrypt failed. */
    method Charge(addr: Address, now: nat, authOk: bool)
      requires Legal(paid) && Tally(paid, failures, attempts, window) && windowStart <= now < windowStart + SECOND
      requires paid != [] ==> Next(paid[|paid| - 1], Paid(now, addr, authOk, window, windowStart, attempts))
      requires addr in failures ==> failures[addr] < MAX_AUTH_FAILURES_PER_ADDR_PER_SEC
      requires attempts < MAX_AUTH_ATTEMPTS_PER_SEC
      modifies this`attempts, this`failures, this`paid
      ensures Legal(paid) && Tally(paid, failures, attempts, window) && attempts == old(attempts) + 1
      ensures paid == old(paid) + [Paid(now, addr, authOk, window, windowStart, old(attempts))]
    {
      ghost var entry := Paid(now, addr, authOk, window, windowStart, attempts);
      Charged(paid, failures, attempts, window, entry);
      if !authOk {
        CountFailure(addr);
      }
      assert failures == Counted(old(failures), entry);
      attempts := attempts + 1;
      paid := paid + [entry];
    }

    /** The table is bounded by the attempts, so its own cap never turns an address away. */
    method CountFailure(addr: Address)
      requires Tally(paid, failures, attempts, window)
      modifies this`failures
      ensures failures == old(failures)[addr := if addr in old(failures) then old(failures)[addr] + 1 else 1]
    {
      SizeAtMostSum(failures);
      if addr in failures {
        failures := failures[addr := failures[addr] + 1];
      } else if |failures| < MAX_TRACKED_AUTH_ADDRS {
        failures := failures[addr := 1];
      }
    }
  }

  ghost predicate Tally(paid: seq<Paid>, failures: map<Address, nat>, attempts: nat, window: nat)
  {
    && Sum(failures) <= attempts <= MAX_AUTH_ATTEMPTS_PER_SEC
    && (forall a | a in failures :: 1 <= failures[a])
    && (forall a: Address :: Failures(paid, a, window) == if a in failures then failures[a] else 0)
  }

  lemma TallyAppend(paid: seq<Paid>, failures: map<Address, nat>, attempts: nat, window: nat, p: Paid)
    requires Tally(paid, failures, attempts, window) && attempts < MAX_AUTH_ATTEMPTS_PER_SEC && p.window == window
    ensures Tally(paid + [p], Counted(failures, p), attempts + 1, window)
  {
    assert (paid + [p])[..|paid|] == paid;
    SumUpdate(failures, p.addr, if p.addr in failures then failures[p.addr] + 1 else 1);
    if p.addr in failures {
      SumSplit(failures, p.addr);
    }
  }

  /** One more paid decrypt keeps the log legal and the table its tally. */
  lemma Charged(paid: seq<Paid>, failures: map<Address, nat>, attempts: nat, window: nat, p: Paid)
    requires Legal(paid) && Tally(paid, failures, attempts, window) && InWindow(p) && p.window == window
    requires paid != [] ==> Next(paid[|paid| - 1], p)
    requires attempts < MAX_AUTH_ATTEMPTS_PER_SEC
    requires p.addr in failures ==> failures[p.addr] < MAX_AUTH_FAILURES_PER_ADDR_PER_SEC
    ensures Legal(paid + [p])
    ensures Tally(paid + [p], Counted(failures, p), attempts + 1, window)
  {
    LegalAppend(paid, p);
    TallyAppend(paid, failures, attempts, window, p);
  }

  function Counted(failures: map<Address, nat>, p: Paid): map<Address, nat>
  {
    if p.ok then failures else failures[p.addr := if p.addr in failures then failures[p.addr] + 1 else 1]
  }

  lemma {:induction false} NoFailuresYet(paid: seq<Paid>, window: nat)
    requires Chained(paid)
    requires paid != [] ==> paid[|paid| - 1].window < window
    ensures forall a: Address :: Failures(paid, a, window) == 0
  {
    if paid != [] {
      var front := paid[..|paid| - 1];
      if front != [] {
        assert Next(paid[|paid| - 2], paid[|paid| - 1]);
      }
      NoFailuresYet(front, window);
    }
  }

  lemma LegalAppend(paid: seq<Paid>, p: Paid)
    requires Legal(paid) && InWindow(p)
    requires paid != [] ==> Next(paid[|paid| - 1], p)
    requires Failures(paid, p.addr, p.window) < MAX_AUTH_FAILURES_PER_ADDR_PER_SEC
    ensures Legal(paid + [p])
  {
    ChainedAppend(paid, p);
    forall i | 0 <= i < |paid + [p]| ensures Gated(paid + [p], i) {
      GatedAppend(paid, p, i);
    }
  }

  lemma ChainedAppend(paid: seq<Paid>, p: Paid)
    requires Chained(paid) && (paid != [] ==> Next(paid[|paid| - 1], p))
    ensures Chained(paid + [p])
  {
  }

  lemma GatedAppend(paid: seq<Paid>, p: Paid, i: nat)
    requires i <= |paid| && (i < |paid| ==> Gated(paid, i))
    requires Failures(paid, p.addr, p.window) < MAX_AUTH_FAILURES_PER_ADDR_PER_SEC
    ensures Gated(paid + [p], i)
  {
    assert (paid + [p])[..i] == if i < |paid| then paid[..i] else paid;
  }

  // ---- what every run pays for ----

  /** No address is ever charged more than 20 failed decrypts in one window, whoever else sends. */
  lemma {:induction false} FailuresPerAddress(paid: seq<Paid>, addr: Address, window: nat)
    requires Legal(paid)
    ensures Failures(paid, addr, window) <= MAX_AUTH_FAILURES_PER_ADDR_PER_SEC
  {
    if paid != [] {
      var n := |paid| - 1;
      LegalPrefix(paid, n);
      assert Gated(paid, n);
      FailuresPerAddress(paid[..n], addr, window);
    }
  }

  lemma LegalPrefix(paid: seq<Paid>, n: nat)
    requires Legal(paid) && n <= |paid|
    ensures Legal(paid[..n])
  {
    forall i | 0 <= i < n ensures Gated(paid[..n], i) {
      assert Gated(paid, i);
      assert paid[..n][..i] == paid[..i];
    }
  }

  /** Windows count the attempts: at most 5000 log entries per window number. */
  lemma {:induction false} AttemptsPerWindow(paid: seq<Paid>, i: nat, j: nat)
    requires Legal(paid) && i <= j < |paid|
    ensures paid[i].window <= paid[j].window
    ensures j - i <= MAX_AUTH_ATTEMPTS_PER_SEC * (paid[j].window - paid[i].window) + paid[j].position - paid[i].position
    ensures paid[j].start >= paid[i].start + SECOND * (paid[j].window - paid[i].window)
  {
    if i < j {
      AttemptsPerWindow(paid, i, j - 1);
      assert InWindow(paid[j - 1]) && Next(paid[j - 1], paid[j]);
    }
  }

  /** Any span of T seconds pays for at most 5000 * (floor(T) + 2) decrypts. */
  lemma DecryptsPerSpan(paid: seq<Paid>, i: nat, j: nat)
    requires Legal(paid) && i <= j < |paid|
    ensures j - i + 1 <= MAX_AUTH_ATTEMPTS_PER_SEC * ((paid[j].time - paid[i].time) / SECOND + 2)
  {
    AttemptsPerWindow(paid, i, j);
    assert InWindow(paid[i]) && InWindow(paid[j]);
    var windows := paid[j].window - paid[i].window;
    assert windows > 0 ==> paid[j].time - paid[i].time > SECOND * (windows - 1);
    assert windows <= (paid[j].time - paid[i].time) / SECOND + 1;
  }
}
