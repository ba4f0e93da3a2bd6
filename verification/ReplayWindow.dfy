/**
 * The receiver's sliding replay bitmap (crypto.cpp, check_replay_window and
 * commit_replay_window), proved to be a faithful 2048-bit summary of the set of
 * every counter committed so far.
 */
module Replay {

  const REPLAY_WINDOW_BITS: nat := 2048

  /**
   * What the window promises, without any window: a counter is acceptable when
   * it was never committed and no committed counter is more than the window
   * ahead of it.
   */
  ghost predicate Acceptable(seen: set<nat>, counter: nat)
  {
    counter !in seen && forall d | d in seen :: d <= counter + REPLAY_WINDOW_BITS
  }

  ghost predicate IsMax(seen: set<nat>, top: nat)
  {
    top in seen && forall d | d in seen :: d <= top
  }

  /** The same condition in terms of the greatest committed counter. */
  lemma AcceptableByHighest(seen: set<nat>, top: nat, counter: nat)
    requires IsMax(seen, top)
    ensures Acceptable(seen, counter) <==>
            counter > top || (counter !in seen && top - counter <= REPLAY_WINDOW_BITS)
  {
  }

  /** std::bitset's `<<=`: bit i takes the value of bit i - shift, low bits clear. */
  method ShiftLeft(bits: array<bool>, shift: nat)
    modifies bits
    ensures forall i :: 0 <= i < bits.Length ==> bits[i] == (i >= shift && old(bits[i - shift]))
  {
    var i := bits.Length;
    while i > 0
      invariant 0 <= i <= bits.Length
      invariant forall k :: 0 <= k < i ==> bits[k] == old(bits[k])
      invariant forall k :: i <= k < bits.Length ==> bits[k] == (k >= shift && old(bits[k - shift]))
    {
      i := i - 1;
      bits[i] := i >= shift && bits[i - shift];
    }
  }

  method Clear(bits: array<bool>)
    modifies bits
    ensures forall i :: 0 <= i < bits.Length ==> !bits[i]
  {
    for i := 0 to bits.Length
      invariant forall k :: 0 <= k < i ==> !bits[k]
    {
      bits[i] := false;
    }
  }

  class ReplayWindow {
    var anyReceived: bool
    var highest: nat
    const bits: array<bool>
    /** Every counter committed since the window was last reset. */
    ghost var seen: set<nat>

    ghost predicate Valid()
      reads this, bits
    {
      && bits.Length == REPLAY_WINDOW_BITS
      && (!anyReceived ==> seen == {} && highest == 0)
      && (anyReceived ==> IsMax(seen, highest))
      && (forall i :: 0 <= i < bits.Length ==> (bits[i] <==> highest >= i + 1 && highest - i - 1 in seen))
    }

    constructor ()
      ensures Valid() && fresh(bits) && seen == {}
    {
      anyReceived, highest, seen := false, 0, {};
      bits := new bool[REPLAY_WINDOW_BITS](_ => false);
    }

    method Check(counter: nat) returns (ok: bool)
      requires Valid()
      ensures ok <==> Acceptable(seen, counter)
    {
      if !anyReceived {
        return true;
      }
      AcceptableByHighest(seen, highest, counter);
      if counter > highest {
        return true;
      }
      if counter == highest {
        return false;
      }
      var offset := highest - counter;
      if offset > REPLAY_WINDOW_BITS {
        return false;
      }
      assert highest - (offset - 1) - 1 == counter;
      ok := !bits[offset - 1];
    }

    /** No precondition beyond Valid: any sequence of commits keeps the summary exact. */
    method Commit(counter: nat)
      requires Valid()
      modifies this, bits
      ensures Valid() && seen == old(seen) + {counter}
      ensures anyReceived
    {
      if !anyReceived {
        anyReceived, highest := true, counter;
        Clear(bits);
        seen := seen + {counter};
        return;
      }
      if counter > highest {
        var shift := counter - highest;
        if shift > REPLAY_WINDOW_BITS {
          Clear(bits);
        } else {
          ShiftLeft(bits, shift);
          bits[shift - 1] := true;
        }
        highest := counter;
        seen := seen + {counter};
        assert forall i :: 0 <= i < bits.Length && bits[i] ==> highest - i - 1 in seen;
        return;
      }
      if counter < highest {
        var offset := highest - counter;
        if offset <= REPLAY_WINDOW_BITS {
          bits[offset - 1] := true;
        }
      }
      seen := seen + {counter};
    }

    /** forget_learned_salt's part of the window state. */
    method Reset()
      requires Valid()
      modifies this, bits
      ensures Valid() && seen == {} && !anyReceived
    {
      anyReceived, highest, seen := false, 0, {};
      Clear(bits);
    }
  }
}
