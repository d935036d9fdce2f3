/** The restart backoff, on 64-bit nanosecond durations that wrap around. */
module Backoff {
  const TWO_63: int := 0x8000_0000_0000_0000
  const TWO_64: int := 0x1_0000_0000_0000_0000
  const MILLISECOND: int := 1_000_000
  const MAX_BACKOFF: int := 10_000 * MILLISECOND
  const FAST: int := 100 * MILLISECOND

  newtype Duration = d: int | -0x8000_0000_0000_0000 <= d < 0x8000_0000_0000_0000

  /** Twice a duration, reduced to 64 bits in two's complement. */
  function Twice(d: Duration): Duration {
    var x := 2 * (d as int);
    (if x >= TWO_63 then x - TWO_64 else if x < -TWO_63 then x + TWO_64 else x) as Duration
  }

  /** The wait after one more fast empty session. */
  function Doubled(current: Duration): Duration {
    if Twice(current) as int > MAX_BACKOFF then MAX_BACKOFF as Duration else Twice(current)
  }

  /** The wait after `sessions`, given for each whether it was a fast empty one. */
  function Current(base: Duration, sessions: seq<bool>): Duration {
    if sessions == [] || !sessions[|sessions| - 1] then base
    else Doubled(Current(base, sessions[..|sessions| - 1]))
  }

  /** How many fast empty sessions the run ends with. */
  function Streak(sessions: seq<bool>): nat {
    if sessions == [] || !sessions[|sessions| - 1] then 0 else 1 + Streak(sessions[..|sessions| - 1])
  }

  function Pow2(k: nat): nat {
    if k == 0 then 1 else 2 * Pow2(k - 1)
  }

  function Min(a: int, b: int): int {
    if a < b then a else b
  }

  /** The closed form: exponential in the streak, capped at ten seconds. */
  function Closed(base: Duration, k: nat): int {
    if k == 0 then base as int else Min(base as int * Pow2(k), MAX_BACKOFF)
  }

  lemma {:induction false} CurrentIsClosed(base: Duration, sessions: seq<bool>)
    requires 0 <= base as int < TWO_63 / 2
    ensures Current(base, sessions) as int == Closed(base, Streak(sessions))
  {
    if sessions != [] && sessions[|sessions| - 1] {
      var before := sessions[..|sessions| - 1];
      CurrentIsClosed(base, before);
      DoubledIsClosed(base, Streak(before));
    }
  }

  lemma DoubledIsClosed(base: Duration, k: nat)
    requires 0 <= base as int < TWO_63 / 2
    requires -TWO_63 <= Closed(base, k) < TWO_63
    ensures Doubled(Closed(base, k) as Duration) as int == Closed(base, k + 1)
  {
    var b, p := base as int, Pow2(k);
    assert Pow2(k + 1) == 2 * p;
    assert b * (2 * p) == 2 * (b * p);
    assert k == 0 ==> b * p == b;
    assert b * p >= 0;
  }

  function AllFast(k: nat): seq<bool> {
    seq(k, i => true)
  }

  lemma {:induction false} StreakOfAllFast(k: nat)
    ensures Streak(AllFast(k)) == k
  {
    if k > 0 {
      assert AllFast(k)[..k - 1] == AllFast(k - 1);
      StreakOfAllFast(k - 1);
    }
  }

  lemma {:induction false} Pow2At64()
    ensures Pow2(64) == TWO_64
  {
    assert Pow2(8) == 0x100;
    assert Pow2(16) == 0x1_0000;
    assert Pow2(24) == 0x100_0000;
    assert Pow2(32) == 0x1_0000_0000;
    assert Pow2(40) == 0x100_0000_0000;
    assert Pow2(48) == 0x1_0000_0000_0000;
    assert Pow2(56) == 0x100_0000_0000_0000;
  }

  /** Exactly when the closed form holds: a base that is not negative and cannot overflow when doubled.
      (`Start` never passes 0.) */
  lemma ClosedFormExactly(base: Duration)
    ensures (forall sessions :: Current(base, sessions) as int == Closed(base, Streak(sessions)))
       <==> 0 <= base as int < TWO_63 / 2
  {
    if 0 <= base as int < TWO_63 / 2 {
      forall sessions ensures Current(base, sessions) as int == Closed(base, Streak(sessions)) {
        CurrentIsClosed(base, sessions);
      }
    } else if base < 0 {
      var run := AllFast(64);
      StreakOfAllFast(64);
      Pow2At64();
      assert Current(base, run) as int != Closed(base, Streak(run));
    } else {
      var run := AllFast(1);
      StreakOfAllFast(1);
      assert run[..0] == [];
      assert Pow2(1) == 2;
      assert Current(base, run) as int != Closed(base, Streak(run));
    }
  }

  /** No wait is ever longer than the base or the cap, even when doubling overflows. */
  lemma {:induction false} WaitBounded(base: Duration, sessions: seq<bool>)
    ensures Current(base, sessions) as int <= if base as int < MAX_BACKOFF then MAX_BACKOFF else base as int
  {}
}
