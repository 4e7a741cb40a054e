/**
 * The gimbal's two pulse-width accumulators (yaw and pitch, in
 * microseconds) and their update from one D-pad reading per loop tick.
 *
 * The program keeps the accumulators as module-level variables that
 * `processHat` changes in place; here they are the fields of class
 * `Gimbal`. The pure side (`Pose`, `Step`, `Iterate`, `Run`) is the
 * specification the method is proved against and the lemmas talk about.
 */
module Gimbal {
  import opened DPad

  /** The neutral pulse width both accumulators start from. */
  const Neutral: int := 1500

  /** The change, in microseconds, of one axis for one pressed reading. */
  const Increment: int := 50

  /** The customary servo band; nothing in the update enforces it. */
  const BandLow: int := 500
  const BandHigh: int := 2500

  /** A value of the two accumulators. */
  datatype Pose = Pose(yaw: int, pitch: int)

  /** The state at start-up. */
  const Initial: Pose := Pose(Neutral, Neutral)

  /**
   * Reference definition of one update: a well-formed reading moves yaw by
   * `Increment * h` and pitch by `Increment * v`; anything else does nothing.
   */
  function Step(p: Pose, hat: Hat): (r: Pose)
    ensures r == p <==> !IsDirection(hat)
    ensures -Increment <= r.yaw - p.yaw <= Increment
    ensures -Increment <= r.pitch - p.pitch <= Increment
  {
    if IsReading(hat) then Pose(p.yaw + Increment * hat.0, p.pitch + Increment * hat.1)
    else p
  }

  /** The same reading held for `n` consecutive ticks. */
  function Iterate(p: Pose, hat: Hat, n: nat): (r: Pose)
    ensures IsReading(hat) ==>
      r == Pose(p.yaw + n * (Increment * hat.0), p.pitch + n * (Increment * hat.1))
    ensures !IsReading(hat) ==> r == p
  {
    if n == 0 then p else Step(Iterate(p, hat, n - 1), hat)
  }

  /** Net yaw deflection of a sequence of readings (ill-formed ones count as 0). */
  function SumH(hats: seq<Hat>): int {
    if hats == [] then 0
    else (if IsReading(hats[0]) then hats[0].0 else 0) + SumH(hats[1..])
  }

  /** Net pitch deflection of a sequence of readings (ill-formed ones count as 0). */
  function SumV(hats: seq<Hat>): int {
    if hats == [] then 0
    else (if IsReading(hats[0]) then hats[0].1 else 0) + SumV(hats[1..])
  }

  /** The effect of the polling loop: one `Step` per reading, first reading first. */
  function Run(p: Pose, hats: seq<Hat>): (r: Pose)
    decreases |hats|
    ensures r == Pose(p.yaw + Increment * SumH(hats), p.pitch + Increment * SumV(hats))
  {
    if hats == [] then p else Run(Step(p, hats[0]), hats[1..])
  }

  /** Up and Down change only pitch, by +50 and -50. */
  lemma UpDown(p: Pose)
    ensures Step(p, (0, 1)) == Pose(p.yaw, p.pitch + 50)
    ensures Step(p, (0, -1)) == Pose(p.yaw, p.pitch - 50)
  {
  }

  /** Left and Right change only yaw, by -50 and +50. */
  lemma LeftRight(p: Pose)
    ensures Step(p, (-1, 0)) == Pose(p.yaw - 50, p.pitch)
    ensures Step(p, (1, 0)) == Pose(p.yaw + 50, p.pitch)
  {
  }

  /** Each diagonal moves both axes by 50 in the direction of its components. */
  lemma Diagonals(p: Pose)
    ensures Step(p, (1, 1)) == Pose(p.yaw + 50, p.pitch + 50)
    ensures Step(p, (-1, 1)) == Pose(p.yaw - 50, p.pitch + 50)
    ensures Step(p, (1, -1)) == Pose(p.yaw + 50, p.pitch - 50)
    ensures Step(p, (-1, -1)) == Pose(p.yaw - 50, p.pitch - 50)
    ensures Step(Initial, (-1, -1)) == Pose(1450, 1450)
  {
  }

  /** Two successive updates commute. */
  lemma Commute(p: Pose, a: Hat, b: Hat)
    ensures Step(Step(p, a), b) == Step(Step(p, b), a)
  {
  }

  /** The label says "not pressed" exactly when the update leaves the pose alone. */
  lemma NotPressedIffNoOp(p: Pose, hat: Hat)
    ensures DpadStatus(hat) == NotPressed <==> Step(p, hat) == p
  {
  }

  lemma {:induction false} SumsAppend(a: seq<Hat>, b: seq<Hat>)
    ensures SumH(a + b) == SumH(a) + SumH(b)
    ensures SumV(a + b) == SumV(a) + SumV(b)
  {
    if a == [] {
      assert a + b == b;
    } else {
      assert (a + b)[1..] == a[1..] + b;
      SumsAppend(a[1..], b);
    }
  }

  /** Reordering the readings of a run does not change where the gimbal ends up. */
  lemma {:induction false} RunOrderIndependent(p: Pose, a: seq<Hat>, b: seq<Hat>)
    requires multiset(a) == multiset(b)
    ensures Run(p, a) == Run(p, b)
  {
    SumsPermutation(a, b);
  }

  /** Taking the reading at index `k` out of a sequence takes its share out of both sums. */
  lemma {:induction false} SumsRemove(b: seq<Hat>, k: nat)
    requires k < |b|
    ensures SumH(b) == SumH([b[k]]) + SumH(b[..k] + b[k + 1..])
    ensures SumV(b) == SumV([b[k]]) + SumV(b[..k] + b[k + 1..])
  {
    var pre, x, post := b[..k], [b[k]], b[k + 1..];
    assert b == (pre + x) + post;
    SumsAppend(pre + x, post);
    SumsAppend(pre, x);
    SumsAppend(pre, post);
  }

  lemma {:induction false} SumsPermutation(a: seq<Hat>, b: seq<Hat>)
    requires multiset(a) == multiset(b)
    ensures SumH(a) == SumH(b) && SumV(a) == SumV(b)
    decreases |a|
  {
    if a == [] {
      assert |b| == |multiset(b)| == 0;
    } else {
      var x := a[0];
      assert x in multiset(b);
      var k :| 0 <= k < |b| && b[k] == x;
      var rest := b[..k] + b[k + 1..];
      assert multiset(a[1..]) == multiset(rest) by {
        assert b == b[..k] + [x] + b[k + 1..];
        assert a == [x] + a[1..];
        assert multiset(a[1..]) == multiset(a) - multiset([x]);
        assert multiset(rest) == multiset(b) - multiset([x]);
      }
      SumsPermutation(a[1..], rest);
      SumsRemove(b, k);
      SumsAppend([x], a[1..]);
      assert a == [x] + a[1..];
    }
  }

  /** Holding Right for `n` ticks from start-up puts yaw at `1500 + 50 * n`. */
  lemma DriftRight(n: nat)
    ensures Iterate(Initial, (1, 0), n) == Pose(Neutral + Increment * n, Neutral)
  {
  }

  /** Nothing clamps the accumulator: held long enough, yaw exceeds any bound. */
  lemma DriftUnbounded(bound: int)
    ensures exists n: nat :: Iterate(Initial, (1, 0), n).yaw > bound
  {
    var n: nat := if bound < Neutral then 0 else (bound - Neutral) / Increment + 1;
    DriftRight(n);
    assert Iterate(Initial, (1, 0), n).yaw > bound;
  }

  /** In particular the band 500..2500 is left after 21 ticks of Right. */
  lemma LeavesBand()
    ensures Iterate(Initial, (1, 0), 21).yaw > BandHigh
    ensures Iterate(Initial, (-1, 0), 21).yaw < BandLow
  {
    var right, left := Iterate(Initial, (1, 0), 21), Iterate(Initial, (-1, 0), 21);
    assert IsReading((1, 0)) && IsReading((-1, 0));
    assert right.yaw == Neutral + 21 * Increment;
    assert left.yaw == Neutral - 21 * Increment;
  }

  /** The accumulators `gymbalYaw` and `gymbalPitch`. */
  class Gimbal {
    var yaw: int
    var pitch: int

    /** Both accumulators start at the neutral 1500 microseconds. */
    constructor ()
      ensures yaw == 1500 && pitch == 1500
      ensures Current() == Initial
    {
      yaw := Neutral;
      pitch := Neutral;
    }

    function Current(): Pose
      reads this
    {
      Pose(yaw, pitch)
    }

    /**
     * `processHat`: the if/elif chain over the eight direction tuples, each
     * branch adding or subtracting `Increment` on one or both accumulators.
     * There is no else branch and no clamping.
     */
    method ProcessHat(hat: Hat)
      modifies this
      ensures IsReading(hat) ==>
        yaw == old(yaw) + Increment * hat.0 && pitch == old(pitch) + Increment * hat.1
      ensures !IsReading(hat) ==> yaw == old(yaw) && pitch == old(pitch)
      ensures (yaw == old(yaw) && pitch == old(pitch)) <==> DpadStatus(hat) == NotPressed
      ensures Current() == Step(old(Current()), hat)
    {
      if hat == (0, 1) {
        pitch := pitch + Increment;
      } else if hat == (0, -1) {
        pitch := pitch - Increment;
      } else if hat == (-1, 0) {
        yaw := yaw - Increment;
      } else if hat == (1, 0) {
        yaw := yaw + Increment;
      } else if hat == (1, 1) {
        pitch := pitch + Increment;
        yaw := yaw + Increment;
      } else if hat == (-1, 1) {
        pitch := pitch + Increment;
        yaw := yaw - Increment;
      } else if hat == (1, -1) {
        pitch := pitch - Increment;
        yaw := yaw + Increment;
      } else if hat == (-1, -1) {
        pitch := pitch - Increment;
        yaw := yaw - Increment;
      }
    }
  }

  /** What a caller of the class can conclude from the contracts alone. */
  method Scenario()
  {
    var g := new Gimbal();
    g.ProcessHat((1, 0));
    assert g.yaw == 1550 && g.pitch == 1500;
    g.ProcessHat((0, 0));
    assert g.yaw == 1550 && g.pitch == 1500;
    g.ProcessHat((-1, -1));
    assert g.yaw == 1500 && g.pitch == 1450;
    g.ProcessHat((2, 0));
    assert g.Current() == Pose(1500, 1450);
  }
}
