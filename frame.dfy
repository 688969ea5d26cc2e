/** The per-frame pass and the preset-1 spawn rule of src/loop.cpp, stated over
  values: a population is the list of its particles' states `ks` together with
  their attributes `ps`, in list order.

  The pass updates the live list in place: when particle j acts, particles
  0..j-1 have already moved this frame and j+1.. have not. `Pass` states that
  order; `SnapshotPass` is the start-of-frame alternative that the program does
  not implement, kept here to show that the two differ. */
module FramePass {
  import opened FluidPhysics

  /** The mouse as polled once per frame: the cursor position in whole pixels and
      the two buttons. */
  datatype Mouse = Mouse(x: int, y: int, left: bool, right: bool)

  /** Every particle's attributes satisfy what the step relies on. */
  predicate AllValid(ps: seq<Params>) {
    forall j :: 0 <= j < |ps| ==> ValidParams(ps[j])
  }

  /** The mouse forces on one particle: drain toward the cursor while the left
      button is held, then repel from it while the right button is held. */
  function Forced(k: Kinematics, p: Params, m: Mouse): (r: Kinematics)
    requires p.speed > 0.0
    ensures r.x == k.x && r.y == k.y
    ensures !m.left && !m.right ==> r == k
    ensures Abs(r.vx - k.vx) <= 2.0 * PointForceLimit && Abs(r.vy - k.vy) <= 2.0 * PointForceLimit
  {
    var a := if m.left then Drain(k, p, m.x as real, m.y as real) else k;
    if m.right then Repel(a, p, m.x as real, m.y as real) else a
  }

  /** Holding both buttons cancels exactly: drain leaves the position alone, so
      repel computes the same force from the same position and undoes it. */
  lemma BothButtonsCancel(k: Kinematics, p: Params, x: int, y: int)
    requires p.speed > 0.0
    ensures Forced(k, p, Mouse(x, y, true, true)) == k
  {
    var d := Drain(k, p, x as real, y as real);
    RepelNegatesDrain(d, p, x as real, y as real);
    assert Drain(d, p, x as real, y as real).vx - d.vx == Drain(k, p, x as real, y as real).vx - k.vx;
    assert Drain(d, p, x as real, y as real).vy - d.vy == Drain(k, p, x as real, y as real).vy - k.vy;
  }

  /** The mouse forces move no particle: forcing particle j leaves the
      positions of the list as they were. */
  lemma ForcedKeepsPositions(ks: seq<Kinematics>, ps: seq<Params>, j: nat, m: Mouse)
    requires |ps| == |ks| && AllValid(ps) && j < |ks|
    ensures PointsOf(ks[j := Forced(ks[j], ps[j], m)]) == PointsOf(ks)
  {
    var a := PointsOf(ks[j := Forced(ks[j], ps[j], m)]);
    var b := PointsOf(ks);
    assert forall i :: 0 <= i < |ks| ==> a[i] == b[i];
  }

  /** The loop of a frame in the abstract: iterations 0..n-1 in list order,
      iteration j replacing entry j by `turn(live, j)`, computed from the list
      `live` as it stands at that moment. */
  function Sweep(ks: seq<Kinematics>, n: nat, turn: (seq<Kinematics>, nat) -> Kinematics): (r: seq<Kinematics>)
    requires n <= |ks|
    ensures |r| == |ks|
  {
    if n == 0 then ks
    else
      var live := Sweep(ks, n - 1, turn);
      live[n - 1 := turn(live, n - 1)]
  }

  /** Entries whose turn has not come yet are untouched. */
  lemma {:induction false} SweepPending(ks: seq<Kinematics>, n: nat, turn: (seq<Kinematics>, nat) -> Kinematics, j: nat)
    requires n <= j < |ks|
    ensures Sweep(ks, n, turn)[j] == ks[j]
  {
    if n > 0 {
      SweepPending(ks, n - 1, turn, j);
    }
  }

  /** An entry that has had its turn is never touched again: each entry is
      replaced exactly once. */
  lemma {:induction false} SweepSettled(ks: seq<Kinematics>, n: nat, n': nat, turn: (seq<Kinematics>, nat) -> Kinematics, j: nat)
    requires j < n <= n' <= |ks|
    ensures Sweep(ks, n', turn)[j] == Sweep(ks, n, turn)[j]
    decreases n'
  {
    if n' > n {
      SweepSettled(ks, n, n' - 1, turn, j);
    }
  }

  /** When entry j's turn comes, the list holds the final values of the entries
      before it and the initial values of it and those after it. */
  lemma SweepPrefix(ks: seq<Kinematics>, turn: (seq<Kinematics>, nat) -> Kinematics, j: nat)
    requires j <= |ks|
    ensures var fin := Sweep(ks, |ks|, turn);
            Sweep(ks, j, turn) == fin[..j] + ks[j..]
  {
    var fin := Sweep(ks, |ks|, turn);
    var cur := Sweep(ks, j, turn);
    forall i | 0 <= i < |ks|
      ensures cur[i] == (fin[..j] + ks[j..])[i]
    {
      if i < j {
        SweepSettled(ks, j, |ks|, turn, i);
      } else {
        SweepPending(ks, j, turn, i);
      }
    }
  }

  /** The final value of entry j is its turn computed from the final values of
      the entries before it and the initial values of it and those after it. */
  lemma SweepVisibility(ks: seq<Kinematics>, turn: (seq<Kinematics>, nat) -> Kinematics, j: nat)
    requires j < |ks|
    ensures var fin := Sweep(ks, |ks|, turn);
            fin[j] == turn(fin[..j] + ks[j..], j)
  {
    SweepPrefix(ks, turn, j);
    SweepSettled(ks, j + 1, |ks|, turn, j);
  }

  /** Iteration j of the frame loop: particle j of the live list gets the mouse
      forces, then acts against the positions of the list as it stands. The
      forces move nothing, so these are the positions of `live` itself
      (`TurnReadsLiveList` states it with the forced state in place). With
      neither button held, or both, the iteration is the bare act. */
  function Turn(ps: seq<Params>, m: Mouse, width: real, height: real, live: seq<Kinematics>, j: nat): (r: Kinematics)
    requires AllValid(ps) && j < |live| && j < |ps|
    requires width > 0.0 && height > 0.0
    ensures m.left == m.right ==> r == Act(live[j], ps[j], PointsOf(live), width, height)
  {
    BothButtonsCancel(live[j], ps[j], m.x, m.y);
    Act(Forced(live[j], ps[j], m), ps[j], PointsOf(live), width, height)
  }

  /** The list act reads in iteration j holds particle j's forced state. */
  lemma TurnReadsLiveList(ps: seq<Params>, m: Mouse, width: real, height: real, live: seq<Kinematics>, j: nat)
    requires |ps| == |live| && AllValid(ps) && j < |live|
    requires width > 0.0 && height > 0.0
    ensures var forced := live[j := Forced(live[j], ps[j], m)];
            Turn(ps, m, width, height, live, j) == Act(forced[j], ps[j], PointsOf(forced), width, height)
  {
    ForcedKeepsPositions(live, ps, j, m);
  }

  /** `Turn` as the step of a sweep. The sweep asks only for entries of the list,
      so the value for an index past its end is never used. */
  function FrameTurn(ps: seq<Params>, m: Mouse, width: real, height: real): (seq<Kinematics>, nat) -> Kinematics
    requires AllValid(ps)
    requires width > 0.0 && height > 0.0
  {
    (live: seq<Kinematics>, j: nat) =>
      if j < |live| && j < |ps| then Turn(ps, m, width, height, live, j) else Kinematics(0.0, 0.0, 0.0, 0.0)
  }

  /** `turn` agrees with `Turn` wherever `Turn` is defined. The quantifier is
      triggered only by `Turn` itself, so a proof about a sweep with such a step
      need not look into the physics of each iteration. */
  ghost predicate StepsAsTurn(turn: (seq<Kinematics>, nat) -> Kinematics,
                              ps: seq<Params>, m: Mouse, width: real, height: real)
  {
    && AllValid(ps) && width > 0.0 && height > 0.0
    && forall live: seq<Kinematics>, j: nat {:trigger Turn(ps, m, width, height, live, j)} ::
         j < |live| && j < |ps| ==> turn(live, j) == Turn(ps, m, width, height, live, j)
  }

  /** The frame's step is such a step. */
  lemma FrameTurnStepsAsTurn(ps: seq<Params>, m: Mouse, width: real, height: real)
    requires AllValid(ps) && width > 0.0 && height > 0.0
    ensures StepsAsTurn(FrameTurn(ps, m, width, height), ps, m, width, height)
  {
  }

  /** Iteration `i` of a sweep with such a step: the forces on particle `i`,
      then its act against the list with the forced state in place. */
  lemma SweepStepByTurn(ks: seq<Kinematics>, i: nat, turn: (seq<Kinematics>, nat) -> Kinematics,
                        ps: seq<Params>, m: Mouse, width: real, height: real)
    requires StepsAsTurn(turn, ps, m, width, height) && |ps| == |ks| && i < |ks|
    ensures var cur := Sweep(ks, i, turn);
            var forced := cur[i := Forced(cur[i], ps[i], m)];
            Sweep(ks, i + 1, turn) == forced[i := Act(forced[i], ps[i], PointsOf(forced), width, height)]
  {
    var cur := Sweep(ks, i, turn);
    TurnReadsLiveList(ps, m, width, height, cur, i);
    assert turn(cur, i) == Turn(ps, m, width, height, cur, i);
  }

  /** The first `n` iterations of the frame loop (src/loop.cpp), in list order. */
  function Pass(ks: seq<Kinematics>, ps: seq<Params>, n: nat, m: Mouse, width: real, height: real): (r: seq<Kinematics>)
    requires |ps| == |ks| && AllValid(ps) && n <= |ks|
    requires width > 0.0 && height > 0.0
    ensures |r| == |ks|
  {
    Sweep(ks, n, FrameTurn(ps, m, width, height))
  }

  /** The final state of particle j is its act, after the mouse forces, against
      the positions of the already-moved particles before it and the not-yet-moved
      particles from it on. */
  lemma SequentialVisibility(ks: seq<Kinematics>, ps: seq<Params>, m: Mouse, width: real, height: real, j: nat)
    requires |ps| == |ks| && AllValid(ps) && j < |ks|
    requires width > 0.0 && height > 0.0
    ensures var fin := Pass(ks, ps, |ks|, m, width, height);
            var f := Forced(ks[j], ps[j], m);
            fin[j] == Act(f, ps[j], PointsOf(fin[..j] + ks[j..]), width, height)
  {
    var fin := Pass(ks, ps, |ks|, m, width, height);
    SweepVisibility(ks, FrameTurn(ps, m, width, height), j);
    var live := fin[..j] + ks[j..];
    assert |live| == |ks| && live[j] == ks[j];
    assert fin[j] == Turn(ps, m, width, height, live, j);
  }

  /** The alternative the program does not implement: every particle reads the
      start-of-frame positions. */
  function SnapshotPass(ks: seq<Kinematics>, ps: seq<Params>, m: Mouse, width: real, height: real): (r: seq<Kinematics>)
    requires |ps| == |ks| && AllValid(ps)
    requires width > 0.0 && height > 0.0
    ensures |r| == |ks|
    ensures forall j :: 0 <= j < |ks| ==>
      r[j] == Act(Forced(ks[j], ps[j], m), ps[j], PointsOf(ks), width, height)
    decreases |ks|
  {
    SnapshotFrom(ks, ps, m, width, height, |ks|)
  }

  function SnapshotFrom(ks: seq<Kinematics>, ps: seq<Params>, m: Mouse, width: real, height: real, n: nat): (r: seq<Kinematics>)
    requires |ps| == |ks| && AllValid(ps) && n <= |ks|
    requires width > 0.0 && height > 0.0
    ensures |r| == n
    ensures forall j :: 0 <= j < n ==>
      r[j] == Act(Forced(ks[j], ps[j], m), ps[j], PointsOf(ks), width, height)
  {
    if n == 0 then []
    else SnapshotFrom(ks, ps, m, width, height, n - 1)
         + [Act(Forced(ks[n - 1], ps[n - 1], m), ps[n - 1], PointsOf(ks), width, height)]
  }

  /** Attributes under which the order of the pass is easy to follow: no
      damping, no gravity, unit speed. */
  const Undamped := Params(1.0, 1.0, 0.0, 1.0 * DampLimitRatio)

  /** The pairwise loop over a list of two positions is the two pair steps in order. */
  lemma AccumulatePair(s0: Sums, x: real, y: real, speed: real, pts: seq<Point>)
    requires speed > 0.0 && |pts| == 2
    ensures Accumulate(s0, x, y, speed, pts)
              == PairStep(PairStep(s0, x, y, speed, pts[0]), x, y, speed, pts[1])
  {
    assert pts[..1][..0] == [];
    assert Accumulate(s0, x, y, speed, pts[..1]) == PairStep(s0, x, y, speed, pts[0]);
  }

  /** A particle at rest three pixels left of another is pushed left and up by
      the full offset and velocity bounds. */
  lemma {:induction false} PushedApart(x: real, y: real, width: real, height: real)
    requires 1.0 <= x && x + 3.0 <= width && 1.0 <= y <= height
    ensures Act(Kinematics(x, y, 0.0, 0.0), Undamped, [Point(x, y), Point(x + 3.0, y)], width, height)
              == Kinematics(x - 0.6, y - 0.6, -0.2, -0.2)
  {
    var k := Kinematics(x, y, 0.0, 0.0);
    var pts := [Point(x, y), Point(x + 3.0, y)];
    var s0 := Start(k, Undamped);
    SelfPairSkipped(s0, x, y, 1.0);
    var s1 := PairStep(s0, x, y, 1.0, pts[1]);
    assert s1 == Sums(-0.4, -0.4, -0.2, -0.2, 1.0 / 81.0);
    AccumulatePair(s0, x, y, 1.0, pts);
    assert Integrate(k, Undamped, pts) == Kinematics(x - 0.6, y - 0.6, -0.2, -0.2);
  }

  /** The right-hand particle of that pair, against the start-of-frame
      positions, is pushed up by the full offset and velocity bounds. */
  lemma {:induction false} SecondAgainstSnapshot(x: real, y: real, width: real, height: real)
    requires 1.0 <= x && x + 3.0 <= width && 1.0 <= y <= height
    ensures Act(Kinematics(x + 3.0, y, 0.0, 0.0), Undamped, [Point(x, y), Point(x + 3.0, y)], width, height).y
              == y - 0.6
  {
    var k := Kinematics(x + 3.0, y, 0.0, 0.0);
    var s0 := Start(k, Undamped);
    var pts := [Point(x, y), Point(x + 3.0, y)];
    var u := PairStep(s0, x + 3.0, y, 1.0, pts[0]);
    assert u.yOff == -0.4 && u.vy == -0.2 && u.distSum >= 0.0 by {
      var dx := x + 3.0 - x;
      var dy := y - y;
      assert SqDist(dx, dy) == 9.0;
      PairScalePositive(SqDist(dx, dy), 1.0);
      RepulsionUnfolds(s0, dx, dy, 1.0);
      assert SqDist(dx, dy) * SqDist(dx, dy) / 1.0 == 81.0;
      NudgedSaturates(s0.yOff, dy - 1.0, 81.0 * 0.01, OffsetLimit);
      NudgedSaturates(s0.vy, dy - 1.0, 81.0 * 0.0002, NudgeLimit);
    }
    SelfPairSkipped(u, x + 3.0, y, 1.0);
    AccumulatePair(s0, x + 3.0, y, 1.0, pts);
    assert Integrate(k, Undamped, pts).y == y - 0.6;
  }

  /** The right-hand particle of that pair, against its neighbour after the
      neighbour's move, is pushed up by less than the offset bound. */
  lemma {:induction false} SecondAgainstLive(x: real, y: real, width: real, height: real)
    requires 1.0 <= x && x + 3.0 <= width && 1.0 <= y <= height
    ensures Act(Kinematics(x + 3.0, y, 0.0, 0.0), Undamped, [Point(x - 0.6, y - 0.6), Point(x + 3.0, y)], width, height).y
              > y - 0.6
  {
    var k := Kinematics(x + 3.0, y, 0.0, 0.0);
    var s0 := Start(k, Undamped);
    var pts := [Point(x - 0.6, y - 0.6), Point(x + 3.0, y)];
    var t := PairStep(s0, x + 3.0, y, 1.0, pts[0]);
    assert t.yOff > -0.4 && t.vy == -0.2 && t.distSum >= 0.0 by {
      var dx := x + 3.0 - (x - 0.6);
      var dy := y - (y - 0.6);
      assert SqDist(dx, dy) == 13.32;
      PairScalePositive(SqDist(dx, dy), 1.0);
      RepulsionUnfolds(s0, dx, dy, 1.0);
      var scaled := SqDist(dx, dy) * SqDist(dx, dy) / 1.0;
      assert scaled == 177.4224;
      NudgedAbove(s0.yOff, dy - 1.0, scaled * 0.01, OffsetLimit);
      NudgedSaturates(s0.vy, dy - 1.0, scaled * 0.0002, NudgeLimit);
    }
    SelfPairSkipped(t, x + 3.0, y, 1.0);
    AccumulatePair(s0, x + 3.0, y, 1.0, pts);
    assert Integrate(k, Undamped, pts).y > y - 0.6;
  }

  /** The in-place order is observable: of two particles at rest three pixels
      apart, the first moves before the second acts, so the second ends the
      frame at a different height than it would against the start-of-frame
      positions. */
  lemma LiveListDiffersFromSnapshot(x: real, y: real, width: real, height: real)
    requires 1.0 <= x && x + 3.0 <= width && 1.0 <= y <= height
    ensures var ks := [Kinematics(x, y, 0.0, 0.0), Kinematics(x + 3.0, y, 0.0, 0.0)];
            var m := Mouse(0, 0, false, false);
            Pass(ks, [Undamped, Undamped], 2, m, width, height)[1].y
              != SnapshotPass(ks, [Undamped, Undamped], m, width, height)[1].y
  {
    var ks := [Kinematics(x, y, 0.0, 0.0), Kinematics(x + 3.0, y, 0.0, 0.0)];
    var ps := [Undamped, Undamped];
    var m := Mouse(0, 0, false, false);
    assert PointsOf(ks) == [Point(x, y), Point(x + 3.0, y)];
    PushedApart(x, y, width, height);
    assert AllValid(ps);
    var turn := FrameTurn(ps, m, width, height);
    var ks1 := Sweep(ks, 1, turn);
    assert Sweep(ks, 0, turn) == ks;
    assert ks1 == ks[0 := Turn(ps, m, width, height, ks, 0)];
    assert ks1 == [Kinematics(x - 0.6, y - 0.6, -0.2, -0.2), ks[1]];
    assert PointsOf(ks1) == [Point(x - 0.6, y - 0.6), Point(x + 3.0, y)];
    SecondAgainstSnapshot(x, y, width, height);
    SecondAgainstLive(x, y, width, height);
    assert Sweep(ks, 2, turn)[1] == Turn(ps, m, width, height, ks1, 1);
  }

  /** The population cap of preset 1. */
  const SpawnCap: nat := 200
  /** Preset 1 spawns on every fourth frame. */
  const SpawnPeriod: nat := 4
  /** `framecount` is an `unsigned int`: it counts modulo 2^32. */
  const FrameModulus: nat := 0x1_0000_0000

  /** The frame counter after one more frame, wrapping as an `unsigned int` does. */
  function NextFrame(framecount: nat): (r: nat)
    requires framecount < FrameModulus
    ensures r < FrameModulus
    ensures framecount + 1 < FrameModulus ==> r == framecount + 1
    ensures framecount + 1 == FrameModulus ==> r == 0
  {
    (framecount + 1) % FrameModulus
  }

  /** The wrap-around does not disturb the spawn cadence, because 2^32 is a
      multiple of the spawn period. */
  lemma CadenceSurvivesWrap(framecount: nat)
    requires framecount < FrameModulus
    ensures NextFrame(framecount) % SpawnPeriod == (framecount + 1) % SpawnPeriod
  {
    if framecount + 1 == FrameModulus {
      assert FrameModulus == SpawnPeriod * 0x4000_0000;
    }
  }

  /** Whether preset 1 spawns a water particle on this frame, given the population
      size and the already-incremented frame counter. */
  predicate SpawnDue(size: nat, framecount: nat) {
    size < SpawnCap && framecount % SpawnPeriod == 0
  }

  /** Water comes every fourth frame until the cap: a frame that spawns grows
      the list by one, the three frames after it do not spawn, and the fourth
      does exactly when the grown list is still under the cap. */
  lemma SpawnCadence(size: nat, framecount: nat)
    requires SpawnDue(size, framecount)
    ensures !SpawnDue(size + 1, framecount + 1) && !SpawnDue(size + 1, framecount + 2) && !SpawnDue(size + 1, framecount + 3)
    ensures SpawnDue(size + 1, framecount + SpawnPeriod) <==> size + 1 < SpawnCap
  {
  }

  /** `random(bottom, top)`: the draw `u` of `rand() / RAND_MAX`, in [0, 1],
      scaled onto the range between the two bounds. */
  function Random(u: real, bottom: real, top: real): (r: real)
    requires 0.0 <= u <= 1.0
    ensures bottom <= top ==> bottom <= r <= top
    ensures top <= bottom ==> top <= r <= bottom
    ensures u == 0.0 ==> r == bottom
    ensures u == 1.0 ==> r == top
  {
    FractionBetween(u, top - bottom);
    u * (top - bottom) + bottom
  }

  lemma FractionBetween(u: real, d: real)
    requires 0.0 <= u <= 1.0
    ensures d >= 0.0 ==> 0.0 <= u * d <= d
    ensures d <= 0.0 ==> d <= u * d <= 0.0
  {
    if d >= 0.0 {
      assert u * d <= 1.0 * d;
    } else {
      assert u * (-d) <= 1.0 * (-d);
    }
  }

  /** The attributes of preset 1's water: little damping and high speed. */
  const Water := Params(0.995, 0.85, 0.12, 0.995 * DampLimitRatio)

  /** The spawn point of water. */
  const WaterSpawnX: real := 5.0
  const WaterSpawnY: real := 250.0

  /** The colour of water, for the renderer only. */
  const WaterRed: real := 0.1
  const WaterGreen: real := 0.8
  const WaterBlue: real := 0.9

  /** A newly spawned water particle, from the two draws of its velocity. */
  function WaterSpawn(u1: real, u2: real): (k: Kinematics)
    requires 0.0 <= u1 <= 1.0 && 0.0 <= u2 <= 1.0
    ensures k.x == WaterSpawnX && k.y == WaterSpawnY
    ensures 6.0 <= k.vx <= 12.0 && -8.0 <= k.vy <= -5.0
  {
    Kinematics(WaterSpawnX, WaterSpawnY, Random(u1, 6.0, 12.0), Random(u2, -8.0, -5.0))
  }
}
