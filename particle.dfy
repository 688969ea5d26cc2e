/** One fluid particle (`fluid_c`, src/fluid.hpp and src/fluid.cpp): position and
  velocity that its methods update in place, and attributes fixed at construction.
  Each method is proved to compute the matching function of FluidPhysics. */
module FluidParticle {
  import opened FluidPhysics

  class Particle {
    var x: real
    var y: real
    var speedx: real
    var speedy: real
    const damp: real
    const speed: real
    const gravity: real
    const extraDampLimit: real
    /** Colour, carried for the renderer only. */
    const r: real
    const g: real
    const b: real

    /** The attributes the physics reads. */
    function Attributes(): Params {
      Params(damp, speed, gravity, extraDampLimit)
    }

    /** The current position and velocity. */
    function State(): Kinematics
      reads this
    {
      Kinematics(x, y, speedx, speedy)
    }

    /** The attributes satisfy what the step relies on. */
    predicate Valid() {
      ValidParams(Attributes())
    }

    constructor (x0: real, y0: real, speedx0: real, speedy0: real,
                 dampMult: real, speedMult: real, gravity0: real,
                 r0: real, g0: real, b0: real)
      ensures x == x0 && y == y0 && speedx == speedx0 && speedy == speedy0
      ensures damp == dampMult && speed == speedMult && gravity == gravity0
      ensures extraDampLimit == dampMult * DampLimitRatio
      ensures r == r0 && g == g0 && b == b0
      ensures 0.0 < dampMult <= 1.0 && speedMult > 0.0 ==> Valid()
    {
      x, y := x0, y0;
      speedx, speedy := speedx0, speedy0;
      damp, speed, gravity := dampMult, speedMult, gravity0;
      extraDampLimit := dampMult * 0.4;
      r, g, b := r0, g0, b0;
    }

    /** `fluid_c::act`: one step of this particle against the live population
        `fluid` (which normally holds this particle too). Only this particle changes:
        the others are read, never written. */
    method Act(fluid: seq<Particle>, width: real, height: real)
      requires Valid()
      requires width > 0.0 && height > 0.0
      modifies this
      ensures State() == FluidPhysics.Act(old(State()), Attributes(), old(PointsOf(States(fluid))), width, height)
    {
      ghost var k0 := State();
      ghost var pts := PointsOf(States(fluid));
      var xOff, yOff, distSum := Gather(fluid);
      ghost var k1 := State();
      ghost var sums := Sums(xOff, yOff, speedx, speedy, distSum);
      assert Finish(k1, Attributes(), sums) == Finish(k0, Attributes(), sums);
      Settle(xOff, yOff, distSum);
      assert State() == Integrate(k0, Attributes(), pts);
      Bounce(width, height);
    }

    /** The damping and gravity of act, then its pairwise loop against the live
        population `fluid`: the direct offsets and the sum of inverse distances
        are returned, and the velocity is summed in the velocity fields
        themselves. The position does not change. */
    method Gather(fluid: seq<Particle>) returns (xOff: real, yOff: real, distSum: real)
      requires Valid()
      modifies this
      ensures x == old(x) && y == old(y)
      ensures Sums(xOff, yOff, speedx, speedy, distSum)
           == Accumulate(Start(old(State()), Attributes()), x, y, speed, old(PointsOf(States(fluid))))
    {
      ghost var pts := PointsOf(States(fluid));
      ghost var k0 := State();
      speedx := speedx * damp;
      speedy := speedy + gravity;
      speedy := speedy * damp;
      // the direct offsets and the sum of inverse distances of the pairwise loop;
      // the velocity is summed in speedx and speedy themselves
      xOff, yOff, distSum := 0.0, 0.0, 0.0;
      ghost var s0 := Sums(xOff, yOff, speedx, speedy, distSum);
      assert s0 == Start(k0, Attributes());
      var i := 0;
      while i < |fluid|
        invariant 0 <= i <= |fluid|
        invariant x == old(x) && y == old(y)
        invariant forall j :: 0 <= j < |fluid| ==> pts[j] == Point(fluid[j].x, fluid[j].y)
        invariant Sums(xOff, yOff, speedx, speedy, distSum) == Accumulate(s0, x, y, speed, pts[..i])
      {
        assert pts[..i + 1][..i] == pts[..i];
        ghost var before := Sums(xOff, yOff, speedx, speedy, distSum);
        xOff, yOff, distSum := Nudge(x - fluid[i].x, y - fluid[i].y, xOff, yOff, distSum);
        assert Sums(xOff, yOff, speedx, speedy, distSum) == PairStep(before, x, y, speed, pts[i]);
        i := i + 1;
      }
      assert pts[..|fluid|] == pts;
    }

    /** One iteration of act's pairwise loop, against a neighbour at offset
        (dx, dy): a neighbour farther than one unit adds its clamped offsets to
        the running offsets, its clamped nudges to the velocity fields and its
        inverse squared distance to the sum. The position does not change. */
    method Nudge(dx: real, dy: real, xOff: real, yOff: real, distSum: real)
        returns (xOff': real, yOff': real, distSum': real)
      requires Valid()
      modifies this
      ensures x == old(x) && y == old(y)
      ensures Sums(xOff', yOff', speedx, speedy, distSum')
           == Repulsion(Sums(xOff, yOff, old(speedx), old(speedy), distSum), dx, dy, speed)
    {
      xOff', yOff', distSum' := xOff, yOff, distSum;
      var dist := SqDist(dx, dy);
      if dist > 1.0 {
        // the vertical offset is biased by one unit, so that particles float slightly
        var dy1 := dy - 1.0;
        PairScalePositive(dist, speed);
        dist := dist * dist;
        distSum' := distSum' + 1.0 / dist;
        dist := dist / speed;
        var mult := dist * 0.01;
        xOff' := xOff' + Clamp(dx / mult, -OffsetLimit, OffsetLimit);
        yOff' := yOff' + Clamp(dy1 / mult, -OffsetLimit, OffsetLimit);
        dist := dist * 0.0002;
        speedx := speedx + Clamp(dx / dist, -NudgeLimit, NudgeLimit);
        speedy := speedy + Clamp(dy1 / dist, -NudgeLimit, NudgeLimit);
        RepulsionUnfolds(Sums(xOff, yOff, old(speedx), old(speedy), distSum), dx, dy, speed);
        assert mult == SqDist(dx, dy) * SqDist(dx, dy) / speed * 0.01;
        assert dist == SqDist(dx, dy) * SqDist(dx, dy) / speed * 0.0002;
      }
    }

    /** The end of act's integration: the crowding damp on the velocity summed
        so far, then the move by the direct offsets plus that velocity. */
    method Settle(xOff: real, yOff: real, distSum: real)
      modifies this
      ensures State() == Finish(old(State()), Attributes(), Sums(xOff, yOff, old(speedx), old(speedy), distSum))
    {
      ghost var settled := Finish(State(), Attributes(), Sums(xOff, yOff, speedx, speedy, distSum));
      var extraDamp := CrowdFactor(damp, extraDampLimit, distSum);
      speedx := speedx * extraDamp;
      speedy := speedy * extraDamp;
      x := x + (xOff + speedx);
      y := y + (yOff + speedy);
      assert State() == settled;
    }

    /** The collisions at the end of act: an inelastic bounce off the left,
        right and bottom edges of a `width` by `height` screen. */
    method Bounce(width: real, height: real)
      requires width > 0.0 && height > 0.0
      modifies this
      ensures State() == Reflect(old(State()), width, height)
    {
      if x < 0.0 {
        speedx := -speedx * 0.5;
        x := -x;
      } else if x > width {
        speedx := -speedx * 0.5;
        x := width * 2.0 - x;
      }
      if y > height {
        speedy := -speedy * 0.5;
        y := height * 2.0 - y;
      }
    }

    /** `fluid_c::drain`: pull this particle's velocity toward (px, py). */
    method Drain(px: real, py: real)
      requires Valid()
      modifies this
      ensures State() == FluidPhysics.Drain(old(State()), Attributes(), px, py)
    {
      var dx := x - px;
      var dy := y - py;
      var dist := dx * dx + dy * dy;
      ghost var k := State();
      assert dist == SqDist(k.x - px, k.y - py);
      if dist > 1.0 {
        PointScalePositive(dist, speed);
        dist := PointScale(dist, speed);
        assert dist == PointScale(SqDist(k.x - px, k.y - py), Attributes().speed);
        speedx := speedx - Clamp(dx / dist, -PointForceLimit, PointForceLimit);
        speedy := speedy - Clamp(dy / dist, -PointForceLimit, PointForceLimit);
      }
    }

    /** `fluid_c::repel`: push this particle's velocity away from (px, py). */
    method Repel(px: real, py: real)
      requires Valid()
      modifies this
      ensures State() == FluidPhysics.Repel(old(State()), Attributes(), px, py)
    {
      var dx := x - px;
      var dy := y - py;
      var dist := dx * dx + dy * dy;
      ghost var k := State();
      assert dist == SqDist(k.x - px, k.y - py);
      if dist > 1.0 {
        PointScalePositive(dist, speed);
        dist := PointScale(dist, speed);
        assert dist == PointScale(SqDist(k.x - px, k.y - py), Attributes().speed);
        speedx := speedx + Clamp(dx / dist, -PointForceLimit, PointForceLimit);
        speedy := speedy + Clamp(dy / dist, -PointForceLimit, PointForceLimit);
      }
    }
  }

  /** The positions and velocities of a population, in list order. */
  function States(fluid: seq<Particle>): (ks: seq<Kinematics>)
    reads fluid
    ensures |ks| == |fluid|
    ensures forall j :: 0 <= j < |fluid| ==> ks[j] == fluid[j].State()
  {
    if fluid == [] then []
    else States(fluid[..|fluid| - 1]) + [fluid[|fluid| - 1].State()]
  }

  /** The attributes of a population, in list order. */
  function AttributesOf(fluid: seq<Particle>): (ps: seq<Params>)
    ensures |ps| == |fluid|
    ensures forall j :: 0 <= j < |fluid| ==> ps[j] == fluid[j].Attributes()
  {
    if fluid == [] then []
    else AttributesOf(fluid[..|fluid| - 1]) + [fluid[|fluid| - 1].Attributes()]
  }
}
