/** The physics rules of one fluid particle (src/fluid.cpp), stated over `real`.

  Every operation here is a pure function of a particle's position and velocity,
  its immutable attributes and the positions it reads from the population. The
  imperative particle class in FluidParticle is proved to compute exactly these
  functions; the lemmas below state what they promise.
 */
module FluidPhysics {

  /** A screen position; the part of another particle that the step reads. */
  datatype Point = Point(x: real, y: real)

  /** The immutable attributes of a particle. */
  datatype Params = Params(damp: real, speed: real, gravity: real, extraDampLimit: real)

  /** The mutable state of a particle: position and velocity. */
  datatype Kinematics = Kinematics(x: real, y: real, vx: real, vy: real)

  /** The running totals of the pairwise loop of one step: the direct position
      offset, the velocity being nudged, and the sum of inverse fourth-power distances. */
  datatype Sums = Sums(xOff: real, yOff: real, vx: real, vy: real, distSum: real)

  /** Per-neighbour bound on the direct position offset, per axis. */
  const OffsetLimit: real := 0.4
  /** Per-neighbour bound on the velocity change, per axis. */
  const NudgeLimit: real := 0.2
  /** Bound on the velocity change of one drain or repel, per axis. */
  const PointForceLimit: real := 0.8
  /** The floor of the crowding damp is this fraction of the damping coefficient. */
  const DampLimitRatio: real := 0.4

  /** What the step relies on in a particle's attributes without checking it. */
  predicate ValidParams(p: Params) {
    && 0.0 < p.damp <= 1.0
    && p.speed > 0.0
    && p.extraDampLimit == p.damp * DampLimitRatio
  }

  function Abs(v: real): real {
    if v < 0.0 then -v else v
  }

  /** The `clamp` macro: `v` when it is in range, otherwise the bound it crossed. */
  function Clamp(v: real, lo: real, hi: real): (r: real)
    ensures lo <= hi ==> lo <= r <= hi
    ensures lo <= v <= hi ==> r == v
    ensures r == v || r == lo || r == hi
  {
    if v < lo then lo else if v > hi then hi else v
  }

  /** Squared distance of an offset; the step never takes a square root. */
  function SqDist(dx: real, dy: real): real {
    dx * dx + dy * dy
  }

  /** A point interacts with a particle at (x, y) only when it is more than one unit away. */
  predicate Interacts(x: real, y: real, o: Point) {
    SqDist(x - o.x, y - o.y) > 1.0
  }

  /** The positions of a list of states, in order. */
  function PointsOf(ks: seq<Kinematics>): (pts: seq<Point>)
    ensures |pts| == |ks|
    ensures forall j :: 0 <= j < |ks| ==> pts[j] == Point(ks[j].x, ks[j].y)
  {
    seq(|ks|, j requires 0 <= j < |ks| => Point(ks[j].x, ks[j].y))
  }

  lemma SquareAboveOne(d: real)
    requires d > 1.0
    ensures d * d > 1.0
  {
    assert d * d > d * 1.0;
  }

  lemma QuotientPositive(a: real, b: real)
    requires a > 0.0 && b > 0.0
    ensures a / b > 0.0
  {
    var q := a / b;
    assert q * b == a;
  }

  /** The divisor of the pairwise terms is positive for a pair that interacts. */
  lemma PairScalePositive(dist: real, speed: real)
    requires dist > 1.0 && speed > 0.0
    ensures dist * dist > 1.0 && dist * dist / speed > 0.0
  {
    SquareAboveOne(dist);
    QuotientPositive(dist * dist, speed);
  }

  /** The divisor of drain and repel: the squared distance `dist`, squared
      again and scaled by the particle's speed attribute. */
  function PointScale(dist: real, speed: real): real
    requires speed > 0.0
  {
    dist * (dist * 0.000001 / speed)
  }

  /** The divisor of drain and repel is positive for a point that interacts. */
  lemma PointScalePositive(dist: real, speed: real)
    requires dist > 1.0 && speed > 0.0
    ensures PointScale(dist, speed) > 0.0
  {
    QuotientPositive(dist * 0.000001, speed);
    var q := dist * 0.000001 / speed;
    assert dist * q > 1.0 * q;
  }

  /** The arithmetic of `PairStep`, written over the offsets (dx, dy) = (x - o.x,
      y - o.y) that act computes first, for a particle with speed attribute
      `speed`. A neighbour within one unit is skipped. It has no contract of its
      own, so that a proof unfolding the step does not also bring in
      `PairStep`'s contract. */
  function Repulsion(s: Sums, dx: real, dy: real, speed: real): Sums
    requires speed > 0.0
  {
    var dist := SqDist(dx, dy);
    if dist <= 1.0 then s
    else
      // the vertical offset is biased by one unit, so that particles float slightly
      var dy1 := dy - 1.0;
      PairScalePositive(dist, speed);
      var dist2 := dist * dist;
      var scaled := dist2 / speed;
      var mult := scaled * 0.01;
      var vdiv := scaled * 0.0002;
      Sums(Nudged(s.xOff, dx, mult, OffsetLimit),
           Nudged(s.yOff, dy1, mult, OffsetLimit),
           Nudged(s.vx, dx, vdiv, NudgeLimit),
           Nudged(s.vy, dy1, vdiv, NudgeLimit),
           s.distSum + 1.0 / dist2)
  }

  /** A running total after adding d / divisor, clamped to [-limit, limit]. */
  function Nudged(total: real, d: real, divisor: real, limit: real): real
    requires divisor > 0.0
  {
    total + Clamp(d / divisor, -limit, limit)
  }

  /** The step against a neighbour farther than one unit, written out; `scaled`
      is the squared distance squared again over the speed attribute. */
  lemma RepulsionUnfolds(s: Sums, dx: real, dy: real, speed: real)
    requires speed > 0.0 && SqDist(dx, dy) > 1.0
    requires SqDist(dx, dy) * SqDist(dx, dy) / speed > 0.0
    ensures var r := Repulsion(s, dx, dy, speed);
            var scaled := SqDist(dx, dy) * SqDist(dx, dy) / speed;
      && r.xOff == Nudged(s.xOff, dx, scaled * 0.01, OffsetLimit)
      && r.yOff == Nudged(s.yOff, dy - 1.0, scaled * 0.01, OffsetLimit)
      && r.vx == Nudged(s.vx, dx, scaled * 0.0002, NudgeLimit)
      && r.vy == Nudged(s.vy, dy - 1.0, scaled * 0.0002, NudgeLimit)
      && r.distSum == s.distSum + 1.0 / (SqDist(dx, dy) * SqDist(dx, dy))
  {
    PairScalePositive(SqDist(dx, dy), speed);
  }

  /** The proof of `PairStep`'s contract, over the offsets: a neighbour farther
      than one unit pushes the particle away from it, along dx and, vertically,
      along dy - 1, by at most 0.4 in offset and 0.2 in velocity per axis, and
      adds a positive amount to the distance sum. */
  lemma RepulsionBounds(s: Sums, dx: real, dy: real, speed: real)
    requires speed > 0.0
    ensures var r := Repulsion(s, dx, dy, speed);
      && (SqDist(dx, dy) <= 1.0 ==> r == s)
      && (SqDist(dx, dy) > 1.0 ==>
        && Abs(r.xOff - s.xOff) <= OffsetLimit && Abs(r.yOff - s.yOff) <= OffsetLimit
        && Abs(r.vx - s.vx) <= NudgeLimit && Abs(r.vy - s.vy) <= NudgeLimit
        && r.distSum > s.distSum
        && (dx > 0.0 ==> r.xOff > s.xOff && r.vx > s.vx)
        && (dx < 0.0 ==> r.xOff < s.xOff && r.vx < s.vx)
        && (dx == 0.0 ==> r.xOff == s.xOff && r.vx == s.vx)
        && (dy - 1.0 > 0.0 ==> r.yOff > s.yOff && r.vy > s.vy)
        && (dy - 1.0 < 0.0 ==> r.yOff < s.yOff && r.vy < s.vy)
        && (dy - 1.0 == 0.0 ==> r.yOff == s.yOff && r.vy == s.vy))
  {
    var dist := SqDist(dx, dy);
    if dist > 1.0 {
      PairScalePositive(dist, speed);
      RepulsionUnfolds(s, dx, dy, speed);
      var scaled := dist * dist / speed;
      NudgedSign(s.xOff, dx, scaled * 0.01, OffsetLimit);
      NudgedSign(s.yOff, dy - 1.0, scaled * 0.01, OffsetLimit);
      NudgedSign(s.vx, dx, scaled * 0.0002, NudgeLimit);
      NudgedSign(s.vy, dy - 1.0, scaled * 0.0002, NudgeLimit);
      QuotientPositive(1.0, dist * dist);
    }
  }

  /** One iteration of the pairwise loop of act: the particle at (x, y) with
      speed attribute `speed` against the particle at `o`. A neighbour within one
      unit is skipped; any other pushes the particle away from itself. */
  function PairStep(s: Sums, x: real, y: real, speed: real, o: Point): (r: Sums)
    requires speed > 0.0
    ensures !Interacts(x, y, o) ==> r == s
    ensures Interacts(x, y, o) ==>
      && Abs(r.xOff - s.xOff) <= OffsetLimit && Abs(r.yOff - s.yOff) <= OffsetLimit
      && Abs(r.vx - s.vx) <= NudgeLimit && Abs(r.vy - s.vy) <= NudgeLimit
      && r.distSum > s.distSum
    ensures Interacts(x, y, o) ==>
      && (x - o.x > 0.0 ==> r.xOff > s.xOff && r.vx > s.vx)
      && (x - o.x < 0.0 ==> r.xOff < s.xOff && r.vx < s.vx)
      && (x - o.x == 0.0 ==> r.xOff == s.xOff && r.vx == s.vx)
      && (y - o.y - 1.0 > 0.0 ==> r.yOff > s.yOff && r.vy > s.vy)
      && (y - o.y - 1.0 < 0.0 ==> r.yOff < s.yOff && r.vy < s.vy)
      && (y - o.y - 1.0 == 0.0 ==> r.yOff == s.yOff && r.vy == s.vy)
  {
    RepulsionBounds(s, x - o.x, y - o.y, speed);
    Repulsion(s, x - o.x, y - o.y, speed)
  }

  /** The pairwise loop of act over the positions `pts`, in list order, from `s0`.
      The distance sum grows exactly when some neighbour interacts, and with no
      interacting neighbour nothing changes. */
  function Accumulate(s0: Sums, x: real, y: real, speed: real, pts: seq<Point>): (r: Sums)
    requires speed > 0.0
    ensures r.distSum >= s0.distSum
    ensures r.distSum == s0.distSum <==> Contributing(x, y, pts) == 0
    ensures Contributing(x, y, pts) == 0 ==> r == s0
    decreases |pts|
  {
    if pts == [] then s0
    else PairStep(Accumulate(s0, x, y, speed, pts[..|pts| - 1]), x, y, speed, pts[|pts| - 1])
  }

  /** How many of `pts` interact with a particle at (x, y). */
  function Contributing(x: real, y: real, pts: seq<Point>): nat
    decreases |pts|
  {
    if pts == [] then 0
    else Contributing(x, y, pts[..|pts| - 1]) + (if Interacts(x, y, pts[|pts| - 1]) then 1 else 0)
  }

  /** Each interacting neighbour moves each running total by at most its clamp
      bound, non-interacting ones not at all, and the distance sum only grows. */
  lemma {:induction false} AccumulateBounds(s0: Sums, x: real, y: real, speed: real, pts: seq<Point>)
    requires speed > 0.0
    ensures var r := Accumulate(s0, x, y, speed, pts);
            var n := Contributing(x, y, pts) as real;
            && Abs(r.xOff - s0.xOff) <= OffsetLimit * n
            && Abs(r.yOff - s0.yOff) <= OffsetLimit * n
            && Abs(r.vx - s0.vx) <= NudgeLimit * n
            && Abs(r.vy - s0.vy) <= NudgeLimit * n
            && r.distSum >= s0.distSum
    decreases |pts|
  {
    if pts != [] {
      AccumulateBounds(s0, x, y, speed, pts[..|pts| - 1]);
    }
  }

  /** A particle paired with itself (dx = dy = 0) contributes nothing. */
  lemma SelfPairSkipped(s: Sums, x: real, y: real, speed: real)
    requires speed > 0.0
    ensures !Interacts(x, y, Point(x, y))
    ensures PairStep(s, x, y, speed, Point(x, y)) == s
  {
  }

  /** Adding a quotient by a positive number, clamped to [-c, c], moves a total
      by at most c, in the direction of the numerator's sign. */
  lemma NudgedSign(total: real, a: real, b: real, c: real)
    requires b > 0.0 && c > 0.0
    ensures Abs(Nudged(total, a, b, c) - total) <= c
    ensures a > 0.0 ==> Nudged(total, a, b, c) > total
    ensures a < 0.0 ==> Nudged(total, a, b, c) < total
    ensures a == 0.0 ==> Nudged(total, a, b, c) == total
  {
    StrictSignOfQuotient(a, b);
  }

  /** A numerator at or below -c times the divisor saturates the clamp. */
  lemma NudgedSaturates(total: real, a: real, b: real, c: real)
    requires b > 0.0 && c > 0.0 && a <= -c * b
    ensures Nudged(total, a, b, c) == total - c
  {
    assert a / b * b == a;
    if a / b > -c {
      assert a / b * b > -c * b;
    }
  }

  /** A numerator in [-c, 0] over a divisor above one moves the total by less
      than c. */
  lemma NudgedAbove(total: real, a: real, b: real, c: real)
    requires b > 1.0 && c > 0.0 && -c <= a <= 0.0
    ensures Nudged(total, a, b, c) > total - c
  {
    QuotientAbove(a, b, c);
    StrictSignOfQuotient(a, b);
  }

  lemma QuotientAbove(a: real, b: real, c: real)
    requires b > 1.0 && c > 0.0 && -c <= a <= 0.0
    ensures a / b > -c
  {
    var q := a / b;
    StrictSignOfQuotient(a, b);
    assert q * b == a;
    assert q * (1.0 - b) == q - a;
    if a < 0.0 {
      assert q * (1.0 - b) > 0.0;
    }
  }

  /** A quotient by a positive number has the sign of its numerator. */
  lemma StrictSignOfQuotient(a: real, b: real)
    requires b > 0.0
    ensures a > 0.0 ==> a / b > 0.0
    ensures a < 0.0 ==> a / b < 0.0
    ensures a == 0.0 ==> a / b == 0.0
  {
    if a > 0.0 {
      QuotientPositive(a, b);
    } else if a < 0.0 {
      QuotientPositive(-a, b);
      assert (-a) / b == -(a / b);
    }
  }

  /** The crowding damp: damps harder as the sum of inverse distances grows,
      never below `limit`. */
  function CrowdFactor(damp: real, limit: real, distSum: real): (r: real)
    ensures r >= limit
    ensures damp <= 1.0 && distSum >= 0.0 && limit <= 1.0 ==> r <= 1.0
    ensures distSum == 0.0 && limit <= 1.0 ==> r == 1.0
    ensures r > limit ==> r == 1.0 + (damp - 1.0) * distSum * 20000.0
    ensures 1.0 + (damp - 1.0) * distSum * 20000.0 >= limit ==> r == 1.0 + (damp - 1.0) * distSum * 20000.0
  {
    var e := 1.0 + (damp - 1.0) * distSum * 20000.0;
    NonPositiveProduct(damp - 1.0, distSum);
    if e < limit then limit else e
  }

  lemma NonPositiveProduct(a: real, b: real)
    ensures a <= 0.0 && b >= 0.0 ==> a * b <= 0.0
  {
    if a <= 0.0 && b >= 0.0 {
      assert (-a) * b >= 0.0;
    }
  }

  /** Step 1 of act: damping and gravity on the velocity, with the pairwise
      totals still empty. */
  function Start(k: Kinematics, p: Params): (r: Sums)
    ensures r.xOff == 0.0 && r.yOff == 0.0 && r.distSum == 0.0
  {
    Sums(0.0, 0.0, k.vx * p.damp, (k.vy + p.gravity) * p.damp, 0.0)
  }

  /** The crowding damp on the accumulated velocity, then the move by the
      direct offset plus that velocity. The damp never speeds a component up
      and never slows it below the floor; with no neighbour it does nothing. */
  function Finish(k: Kinematics, p: Params, s: Sums): (r: Kinematics)
    ensures r.x - k.x - r.vx == s.xOff && r.y - k.y - r.vy == s.yOff
    ensures ValidParams(p) && s.distSum >= 0.0 ==>
      Abs(r.vx) <= Abs(s.vx) && Abs(r.vy) <= Abs(s.vy)
    ensures ValidParams(p) && s.distSum >= 0.0 ==>
      p.extraDampLimit * Abs(s.vx) <= Abs(r.vx) && p.extraDampLimit * Abs(s.vy) <= Abs(r.vy)
    ensures ValidParams(p) && s.distSum == 0.0 ==> r.vx == s.vx && r.vy == s.vy
  {
    var e := CrowdFactor(p.damp, p.extraDampLimit, s.distSum);
    ScaledBetween(s.vx, e, p.extraDampLimit);
    ScaledBetween(s.vy, e, p.extraDampLimit);
    var vx := s.vx * e;
    var vy := s.vy * e;
    Kinematics(k.x + (s.xOff + vx), k.y + (s.yOff + vy), vx, vy)
  }

  /** Damping and gravity, the pairwise loop, the crowding damp and the
      position update of act: everything before the edge reflection. */
  function Integrate(k: Kinematics, p: Params, pts: seq<Point>): (r: Kinematics)
    requires p.speed > 0.0
    ensures ValidParams(p) && Contributing(k.x, k.y, pts) == 0 ==> r == Coast(k, p)
  {
    Finish(k, p, Accumulate(Start(k, p), k.x, k.y, p.speed, pts))
  }

  /** Inelastic bounce off the left, right and bottom screen edges of a
      `width` by `height` screen; nothing happens at the top. */
  function Reflect(k: Kinematics, width: real, height: real): (r: Kinematics)
    requires width > 0.0 && height > 0.0
    ensures k.x < 0.0 ==> r.x == -k.x && r.vx == -k.vx / 2.0
    ensures width < k.x ==> r.x == 2.0 * width - k.x && r.vx == -k.vx / 2.0
    ensures 0.0 <= k.x <= width ==> r.x == k.x && r.vx == k.vx
    ensures height < k.y ==> r.y == 2.0 * height - k.y && r.vy == -k.vy / 2.0
    ensures k.y <= height ==> r.y == k.y && r.vy == k.vy
    ensures -width <= k.x <= 2.0 * width ==> 0.0 <= r.x <= width
    ensures k.y <= 2.0 * height ==> r.y <= height
    ensures Abs(r.vx) <= Abs(k.vx) && Abs(r.vy) <= Abs(k.vy)
  {
    var x :=
      if k.x < 0.0 then -k.x
      else if k.x > width then width * 2.0 - k.x
      else k.x;
    var vx := if k.x < 0.0 || k.x > width then -k.vx * 0.5 else k.vx;
    var y := if k.y > height then height * 2.0 - k.y else k.y;
    var vy := if k.y > height then -k.vy * 0.5 else k.vy;
    Kinematics(x, y, vx, vy)
  }

  /** One full step of a particle (`fluid_c::act`) against the positions `pts`
      it reads from the population (its own included). With no interacting
      neighbour it is the free-flight step followed by the edge reflection. */
  function Act(k: Kinematics, p: Params, pts: seq<Point>, width: real, height: real): (r: Kinematics)
    requires p.speed > 0.0
    requires width > 0.0 && height > 0.0
    ensures ValidParams(p) && Contributing(k.x, k.y, pts) == 0 ==> r == Reflect(Coast(k, p), width, height)
  {
    Reflect(Integrate(k, p, pts), width, height)
  }

  /** The step of a particle that nothing interacts with: damping and gravity,
      then the move by the resulting velocity. Its velocity is the one act
      starts its pairwise loop from. */
  function Coast(k: Kinematics, p: Params): (r: Kinematics)
    ensures r.x - k.x == r.vx && r.y - k.y == r.vy
    ensures r.vx == Start(k, p).vx && r.vy == Start(k, p).vy
  {
    var s := Start(k, p);
    Kinematics(k.x + s.vx, k.y + s.vy, s.vx, s.vy)
  }

  /** The direct offset part of the position update is at most 0.4 per
      interacting neighbour on each axis. */
  lemma {:induction false} OffsetBound(k: Kinematics, p: Params, pts: seq<Point>)
    requires ValidParams(p)
    ensures var r := Integrate(k, p, pts);
            var n := Contributing(k.x, k.y, pts) as real;
            && Abs(r.x - k.x - r.vx) <= OffsetLimit * n
            && Abs(r.y - k.y - r.vy) <= OffsetLimit * n
  {
    AccumulateBounds(Start(k, p), k.x, k.y, p.speed, pts);
  }

  /** Without gravity, a free-flight step (bounce or not) shrinks each velocity
      component by at least the damping factor. */
  lemma CoastDecay(k: Kinematics, p: Params, width: real, height: real)
    requires ValidParams(p) && p.gravity == 0.0
    requires width > 0.0 && height > 0.0
    ensures var r := Reflect(Coast(k, p), width, height);
            Abs(r.vx) <= p.damp * Abs(k.vx) && Abs(r.vy) <= p.damp * Abs(k.vy)
  {
    var r := Reflect(Coast(k, p), width, height);
    DampedBound(r.vx, k.vx, p.damp);
    DampedBound(r.vy, k.vy, p.damp);
  }

  lemma DampedBound(a: real, v: real, c: real)
    requires c >= 0.0 && Abs(a) <= Abs(v * c)
    ensures Abs(a) <= c * Abs(v)
  {
    AbsScale(v, c);
  }

  /** Scaling by a factor in [lo, 1] keeps a magnitude between lo times itself
      and itself. */
  lemma ScaledBetween(v: real, e: real, lo: real)
    ensures 0.0 <= lo <= e <= 1.0 ==> lo * Abs(v) <= Abs(v * e) <= Abs(v)
  {
    if 0.0 <= lo <= e <= 1.0 {
      AbsScale(v, e);
      NonNegativeProduct(e - lo, Abs(v));
      NonNegativeProduct(1.0 - e, Abs(v));
    }
  }

  lemma NonNegativeProduct(a: real, b: real)
    requires a >= 0.0 && b >= 0.0
    ensures a * b >= 0.0
  {
  }

  lemma AbsScale(v: real, c: real)
    requires c >= 0.0
    ensures Abs(v * c) == c * Abs(v)
  {
    if v < 0.0 {
      assert (-v) * c >= 0.0;
    } else {
      assert v * c >= 0.0;
    }
  }

  /** The skip threshold: a particle at rest, paired with itself and with a
      neighbour exactly one unit to its right (squared distance 1, not above
      the threshold), moves under damped gravity alone. */
  lemma {:induction false} SkipScenario(x: real, y: real, p: Params)
    requires ValidParams(p)
    ensures Integrate(Kinematics(x, y, 0.0, 0.0), p, [Point(x, y), Point(x + 1.0, y)])
              == Kinematics(x, y + p.gravity * p.damp, 0.0, p.gravity * p.damp)
  {
    var k := Kinematics(x, y, 0.0, 0.0);
    var pts := [Point(x, y), Point(x + 1.0, y)];
    assert pts[..1] == [Point(x, y)];
    assert pts[..1][..0] == [];
    assert !Interacts(x, y, pts[0]) && !Interacts(x, y, pts[1]);
    assert Contributing(x, y, pts[..1]) == 0;
    assert Contributing(x, y, pts) == 0;
  }

  /** `fluid_c::drain`: nudge the velocity toward the point (px, py). */
  function Drain(k: Kinematics, p: Params, px: real, py: real): (r: Kinematics)
    requires p.speed > 0.0
    ensures r.x == k.x && r.y == k.y
    ensures Abs(r.vx - k.vx) <= PointForceLimit && Abs(r.vy - k.vy) <= PointForceLimit
    ensures !Interacts(k.x, k.y, Point(px, py)) ==> r == k
  {
    var dx := k.x - px;
    var dy := k.y - py;
    var dist := SqDist(dx, dy);
    if dist <= 1.0 then k
    else
      PointScalePositive(dist, p.speed);
      var scale := PointScale(dist, p.speed);
      Kinematics(k.x, k.y,
                 k.vx - Clamp(dx / scale, -PointForceLimit, PointForceLimit),
                 k.vy - Clamp(dy / scale, -PointForceLimit, PointForceLimit))
  }

  /** `fluid_c::repel`: nudge the velocity away from the point (px, py). */
  function Repel(k: Kinematics, p: Params, px: real, py: real): (r: Kinematics)
    requires p.speed > 0.0
    ensures r.x == k.x && r.y == k.y
    ensures Abs(r.vx - k.vx) <= PointForceLimit && Abs(r.vy - k.vy) <= PointForceLimit
    ensures !Interacts(k.x, k.y, Point(px, py)) ==> r == k
  {
    var dx := k.x - px;
    var dy := k.y - py;
    var dist := SqDist(dx, dy);
    if dist <= 1.0 then k
    else
      PointScalePositive(dist, p.speed);
      var scale := PointScale(dist, p.speed);
      Kinematics(k.x, k.y,
                 k.vx + Clamp(dx / scale, -PointForceLimit, PointForceLimit),
                 k.vy + Clamp(dy / scale, -PointForceLimit, PointForceLimit))
  }

  /** Repel changes the velocity by exactly the negation of what drain would. */
  lemma RepelNegatesDrain(k: Kinematics, p: Params, px: real, py: real)
    requires p.speed > 0.0
    ensures Repel(k, p, px, py).vx - k.vx == -(Drain(k, p, px, py).vx - k.vx)
    ensures Repel(k, p, px, py).vy - k.vy == -(Drain(k, p, px, py).vy - k.vy)
  {
  }

  /** Drain pulls toward the point: on each axis the velocity change has the
      opposite sign of the particle's offset from the point. */
  lemma DrainPullsTowardPoint(k: Kinematics, p: Params, px: real, py: real)
    requires p.speed > 0.0
    ensures var r := Drain(k, p, px, py);
            && (k.x - px >= 0.0 ==> r.vx <= k.vx)
            && (k.x - px <= 0.0 ==> r.vx >= k.vx)
            && (k.y - py >= 0.0 ==> r.vy <= k.vy)
            && (k.y - py <= 0.0 ==> r.vy >= k.vy)
    ensures var r := Drain(k, p, px, py);
            Interacts(k.x, k.y, Point(px, py)) ==>
              && (k.x - px > 0.0 ==> r.vx < k.vx)
              && (k.x - px < 0.0 ==> r.vx > k.vx)
              && (k.y - py > 0.0 ==> r.vy < k.vy)
              && (k.y - py < 0.0 ==> r.vy > k.vy)
  {
    var dx := k.x - px;
    var dy := k.y - py;
    var dist := SqDist(dx, dy);
    if dist > 1.0 {
      PointScalePositive(dist, p.speed);
      var scale := PointScale(dist, p.speed);
      assert dist * 0.000001 / p.speed > 0.0;
      assert scale > 0.0;
      StrictSignOfQuotient(dx, scale);
      StrictSignOfQuotient(dy, scale);
    }
  }
}
