/** The simulation state of src/loop.cpp: the live list of particles and the
  frame counter, with one frame's spawn and mouse-and-act pass. The screen size
  is fixed for the life of the simulation. */
module MainLoop {
  import opened FluidPhysics
  import opened FluidParticle
  import opened FramePass

  /** No particle is listed twice. Stated by recursion on the list, so that
      a proof about one particle does not compare every pair. */
  predicate Distinct(fluid: seq<Particle>) {
    fluid == [] || (fluid[|fluid| - 1] !in fluid[..|fluid| - 1] && Distinct(fluid[..|fluid| - 1]))
  }

  /** Two different positions of a distinct list hold different particles. */
  lemma {:induction false} DistinctAt(fluid: seq<Particle>, i: nat, j: nat)
    requires Distinct(fluid) && i < |fluid| && j < |fluid| && i != j
    ensures fluid[i] != fluid[j]
    decreases |fluid|
  {
    var n := |fluid| - 1;
    if i == n {
      assert fluid[j] in fluid[..n];
    } else if j == n {
      assert fluid[i] in fluid[..n];
    } else {
      DistinctAt(fluid[..n], i, j);
    }
  }

  /** Every particle of the list is a water particle. Stated by recursion on the
      list, like `Distinct`. */
  predicate AllWater(fluid: seq<Particle>) {
    fluid == [] || (fluid[|fluid| - 1].Attributes() == Water && AllWater(fluid[..|fluid| - 1]))
  }

  /** Each particle of an all-water list is a water particle, and so has valid
      attributes. */
  lemma {:induction false} AllWaterAt(fluid: seq<Particle>, i: nat)
    requires AllWater(fluid) && i < |fluid|
    ensures fluid[i].Attributes() == Water && fluid[i].Valid()
    decreases |fluid|
  {
    if i < |fluid| - 1 {
      AllWaterAt(fluid[..|fluid| - 1], i);
    }
  }

  class Simulation {
    /** The live list of particles, in insertion order. */
    var fluid: seq<Particle>
    /** The frame counter, an `unsigned int`. */
    var framecount: nat
    const width: real
    const height: real

    /** The invariant of the main loop under preset 1: a positive screen, a
        counter within its width, at most 200 particles, no particle listed
        twice, and every particle a water particle. */
    ghost predicate Valid()
      reads this
    {
      && width > 0.0 && height > 0.0
      && framecount < FrameModulus
      && |fluid| <= SpawnCap
      && Distinct(fluid)
      && AllWater(fluid)
      && AllValid(AttributesOf(fluid))
    }

    /** The state before the first frame: no particles, counter at zero. */
    constructor (width0: real, height0: real)
      requires width0 > 0.0 && height0 > 0.0
      ensures Valid()
      ensures fluid == [] && framecount == 0
      ensures width == width0 && height == height0
    {
      fluid := [];
      framecount := 0;
      width, height := width0, height0;
    }

    /** The start of a frame: the counter advances and, under preset 1, a water
        particle is appended when the population is under the cap and the new
        count is a multiple of four. `u1` and `u2` are the frame's two draws of
        `rand() / RAND_MAX`. */
    method Spawn(u1: real, u2: real)
      requires Valid()
      requires 0.0 <= u1 <= 1.0 && 0.0 <= u2 <= 1.0
      modifies this
      ensures Valid()
      ensures framecount == NextFrame(old(framecount))
      ensures SpawnDue(old(|fluid|), framecount) ==>
        && |fluid| == old(|fluid|) + 1
        && fluid[..old(|fluid|)] == old(fluid)
        && fresh(fluid[old(|fluid|)])
        && States(fluid) == old(States(fluid)) + [WaterSpawn(u1, u2)]
      ensures !SpawnDue(old(|fluid|), framecount) ==> fluid == old(fluid)
    {
      framecount := NextFrame(framecount);
      if SpawnDue(|fluid|, framecount) {
        ghost var before := States(fluid);
        var k := WaterSpawn(u1, u2);
        var p := new Particle(k.x, k.y, k.vx, k.vy,
                              Water.damp, Water.speed, Water.gravity,
                              WaterRed, WaterGreen, WaterBlue);
        ghost var old_fluid := fluid;
        fluid := fluid + [p];
        assert fluid[..|fluid| - 1] == old_fluid;
        assert States(fluid) == before + [k];
      }
    }

    /** The mouse part of one iteration: particle `i` is drained toward the
        cursor while the left button is held, then repelled from it while the
        right button is held. */
    method Force(i: nat, m: Mouse)
      requires Valid() && i < |fluid|
      modifies fluid[i]
      ensures States(fluid) == old(States(fluid))[i := Forced(old(fluid[i].State()), fluid[i].Attributes(), m)]
    {
      AllWaterAt(fluid, i);
      var p := fluid[i];
      if m.left {
        p.Drain(m.x as real, m.y as real);
      }
      if m.right {
        p.Repel(m.x as real, m.y as real);
      }
      forall j | 0 <= j < |fluid| && j != i
        ensures States(fluid)[j] == old(States(fluid))[j]
      {
        DistinctAt(fluid, i, j);
      }
    }

    /** One iteration of the mouse-and-act pass: particle `i` gets the mouse
        forces and then acts against the live list; no other particle changes.
        Before it the list holds the first `i` turns of the sweep from `ks`,
        after it the first `i + 1`. */
    method MoveOne(i: nat, m: Mouse, ghost ks: seq<Kinematics>, ghost turn: (seq<Kinematics>, nat) -> Kinematics)
      requires Valid() && i < |fluid| && |ks| == |fluid|
      requires StepsAsTurn(turn, AttributesOf(fluid), m, width, height)
      requires States(fluid) == Sweep(ks, i, turn)
      modifies fluid[i]
      ensures States(fluid) == Sweep(ks, i + 1, turn)
    {
      SweepStepByTurn(ks, i, turn, AttributesOf(fluid), m, width, height);
      Force(i, m);
      Step(i);
    }

    /** The act part of one iteration: particle `i` acts against the live list;
        no other particle changes. */
    method Step(i: nat)
      requires Valid() && i < |fluid|
      modifies fluid[i]
      ensures var before := old(States(fluid));
              States(fluid) == before[i := Act(before[i], fluid[i].Attributes(), PointsOf(before), width, height)]
    {
      ghost var before := States(fluid);
      AllWaterAt(fluid, i);
      var p := fluid[i];
      p.Act(fluid, width, height);
      forall j | 0 <= j < |fluid| && j != i
        ensures States(fluid)[j] == before[j]
      {
        DistinctAt(fluid, i, j);
      }
    }

    /** The loop of the mouse-and-act pass, for any step that behaves as the
        frame's: after it the list holds the whole sweep from its old states. */
    method MoveEach(m: Mouse, ghost turn: (seq<Kinematics>, nat) -> Kinematics)
      requires Valid()
      requires StepsAsTurn(turn, AttributesOf(fluid), m, width, height)
      modifies fluid
      ensures States(fluid) == Sweep(old(States(fluid)), |fluid|, turn)
    {
      ghost var ks := States(fluid);
      for i := 0 to |fluid|
        invariant fluid == old(fluid)
        invariant States(fluid) == Sweep(ks, i, turn)
      {
        MoveOne(i, m, ks, turn);
      }
    }

    /** The mouse-and-act pass of a frame: each particle in list order gets the
        mouse forces and then acts against the live list. */
    method MoveAll(m: Mouse)
      requires Valid()
      modifies fluid
      ensures States(fluid) == Pass(old(States(fluid)), AttributesOf(fluid), |fluid|, m, width, height)
    {
      forall j | 0 <= j < |fluid|
        ensures ValidParams(AttributesOf(fluid)[j])
      {
        AllWaterAt(fluid, j);
      }
      FrameTurnStepsAsTurn(AttributesOf(fluid), m, width, height);
      MoveEach(m, FrameTurn(AttributesOf(fluid), m, width, height));
    }

    /** One frame of the main loop: spawn, then the mouse-and-act pass. */
    method Tick(m: Mouse, u1: real, u2: real)
      requires Valid()
      requires 0.0 <= u1 <= 1.0 && 0.0 <= u2 <= 1.0
      modifies this, fluid
      ensures Valid()
      ensures framecount == NextFrame(old(framecount))
      ensures var spawned := SpawnDue(old(|fluid|), framecount);
              && |fluid| == old(|fluid|) + (if spawned then 1 else 0)
              && fluid[..old(|fluid|)] == old(fluid)
              && States(fluid) == Pass(old(States(fluid)) + (if spawned then [WaterSpawn(u1, u2)] else []),
                                       AttributesOf(fluid), |fluid|, m, width, height)
    {
      ghost var before := States(fluid);
      Spawn(u1, u2);
      ghost var spawned := SpawnDue(old(|fluid|), framecount);
      assert fluid[..old(|fluid|)] == old(fluid);
      assert States(fluid) == before + (if spawned then [WaterSpawn(u1, u2)] else []);
      ghost var list := fluid;
      MoveAll(m);
      assert fluid == list;
    }
  }
}
