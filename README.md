# Fluid simulator: particle physics and frame pass

A model of the core of a small metaball fluid simulator written in C++.
Hundreds of `fluid_c` particles push one another apart. Each particle:

- damps its velocity and adds gravity;
- accumulates a clamped pairwise repulsion from every particle in the live list;
- damps harder when crowded;
- moves, then bounces off the left, right and bottom screen edges.

The mouse can drain particles toward the cursor (left button) or repel them from it (right button). Each frame the main loop does two things:

1. It spawns a water particle every fourth frame, up to 200 (preset 1).
2. It walks the list in insertion order. Each particle gets the mouse forces and then acts against the *live* list. So particle k already sees where particles 0..k-1 moved this frame.

The model has four modules.

- `FluidPhysics` (`physics.dfy`): the rules of `src/fluid.cpp` as pure functions over `real`:
  - the `clamp` macro;
  - one pair step of the loop of `act` and the whole loop;
  - the crowding damp;
  - the integration;
  - the edge reflection;
  - `drain` and `repel`.

  It also holds the lemmas about these rules.
- `FluidParticle` (`particle.dfy`): the class `Particle`, which is `fluid_c`.
  - The mutable fields are `x, y, speedx, speedy`.
  - The `const` attributes are fixed by the constructor.
  - The imperative methods `Act`, `Drain` and `Repel` each update the fields in place. `Act` first calls `Gather`, which damps the velocity fields, adds gravity and runs the pairwise loop: `Nudge` adds each neighbour's clamped nudges straight into `speedx` and `speedy` and returns the running offsets and distance sum, which are locals as in the source. `Settle` then applies the crowding damp and the move, and `Bounce` does the collisions with the screen edges. Each method is proved to compute the matching `FluidPhysics` function.
- `FramePass` (`frame.dfy`): the frame pass of `src/loop.cpp` stated over values.
  - `Sweep` is the in-place, in-order loop. `Pass` is that loop with the mouse-and-act step.
  - The lemmas say that:
    - each particle is replaced exactly once;
    - particle j reads the already-moved particles before it;
    - this order is observable.
  - It also has the preset-1 spawn rule and the wrapping frame counter.
  - `SnapshotPass`, in which every particle reads the start-of-frame list, is not in the source. It exists only so that `LiveListDiffersFromSnapshot` can show that the in-place order matters.
- `MainLoop` (`loop.dfy`): the class `Simulation`.
  - It holds the live list `fluid` of `Particle` references and the `unsigned int` frame counter.
  - Its methods spawn, apply the mouse forces, act particle by particle and run whole frames.
  - Each method is proved to leave the particles' states as `FramePass` says, and to keep the main loop's invariant: at most 200 water particles, none listed twice.

## Model

| member | source | states |
|---|---|---|
| FluidPhysics.Clamp | src/fluid.cpp:8 | the result lies in [lo, hi] when lo <= hi, is the input itself when that is in range, and is otherwise one of the two bounds |
| FluidPhysics.PairStep | src/fluid.cpp:26-51 | a neighbour at squared distance <= 1 changes nothing; one farther away moves each offset by at most 0.4 and each velocity component by at most 0.2, strictly increases the distance sum, and pushes away from itself: the x offset and x velocity change with the sign of dx, the y ones with the sign of dy - 1, and not at all when that is 0 |
| FluidPhysics.Accumulate | src/fluid.cpp:25-53 | the pairwise loop never decreases the distance sum, leaves it unchanged exactly when no neighbour is farther than one unit, and in that case leaves every running total as it was |
| FluidPhysics.AccumulateBounds | src/fluid.cpp:25-53 | after the whole pairwise loop each offset has moved by at most 0.4 and each velocity component by at most 0.2 per interacting neighbour, and the distance sum has not decreased |
| FluidPhysics.SelfPairSkipped | src/fluid.cpp:26-30 | the particle paired with itself (dx = dy = 0) is skipped and contributes nothing |
| FluidPhysics.CrowdFactor | src/fluid.cpp:56-58 | the crowding damp is never below the limit, is at most 1 when damp <= 1 and the distance sum is non-negative, is exactly 1 with no neighbours, and is the unclamped formula exactly when that formula is at or above the limit |
| FluidPhysics.Start | src/fluid.cpp:17-23 | the loop starts with empty offsets and an empty distance sum |
| FluidPhysics.Finish | src/fluid.cpp:56-63 | the position moves by the offsets plus the new velocity; for valid attributes and a non-negative distance sum the crowding damp keeps each velocity component's size between `extraDampLimit` times the old size and the old size; with a zero distance sum it leaves the velocity alone |
| FluidPhysics.Integrate | src/fluid.cpp:17-63 | with valid attributes and no neighbour farther than one unit, the step before the bounce is exactly the free-flight step `Coast` |
| FluidPhysics.Coast | src/fluid.cpp:17-19 | the free-flight step moves the particle by exactly its new velocity, and that velocity is the damped one with gravity that act starts its loop from |
| FluidPhysics.Reflect | src/fluid.cpp:65-76 | x < 0 mirrors to -x, x > W mirrors to 2W - x, y > H mirrors to 2H - y, each with the velocity component negated and halved; a coordinate inside the screen, and y < 0, is left alone; a step that overshoots by less than a screen lands inside it; no speed grows |
| FluidPhysics.Act | src/fluid.cpp:15-77 | with valid attributes and no neighbour farther than one unit, a whole act is the free-flight step followed by the edge reflection |
| FluidPhysics.OffsetBound | src/fluid.cpp:40-63 | the part of the move that is not the new velocity is at most 0.4 per axis per interacting neighbour |
| FluidPhysics.CoastDecay | src/fluid.cpp:17-76 | without gravity a free-flight step with its bounce shrinks each velocity component by at least the damping factor |
| FluidPhysics.SkipScenario | src/fluid.cpp:28-30 | a neighbour at squared distance exactly 1 is skipped: a particle at rest next to one moves under damped gravity alone |
| FluidPhysics.Drain | src/fluid.cpp:80-91 | drain never moves the particle, changes each velocity component by at most 0.8, and changes nothing within one unit of the point |
| FluidPhysics.Repel | src/fluid.cpp:94-105 | repel never moves the particle, changes each velocity component by at most 0.8, and changes nothing within one unit of the point |
| FluidPhysics.RepelNegatesDrain | src/fluid.cpp:80-105 | repel changes each velocity component by exactly the negation of drain's change |
| FluidPhysics.DrainPullsTowardPoint | src/fluid.cpp:80-91 | on each axis drain's velocity change never has the sign of the particle's offset from the point, and for a point farther than one unit it strictly has the opposite sign whenever that offset is not zero |
| FluidParticle.Particle.constructor | src/fluid.hpp:33-41 | position, velocity, damp, speed, gravity and colour are the arguments, extra_damp_limit is 0.4·damp, and 0 < damp <= 1 with speed > 0 makes the attributes valid |
| FluidParticle.Particle.Act | src/fluid.cpp:15-77 | the in-place act leaves the particle in the state `FluidPhysics.Act` gives for its old state, its attributes and the positions of the list it reads; only this particle changes |
| FluidParticle.Particle.Gather | src/fluid.cpp:17-53 | the in-place damping, gravity and pairwise loop leave in the velocity fields, the returned offsets and the returned distance sum exactly `FluidPhysics.Accumulate` over the positions of the list, started from `FluidPhysics.Start` of the old state; the position does not change |
| FluidParticle.Particle.Nudge | src/fluid.cpp:26-52 | one iteration of the loop adds to the offsets, to the velocity fields and to the distance sum exactly what `Repulsion` (the arithmetic of `PairStep`, over the offsets) adds, and leaves the position alone |
| FluidParticle.Particle.Settle | src/fluid.cpp:56-63 | the crowding damp on the accumulated velocity and the move by offset plus velocity, as `FluidPhysics.Finish` |
| FluidParticle.Particle.Bounce | src/fluid.cpp:64-76 | the in-place collision with the screen edges leaves the particle in the state `FluidPhysics.Reflect` gives for its old state |
| FluidParticle.Particle.Drain | src/fluid.cpp:80-91 | the in-place drain computes `FluidPhysics.Drain` of the old state |
| FluidParticle.Particle.Repel | src/fluid.cpp:94-105 | the in-place repel computes `FluidPhysics.Repel` of the old state |
| FramePass.Forced | src/loop.cpp:85-86 | the mouse forces never move a particle, change nothing when no button is held, and change each velocity component by at most 1.6 |
| FramePass.BothButtonsCancel | src/loop.cpp:85-86 | with both buttons held, drain then repel leaves the particle exactly as it was |
| FramePass.ForcedKeepsPositions | src/loop.cpp:85-87 | forcing a particle leaves the positions of the whole list unchanged, so act reads the same positions either way |
| FramePass.Sweep | src/loop.cpp:84-88 | the first n iterations of an in-order, in-place loop keep the list's length; what they do to each entry is stated by the four lemmas below |
| FramePass.SweepPending | src/loop.cpp:84-88 | a particle whose iteration has not come yet is untouched |
| FramePass.SweepSettled | src/loop.cpp:84-88 | a particle is never touched after its own iteration: each is updated exactly once |
| FramePass.SweepPrefix | src/loop.cpp:84-88 | when particle j's iteration comes, the list holds the final states of 0..j-1 and the initial states of j onward |
| FramePass.SweepVisibility | src/loop.cpp:84-88 | the final state of particle j is its iteration computed from that mixed list |
| FramePass.Turn | src/loop.cpp:85-87 | with neither mouse button held, or both, iteration j is the bare act of particle j against the live list |
| FramePass.TurnReadsLiveList | src/loop.cpp:85-87 | the act in iteration j is against the list with particle j's forced state in place |
| FramePass.SweepStepByTurn | src/loop.cpp:84-88 | iteration i of the pass replaces particle i by the act of its forced state against the list as it stands |
| FramePass.Pass | src/loop.cpp:84-88 | the frame's mouse-and-act loop keeps the list's length; it is `Sweep` with `Turn` as each iteration, so the sweep lemmas and `SequentialVisibility` describe its result |
| FramePass.SequentialVisibility | src/loop.cpp:87 | the final state of particle j is its act, after the mouse forces, against the already-moved particles before it and the unmoved ones from it on |
| FramePass.PushedApart | src/fluid.cpp:25-63 | under the `Undamped` attributes (damp 1, gravity 0, speed 1), which no particle of the program has, a particle at rest three pixels left of another is pushed left and up by exactly the offset and velocity bounds |
| FramePass.LiveListDiffersFromSnapshot | src/loop.cpp:87 | for two particles with the `Undamped` attributes (damp 1, gravity 0, speed 1), which no spawned particle has, three pixels apart, the in-place pass and a start-of-frame snapshot pass leave the second particle at different heights |
| FramePass.NextFrame | src/loop.cpp:38-43 | the counter stays below 2^32, increments, and wraps to 0 after 2^32 - 1 |
| FramePass.CadenceSurvivesWrap | src/loop.cpp:43-47 | wrapping the counter does not disturb the every-fourth-frame cadence |
| FramePass.SpawnCadence | src/loop.cpp:47 | a frame that spawns grows the list by one; the three frames after it do not spawn, and the fourth spawns exactly when the grown list is still under the cap |
| FramePass.Random | src/loop.cpp:21-23 | the scaled draw lies between the two bounds and hits them at 0 and 1 |
| FramePass.WaterSpawn | src/loop.cpp:51-53 | a water particle starts at (5, 250) with velocity in [6, 12] × [-8, -5] |
| MainLoop.Simulation.constructor | src/loop.cpp:37-38 | the loop starts with an empty list and the counter at 0, and the invariant holds |
| MainLoop.Simulation.Spawn | src/loop.cpp:43-54 | the counter advances with wrap; when the list is under 200 and the counter is a multiple of 4, one fresh water particle is appended with the spawn state and the old list is a prefix; otherwise the list is unchanged; the invariant, which caps the list at 200 particles, is kept |
| MainLoop.Simulation.Force | src/loop.cpp:85-86 | the mouse forces change particle i as `Forced` says and no other particle |
| MainLoop.Simulation.Step | src/loop.cpp:87 | particle i acts against the live list and no other particle changes |
| MainLoop.Simulation.MoveOne | src/loop.cpp:85-87 | one iteration advances the list from the first i iterations of the pass to the first i + 1 |
| MainLoop.Simulation.MoveEach | src/loop.cpp:84-88 | the loop leaves the list in the state of the whole sweep from its states before the loop |
| MainLoop.Simulation.MoveAll | src/loop.cpp:84-88 | the mouse-and-act loop leaves the particles in the states `Pass` gives for their states before the loop |
| MainLoop.Simulation.Tick | src/loop.cpp:43-88 | one frame advances the counter, appends at most one particle and keeps the old list as a prefix, leaves the particles in the states of `Pass` over the old states plus the spawned one, and keeps the invariant |

## Left out

- Floating point: every quantity is a `real`. IEEE rounding, overflow of the squared distance for huge coordinates, and NaN or infinity are not modelled. The attributes' positivity (0 < damp <= 1, speed > 0), which the code relies on without checking, is stated as a precondition.
- Drawing is not modelled: `fluid_c::draw`, the render and metaball section of the main loop and `draw_fullscreen_rectangle` are OpenGL calls only.
- Frame pacing (`glfwGetTime`, `glfwSleep`, skipped draws) and the loop's exit test on the window and the Escape key are left out; a frame is one call of `Tick`.
- Mouse input: the position is read once per frame as whole pixels, and the two button states are inputs of the frame. The source polls the buttons again in every iteration, so a press that changes in the middle of the pass is not modelled.
- `random` is modelled with the draw `rand() / RAND_MAX` taken as a parameter in [0, 1], because `rand` is a hidden generator.
- Presets 2 to 4 are chosen by the preprocessor and are left out; preset 1 (water only) is modelled.
- `src/texture.cpp` (texture creation) and `src/main.cpp` (window setup and `srand`) are left out: they are rendering and start-up only.
- settings.hpp is not part of this model: `SCREEN_WIDTH` and `SCREEN_HEIGHT` are positive constructor parameters of `Simulation`.
- The `std::list` of values is modelled as a sequence of distinct `Particle` references. Particles are appended, never removed, so list iterators and element addresses are not modelled.
- The colour attributes `r, g, b` are carried but nothing is stated about them beyond the constructor: only the renderer reads them.
- FramePass.Forced: it bounds the velocity change by the sum of the two point-force bounds rather than giving the exact change, which is what `Drain` and `Repel` state.
- FluidPhysics.CoastDecay: it is stated for gravity-free attributes only; with gravity the vertical speed of an isolated particle tends to a terminal speed instead of zero.
- FluidPhysics.CoastDecay: it bounds one frame only. The decay over n frames of a particle alone in the list (each velocity component at most damp^n times its start value) is not stated, and with damp = 1, which valid attributes allow, there is no decay at all.
- FramePass.FrameTurn: the step's value for an index past the end of the list is an arbitrary zero state; the pass never asks for it.
