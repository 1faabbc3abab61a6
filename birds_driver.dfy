/**
  The per-frame driver of the flock (`init_Birds` and `animate_Birds` in
  Birds.TS): the clamped frame delta, the three uniform blocks it writes, and
  the compute step it triggers on the bird textures.
*/
module BirdsDriver {
  import opened Glsl
  import opened Gaussian
  import Boids

  /** Longest frame, in seconds, that one step simulates. */
  const MAX_DELTA: real := 1.0

  /**
    Seconds elapsed between two `performance.now()` readings in milliseconds,
    capped above at one second. Only the upper end is capped.
  */
  function FrameDelta(last: real, now: real): (d: real)
    ensures d <= MAX_DELTA && d <= (now - last) / 1000.0
    ensures d == MAX_DELTA || d == (now - last) / 1000.0
  {
    var delta := (now - last) / 1000.0;
    if delta > MAX_DELTA then MAX_DELTA else delta
  }

  /** A frame of at most one second is simulated at its true length, and a longer one at exactly one second. */
  lemma FrameDeltaCases(last: real, now: real)
    ensures now - last <= 1000.0 ==> FrameDelta(last, now) == (now - last) / 1000.0
    ensures now - last > 1000.0 ==> FrameDelta(last, now) == MAX_DELTA
  {
    var e := (now - last) / 1000.0;
    assert now - last == e * 1000.0;
  }

  /** A five-minute stall yields a delta of exactly one second. */
  lemma StallIsCapped(last: real)
    ensures FrameDelta(last, last + 300000.0) == 1.0
  {
    FrameDeltaCases(last, last + 300000.0);
  }

  /** There is no lower cap: a clock that runs backwards yields a negative delta. */
  lemma BackwardsClockNotCapped(last: real, now: real)
    requires now < last
    ensures FrameDelta(last, now) < 0.0
  {
    FrameDeltaCases(last, now);
    assert (now - last) / 1000.0 < 0.0 by {
      var e := (now - last) / 1000.0;
      assert e * 1000.0 == now - last;
    }
  }

  /** A uniform block holding a `time` and a `delta` (the position uniforms, and those of the bird material). */
  class Clock {
    var time: real
    var delta: real

    constructor(time: real, delta: real)
      ensures this.time == time && this.delta == delta
    {
      this.time := time;
      this.delta := delta;
    }
  }

  /** The uniforms of the velocity kernel. */
  class VelocityUniforms {
    var time: real
    var delta: real
    var testing: real
    var separationDistance: real
    var alignmentDistance: real
    var cohesionDistance: real
    var freedomFactor: real

    /** The values `initComputeRenderer` gives every uniform before the behaviour is chosen. */
    constructor()
      ensures time == 1.0 && delta == 0.0 && testing == 1.0
      ensures separationDistance == 1.0 && alignmentDistance == 1.0 && cohesionDistance == 1.0
      ensures freedomFactor == 1.0
    {
      time := 1.0;
      delta := 0.0;
      testing := 1.0;
      separationDistance := 1.0;
      alignmentDistance := 1.0;
      cohesionDistance := 1.0;
      freedomFactor := 1.0;
    }

    /** The behaviour the velocity kernel reads from these uniforms. */
    function Behaviour(): Boids.Behaviour
      reads this
    {
      Boids.Behaviour(separationDistance, alignmentDistance, cohesionDistance)
    }
  }

  /**
    The state `animate_Birds` works on: the time of the previous frame, the
    position and velocity textures (one `Bird` per texel), and the three
    uniform blocks.
  */
  class Flock {
    var last: real
    var birds: seq<Boids.Bird>
    const positionUniforms: Clock
    const velocityUniforms: VelocityUniforms
    const birdUniforms: Clock

    ghost predicate Valid()
      reads this
    {
      positionUniforms != birdUniforms && |birds| == Boids.GRID_SIZE
    }

    /**
      `init_Birds` at time `start`, on the textures `grid` that the random
      fills produced, with `zSeparation`, `zAlignment` and `zCohesion` the
      draws behind the three `normalRandom` distances.
    */
    constructor(start: real, grid: seq<Boids.Bird>, zSeparation: real, zAlignment: real, zCohesion: real)
      requires |grid| == Boids.GRID_SIZE
      ensures Valid() && fresh(positionUniforms) && fresh(velocityUniforms) && fresh(birdUniforms)
      ensures last == start && birds == grid
      ensures positionUniforms.time == 0.0 && positionUniforms.delta == 0.0
      ensures birdUniforms.time == 1.0 && birdUniforms.delta == 0.0
      ensures velocityUniforms.time == 1.0 && velocityUniforms.delta == 0.0 && velocityUniforms.testing == 1.0
      ensures velocityUniforms.separationDistance == NormalRandom(50.0, 20.0, zSeparation)
      ensures velocityUniforms.alignmentDistance == NormalRandom(30.0, 10.0, zAlignment)
      ensures velocityUniforms.cohesionDistance == NormalRandom(30.0, 10.0, zCohesion)
      ensures velocityUniforms.freedomFactor == 0.75
    {
      last := start;
      birds := grid;
      positionUniforms := new Clock(0.0, 0.0);
      var velocity := new VelocityUniforms();
      velocity.separationDistance := NormalRandom(50.0, 20.0, zSeparation);
      velocity.alignmentDistance := NormalRandom(30.0, 10.0, zAlignment);
      velocity.cohesionDistance := NormalRandom(30.0, 10.0, zCohesion);
      velocity.freedomFactor := 0.75;
      velocityUniforms := velocity;
      birdUniforms := new Clock(1.0, 0.0);
    }

    /**
      One frame at time `now`: the clamped delta goes, with `now`, into all
      three uniform blocks, `now` becomes the previous frame's time, and the
      kernels advance every bird by that delta. The behaviour uniforms are left
      alone, so every bird keeps within its speed limit and phase range.
    */
    method Animate(b: Builtins, now: real)
      requires Valid() && Boids.HasZone(velocityUniforms.Behaviour())
      modifies this, positionUniforms, velocityUniforms, birdUniforms
      ensures Valid() && last == now
      ensures positionUniforms.time == now && positionUniforms.delta == FrameDelta(old(last), now)
      ensures velocityUniforms.time == now && velocityUniforms.delta == FrameDelta(old(last), now)
      ensures birdUniforms.time == now && birdUniforms.delta == FrameDelta(old(last), now)
      ensures velocityUniforms.Behaviour() == old(velocityUniforms.Behaviour())
      ensures velocityUniforms.testing == old(velocityUniforms.testing)
      ensures velocityUniforms.freedomFactor == old(velocityUniforms.freedomFactor)
      ensures birds == Boids.ComputeStep(b, old(velocityUniforms.Behaviour()), FrameDelta(old(last), now), old(birds))
      ensures Lawful(b) ==> forall i :: 0 <= i < |birds| ==>
                Length(b, birds[i].velocity) <= 14.0 && 0.0 <= birds[i].phase < Boids.PHASE_WRAP
    {
      var delta := (now - last) / 1000.0;
      if delta > 1.0 {
        delta := 1.0;
      }
      last := now;

      positionUniforms.time := now;
      positionUniforms.delta := delta;
      velocityUniforms.time := now;
      velocityUniforms.delta := delta;
      birdUniforms.time := now;
      birdUniforms.delta := delta;

      ghost var beh := velocityUniforms.Behaviour();
      birds := Boids.ComputeStep(b, Boids.Behaviour(velocityUniforms.separationDistance,
        velocityUniforms.alignmentDistance, velocityUniforms.cohesionDistance), delta, birds);
      if Lawful(b) {
        Boids.StepInvariants(b, beh, delta, old(birds));
      }
    }
  }
}
