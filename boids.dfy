/**
  The two compute kernels of the flock (the GLSL sources `fragmentShaderVelocity`
  and `fragmentShaderPosition` in Birds.TS), restated on a grid of birds held
  row by row in a sequence. Each kernel computes one texel from the grid as it
  was at the start of the pass.
*/
module Boids {
  import opened Glsl
  import BirdMesh

  /** The compute texture is WIDTH by WIDTH texels (`resolution.x`, `resolution.y`). */
  const GRID_WIDTH: int := BirdMesh.WIDTH
  const GRID_SIZE: int := GRID_WIDTH * GRID_WIDTH

  const SPEED_LIMIT: real := 9.0
  /** Height below which a bird is pushed up from the ocean plane `y = 0`. */
  const PREY_RADIUS: real := 30.0
  const CENTRAL: Vec3 := Vec3(0.0, 100.0, 0.0)
  const PI: real := 3.141592653589793
  const PI_2: real := PI * 2.0
  /** Neighbours closer than this are skipped. */
  const NEAR: real := 0.0001
  /** Modulus of the wing-flap phase (the shader's literal, not 2 * PI). */
  const PHASE_WRAP: real := 62.83
  /** Distance travelled per unit of velocity and time. */
  const FLIGHT_SCALE: real := 15.0

  /** One texel of the position texture (xyz and phase) with the same texel of the velocity texture. */
  datatype Bird = Bird(position: Vec3, phase: real, velocity: Vec3)

  /** The behaviour uniforms the velocity kernel reads. */
  datatype Behaviour = Behaviour(separationDistance: real, alignmentDistance: real, cohesionDistance: real)

  /** The shader divides by the zone radius, so the three distances must not sum to zero. */
  predicate HasZone(beh: Behaviour) {
    beh.separationDistance + beh.alignmentDistance + beh.cohesionDistance != 0.0
  }

  datatype Zones = Zones(radius: real, radiusSquared: real, separationThresh: real, alignmentThresh: real)

  /** The zone radius and the two band thresholds, as fractions of the squared radius. */
  function ZonesOf(beh: Behaviour): (z: Zones)
    requires HasZone(beh)
    ensures 0.0 < z.radiusSquared
  {
    var r := beh.separationDistance + beh.alignmentDistance + beh.cohesionDistance;
    SquarePositive(r, r * r);
    Zones(r, r * r, beh.separationDistance / r, (beh.separationDistance + beh.alignmentDistance) / r)
  }

  /** The band a neighbour at a given distance falls into. */
  datatype Band = Ignored | Separation | Alignment | Cohesion

  /** Squared distance as a fraction of the squared zone radius. */
  function Percent(z: Zones, dist: real): real
    requires 0.0 < z.radiusSquared
  {
    dist * dist / z.radiusSquared
  }

  function BandOf(z: Zones, dist: real): Band
    requires 0.0 < z.radiusSquared
  {
    if dist < NEAR then Ignored
    else if dist * dist > z.radiusSquared then Ignored
    else if Percent(z, dist) < z.separationThresh then Separation
    else if Percent(z, dist) < z.alignmentThresh then Alignment
    else Cohesion
  }

  lemma PercentPositive(z: Zones, dist: real)
    requires 0.0 < z.radiusSquared && NEAR <= dist
    ensures 0.0 < Percent(z, dist)
  {
    SquarePositive(dist, dist * dist);
  }

  /** Separation strength `(separationThresh / percent - 1) * delta`. */
  function SeparationForce(z: Zones, percent: real, delta: real): real
    requires percent != 0.0
  {
    (z.separationThresh / percent - 1.0) * delta
  }

  /** Position of `percent` within the alignment band, `adjustedPercent` in the shader. */
  function AlignmentProgress(z: Zones, percent: real): real
    requires z.separationThresh < z.alignmentThresh
  {
    (percent - z.separationThresh) / (z.alignmentThresh - z.separationThresh)
  }

  /** Position of `percent` within the cohesion band; 1 when the band is empty. */
  function CohesionProgress(z: Zones, percent: real): real {
    var threshDelta := 1.0 - z.alignmentThresh;
    if threshDelta == 0.0 then 1.0 else (percent - z.alignmentThresh) / threshDelta
  }

  function AlignmentForce(b: Builtins, z: Zones, percent: real, delta: real): real
    requires z.separationThresh < z.alignmentThresh
  {
    (0.5 - b.cos(AlignmentProgress(z, percent) * PI_2) * 0.5 + 0.5) * delta
  }

  function CohesionForce(b: Builtins, z: Zones, percent: real, delta: real): real {
    (0.5 - (b.cos(CohesionProgress(z, percent) * PI_2) * -0.5 + 0.5)) * delta
  }

  /** The velocity after considering one neighbour `other` of the bird at `self`. */
  function Steer(b: Builtins, z: Zones, delta: real, self: Vec3, velocity: Vec3, other: Bird): Vec3
    requires 0.0 < z.radiusSquared
  {
    var dir := Sub(other.position, self);
    var dist := Length(b, dir);
    match BandOf(z, dist)
    case Ignored => velocity
    case Separation =>
      PercentPositive(z, dist);
      Sub(velocity, Scale(b.normalize(dir), SeparationForce(z, Percent(z, dist), delta)))
    case Alignment =>
      Add(velocity, Scale(b.normalize(other.velocity), AlignmentForce(b, z, Percent(z, dist), delta)))
    case Cohesion =>
      Add(velocity, Scale(b.normalize(dir), CohesionForce(b, z, Percent(z, dist), delta)))
  }

  /** The velocity after the neighbour scan has visited the first `n` texels of the grid. */
  function Scan(b: Builtins, z: Zones, delta: real, self: Vec3, velocity: Vec3, grid: seq<Bird>, n: nat): Vec3
    requires 0.0 < z.radiusSquared && n <= |grid|
  {
    if n == 0 then velocity
    else Steer(b, z, delta, self, Scan(b, z, delta, self, velocity, grid, n - 1), grid[n - 1])
  }

  function GroundDir(p: Vec3): Vec3 {
    Vec3(0.0, -p.y, 0.0)
  }

  /** The speed limit: raised by 5 while the bird is near the ocean. */
  function SpeedLimit(b: Builtins, p: Vec3): real {
    if Length(b, GroundDir(p)) < PREY_RADIUS then SPEED_LIMIT + 5.0 else SPEED_LIMIT
  }

  /** The push away from the ocean plane, applied in the repulsion zone only. */
  function AvoidOcean(b: Builtins, p: Vec3, delta: real, velocity: Vec3): Vec3 {
    var dir := GroundDir(p);
    var dist := Length(b, dir);
    if dist < PREY_RADIUS then
      Add(velocity, Scale(b.normalize(dir), (dist * dist / (PREY_RADIUS * PREY_RADIUS) - 1.0) * delta * 100.0))
    else velocity
  }

  /** The pull towards the centre, with the vertical offset weighted 2.5 times. */
  function SeekCentre(b: Builtins, p: Vec3, delta: real, velocity: Vec3): Vec3 {
    var dir := Sub(p, CENTRAL);
    Sub(velocity, Scale(b.normalize(dir.(y := dir.y * 2.5)), delta * 5.0))
  }

  /** Rescale a velocity longer than `limit` to length `limit`. */
  function Clamp(b: Builtins, velocity: Vec3, limit: real): Vec3 {
    if Length(b, velocity) > limit then Scale(b.normalize(velocity), limit) else velocity
  }

  /** The velocity of texel `i` just before the speed limit is applied. */
  function Unclamped(b: Builtins, beh: Behaviour, delta: real, grid: seq<Bird>, i: int): Vec3
    requires HasZone(beh) && 0 <= i < |grid|
  {
    var self := grid[i];
    var v := SeekCentre(b, self.position, delta, AvoidOcean(b, self.position, delta, self.velocity));
    Scan(b, ZonesOf(beh), delta, self.position, v, grid, |grid|)
  }

  /** What the velocity kernel writes for texel `i`. */
  function NewVelocity(b: Builtins, beh: Behaviour, delta: real, grid: seq<Bird>, i: int): Vec3
    requires HasZone(beh) && 0 <= i < |grid|
  {
    Clamp(b, Unclamped(b, beh, delta, grid, i), SpeedLimit(b, grid[i].position))
  }

  /**
    The body of the shader's neighbour loop: the influence of the bird `other`
    on the velocity of the bird at `self`, skipping itself and birds out of range.
  */
  method SteerBy(b: Builtins, z: Zones, delta: real, self: Vec3, velocity: Vec3, other: Bird) returns (v: Vec3)
    requires 0.0 < z.radiusSquared
    ensures v == Steer(b, z, delta, self, velocity, other)
  {
    v := velocity;
    var dir := Sub(other.position, self);
    var dist := Length(b, dir);
    if dist < 0.0001 {
      assert BandOf(z, dist) == Ignored;
      return;
    }
    var distSquared := dist * dist;
    if distSquared > z.radiusSquared {
      assert BandOf(z, dist) == Ignored;
      return;
    }
    var percent := distSquared / z.radiusSquared;
    assert percent == Percent(z, dist);
    PercentPositive(z, dist);
    if percent < z.separationThresh {
      assert BandOf(z, dist) == Separation;
      var f := (z.separationThresh / percent - 1.0) * delta;
      assert f == SeparationForce(z, percent, delta);
      v := Sub(v, Scale(b.normalize(dir), f));
    } else if percent < z.alignmentThresh {
      assert BandOf(z, dist) == Alignment;
      var threshDelta := z.alignmentThresh - z.separationThresh;
      var adjustedPercent := (percent - z.separationThresh) / threshDelta;
      assert adjustedPercent == AlignmentProgress(z, percent);
      var birdVelocity := other.velocity;
      var f := (0.5 - b.cos(adjustedPercent * PI_2) * 0.5 + 0.5) * delta;
      assert f == AlignmentForce(b, z, percent, delta);
      v := Add(v, Scale(b.normalize(birdVelocity), f));
    } else {
      assert BandOf(z, dist) == Cohesion;
      var threshDelta := 1.0 - z.alignmentThresh;
      var adjustedPercent;
      if threshDelta == 0.0 {
        adjustedPercent := 1.0;
      } else {
        adjustedPercent := (percent - z.alignmentThresh) / threshDelta;
      }
      assert adjustedPercent == CohesionProgress(z, percent);
      var f := (0.5 - (b.cos(adjustedPercent * PI_2) * -0.5 + 0.5)) * delta;
      assert f == CohesionForce(b, z, percent, delta);
      v := Add(v, Scale(b.normalize(dir), f));
    }
  }

  /**
    The velocity kernel for texel `i`, step by step as the shader runs it: the
    ocean repulsion, the pull to the centre, the scan of every texel in row order,
    and the speed limit.
  */
  method ComputeVelocity(b: Builtins, beh: Behaviour, delta: real, grid: seq<Bird>, i: int) returns (velocity: Vec3)
    requires HasZone(beh) && |grid| == GRID_SIZE && 0 <= i < |grid|
    ensures velocity == NewVelocity(b, beh, delta, grid, i)
  {
    var zoneRadius := beh.separationDistance + beh.alignmentDistance + beh.cohesionDistance;
    var separationThresh := beh.separationDistance / zoneRadius;
    var alignmentThresh := (beh.separationDistance + beh.alignmentDistance) / zoneRadius;
    var zoneRadiusSquared := zoneRadius * zoneRadius;
    var z := Zones(zoneRadius, zoneRadiusSquared, separationThresh, alignmentThresh);
    assert z == ZonesOf(beh);

    var selfPosition := grid[i].position;
    var selfVelocity := grid[i].velocity;
    velocity := selfVelocity;
    var limit := SPEED_LIMIT;

    var dir := Vec3(0.0, -selfPosition.y, 0.0);
    var dist := Length(b, dir);
    var distSquared := dist * dist;
    var preyRadius := 30.0;
    var preyRadiusSq := preyRadius * preyRadius;
    if dist < preyRadius {
      var f := (distSquared / preyRadiusSq - 1.0) * delta * 100.0;
      velocity := Add(velocity, Scale(b.normalize(dir), f));
      limit := limit + 5.0;
    }
    assert velocity == AvoidOcean(b, selfPosition, delta, selfVelocity);
    assert limit == SpeedLimit(b, selfPosition);

    var central := Vec3(0.0, 100.0, 0.0);
    dir := Sub(selfPosition, central);
    dir := dir.(y := dir.y * 2.5);
    velocity := Sub(velocity, Scale(b.normalize(dir), delta * 5.0));

    ghost var start := velocity;
    assert start == SeekCentre(b, selfPosition, delta, AvoidOcean(b, selfPosition, delta, selfVelocity));
    for y := 0 to GRID_WIDTH
      invariant velocity == Scan(b, z, delta, selfPosition, start, grid, y * GRID_WIDTH)
    {
      for x := 0 to GRID_WIDTH
        invariant velocity == Scan(b, z, delta, selfPosition, start, grid, y * GRID_WIDTH + x)
      {
        var other := grid[y * GRID_WIDTH + x];
        velocity := SteerBy(b, z, delta, selfPosition, velocity, other);
      }
    }
    assert velocity == Unclamped(b, beh, delta, grid, i);

    if Length(b, velocity) > limit {
      velocity := Scale(b.normalize(velocity), limit);
    }
  }

  /** The new wing-flap phase, before wrapping. */
  function RawPhase(b: Builtins, phase: real, velocity: Vec3, delta: real): real {
    phase + delta + Length2(b, velocity.x, velocity.z) * delta * 3.0 + Max(velocity.y, 0.0) * delta * 6.0
  }

  /**
    The position kernel for one texel: move by the texel's velocity and
    advance the phase, wrapped into `[0, 62.83)`. The kernel writes only the
    position texture, so the velocity is passed through unchanged.
  */
  function PositionKernel(b: Builtins, bird: Bird, delta: real): (r: Bird)
    ensures r.position == Add(bird.position, Scale(bird.velocity, delta * FLIGHT_SCALE))
    ensures r.velocity == bird.velocity
    ensures 0.0 <= r.phase < PHASE_WRAP
    ensures 0.0 <= RawPhase(b, bird.phase, bird.velocity, delta) < PHASE_WRAP ==>
              r.phase == RawPhase(b, bird.phase, bird.velocity, delta)
  {
    var raw := RawPhase(b, bird.phase, bird.velocity, delta);
    ModRange(raw, PHASE_WRAP);
    ModOfInRange(raw, PHASE_WRAP);
    bird.(position := Add(bird.position, Scale(Scale(bird.velocity, delta), FLIGHT_SCALE)), phase := Mod(raw, PHASE_WRAP))
  }

  /** A phase that overshoots the modulus by less than one period is brought back by exactly one period. */
  lemma PhaseWrapsOnce(b: Builtins, bird: Bird, delta: real)
    requires PHASE_WRAP <= RawPhase(b, bird.phase, bird.velocity, delta) < 2.0 * PHASE_WRAP
    ensures PositionKernel(b, bird, delta).phase == RawPhase(b, bird.phase, bird.velocity, delta) - PHASE_WRAP
  {
    var raw := RawPhase(b, bird.phase, bird.velocity, delta);
    ModPeriodic(raw - PHASE_WRAP, PHASE_WRAP);
    ModOfInRange(raw - PHASE_WRAP, PHASE_WRAP);
  }

  /** The velocity pass: every texel computed from the same, unchanged grid. */
  function VelocityPass(b: Builtins, beh: Behaviour, delta: real, grid: seq<Bird>): (r: seq<Vec3>)
    requires HasZone(beh)
    ensures |r| == |grid|
  {
    seq(|grid|, i requires 0 <= i < |grid| => NewVelocity(b, beh, delta, grid, i))
  }

  /**
    One compute step. Both passes read the textures of the previous frame
    (the compute renderer is double-buffered), so the position pass moves each
    bird by its previous velocity; the step pairs the new positions and phases
    with the new velocities.
  */
  function ComputeStep(b: Builtins, beh: Behaviour, delta: real, grid: seq<Bird>): (r: seq<Bird>)
    requires HasZone(beh)
    ensures |r| == |grid|
  {
    var velocities := VelocityPass(b, beh, delta, grid);
    seq(|grid|, i requires 0 <= i < |grid| => PositionKernel(b, grid[i], delta).(velocity := velocities[i]))
  }

  /** For positive distances, the zone radius is their sum and `0 < separationThresh < alignmentThresh < 1`. */
  lemma ThresholdOrder(beh: Behaviour)
    requires 0.0 < beh.separationDistance && 0.0 < beh.alignmentDistance && 0.0 < beh.cohesionDistance
    ensures HasZone(beh)
    ensures ZonesOf(beh).radius == beh.separationDistance + beh.alignmentDistance + beh.cohesionDistance
    ensures 0.0 < ZonesOf(beh).separationThresh < ZonesOf(beh).alignmentThresh < 1.0
  {
    var z := ZonesOf(beh);
    var sep, ali, coh := beh.separationDistance, beh.alignmentDistance, beh.cohesionDistance;
    var r := sep + ali + coh;
    assert z.separationThresh == sep / r && z.alignmentThresh == (sep + ali) / r;
    DivFraction(sep, r);
    DivFraction(sep + ali, r);
    DivFraction(ali, r);
    assert (sep + ali) / r == sep / r + ali / r;
    assert 0.0 < sep / r by {
      assert r * (sep / r) == sep;
    }
    assert 0.0 < ali / r by {
      assert r * (ali / r) == ali;
    }
  }

  /**
    The neighbour scan's decision: a neighbour nearer than 0.0001 or outside the
    zone is ignored; any other falls into exactly one band by its percent. The
    separation strength is positive for a positive delta, and each band's
    progress lies in `[0, 1]` (so neither band divides by zero).
  */
  lemma BandFacts(b: Builtins, z: Zones, dist: real, delta: real)
    requires 0.0 < z.radiusSquared
    ensures BandOf(z, dist) == Ignored <==> dist < NEAR || dist * dist > z.radiusSquared
    ensures BandOf(z, dist) == Separation <==>
              NEAR <= dist && Percent(z, dist) <= 1.0 && Percent(z, dist) < z.separationThresh
    ensures BandOf(z, dist) == Alignment <==>
              NEAR <= dist && Percent(z, dist) <= 1.0 &&
              z.separationThresh <= Percent(z, dist) < z.alignmentThresh
    ensures BandOf(z, dist) == Cohesion <==>
              NEAR <= dist && Percent(z, dist) <= 1.0 &&
              z.separationThresh <= Percent(z, dist) && z.alignmentThresh <= Percent(z, dist)
    ensures BandOf(z, dist) == Separation ==>
              0.0 < Percent(z, dist) && (0.0 < delta ==> 0.0 < SeparationForce(z, Percent(z, dist), delta))
    ensures BandOf(z, dist) == Alignment ==>
              z.separationThresh < z.alignmentThresh && 0.0 <= AlignmentProgress(z, Percent(z, dist)) < 1.0
    ensures BandOf(z, dist) == Cohesion ==>
              z.alignmentThresh <= 1.0 && 0.0 <= CohesionProgress(z, Percent(z, dist)) <= 1.0
  {
    var rs := z.radiusSquared;
    var p := Percent(z, dist);
    assert p * rs == dist * dist;
    assert p <= 1.0 <==> dist * dist <= rs by {
      if p <= 1.0 {
        MulMonotone(rs, p, 1.0);
      } else {
        MulMonotone(rs, 1.0, p);
      }
    }
    if NEAR <= dist {
      PercentPositive(z, dist);
      assert 0.0 < p;
    }
    match BandOf(z, dist)
    case Ignored =>
    case Separation =>
      assert z.separationThresh / p > 1.0 by {
        DivAboveOne(z.separationThresh, p);
      }
    case Alignment =>
      var w := z.alignmentThresh - z.separationThresh;
      assert 0.0 < w;
      assert 0.0 <= AlignmentProgress(z, p) < 1.0 by {
        DivFraction(p - z.separationThresh, w);
      }
    case Cohesion =>
      var w := 1.0 - z.alignmentThresh;
      if w != 0.0 {
        DivFraction(p - z.alignmentThresh, w);
      }
  }

  /** A texel at the bird's own position is skipped: no self-interaction. */
  lemma SelfIgnored(b: Builtins, z: Zones, delta: real, self: Vec3, velocity: Vec3, other: Bird)
    requires Lawful(b) && 0.0 < z.radiusSquared && other.position == self
    ensures Steer(b, z, delta, self, velocity, other) == velocity
  {
    assert Sub(other.position, self) == Zero;
    LengthOfZero(b);
  }

  /** The speed limit is 14 while the bird is less than 30 away from the ocean plane, and 9 otherwise. */
  lemma SpeedLimitValue(b: Builtins, p: Vec3)
    requires Lawful(b)
    ensures SpeedLimit(b, p) == if -PREY_RADIUS < p.y < PREY_RADIUS then 14.0 else 9.0
  {
    LengthOnAxis(b, p.y);
  }

  /**
    After the clamp a velocity is no longer than the limit; one already within
    it is left as it is, and a longer one is rescaled to exactly the limit.
  */
  lemma ClampBound(b: Builtins, velocity: Vec3, limit: real)
    requires Lawful(b) && 0.0 <= limit
    ensures Length(b, Clamp(b, velocity, limit)) <= limit
    ensures Length(b, velocity) <= limit ==> Clamp(b, velocity, limit) == velocity
    ensures Length(b, velocity) > limit ==> Length(b, Clamp(b, velocity, limit)) == limit
  {
    if Length(b, velocity) > limit {
      var n := b.normalize(velocity);
      assert Dot(n, n) == 1.0;
      LengthOfScaledUnit(b, n, limit);
    }
  }

  /**
    The velocity kernel keeps every bird within its speed limit (at most 14), and
    leaves a velocity that is already within the limit unscaled.
  */
  lemma VelocityWithinLimit(b: Builtins, beh: Behaviour, delta: real, grid: seq<Bird>, i: int)
    requires Lawful(b) && HasZone(beh) && 0 <= i < |grid|
    ensures Length(b, NewVelocity(b, beh, delta, grid, i)) <= SpeedLimit(b, grid[i].position) <= 14.0
    ensures Length(b, Unclamped(b, beh, delta, grid, i)) <= SpeedLimit(b, grid[i].position) ==>
              NewVelocity(b, beh, delta, grid, i) == Unclamped(b, beh, delta, grid, i)
  {
    ClampBound(b, Unclamped(b, beh, delta, grid, i), SpeedLimit(b, grid[i].position));
  }

  /**
    After a compute step every bird has the velocity the velocity kernel
    computed for it, flies no faster than 14, has its phase in `[0, 62.83)`,
    and has moved by its previous velocity times `delta * 15`.
  */
  lemma StepInvariants(b: Builtins, beh: Behaviour, delta: real, grid: seq<Bird>)
    requires Lawful(b) && HasZone(beh)
    ensures var next := ComputeStep(b, beh, delta, grid);
            forall i :: 0 <= i < |grid| ==>
              && next[i].velocity == NewVelocity(b, beh, delta, grid, i)
              && next[i].position ==
                 Add(grid[i].position, Scale(grid[i].velocity, delta * FLIGHT_SCALE))
              && Length(b, next[i].velocity) <= 14.0
              && 0.0 <= next[i].phase < PHASE_WRAP
  {
    var next := ComputeStep(b, beh, delta, grid);
    forall i | 0 <= i < |grid|
      ensures && next[i].velocity == NewVelocity(b, beh, delta, grid, i)
              && next[i].position ==
                 Add(grid[i].position, Scale(grid[i].velocity, delta * FLIGHT_SCALE))
              && Length(b, next[i].velocity) <= 14.0
              && 0.0 <= next[i].phase < PHASE_WRAP
    {
      var v := VelocityPass(b, beh, delta, grid)[i];
      assert v == NewVelocity(b, beh, delta, grid, i);
      assert next[i] == PositionKernel(b, grid[i], delta).(velocity := v);
      VelocityWithinLimit(b, beh, delta, grid, i);
    }
  }
}
