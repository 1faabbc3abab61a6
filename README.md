# Birds over the ocean: a verified model of the flocking core

The scene flies 256 birds over an animated ocean under a sky whose sun follows
the wall clock. Most of what it does is three.js library calls. This project
models, in Dafny, the parts the repository itself computes:

- **The bird mesh** (`BirdGeometry`, module `BirdMesh`). A write cursor fills
  the vertex buffer three nine-float pushes per bird. A second loop writes each
  vertex's colour, the texel reference of its bird and its slot within the bird.
  The model keeps the `Float32Array`s as Dafny arrays.
- **The two compute kernels** (module `Boids`). The velocity kernel runs on a
  32 × 32 grid of birds stored row by row in a `seq`. It applies the ocean
  repulsion, the pull to the centre, the neighbour scan with its three bands,
  and the speed limit. The position kernel then advances each bird's phase and
  position. The kernels are specification functions. `ComputeVelocity`
  (with `SteerBy`) follows the shader's nested loops and `continue`s
  step by step and is proved equal to them.
- **The frame driver** (`init_Birds`, `animate_Birds`, module `BirdsDriver`).
  It computes the clamped frame delta, writes the three uniform blocks and runs
  the compute step.
- **The sky's time-of-day rule and the water clock** (`initSky`, `updateTime`,
  `animate_SkyOcean`, module `SkyOcean`).

Floats are exact `real`s. GLSL `sqrt` (and through it `length`), `normalize`
and `cos` are uninterpreted. They are fields of a `Glsl.Builtins` value, and
`Glsl.Lawful` states the only two facts the proofs use:
- `sqrt` of the square of a non-negative number is that number;
- `normalize` of a vector of non-zero length has length 1.

GLSL `mod` is written out as `x - y * floor(x / y)`. The clock
(`performance.now()`, `Date`) and the random draws are parameters:
- `now`, and `hours`/`minutes`;
- each `normalRandom(mean, std)` is `Gaussian.NormalRandom(mean, std, z)`,
  where `z` is the standard-normal draw it sampled.

Three behaviours of the code worth stating:
- **Speed limit.** The limit is 14 whenever a bird is less than 30 from the
  ocean plane `y = 0`, whichever way it is flying (Birds.TS:189-194).
- **Night elevation.** The night branch sets `-15 * time`. Midnight therefore
  puts the sun at elevation 0, and late evening at -270 to -360 degrees
  (SkyOcean.ts:47-48).
- **Which velocity the position pass reads.** `gpuCompute.compute()` (three.js
  `GPUComputationRenderer`) binds every dependency of every variable to the
  previous frame's render targets, then renders each variable into the other
  target. So the position kernel moves each bird by its velocity from before
  this frame's velocity pass. `Boids.ComputeStep` models it that way
  (Birds.TS:368-375, 474).

## Model

| member | source | states |
|---|---|---|
| BirdMesh.VertsPush | src/components/ThreejsWebgl/src/Birds.TS:293-297 | the cursor advances by exactly the number of values pushed; the window of the buffer from the old cursor holds the pushed values, every other element is unchanged, and writes past the end are dropped as a typed array drops them |
| BirdMesh.PushBirds | src/components/ThreejsWebgl/src/Birds.TS:291-311 | after 256 birds of three nine-float pushes the cursor equals `BIRDS*9*3`, the buffer's length, so nothing overflows and nothing is left unwritten; every float at index j is float `j % 27` of the bird shape |
| BirdMesh.FillAttributes | src/components/ThreejsWebgl/src/Birds.TS:313-329 | every vertex v gets the reference of its bird `BirdOf(v)`, the slot `v % 9`, and the colour `toRgb` makes of the colour number `Shade(v)` |
| BirdMesh.BirdGeometry.constructor | src/components/ThreejsWebgl/src/Birds.TS:282-329 | the four buffers have lengths `points*3`, `points*3`, `points*2`, `points` and hold exactly the shape, colours, references and slots above |
| BirdMesh.BirdsFitGrid | src/components/ThreejsWebgl/src/Birds.TS:275-276 | 256 birds fit the 32 × 32 grid, so every mesh vertex belongs to a bird whose texel index is below 32 · 32, a texel the kernels simulate |
| BirdMesh.BirdOfIsNinth | src/components/ThreejsWebgl/src/Birds.TS:314-315 | the bird found through the triangle index, `~~(~~(v/3)/3)`, is `v / 9` |
| BirdMesh.SameBirdSameReference | src/components/ThreejsWebgl/src/Birds.TS:313-319 | all nine vertices of one bird share one reference and one colour number |
| BirdMesh.ReferenceInGrid | src/components/ThreejsWebgl/src/Birds.TS:315-317 | every reference has x in `[0, 1)` and y in `[0, 8/32)`, inside the grid |
| BirdMesh.ReferenceNamesTexel | src/components/ThreejsWebgl/src/Birds.TS:316-317 | the reference of bird b names column `b % 32` and row `b / 32`, whose row-major index is b itself |
| BirdMesh.ReferencesDistinct | src/components/ThreejsWebgl/src/Birds.TS:316-317 | different birds reference different texels |
| BirdMesh.ShadeRamp | src/components/ThreejsWebgl/src/Birds.TS:319 | colour numbers lie in `[0x444444, 0xAAAAAA)` and strictly rise from bird to bird |
| BirdMesh.FlappedAreWingTips | src/components/ThreejsWebgl/src/Birds.TS:304-310 | the shader flaps a vertex (slot 4 or 7, Birds.TS:43-46) exactly when it is a wing tip; slot 4 is (-wingsSpan, 0, 0), slot 7 is (wingsSpan, 0, 0), and no body vertex has either slot |
| Glsl.Max | src/components/ThreejsWebgl/src/Birds.TS:114 | `max` is at least both arguments and equals one of them |
| Glsl.ModRange | src/components/ThreejsWebgl/src/Birds.TS:112-114 | GLSL `mod` by a positive modulus lies in `[0, y)` |
| Glsl.ModOfInRange | src/components/ThreejsWebgl/src/Birds.TS:112-114 | a value already in `[0, y)` is its own `mod` |
| Glsl.ModPeriodic | src/components/ThreejsWebgl/src/Birds.TS:112-114 | `mod(x + y, y) == mod(x, y)` |
| Glsl.LengthOnAxis | src/components/ThreejsWebgl/src/Birds.TS:182-183 | the length of `(0, -y, 0)` is the distance of y from 0 |
| Glsl.LengthOfZero | src/components/ThreejsWebgl/src/Birds.TS:215-218 | the zero vector has length 0 |
| Glsl.LengthOfScaledUnit | src/components/ThreejsWebgl/src/Birds.TS:267-268 | a unit vector scaled by `k >= 0` has length k |
| Boids.ZonesOf | src/components/ThreejsWebgl/src/Birds.TS:154-157 | when the three distances do not sum to zero, the squared zone radius is positive |
| Boids.ThresholdOrder | src/components/ThreejsWebgl/src/Birds.TS:154-157 | for positive distances the zone radius is their sum and `0 < separationThresh < alignmentThresh < 1` |
| Boids.PercentPositive | src/components/ThreejsWebgl/src/Birds.TS:220-224 | a neighbour at distance at least 0.0001 has a positive percent, so the separation division is defined |
| Boids.BandFacts | src/components/ThreejsWebgl/src/Birds.TS:218-255 | a neighbour is ignored iff `dist < 0.0001` or `distSquared > zoneRadiusSquared`; otherwise it is in exactly one band: separation iff `percent < separationThresh`, alignment iff `separationThresh <= percent < alignmentThresh`, cohesion iff `percent >= alignmentThresh`, each with `percent <= 1`; the separation factor is positive for `delta > 0`; the alignment progress is in `[0, 1)`; the cohesion progress is in `[0, 1]`, with the `threshDelta == 0` case giving 1 rather than a division by zero |
| Boids.SelfIgnored | src/components/ThreejsWebgl/src/Birds.TS:215-218 | a texel at the bird's own position leaves the velocity unchanged |
| Boids.SteerBy | src/components/ThreejsWebgl/src/Birds.TS:212-255 | the loop body, with its two `continue`s and three bands, computes the per-neighbour step `Steer` |
| Boids.ComputeVelocity | src/components/ThreejsWebgl/src/Birds.TS:152-273 | the shader as written (ocean repulsion, centre pull, row-by-row nested scan of all 32 × 32 texels, clamp) returns `NewVelocity`, the composition of the specification functions |
| Boids.SpeedLimitValue | src/components/ThreejsWebgl/src/Birds.TS:178-194 | the limit is 14 when `-30 < y < 30` and 9 otherwise |
| Boids.ClampBound | src/components/ThreejsWebgl/src/Birds.TS:267-269 | after the clamp the speed is at most the limit; a velocity within the limit is untouched, and a faster one ends at exactly the limit |
| Boids.VelocityWithinLimit | src/components/ThreejsWebgl/src/Birds.TS:266-269 | the kernel's velocity is within its bird's limit, which is at most 14, and is not rescaled when already within it |
| Boids.PositionKernel | src/components/ThreejsWebgl/src/Birds.TS:103-118 | the new position is the old plus velocity × delta × 15; the phase is the GLSL `mod` by 62.83, lies in `[0, 62.83)`, and equals the unwrapped advance when that is already in range |
| Boids.PhaseWrapsOnce | src/components/ThreejsWebgl/src/Birds.TS:112-114 | an advance in `[62.83, 125.66)` wraps by exactly one period |
| Boids.VelocityPass | src/components/ThreejsWebgl/src/Birds.TS:209-271 | the velocity pass yields one velocity per texel of the grid, each the kernel's `NewVelocity` on the unchanged grid (used by `StepInvariants`) |
| Boids.ComputeStep | src/components/ThreejsWebgl/src/Birds.TS:474 | one compute step keeps the grid's size; its content is stated by `StepInvariants` |
| Boids.StepInvariants | src/components/ThreejsWebgl/src/Birds.TS:112-116 | after a step every bird carries the kernel's velocity, at most 14 in speed, its phase is in `[0, 62.83)`, and it has moved by its previous velocity × delta × 15 |
| BirdsDriver.FrameDelta | src/components/ThreejsWebgl/src/Birds.TS:461-464 | the delta is at most 1 and at most the elapsed seconds, and is one of the two |
| BirdsDriver.FrameDeltaCases | src/components/ThreejsWebgl/src/Birds.TS:462-464 | a frame of at most 1000 ms gives its true length in seconds, a longer one gives exactly 1 |
| BirdsDriver.StallIsCapped | src/components/ThreejsWebgl/src/Birds.TS:464 | a five-minute stall yields a delta of exactly 1 |
| BirdsDriver.BackwardsClockNotCapped | src/components/ThreejsWebgl/src/Birds.TS:462-464 | there is no lower cap: a clock reading earlier than `last` yields a negative delta |
| BirdsDriver.Clock.constructor | src/components/ThreejsWebgl/src/Birds.TS:380-381 | a time/delta uniform block starts with the given values |
| BirdsDriver.VelocityUniforms.constructor | src/components/ThreejsWebgl/src/Birds.TS:382-388 | the velocity uniforms start at time 1, delta 0 and 1 for all the others |
| BirdsDriver.Flock.constructor | src/components/ThreejsWebgl/src/Birds.TS:498-513 | after `init_Birds` the position uniforms are (0, 0) and the bird uniforms (1, 0); the velocity uniforms have time 1, delta 0, testing 1, the three distances drawn from N(50, 20), N(30, 10), N(30, 10), and freedom 0.75 |
| BirdsDriver.Flock.Animate | src/components/ThreejsWebgl/src/Birds.TS:460-474 | `last` becomes `now`; all three blocks get time `now` and the same clamped delta; the behaviour uniforms are unchanged; the birds are one `ComputeStep` of the old birds, so every bird keeps within speed 14 with its phase in range |
| SkyOcean.TimeOfDayFacts | src/components/ThreejsWebgl/src/SkyOcean.ts:42 | `hours + minutes*5/300 == hours + minutes/60`, and lies in `[0, 24)` for a wall-clock reading |
| SkyOcean.DaytimeElevation | src/components/ThreejsWebgl/src/SkyOcean.ts:43-44 | in the day branch (6 <= time < 18) the elevation is in `[-90, 90)`, 0 exactly at noon, positive exactly after noon |
| SkyOcean.NightElevation | src/components/ThreejsWebgl/src/SkyOcean.ts:47-48 | in the night branch the elevation is never positive within a day, and is 0 exactly at midnight |
| SkyOcean.ClockElevation | src/components/ThreejsWebgl/src/SkyOcean.ts:42-48 | for every wall-clock minute the elevation is in `(-360, 90)`, and it is 0 in the day exactly at 12:00 |
| SkyOcean.WaterAfterFrames | src/components/ThreejsWebgl/src/SkyOcean.ts:66-68 | n frames advance the water clock by exactly n/60, whatever time they took |
| SkyOcean.Scene.constructor | src/components/ThreejsWebgl/src/SkyOcean.ts:32-39 | after `initSky` the parameters are those of one `updateTime` at the given clock reading, and the azimuth is 0 |
| SkyOcean.Scene.UpdateTime | src/components/ThreejsWebgl/src/SkyOcean.ts:40-56 | exactly one branch runs: time and elevation follow the day/night rule; turbidity and Rayleigh are drawn from N(5, 2) and N(2.5, 1) by day and from N(0.05, 0.02) and N(0.005, 0.002) by night, and are copied into the sky uniforms; the azimuth and the water clock are unchanged |
| SkyOcean.Scene.AnimateWater | src/components/ThreejsWebgl/src/SkyOcean.ts:66-68 | the water clock advances by exactly 1/60 and nothing else changes |

## Left out

- `GPUComputationRenderer` itself is not modelled: render targets, buffer swapping, the half-float fallback and `init()` error logging (Birds.TS:345-401, 476-479). `ComputeStep` stands for one `compute()`. Copying the result textures into the bird uniforms is their identity with `Flock.birds`.
- `fillPositionTexture`, `fillVelocityTexture` and the polar sampler inside `normalRandom` are not modelled, because they are random. The initial grid and each standard-normal draw are parameters.
- The bird vertex shader (rotation from the velocity, the `sin` wing flap), the fragment shader's depth tint, and the sun direction (`degToRad`, `setFromSphericalCoords`, the PMREM environment) are not modelled. They are trigonometric rendering or library calls with no contract beyond the picture. Only the shader's flap test on slots 4 and 7 is modelled (`BirdMesh.Flapped`).
- `THREE.Color`'s conversion from a number to `r`, `g`, `b` is the parameter `toRgb` of the mesh constructor. The materials, the meshes and the scene graph are not modelled.
- Floating point is not modelled. Every float is an exact real, so rounding, half floats, NaN and infinities are absent. The literal `3.141592653589793` is a real constant.
- Boids.ComputeVelocity, BirdsDriver.Flock.Animate: both require that the three distances do not sum to zero. With a zero sum the shader divides by zero, and the model does not say what the GPU then computes.
- Glsl.Lawful: `cos` has no properties at all, and `normalize` of the zero vector is unspecified, as GLSL leaves it undefined. So nothing is claimed about the size of the alignment and cohesion forces, nor about the ocean or centre push on a bird exactly at their reference point.
- The `testing`, `freedomFactor` and `time` uniforms, and `BOUNDS`, are written but never read by the kernels. The model stores them and proves nothing about them.
- The water material's initial `time` is a parameter of `SkyOcean.Scene`'s constructor, because it is a library default.
- BirdMesh.BirdGeometry.constructor: describes the buffers as they stand after the second loop (Birds.TS:329). The source then calls `this.scale(0.2, 0.2, 0.2)` (Birds.TS:341), which rescales `vertices_array` in place, so the final position buffer holds 0.2 times the bird shape and the wing tips sit at (-4, 0, 0) and (4, 0, 0). The model does not apply that scaling, and `FlappedAreWingTips` speaks of the unscaled shape.
- The Vite configuration is not modelled; it holds build settings only.
