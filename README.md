# 3D solar system: verified model of the `Planet` simulation core

This project models the simulation core of a three.js solar-system viewer (`src/index.ts`). Each body is a `Planet`. Every animation frame, each body does two things in `update(delta, speed)`:

- One semi-implicit Euler step towards a single attractor: the sun, or the Earth for the Moon. The velocity changes first, then the position moves with the new velocity, then the body spins about its y axis.
- A fading trail is maintained. The current position is pushed with a clock reading. Points older than `trailDuration` (5 s) are filtered out. The line geometry is rebuilt with three coordinates per point and an opacity `1 - age/trailDuration`.

At start-up one planet is built per row of the planet table, each on the x axis with a tangential circular-orbit velocity. If there is an Earth, a Moon beside it is appended; the Moon is attracted by that Earth. The frame loop updates the bodies in array order.

Files:

- `vectors.dfy`, module `Vectors`: 3-vectors over the reals (`add`, `sub`, `multiplyScalar`, dot product).
- `gravity.dfy`, module `Gravity`: the integrator step (`Kick`, `Drift`, `Spin`, `Advance`) and Newton's inverse-square law for one step.
- `trail.dfy`, module `Trail`: trail points, the age filter `Retain`, the opacity `Alpha`, and the geometry loop `BuildAttributes`.
- `solar_system.dfy`, module `SolarSystem`: the `Planet` class, with mutable position, velocity, rotation, trail and geometry. It also holds the construction of the planets and the Moon, and the frame loop `Animate`, specified against the value-level sweep `Sweep`/`Frame`.

Decisions:

- **Numbers.** Coordinates, times and masses are `real`; float rounding is not modelled.
- **Square roots.** The square root in `Vector3.length()` is passed in as a function `length`. Wherever a property needs it to be a Euclidean length, `Vectors.IsLength` is required. The orbital speeds `Math.sqrt(sunMass / r)` and `Math.sqrt(earth.mass / 3)` are passed in as numbers, with the defining relation `v*v*r == mass` required only where a property needs it.
- **Clock.** `performance.now() / 1000` is read inside each body's `update` (`src/index.ts:138`), so in one frame every body gets its own reading. `Planet.Update` takes `currentTime`, and `Animate` takes one reading per body (`clock[i]`). The bodies of one frame therefore need not share a timestamp.
- **Trail window boundary.** The filter keeps a point whose age is exactly `trailDuration` (`<=` at `src/index.ts:142`). So points sampled at t = 0..10 and filtered at t = 10 keep t = 5..10, six points, the one at t = 5 with opacity 0 (`Trail.PruningExample`).
- **Sun.** The sun mesh is never moved and sits at the origin, so `SunPosition` is `(0,0,0)`. Its mass is the live `sunMass` (changed from the control panel), a parameter of `Animate`. Construction uses the initial value 3161.4.
- **Attractors.** `Attractor = Sun | Body(index)` into the planet array. The Moon's attractor object reads `earth.mesh.position` and `earth.mass` live (`src/index.ts:217`), as the sun attractor reads `sunMass` live (`src/index.ts:42`, `125`).
- **Frame specification.** `Animate` is proved against definitions over arrays of motion states:
  - `AttractorPosition` and `AttractorMass` are those live reads, in a given array of motion states.
  - `StepBody` is one `Advance` step of body i towards them.
  - `Sweep` applies `StepBody` to bodies 0..n-1 in order, each seeing the states left by the previous ones, which is `planets.forEach` at `src/index.ts:244`.
  - `Frame` is the sweep over all bodies.
  - Their meaning is pinned down by `FrameSteps`, `FrameUsesUpdatedAttractors`, `SweepSettled` and `SweepPaused` below.

## Model

| member | source | states |
|---|---|---|
| Gravity.Kick | src/index.ts:121-128 | The velocity is unchanged when the attractor is at most 0.001 away, and unchanged when `delta*speed == 0`. |
| Gravity.KickAlongDisplacement | src/index.ts:121-128 | When r > 0.001, the velocity change is exactly the displacement times `(1/r) * (G*M/r^2) * dt`, so it points along the displacement. |
| Gravity.KickInverseSquare | src/index.ts:122-127 | With r the length of the displacement, the velocity change has squared magnitude `(G*M/r^2*dt)^2` and projection `G*M/r^2*dt*r` on the displacement: Newton's pull, aimed at the attractor. |
| Gravity.AdvanceInverseSquare | src/index.ts:119-128 | With a Euclidean `length` and the attractor farther than 0.001, one full step changes the velocity by Newton's pull towards the attractor. |
| Gravity.Drift | src/index.ts:129 | The position moves by exactly `velocity * dt`, and not at all when dt = 0. |
| Gravity.Spin | src/index.ts:132 | The rotation increment is 0 when dt = 0, positive for a positive period and positive dt, and one full turn 2π when dt equals the period. |
| Gravity.Advance | src/index.ts:119-132 | dt = 0 freezes position, velocity and rotation. With r <= 0.001 the velocity is kept and the position moves by the old velocity. The new velocity is the kick. The position moves by the new (already kicked) velocity times dt. The rotation grows by `2π/period*dt`. |
| Trail.Retain | src/index.ts:142 | The filtered trail is no longer than before, and every kept point has age at most the duration. |
| Trail.RetainExactlyFresh | src/index.ts:142 | A point is kept if and only if it was in the trail and its age is at most the duration (the boundary is kept). |
| Trail.RetainCounts | src/index.ts:142 | The filter keeps every copy of a fresh point and no copy of a stale one: each point occurs in the result as often as in the trail if its age is at most the duration, and not at all otherwise. |
| Trail.RetainIsSubsequence | src/index.ts:140-142 | The kept points are a subsequence of the trail, in their original order. |
| Trail.SubsequenceKeepsOrder | src/index.ts:140-142 | A subsequence of a trail ordered by time is ordered by time. |
| Trail.RetainKeepsOrder | src/index.ts:140-142 | Filtering a chronological trail leaves it chronological. |
| Trail.RetainAllFresh | src/index.ts:142 | When every point is fresh, the filter returns the trail unchanged. |
| Trail.RetainAppend | src/index.ts:140-142 | Filtering after a push equals filtering first and then keeping the pushed point only if it is fresh. |
| Trail.PushedPointSurvives | src/index.ts:140-142 | For a non-negative duration, the point pushed now always survives as the last point, after the filtered older points. |
| Trail.PushKeepsOrder | src/index.ts:140 | Pushing a point stamped `now` onto a chronological trail with no later point keeps it chronological. |
| Trail.PushPruneKeepsHistory | src/index.ts:138-142 | Push then filter keeps a history at `now`: chronological, no point in the future, and every age in [0, duration]. |
| Trail.Alpha | src/index.ts:148 | The opacity lies in [0, 1] for an age in [0, duration]. It is 1 for a point taken now and 0 at age exactly the duration. |
| Trail.BuildAttributes | src/index.ts:144-150 | The positions array has 3 entries per point (x, y, z in order), and the alphas array has one opacity per point, equal to `Alpha`. |
| Trail.PruningExample | src/index.ts:142-148 | Samples at t = 0..10 filtered at t = 10 with a 5 s window keep exactly t = 5..10, with opacity 0 at t = 5 and 1 at t = 10. |
| SolarSystem.Planet.constructor | src/index.ts:77-92 | The configuration fields are copied. The position and velocity are the initial ones, the rotation is 0, and the trail and geometry are empty. |
| SolarSystem.Planet.Update | src/index.ts:119-156 | The motion is one `Advance` step towards the given attractor. The trail is the filtered old trail plus the current position stamped `currentTime`. The geometry has 3 coordinates and one `Alpha` per point, and the draw count equals the number of points (at least one). A paused frame freezes the motion but still records a point. With a clock that never runs backwards, the trail stays chronological and every opacity lies in [0, 1]. |
| SolarSystem.Planet.Integrate | src/index.ts:119-132 | Position, velocity and rotation become exactly those of `Advance` of the old state, with dt = delta*speed. |
| SolarSystem.Planet.Accelerate | src/index.ts:121-128 | The velocity becomes `Kick` of the old velocity: unchanged when r <= 0.001. |
| SolarSystem.Planet.RecordTrail | src/index.ts:137-156 | Same trail and geometry facts as `Update`. |
| SolarSystem.Find | src/index.ts:201 | `planets.find` returns the first index with that name, or none exactly when no body has the name. |
| SolarSystem.Sweep | src/index.ts:244 | The first n updates of a frame leave the bodies from n onwards as they were, and the array length is unchanged. |
| SolarSystem.SweepSettled | src/index.ts:244 | Once body k has been updated, the rest of the frame does not change it. |
| SolarSystem.FrameSteps | src/index.ts:244 | In a frame each body takes exactly one step from its own start-of-frame state. Its attractor is seen where it ended the frame if it comes earlier in the array, and where it started if not. |
| SolarSystem.FrameStepAt | src/index.ts:244 | The same statement for a single body i. |
| SolarSystem.FrameUsesUpdatedAttractors | src/index.ts:244 | When every attractor comes earlier in the array, every body (the Moon included) is pulled towards its attractor's position after that attractor's update in the same frame. |
| SolarSystem.SweepPaused | src/index.ts:244 | A frame with delta*speed = 0 leaves every body's motion unchanged. |
| SolarSystem.Animate | src/index.ts:244 | After `forEach(p => p.update(...))`, every body's motion is its entry of `Frame` of the old states. Every trail is its filtered old trail plus its new position stamped with that body's clock reading. Every body's geometry holds 3 coordinates and one `Alpha` per new trail point, with the draw count equal to the number of points. With clocks that never run backwards every opacity lies in [0, 1]. Every body stays valid. |
| SolarSystem.UpdateBody | src/index.ts:244 | Updating body i, with its attractor read from the current array, extends the sweep from i to i+1 bodies: body i's motion takes its step, and its trail and geometry are rebuilt as `Planet.Update` promises. |
| SolarSystem.SweptAll | src/index.ts:244 | When the sweep has covered all bodies, the states are the frame's, every trail has been extended once, and every geometry has been rebuilt from its new trail. |
| SolarSystem.CircularStart | src/index.ts:181-185 | A start at (r,0,0) with velocity (0,0,v) is perpendicular to the radius. The speed clause only restates the supplied square root v*v*r = M for the velocity vector (its squared length times r is G*M); no orbit is simulated. |
| SolarSystem.PlanetFromRow | src/index.ts:178-196 | A fresh valid planet from one table row: at (distanceAU*20, 0, 0), velocity (0,0,v), attracted by the sun, empty trail. It starts on a circular orbit when v is the circular speed. |
| SolarSystem.PlanetsFromTable | src/index.ts:176-197 | One fresh, distinct, valid planet per row, in table order, each as `PlanetFromRow` builds it. |
| SolarSystem.CreateMoon | src/index.ts:203-218 | A fresh Moon at Earth + (3,0,0), with Earth's velocity + (0,0,vMoon), attracted by Earth, with the Moon's constant name, colour, mass, size and period. Relative to Earth it starts on a circular orbit. |
| SolarSystem.AddMoon | src/index.ts:199-220 | Without an Earth the array is unchanged. Otherwise exactly one Moon beside the first Earth is appended. The array stays distinct and valid, and every attractor remains an earlier element. |
| SolarSystem.CreatePlanets | src/index.ts:176-220 | The full start-up array: one planet per row, as built from the row, each on a circular orbit about the sun. A Moon is appended if and only if the table has an Earth, and then it orbits the first Earth. All attractors exist and precede their satellites. |

## Left out

- Scene, camera, renderer, lights, orbit controls and the resize handler (`src/index.ts:13-40`): display only.
- Mesh, material and shader construction (`src/index.ts:85-116`), and the `Float32BufferAttribute`/`setAttribute` calls (`src/index.ts:152-155`). The attribute contents are modelled as `seq<real>` fields, and the draw range as `drawCount`. Before the first update the geometry has no attributes; the model holds empty sequences and a draw count of 0.
- `mesh.scale` from `sizeMultiplier` (`src/index.ts:135`), and the control panel with its colour, size and sun-mass callbacks (`src/index.ts:222-236`). The sun mass becomes a parameter of `Animate`, and the simulation speed becomes `speed`.
- `requestAnimationFrame`, `Date.now()` and `performance.now()` (`src/index.ts:138`, `239-243`): `delta` and the clock readings are parameters.
- Floating point: `Math.sqrt`, `normalize`, `Math.PI` and the Float32 conversion of the attributes are modelled over the reals. π is the real 3.141592653589793. Lengths and square roots are parameters tied to the dot product. No orbit-accuracy, stability or energy claim is made.
- Division by zero: JavaScript would give an infinite or NaN rotation for `rotationPeriod == 0`. Every constructed body requires a non-zero period, as every row of the table has one. A trail duration of 0 never occurs (`trailDuration` is the constant 5).
- The values of the planet table (`src/index.ts:164-174`): the table is a parameter of `CreatePlanets`.
