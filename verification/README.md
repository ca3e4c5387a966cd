# Circles: a model of the simulation step

The program simulates balls falling into two black holes ("attractors")
that orbit the origin in opposition. Each frame it advances a shared phase
angle and places the attractors from it. It then moves every ball one
semi-implicit Euler step under the attractors' gravity. A ball that ends the
step within the collision radius of an attractor is despawned and sends two
`SpawnBall` events for points on the spawn circle. A consumer system turns
every pending event into a ball at rest. At startup a batch of
`init_ball_number` events is sent.

The model is a set of pure functions over an explicit state,
`Simulation.World(angle, bhs, balls, queue, draws)`:

- `angle` is the running phase. In the program it is the `angle` field of
  the `Config` resource. Here `Config.angle` holds only the starting value.
- `bhs` are the attractors (`BH` plus their translation).
- `balls` are the live balls (translation and `velocity`).
- `queue` holds the pending `SpawnBall` requests.
- `draws` counts the random angles used so far.

Positions and velocities are pairs and triples of `real`. Three things are
parameters of the model, bundled in `Configuration.Env`:

- `fromAngle` stands for `Vec2::from_angle`.
- `pull(gravity, d)` stands for the contribution
  `gravity * d.normalize() / d.length_squared()` of one attractor.
- `rng(i)` is the i-th angle drawn from the generator, an infinite stream.

The sum over the attractors, the `.xy()` direction and the 3D
distance test are modelled. The distance test is made on squared distances.
`Population.CollidesIffByDistance` shows that, for any distance function that
is the non-negative square root of the squared distance, the test on distances
swallows exactly the same points.

A tick (`Simulation.Tick`) runs four phases in this order: the phase update,
attractor placement, the ball phase, and draining of the queue. Because the
drain comes last, the requests made by the ball phase are consumed in the
same tick. No claim is made about the engine's frame latency.
`TAU` and `PI` are the exact values of their single-precision constants.

`update_angle` subtracts `TAU` only when the sum is strictly greater than
`TAU` (`bevy/src/main.rs:67`). An angle equal to `TAU` is therefore kept, and
the phase ranges over the closed `[0, TAU]`; a half-open range would need
`>=`. `Phase.TauIsReachable` exhibits the kept `TAU`.

## Model

| member | source | states |
|---|---|---|
| Configuration.Default | bevy/src/main.rs:17-28 | definition: the default configuration, `bh_r = 100`, `angle = 0`, `r = 400`, `da = TAU / 5`, `init_ball_number = 8`, `gravity = 10^8` |
| Configuration.DefaultStepWithinOneTurn | bevy/src/main.rs:17-28 | with the default rate `TAU / 5`, a tick of at most 5 s advances the phase by at most one turn; five seconds is exactly one turn |
| Phase.UpdateAngle | bevy/src/main.rs:65-70 | the new angle is `angle + da*dt`, less `TAU` at most once, and `TAU` is taken off exactly when the sum is strictly above `TAU` |
| Phase.AngleStaysInRange | bevy/src/main.rs:65-70 | a phase in `[0, TAU]` advanced by at most one turn stays in `[0, TAU]` |
| Phase.TauIsReachable | bevy/src/main.rs:67-69 | `TAU` itself is a reachable result and is not wrapped, because the test is strict |
| Phase.AngleRunInRange | bevy/src/main.rs:65-70 | over any sequence of ticks that each advance by at most one turn, the phase stays in `[0, TAU]` |
| Kinematics.Heading | bevy/src/main.rs:74-78 | definition: the angle an attractor is placed at, the phase for `s == true` and the phase less `PI` otherwise |
| Kinematics.Placement | bevy/src/main.rs:74-78 | definition: an attractor's place, `from_angle(heading)·bh_r` |
| Kinematics.UpdateBhs | bevy/src/main.rs:72-81 | every attractor keeps its role and its `z`; its `x, y` become `from_angle(angle)·bh_r` for `s == true` and `from_angle(angle − PI)·bh_r` otherwise |
| Kinematics.AttractorsOpposite | bevy/src/main.rs:74-78 | if `from_angle(angle − PI)` is the opposite of `from_angle(angle)`, the leading and the trailing attractor are at opposite points |
| Kinematics.AttractorsOnOrbit | bevy/src/main.rs:74-78 | if `from_angle` gives unit vectors, every attractor is at distance `bh_r` from the origin |
| Integrator.Accel | bevy/src/main.rs:139-145 | definition: the acceleration on a ball, the sum over the attractors of `pull(gravity, (bh − p).xy())` |
| Integrator.StepBall | bevy/src/main.rs:139-149 | definition: one ball's step, the Euler step under the acceleration at its current position |
| Integrator.AccelOfConcat | bevy/src/main.rs:139-145 | the acceleration is additive over the attractors: the acceleration from two groups is the sum of the two |
| Integrator.AccelOfOne | bevy/src/main.rs:139-145 | one attractor contributes its pull along the plane direction from the ball to the attractor |
| Integrator.EulerStep | bevy/src/main.rs:146-149 | the velocity grows by `a·dt` first, and the position then moves by the new velocity times `dt`; `z` is unchanged |
| Integrator.DriftVelocity | bevy/src/main.rs:146-147 | under constant acceleration the velocity after `n` steps is `v0 + n·a·dt` |
| Integrator.TravelClosedForm | bevy/src/main.rs:148-149 | the distance moved in `n` steps is `v0·n·dt + a·dt²·n(n+1)/2`, the discrete recurrence and not the continuous `a(n·dt)²/2` |
| Integrator.DriftAlongX | bevy/src/main.rs:148 | along `x`, `n` steps under constant acceleration move the ball by the step-by-step sum of updated velocities |
| Integrator.DriftAlongY | bevy/src/main.rs:149 | the same along `y` |
| Integrator.DriftKeepsZ | bevy/src/main.rs:148-149 | the Euler step never changes `z` |
| Integrator.VelocityFromRest | bevy/src/main.rs:146-147 | from rest under constant acceleration, the velocity after `n` steps is `n·a·dt` |
| Integrator.PositionFromRest | bevy/src/main.rs:146-149 | from rest, after `n` steps each coordinate has moved by `a·dt²·n(n+1)/2` and `z` is unchanged |
| Population.SquaredTestMatchesDistance | bevy/src/main.rs:153 | for a non-negative distance, `distance <= 22.4` holds exactly when `distance² <= 22.4²` |
| Population.Collides | bevy/src/main.rs:151-153 | definition: some attractor is within squared distance `22.4²` of the point, the bound included |
| Population.Swallowed | bevy/src/main.rs:151-153 | definition: a ball is swallowed when the point it reaches after its step collides |
| Population.CollisionWithinThreshold | bevy/src/main.rs:151-153 | a ball whose distance to some attractor is at most 22.4, exactly 22.4 included, collides: the bound is inclusive |
| Population.CollidesByDistance | bevy/src/main.rs:151-153 | definition: the test as written in the program, some attractor at distance at most 22.4, for a given distance function |
| Population.CollidesIffByDistance | bevy/src/main.rs:151-153 | when the distance function is the non-negative square root of the squared distance, the test on distances and the squared test agree on every point, in both directions |
| Population.NoCollisionBeyondThreshold | bevy/src/main.rs:151-153 | a ball whose distance to every attractor is greater than 22.4 does not collide |
| Population.Request | bevy/src/main.rs:156-161 | definition: the request made with the `i`-th draw, the point `from_angle(rng(i))·r` |
| Population.Requests | bevy/src/main.rs:122-126 | `count` requests, the j-th at `from_angle(rng(start + j))·r` |
| Population.InitBallCount | bevy/src/main.rs:122 | definition: the number of iterations of `0..init_ball_number`, none when it is not positive |
| Population.SpawnInitBalls | bevy/src/main.rs:117-127 | startup sends `init_ball_number` requests, or none when that number is not positive, each at `from_angle(θ)·r` for its own draw `θ` |
| Population.CollidingCount | bevy/src/main.rs:151-153 | the number of balls that collide after their step is at most the number of balls |
| Population.StepBalls | bevy/src/main.rs:138-163 | with `k` of `n` balls colliding: `n − k` survivors, exactly `2k` requests, and `2k` draws used |
| Population.RequestsUseNextDraws | bevy/src/main.rs:156-161 | the j-th request of the ball phase is the point `from_angle(rng(draws + j))·r`: the requests use consecutive draws, in order |
| Population.StepOneBall | bevy/src/main.rs:151-162 | a ball that collides after its step is removed and sends exactly two requests with the next two draws; any other ball is kept as its own step and sends nothing |
| Population.SurvivorsAreStepped | bevy/src/main.rs:138-163 | every survivor is the Euler step of a ball that did not collide, and every ball that did not collide survives as its own step |
| Population.StepBallsOfConcat | bevy/src/main.rs:138-163 | balls do not read each other: stepping `xs + ys` is stepping `xs`, then `ys` with the remaining draws |
| Population.Spawned | bevy/src/main.rs:99-111 | definition: the ball a request turns into, at the request's position with `z = 0` and zero velocity |
| Population.SpawnAll | bevy/src/main.rs:98-114 | one ball per request, in order, at the request's position with `z = 0` and zero velocity |
| Population.Drain | bevy/src/main.rs:92-115 | every request is consumed; existing balls are untouched and each request adds exactly one ball, at its position and at rest |
| Simulation.Init | bevy/src/main.rs:39-63 | startup: a leading and a trailing attractor, no balls, `init_ball_number` queued requests made with the first draws |
| Simulation.Tick | bevy/src/main.rs:184-187 | after a tick with `k` collisions the world has `n + |queue| + k` balls and an empty queue, and `2k` more draws are used |
| Simulation.SteadyTickGrowth | bevy/src/main.rs:155-161 | with nothing queued a tick grows the population by exactly `k`; one collision gives a net gain of one |
| Simulation.TickSpawnsAtRest | bevy/src/main.rs:98-114 | after a tick the survivors come first, then one ball at rest per request, old ones first |
| Simulation.FirstTick | bevy/src/main.rs:122-126 | the first tick yields exactly `init_ball_number` balls, all at rest at `from_angle(rng(i))·r` |
| Simulation.FirstTickOnSpawnCircle | bevy/src/main.rs:20-24 | with unit `from_angle` every first-tick ball is at distance `r` from the origin; with the defaults there are 8 of them |
| Simulation.RunNeverShrinks | bevy/src/main.rs:155-161 | over any run the number of balls never decreases |
| Simulation.RunAngle | bevy/src/main.rs:65-70 | the phase after a run is the phase accumulator run on its own |
| Simulation.RunAngleInRange | bevy/src/main.rs:65-70 | a run whose ticks each advance by at most one turn keeps the phase in `[0, TAU]` |
| Simulation.TickAttractorsOpposite | bevy/src/main.rs:72-81 | if `from_angle(a − PI)` is the opposite of `from_angle(a)` for the tick's new phase `a`, a tick keeps the attractor roles and puts leading and trailing attractors at opposite points |

## Left out

- Engine wiring is not modelled: `main`, the schedule, `spawn_camera`, sprites, colours, textures, the `AssetServer` and the 0.4 sprite scale. They do not affect the state.
- The engine's ordering is replaced by a fixed order. `update_bhs` and `update_balls` share a schedule with no order between them. Despawns and spawns go through deferred `Commands`. The model fixes the phase order of a tick instead, and claims no frame latency.
- The startup run of `update_bhs` is not modelled. It shares the startup schedule with `spawn_bhs`, whose spawns are deferred commands, so it finds no attractor; `Simulation.Init` leaves both attractors at the origin and the first tick places them.
- The model steps balls in sequence order. The engine's query iteration order is unspecified, and it decides only which draws go to which ball.
- `f32` rounding is not modelled. In particular, `1.4` rounds in `f32`, so the engine's threshold is slightly below 22.4. `da = TAU / 5` is taken as exact.
- Kinematics.AttractorsOpposite: `sin`, `cos` and `from_angle` are an abstract function. Antipodality and the orbit radius are proved under stated hypotheses on that function.
- Simulation.TickAttractorsOpposite: antipodality after a tick is proved only under the hypothesis that `from_angle(a − PI)` is the opposite of `from_angle(a)` for the new phase `a`, since `from_angle` is abstract.
- Integrator.AccelOfOne: the inverse-square magnitude, `normalize` and the zero-distance NaN case are inside the abstract `pull`. Only the summation and the direction it is given are proved.
- The ChaCha8 generator seeded from entropy is replaced by a stream of angles. Nothing is stated about its distribution over `[0, TAU)`.
- `log_info` is not modelled. It only prints the FPS and the ball count.
