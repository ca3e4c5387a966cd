/** The fixed parameters of the simulation (`Config` and its `Default`) and
    the environment the simulation is run in: the parts of the program that
    are not modelled by their code (trigonometry, the inverse-square pull,
    the random number generator) are passed in as functions. */
module Configuration {
  import opened Vectors

  /** The value of the single-precision constant `TAU`. */
  const Tau: real := 6.283185482025146484375

  /** The value of the single-precision constant `PI`; it is exactly half of `Tau`. */
  const Pi: real := 3.1415927410125732421875

  /** Distance at or below which a ball is swallowed by an attractor:
      half the 32-unit sprite width at scale 1.4. */
  const CollisionRadius: real := 32.0 * 1.4 / 2.0

  type Int32 = n: int | -0x8000_0000 <= n < 0x8000_0000

  /** The process-wide settings. `angle` is the starting phase; the running
      phase lives in the simulation state. */
  datatype Config = Config(
    bhRadius: real,        // orbit radius of both attractors
    angle: real,           // initial phase angle
    spawnRadius: real,     // radius of the circle new balls appear on
    angularRate: real,     // phase advance per second
    initBallNumber: Int32, // size of the initial batch of spawn requests
    gravity: real)         // gravitational constant handed to the pull

  function Default(): Config {
    Config(100.0, 0.0, 400.0, Tau / 5.0, 8, 100_000_000.0)
  }

  /** With the default rate one tick advances the phase by at most one full
      turn as long as it lasts no longer than five seconds, which is the
      condition under which a single wrap per tick keeps the phase in range. */
  lemma DefaultStepWithinOneTurn(dt: real)
    requires 0.0 <= dt <= 5.0
    ensures 0.0 <= Default().angularRate * dt <= Tau
    ensures Default().angularRate * 5.0 == Tau
  {
  }

  /** What the simulation is given from outside:
      `fromAngle` is `Vec2::from_angle`, `pull(gravity, d)` is the
      acceleration `gravity * d.normalize() / d.length_squared()` one
      attractor exerts along the direction `d`, and `rng(i)` is the i-th
      angle drawn from the generator. */
  datatype Env = Env(
    cfg: Config,
    fromAngle: real -> Vec2,
    pull: (real, Vec2) -> Vec2,
    rng: nat -> real)
}
