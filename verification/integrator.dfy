/** Gravity summed over the attractors and the semi-implicit Euler step of
    one ball (the first half of `update_balls`). */
module Integrator {
  import opened Vectors
  import opened Configuration
  import opened Components

  /** Net acceleration on a ball at `p`: the sum, over all attractors, of the
      pull along the plane direction from the ball to the attractor. */
  function Accel(pull: (real, Vec2) -> Vec2, gravity: real, bhs: seq<Attractor>, p: Vec3): Vec2
    decreases |bhs|
  {
    if bhs == [] then Zero2
    else Add(pull(gravity, Xy(Sub3(bhs[0].translation, p))), Accel(pull, gravity, bhs[1..], p))
  }

  /** The net acceleration from two groups of attractors is the sum of the two. */
  lemma {:induction false} AccelOfConcat(pull: (real, Vec2) -> Vec2, gravity: real, xs: seq<Attractor>, ys: seq<Attractor>, p: Vec3)
    ensures Accel(pull, gravity, xs + ys, p) == Add(Accel(pull, gravity, xs, p), Accel(pull, gravity, ys, p))
    decreases |xs|
  {
    if xs == [] {
      assert xs + ys == ys;
    } else {
      assert (xs + ys)[1..] == xs[1..] + ys;
      AccelOfConcat(pull, gravity, xs[1..], ys, p);
    }
  }

  /** A single attractor contributes exactly its own pull. */
  lemma AccelOfOne(pull: (real, Vec2) -> Vec2, gravity: real, bh: Attractor, p: Vec3)
    ensures Accel(pull, gravity, [bh], p) == pull(gravity, Vec2(bh.translation.x - p.x, bh.translation.y - p.y))
  {
  }

  /** One semi-implicit Euler step under acceleration `a`: the velocity is
      updated first and the position moves by the NEW velocity; `z` is kept. */
  function EulerStep(b: Ball, a: Vec2, dt: real): (r: Ball)
    ensures r.velocity == Add(b.velocity, Scale(a, dt))
    ensures Xy(r.translation) == Add(Xy(b.translation), Scale(r.velocity, dt))
    ensures r.translation.z == b.translation.z
  {
    var v := Add(b.velocity, Scale(a, dt));
    var d := Scale(v, dt);
    Ball(Vec3(b.translation.x + d.x, b.translation.y + d.y, b.translation.z), v)
  }

  /** The step a ball takes in a tick: Euler under the attractors' gravity. */
  function StepBall(env: Env, bhs: seq<Attractor>, b: Ball, dt: real): Ball {
    EulerStep(b, Accel(env.pull, env.cfg.gravity, bhs, b.translation), dt)
  }

  /** `n` Euler steps under a constant acceleration. */
  function Drift(b: Ball, a: Vec2, dt: real, n: nat): Ball
    decreases n
  {
    if n == 0 then b else EulerStep(Drift(b, a, dt, n - 1), a, dt)
  }

  /** What one more step of `Drift` does, read off `EulerStep`. */
  lemma DriftStep(b: Ball, a: Vec2, dt: real, n: nat)
    requires n > 0
    ensures var p := Drift(b, a, dt, n - 1); var c := Drift(b, a, dt, n);
      && c.velocity.x == p.velocity.x + a.x * dt
      && c.velocity.y == p.velocity.y + a.y * dt
      && c.translation.x == p.translation.x + c.velocity.x * dt
      && c.translation.y == p.translation.y + c.velocity.y * dt
      && c.translation.z == p.translation.z
  {
  }

  /** Under constant acceleration the velocity grows linearly:
      after `n` steps it is `v0 + n * a * dt`. */
  lemma {:induction false} DriftVelocity(b: Ball, a: Vec2, dt: real, n: nat)
    ensures Drift(b, a, dt, n).velocity
         == Vec2(Speed(b.velocity.x, a.x, dt, n), Speed(b.velocity.y, a.y, dt, n))
    decreases n
  {
    if n > 0 {
      DriftVelocity(b, a, dt, n - 1);
      DriftStep(b, a, dt, n);
      SpeedStep(b.velocity.x, a.x, dt, n);
      SpeedStep(b.velocity.y, a.y, dt, n);
    }
  }

  /** Velocity along one axis after `k` steps under constant acceleration. */
  function Speed(v0: real, a: real, dt: real, k: nat): real {
    v0 + a * ((k as real) * dt)
  }

  lemma SpeedStep(v0: real, a: real, dt: real, n: nat)
    requires n > 0
    ensures Speed(v0, a, dt, n) == Speed(v0, a, dt, n - 1) + a * dt
  {
    var m := (n - 1) as real;
    assert (n as real) == m + 1.0;
    assert a * ((m + 1.0) * dt) == a * (m * dt) + a * dt;
  }

  /** Distance moved along one axis in `n` semi-implicit Euler steps from
      velocity `v0` under constant acceleration `a`: step `k` moves by the
      already updated velocity `v0 + k a dt`. */
  function Travel(v0: real, a: real, dt: real, n: nat): real
    decreases n
  {
    if n == 0 then 0.0 else Travel(v0, a, dt, n - 1) + Speed(v0, a, dt, n) * dt
  }

  /** Closed form of `Travel`: `v0 n dt + a dt^2 n (n + 1) / 2`, the discrete
      recurrence rather than the continuous `a (n dt)^2 / 2`. */
  lemma {:induction false} TravelClosedForm(v0: real, a: real, dt: real, n: nat)
    ensures Travel(v0, a, dt, n) == v0 * (n as real) * dt + a * dt * dt * ((n as real) * ((n as real) + 1.0) / 2.0)
    decreases n
  {
    if n > 0 {
      TravelClosedForm(v0, a, dt, n - 1);
      var m := (n - 1) as real;
      assert (n as real) == m + 1.0;
      ClosedFormStep(v0, a, dt, m);
    }
  }

  lemma ClosedFormStep(v0: real, a: real, dt: real, m: real)
    ensures v0 * m * dt + a * dt * dt * (m * (m + 1.0) / 2.0) + (v0 + a * ((m + 1.0) * dt)) * dt
         == v0 * (m + 1.0) * dt + a * dt * dt * ((m + 1.0) * ((m + 1.0) + 1.0) / 2.0)
  {
    assert (m * (m + 1.0) / 2.0) + (m + 1.0) == (m + 1.0) * ((m + 1.0) + 1.0) / 2.0;
  }

  /** One axis of one step: moving by the updated velocity extends `Travel` by one step. */
  lemma AxisStep(x: real, xPrev: real, x0: real, v: real, v0: real, a: real, dt: real, n: nat)
    requires n > 0
    requires xPrev == x0 + Travel(v0, a, dt, n - 1)
    requires v == Speed(v0, a, dt, n)
    requires x == xPrev + v * dt
    ensures x == x0 + Travel(v0, a, dt, n)
  {
  }

  /** Along `x`, `n` steps under constant acceleration move the ball by `Travel`. */
  lemma {:induction false} DriftAlongX(b: Ball, a: Vec2, dt: real, n: nat)
    ensures Drift(b, a, dt, n).translation.x == b.translation.x + Travel(b.velocity.x, a.x, dt, n)
    decreases n
  {
    if n > 0 {
      var prev := Drift(b, a, dt, n - 1);
      var cur := Drift(b, a, dt, n);
      DriftAlongX(b, a, dt, n - 1);
      DriftVelocity(b, a, dt, n);
      DriftStep(b, a, dt, n);
      AxisStep(cur.translation.x, prev.translation.x, b.translation.x,
        cur.velocity.x, b.velocity.x, a.x, dt, n);
    }
  }

  /** Along `y`, `n` steps under constant acceleration move the ball by `Travel`. */
  lemma {:induction false} DriftAlongY(b: Ball, a: Vec2, dt: real, n: nat)
    ensures Drift(b, a, dt, n).translation.y == b.translation.y + Travel(b.velocity.y, a.y, dt, n)
    decreases n
  {
    if n > 0 {
      var prev := Drift(b, a, dt, n - 1);
      var cur := Drift(b, a, dt, n);
      DriftAlongY(b, a, dt, n - 1);
      DriftVelocity(b, a, dt, n);
      DriftStep(b, a, dt, n);
      AxisStep(cur.translation.y, prev.translation.y, b.translation.y,
        cur.velocity.y, b.velocity.y, a.y, dt, n);
    }
  }

  /** The Euler step never moves a ball off its plane. */
  lemma {:induction false} DriftKeepsZ(b: Ball, a: Vec2, dt: real, n: nat)
    ensures Drift(b, a, dt, n).translation.z == b.translation.z
    decreases n
  {
    if n > 0 {
      DriftKeepsZ(b, a, dt, n - 1);
      DriftStep(b, a, dt, n);
    }
  }

  /** From rest under constant acceleration `a`, the velocity after `n`
      steps is `n a dt`. */
  lemma VelocityFromRest(b: Ball, a: Vec2, dt: real, n: nat)
    requires b.velocity == Zero2
    ensures Drift(b, a, dt, n).velocity == Vec2((n as real) * a.x * dt, (n as real) * a.y * dt)
  {
    var m := n as real;
    DriftVelocity(b, a, dt, n);
    assert a.x * (m * dt) == m * a.x * dt;
    assert a.y * (m * dt) == m * a.y * dt;
  }

  /** From rest under constant acceleration `a`, after `n` steps each
      coordinate has moved by `a dt^2 n (n + 1) / 2`, and `z` is unchanged. */
  lemma PositionFromRest(b: Ball, a: Vec2, dt: real, n: nat)
    requires b.velocity == Zero2
    ensures var m := n as real; var d := Drift(b, a, dt, n);
      && d.translation.x == b.translation.x + a.x * dt * dt * (m * (m + 1.0) / 2.0)
      && d.translation.y == b.translation.y + a.y * dt * dt * (m * (m + 1.0) / 2.0)
      && d.translation.z == b.translation.z
  {
    DriftAlongX(b, a, dt, n);
    DriftAlongY(b, a, dt, n);
    DriftKeepsZ(b, a, dt, n);
    TravelClosedForm(0.0, a.x, dt, n);
    TravelClosedForm(0.0, a.y, dt, n);
  }
}
