/** The ball population: the collision test and respawn policy of
    `update_balls`, the initial batch of `spawn_init_balls`, and the
    consumer `spawn_ball` that turns queued requests into balls. */
module Population {
  import opened Vectors
  import opened Configuration
  import opened Components
  import opened Integrator

  /** A point is swallowed when it is within `CollisionRadius` of SOME
      attractor, the bound included. The distance test is made on squares. */
  predicate Collides(bhs: seq<Attractor>, p: Vec3) {
    exists i :: 0 <= i < |bhs| && Dist2(bhs[i].translation, p) <= CollisionRadius * CollisionRadius
  }

  /** For a non-negative distance `d` with square `d2`, such as
      `sqrt(Dist2(p, q))` and `Dist2(p, q)`, the squared test agrees with the test
      on the distance itself, so comparing squares decides the same balls. */
  lemma SquaredTestMatchesDistance(d: real, d2: real)
    requires 0.0 <= d && d * d == d2
    ensures d <= CollisionRadius <==> d2 <= CollisionRadius * CollisionRadius
  {
    assert CollisionRadius == 22.4;
    if d <= 22.4 {
      assert d * d <= 22.4 * d;
    } else {
      assert d * d > 22.4 * d;
    }
  }

  /** A ball whose distance `d` to some attractor is at most the threshold,
      the threshold itself included, is swallowed. */
  lemma CollisionWithinThreshold(bhs: seq<Attractor>, i: int, p: Vec3, d: real)
    requires 0 <= i < |bhs|
    requires 0.0 <= d && d * d == Dist2(bhs[i].translation, p)
    requires d <= CollisionRadius
    ensures Collides(bhs, p)
  {
    SquaredTestMatchesDistance(d, Dist2(bhs[i].translation, p));
  }

  /** The collision test written on distances rather than their squares, for
      any distance function `dist`. */
  predicate CollidesByDistance(dist: (Vec3, Vec3) -> real, bhs: seq<Attractor>, p: Vec3) {
    exists i :: 0 <= i < |bhs| && dist(bhs[i].translation, p) <= CollisionRadius
  }

  /** For a distance function that is the non-negative square root of `Dist2`,
      the test on distances and the squared test swallow the same points. */
  lemma CollidesIffByDistance(dist: (Vec3, Vec3) -> real, bhs: seq<Attractor>, p: Vec3)
    requires forall a, b :: 0.0 <= dist(a, b) && dist(a, b) * dist(a, b) == Dist2(a, b)
    ensures CollidesByDistance(dist, bhs, p) <==> Collides(bhs, p)
  {
    forall i | 0 <= i < |bhs|
      ensures dist(bhs[i].translation, p) <= CollisionRadius
          <==> Dist2(bhs[i].translation, p) <= CollisionRadius * CollisionRadius
    {
      SquaredTestMatchesDistance(dist(bhs[i].translation, p), Dist2(bhs[i].translation, p));
    }
  }

  /** A ball whose distance `d` to every attractor is beyond the threshold
      is not swallowed. */
  lemma NoCollisionBeyondThreshold(bhs: seq<Attractor>, p: Vec3, d: seq<real>)
    requires |d| == |bhs|
    requires forall i :: 0 <= i < |bhs| ==> 0.0 <= d[i] && d[i] * d[i] == Dist2(bhs[i].translation, p)
    requires forall i :: 0 <= i < |bhs| ==> d[i] > CollisionRadius
    ensures !Collides(bhs, p)
  {
    forall i | 0 <= i < |bhs|
      ensures Dist2(bhs[i].translation, p) > CollisionRadius * CollisionRadius
    {
      SquaredTestMatchesDistance(d[i], Dist2(bhs[i].translation, p));
    }
  }

  /** The request made with the `i`-th random draw: a point on the spawn circle. */
  function Request(env: Env, i: nat): SpawnBall {
    SpawnBall(Scale(env.fromAngle(env.rng(i)), env.cfg.spawnRadius))
  }

  /** `count` requests made with consecutive draws from `start` on. */
  function Requests(env: Env, start: nat, count: nat): (q: seq<SpawnBall>)
    ensures |q| == count
    ensures forall j :: 0 <= j < count ==> q[j] == Request(env, start + j)
    decreases count
  {
    if count == 0 then [] else [Request(env, start)] + Requests(env, start + 1, count - 1)
  }

  /** Number of iterations of `0..init_ball_number`: none when it is not positive. */
  function InitBallCount(cfg: Config): nat {
    if cfg.initBallNumber > 0 then cfg.initBallNumber as nat else 0
  }

  /** The startup batch: `init_ball_number` requests (none when that number
      is not positive), each made with its own draw, in order. */
  function SpawnInitBalls(env: Env, draws: nat): (q: seq<SpawnBall>)
    ensures |q| == InitBallCount(env.cfg)
    ensures forall j :: 0 <= j < |q| ==> q[j].pos == Scale(env.fromAngle(env.rng(draws + j)), env.cfg.spawnRadius)
  {
    Requests(env, draws, InitBallCount(env.cfg))
  }

  /** What the ball phase of a tick produces: the balls that are kept, the
      requests it sends, and how many random draws have been used so far. */
  datatype BallsOutcome = BallsOutcome(survivors: seq<Ball>, requests: seq<SpawnBall>, draws: nat)

  /** Whether a ball is swallowed: it collides once it has taken its step. */
  predicate Swallowed(env: Env, bhs: seq<Attractor>, b: Ball, dt: real) {
    Collides(bhs, StepBall(env, bhs, b, dt).translation)
  }

  /** How many balls are swallowed after their step. */
  function CollidingCount(env: Env, bhs: seq<Attractor>, balls: seq<Ball>, dt: real): (k: nat)
    ensures k <= |balls|
    decreases |balls|
  {
    if balls == [] then 0
    else
      (if Swallowed(env, bhs, balls[0], dt) then 1 else 0)
        + CollidingCount(env, bhs, balls[1..], dt)
  }

  /** The ball phase of a tick, in ball order: every ball takes its Euler
      step; a ball that then collides is removed and sends two requests made
      with the next two draws, any other ball is kept as stepped.
      With `k` swallowed balls out of `n`: `n - k` survivors, `2k` requests
      made with the draws `draws .. draws + 2k - 1` (see `RequestsUseNextDraws`). */
  function StepBalls(env: Env, bhs: seq<Attractor>, balls: seq<Ball>, dt: real, draws: nat): (o: BallsOutcome)
    ensures |o.survivors| + CollidingCount(env, bhs, balls, dt) == |balls|
    ensures |o.requests| == 2 * CollidingCount(env, bhs, balls, dt)
    ensures o.draws == draws + |o.requests|
    decreases |balls|
  {
    if balls == [] then BallsOutcome([], [], draws)
    else
      var b := StepBall(env, bhs, balls[0], dt);
      if Swallowed(env, bhs, balls[0], dt) then
        var rest := StepBalls(env, bhs, balls[1..], dt, draws + 2);
        BallsOutcome(rest.survivors, [Request(env, draws), Request(env, draws + 1)] + rest.requests, rest.draws)
      else
        var rest := StepBalls(env, bhs, balls[1..], dt, draws);
        BallsOutcome([b] + rest.survivors, rest.requests, rest.draws)
  }

  /** The requests of the ball phase are made with consecutive draws, in
      order: the j-th request is the one made with draw `draws + j`. */
  lemma {:induction false} RequestsUseNextDraws(env: Env, bhs: seq<Attractor>, balls: seq<Ball>, dt: real, draws: nat)
    ensures forall j :: 0 <= j < |StepBalls(env, bhs, balls, dt, draws).requests| ==>
      StepBalls(env, bhs, balls, dt, draws).requests[j] == Request(env, draws + j)
    decreases |balls|
  {
    if balls != [] {
      var b := StepBall(env, bhs, balls[0], dt);
      if Swallowed(env, bhs, balls[0], dt) {
        var tail := balls[1..];
        var rest := StepBalls(env, bhs, tail, dt, draws + 2);
        RequestsUseNextDraws(env, bhs, tail, dt, draws + 2);
        var o := StepBalls(env, bhs, balls, dt, draws);
        assert o.requests == [Request(env, draws), Request(env, draws + 1)] + rest.requests;
        forall j | 2 <= j < |o.requests|
          ensures o.requests[j] == Request(env, draws + j)
        {
          assert o.requests[j] == rest.requests[j - 2];
        }
      } else {
        RequestsUseNextDraws(env, bhs, balls[1..], dt, draws);
      }
    }
  }

  /** One ball on its own: if it collides after its step it is removed and
      exactly two requests are sent with the next two draws; otherwise it is
      kept, changed only by its own step, and nothing is sent. */
  lemma StepOneBall(env: Env, bhs: seq<Attractor>, b: Ball, dt: real, draws: nat)
    ensures var o := StepBalls(env, bhs, [b], dt, draws);
      var c := StepBall(env, bhs, b, dt);
      if Swallowed(env, bhs, b, dt) then
        o.survivors == [] && o.requests == [Request(env, draws), Request(env, draws + 1)]
      else
        o.survivors == [c] && o.requests == []
  {
    assert [b][1..] == [];
  }

  /** The survivors are exactly the stepped balls that do not collide: every
      survivor is the step of some input ball that is not swallowed, and every
      input ball that is not swallowed survives as its own step. This is a
      statement about membership only; order and multiplicity follow from
      `StepOneBall` together with `StepBallsOfConcat`, which fix the outcome
      ball by ball. */
  lemma {:induction false} SurvivorsAreStepped(env: Env, bhs: seq<Attractor>, balls: seq<Ball>, dt: real, draws: nat)
    ensures var o := StepBalls(env, bhs, balls, dt, draws);
      && (forall b :: b in o.survivors ==>
            exists i :: 0 <= i < |balls| && b == StepBall(env, bhs, balls[i], dt) && !Swallowed(env, bhs, balls[i], dt))
      && (forall i :: 0 <= i < |balls| && !Swallowed(env, bhs, balls[i], dt) ==>
            StepBall(env, bhs, balls[i], dt) in o.survivors)
    decreases |balls|
  {
    if balls != [] {
      var tail := balls[1..];
      var b := StepBall(env, bhs, balls[0], dt);
      var d := if Swallowed(env, bhs, balls[0], dt) then draws + 2 else draws;
      var rest := StepBalls(env, bhs, tail, dt, d);
      SurvivorsAreStepped(env, bhs, tail, dt, d);
      var o := StepBalls(env, bhs, balls, dt, draws);
      assert o.survivors == (if Swallowed(env, bhs, balls[0], dt) then [] else [b]) + rest.survivors;
      forall i | 0 <= i < |tail|
        ensures StepBall(env, bhs, tail[i], dt) == StepBall(env, bhs, balls[i + 1], dt)
        ensures Swallowed(env, bhs, tail[i], dt) == Swallowed(env, bhs, balls[i + 1], dt)
      {
        assert tail[i] == balls[i + 1];
      }
      forall c | c in o.survivors
        ensures exists i :: 0 <= i < |balls| && c == StepBall(env, bhs, balls[i], dt) && !Swallowed(env, bhs, balls[i], dt)
      {
        if c in rest.survivors {
          var i :| 0 <= i < |tail| && c == StepBall(env, bhs, tail[i], dt) && !Swallowed(env, bhs, tail[i], dt);
          assert c == StepBall(env, bhs, balls[i + 1], dt) && !Swallowed(env, bhs, balls[i + 1], dt);
        } else {
          assert c == b && !Swallowed(env, bhs, balls[0], dt);
        }
      }
      forall i | 0 <= i < |balls| && !Swallowed(env, bhs, balls[i], dt)
        ensures StepBall(env, bhs, balls[i], dt) in o.survivors
      {
        if i > 0 {
          assert !Swallowed(env, bhs, tail[i - 1], dt);
        }
      }
    }
  }

  /** Balls do not read each other's state: stepping a population split in
      two is stepping the two parts one after the other, the second part
      continuing with the draws the first part left. */
  lemma {:induction false} StepBallsOfConcat(env: Env, bhs: seq<Attractor>, xs: seq<Ball>, ys: seq<Ball>, dt: real, draws: nat)
    ensures var a := StepBalls(env, bhs, xs, dt, draws);
      var b := StepBalls(env, bhs, ys, dt, a.draws);
      StepBalls(env, bhs, xs + ys, dt, draws)
        == BallsOutcome(a.survivors + b.survivors, a.requests + b.requests, b.draws)
    decreases |xs|
  {
    if xs == [] {
      assert xs + ys == ys;
    } else {
      var x := xs[0];
      var tail := xs[1..];
      assert xs == [x] + tail;
      assert xs + ys == [x] + (tail + ys);
      assert (xs + ys)[0] == x;
      assert (xs + ys)[1..] == tail + ys;
      if Swallowed(env, bhs, x, dt) {
        StepBallsOfConcat(env, bhs, tail, ys, dt, draws + 2);
        var pair := [Request(env, draws), Request(env, draws + 1)];
        var a' := StepBalls(env, bhs, tail, dt, draws + 2);
        var b := StepBalls(env, bhs, ys, dt, a'.draws);
        assert pair + (a'.requests + b.requests) == (pair + a'.requests) + b.requests;
      } else {
        StepBallsOfConcat(env, bhs, tail, ys, dt, draws);
        var c := StepBall(env, bhs, x, dt);
        var a' := StepBalls(env, bhs, tail, dt, draws);
        var b := StepBalls(env, bhs, ys, dt, a'.draws);
        assert [c] + (a'.survivors + b.survivors) == ([c] + a'.survivors) + b.survivors;
      }
    }
  }

  /** The ball made from a request: at the requested position, in the plane
      `z == 0`, at rest. */
  function Spawned(q: SpawnBall): Ball {
    Ball(Extend(q.pos, 0.0), Zero2)
  }

  /** One ball per request, in request order. */
  function SpawnAll(queue: seq<SpawnBall>): (bs: seq<Ball>)
    ensures |bs| == |queue|
    ensures forall i :: 0 <= i < |queue| ==>
      bs[i].translation == Extend(queue[i].pos, 0.0) && bs[i].velocity == Zero2
    decreases |queue|
  {
    if queue == [] then [] else [Spawned(queue[0])] + SpawnAll(queue[1..])
  }

  /** `spawn_ball`: every queued request is consumed and yields exactly one
      new ball at its position with zero velocity; existing balls are kept
      as they are. */
  function Drain(balls: seq<Ball>, queue: seq<SpawnBall>): (r: seq<Ball>)
    ensures |r| == |balls| + |queue|
    ensures r[..|balls|] == balls
    ensures forall i :: |balls| <= i < |r| ==>
      r[i].translation == Extend(queue[i - |balls|].pos, 0.0) && r[i].velocity == Zero2
  {
    balls + SpawnAll(queue)
  }
}
