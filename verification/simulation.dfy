/** The simulation as a state machine: the startup systems build the first
    world, and a tick runs the phase, attractor, ball and spawn phases in
    that order. */
module Simulation {
  import opened Vectors
  import opened Configuration
  import opened Components
  import opened Phase
  import opened Kinematics
  import opened Integrator
  import opened Population

  /** The whole mutable state: the running phase, the attractors, the live
      balls, the queued spawn requests and how many random draws have been used. */
  datatype World = World(angle: real, bhs: seq<Attractor>, balls: seq<Ball>, queue: seq<SpawnBall>, draws: nat)

  /** Startup: the leading and the trailing attractor, no balls yet, and the
      initial batch of requests queued. The attractors are spawned through
      deferred commands, so the startup placement run in the same schedule
      finds none of them: they start at the origin, and the first tick is
      what places them on their orbit. */
  function Init(env: Env): (w: World)
    ensures w.angle == env.cfg.angle && w.balls == []
    ensures |w.bhs| == 2 && w.bhs[0].s && !w.bhs[1].s
    ensures |w.queue| == InitBallCount(env.cfg) == w.draws
    ensures forall j :: 0 <= j < |w.queue| ==> w.queue[j] == Request(env, j)
  {
    var bhs := [Attractor(true, Origin), Attractor(false, Origin)];
    var queue := SpawnInitBalls(env, 0);
    World(env.cfg.angle, bhs, [], queue, |queue|)
  }

  /** The attractors as the ball phase of a tick sees them. */
  function TickAttractors(env: Env, w: World, dt: real): seq<Attractor> {
    UpdateBhs(w.bhs, UpdateAngle(w.angle, env.cfg.angularRate, dt), env.cfg.bhRadius, env.fromAngle)
  }

  /** How many balls a tick removes. */
  function Collisions(env: Env, w: World, dt: real): nat {
    CollidingCount(env, TickAttractors(env, w, dt), w.balls, dt)
  }

  /** One tick of `dt` seconds. When `k` of the `n` live balls collide, the
      queue is emptied into balls and the world ends up with `n - k`
      survivors plus one ball per queued request: the old queue and the
      `2k` new requests. */
  function Tick(env: Env, w: World, dt: real): (w': World)
    ensures |w'.balls| == |w.balls| + |w.queue| + Collisions(env, w, dt)
    ensures w'.queue == []
    ensures w'.draws == w.draws + 2 * Collisions(env, w, dt)
    ensures |w'.bhs| == |w.bhs|
  {
    var angle := UpdateAngle(w.angle, env.cfg.angularRate, dt);
    var bhs := TickAttractors(env, w, dt);
    var o := StepBalls(env, bhs, w.balls, dt, w.draws);
    World(angle, bhs, Drain(o.survivors, w.queue + o.requests), [], o.draws)
  }

  /** In the steady state (nothing queued) a tick in which `k` balls collide
      grows the population by exactly `k`; one collision is a net gain of one. */
  lemma SteadyTickGrowth(env: Env, w: World, dt: real)
    requires w.queue == []
    ensures |Tick(env, w, dt).balls| == |w.balls| + Collisions(env, w, dt)
    ensures Collisions(env, w, dt) == 1 ==> |Tick(env, w, dt).balls| == |w.balls| + 1
  {
  }

  /** The balls after a tick are the survivors followed by the new balls;
      every new ball is at rest, at the position of its request: first the
      requests that were queued, then the two made by each collision. */
  lemma TickSpawnsAtRest(env: Env, w: World, dt: real)
    ensures var w' := Tick(env, w, dt);
      var o := StepBalls(env, TickAttractors(env, w, dt), w.balls, dt, w.draws);
      var made := w.queue + o.requests;
      && w'.balls[..|o.survivors|] == o.survivors
      && |w'.balls| == |o.survivors| + |made|
      && (forall i :: |o.survivors| <= i < |w'.balls| ==>
            w'.balls[i].velocity == Zero2 && w'.balls[i].translation == Extend(made[i - |o.survivors|].pos, 0.0))
  {
  }

  /** The first tick after startup: the queue held the initial batch and
      there were no balls, so exactly `InitBallCount` balls exist, all at rest
      on the spawn circle at the angles of the first draws. */
  lemma FirstTick(env: Env, dt: real)
    ensures var w := Tick(env, Init(env), dt);
      && |w.balls| == InitBallCount(env.cfg)
      && (forall i :: 0 <= i < |w.balls| ==>
            w.balls[i].velocity == Zero2
            && w.balls[i].translation == Extend(Scale(env.fromAngle(env.rng(i)), env.cfg.spawnRadius), 0.0))
  {
    var w0 := Init(env);
    var w := Tick(env, w0, dt);
    var o := StepBalls(env, TickAttractors(env, w0, dt), w0.balls, dt, w0.draws);
    assert o == BallsOutcome([], [], w0.draws);
    assert w0.queue + o.requests == w0.queue;
    assert w.balls == Drain([], w0.queue);
    forall i | 0 <= i < |w.balls|
      ensures w.balls[i].velocity == Zero2
      ensures w.balls[i].translation == Extend(Scale(env.fromAngle(env.rng(i)), env.cfg.spawnRadius), 0.0)
    {
      assert w.balls[i].translation == Extend(w0.queue[i].pos, 0.0);
      assert w0.queue[i] == Request(env, i);
    }
  }

  /** When `fromAngle` gives unit vectors, every ball of the first tick is at
      distance `spawnRadius` from the origin; with the default settings there
      are eight of them, at distance 400. */
  lemma FirstTickOnSpawnCircle(env: Env, dt: real, i: int)
    requires forall t :: Norm2(env.fromAngle(t)) == 1.0
    requires 0 <= i < InitBallCount(env.cfg)
    ensures env.cfg == Default() ==> |Tick(env, Init(env), dt).balls| == 8
    ensures var r := env.cfg.spawnRadius;
      Norm2(Xy(Tick(env, Init(env), dt).balls[i].translation)) == r * r
  {
    var theta: real := env.rng(i);
    var f := env.fromAngle(theta);
    var r := env.cfg.spawnRadius;
    assert Xy(Tick(env, Init(env), dt).balls[i].translation) == Scale(f, r) by {
      FirstTick(env, dt);
    }
    assert Norm2(f) == 1.0;
    NormOfScale(f, r);
  }

  /** The world after a sequence of ticks with the given durations. */
  function Run(env: Env, w: World, dts: seq<real>): World
    decreases |dts|
  {
    if dts == [] then w else Run(env, Tick(env, w, dts[0]), dts[1..])
  }

  /** The population never shrinks: each removed ball is replaced by two. */
  lemma {:induction false} RunNeverShrinks(env: Env, w: World, dts: seq<real>)
    ensures |Run(env, w, dts).balls| >= |w.balls|
    decreases |dts|
  {
    if dts != [] {
      RunNeverShrinks(env, Tick(env, w, dts[0]), dts[1..]);
    }
  }

  /** The phase of a run is the phase accumulator run on its own: nothing
      else in a tick touches it. */
  lemma {:induction false} RunAngle(env: Env, w: World, dts: seq<real>)
    ensures Run(env, w, dts).angle == AngleRun(w.angle, env.cfg.angularRate, dts)
    decreases |dts|
  {
    if dts != [] {
      RunAngle(env, Tick(env, w, dts[0]), dts[1..]);
    }
  }

  /** Started in `[0, Tau]`, the phase stays there through any run whose
      ticks each advance it by at most one turn. */
  lemma RunAngleInRange(env: Env, w: World, dts: seq<real>)
    requires 0.0 <= w.angle <= Tau
    requires forall i :: 0 <= i < |dts| ==> 0.0 <= env.cfg.angularRate * dts[i] <= Tau
    ensures 0.0 <= Run(env, w, dts).angle <= Tau
  {
    RunAngle(env, w, dts);
    AngleRunInRange(w.angle, env.cfg.angularRate, dts);
  }

  /** A tick keeps the roles of the attractors and puts a leading and a
      trailing one at opposite points of the orbit. */
  lemma TickAttractorsOpposite(env: Env, w: World, dt: real, i: int, j: int)
    requires 0 <= i < |w.bhs| && 0 <= j < |w.bhs| && w.bhs[i].s && !w.bhs[j].s
    requires var a := UpdateAngle(w.angle, env.cfg.angularRate, dt);
      env.fromAngle(a - Pi) == Neg(env.fromAngle(a))
    ensures var w' := Tick(env, w, dt);
      w'.bhs[i].s && !w'.bhs[j].s && Xy(w'.bhs[j].translation) == Neg(Xy(w'.bhs[i].translation))
  {
    var a := UpdateAngle(w.angle, env.cfg.angularRate, dt);
    AttractorsOpposite(w.bhs, a, env.cfg.bhRadius, env.fromAngle, i, j);
  }
}
