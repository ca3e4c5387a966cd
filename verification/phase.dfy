/** The shared phase angle that drives both attractors (`update_angle`). */
module Phase {
  import opened Configuration

  /** One tick of the phase: advance by `da * dt`, then take one turn off
      when the sum is strictly above `Tau`. */
  function UpdateAngle(angle: real, da: real, dt: real): (r: real)
    ensures r == angle + da * dt || r == angle + da * dt - Tau
    ensures r == angle + da * dt - Tau <==> angle + da * dt > Tau
  {
    var sum := angle + da * dt;
    if sum > Tau then sum - Tau else sum
  }

  /** A phase in `[0, Tau]` that advances by at most one turn stays in
      `[0, Tau]`. The interval is closed: `Tau` itself is not wrapped. */
  lemma AngleStaysInRange(angle: real, da: real, dt: real)
    requires 0.0 <= angle <= Tau
    requires 0.0 <= da * dt <= Tau
    ensures 0.0 <= UpdateAngle(angle, da, dt) <= Tau
  {
  }

  /** The upper end `Tau` is reached and kept, because the test is strict. */
  lemma TauIsReachable()
    ensures UpdateAngle(Tau / 2.0, 1.0, Tau / 2.0) == Tau
    ensures UpdateAngle(Tau, 0.0, 0.0) == Tau
  {
  }

  /** The phase after a sequence of ticks with the given durations. */
  function AngleRun(angle: real, da: real, dts: seq<real>): real
    decreases |dts|
  {
    if dts == [] then angle else AngleRun(UpdateAngle(angle, da, dts[0]), da, dts[1..])
  }

  /** Over any number of ticks, each advancing by at most one turn, the phase
      stays in `[0, Tau]`. */
  lemma {:induction false} AngleRunInRange(angle: real, da: real, dts: seq<real>)
    requires 0.0 <= angle <= Tau
    requires forall i :: 0 <= i < |dts| ==> 0.0 <= da * dts[i] <= Tau
    ensures 0.0 <= AngleRun(angle, da, dts) <= Tau
    decreases |dts|
  {
    if dts != [] {
      AngleStaysInRange(angle, da, dts[0]);
      var rest := dts[1..];
      assert forall i :: 0 <= i < |rest| ==> rest[i] == dts[i + 1];
      AngleRunInRange(UpdateAngle(angle, da, dts[0]), da, rest);
    }
  }
}
