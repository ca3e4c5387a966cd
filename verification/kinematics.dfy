/** Placement of the two attractors from the shared phase (`update_bhs`). */
module Kinematics {
  import opened Vectors
  import opened Configuration
  import opened Components

  /** The angle an attractor sits at: the phase itself for the leading one
      (`s == true`), half a turn behind for the trailing one. */
  function Heading(s: bool, angle: real): real {
    if s then angle else angle - Pi
  }

  /** Where an attractor of the given role sits on its orbit. */
  function Placement(fromAngle: real -> Vec2, s: bool, angle: real, radius: real): Vec2 {
    Scale(fromAngle(Heading(s, angle)), radius)
  }

  /** Moves every attractor to its place on the orbit. Only `x` and `y` of
      each translation are written; the role and `z` are kept, and each
      attractor's place depends on nothing but its role and the phase. */
  function UpdateBhs(bhs: seq<Attractor>, angle: real, radius: real, fromAngle: real -> Vec2): (r: seq<Attractor>)
    ensures |r| == |bhs|
    ensures forall i :: 0 <= i < |bhs| ==>
      r[i].s == bhs[i].s && r[i].translation.z == bhs[i].translation.z
    ensures forall i :: 0 <= i < |bhs| ==>
      Xy(r[i].translation) == Scale(fromAngle(Heading(bhs[i].s, angle)), radius)
    decreases |bhs|
  {
    if bhs == [] then []
    else
      var b := bhs[0];
      var pos := Placement(fromAngle, b.s, angle, radius);
      [Attractor(b.s, Vec3(pos.x, pos.y, b.translation.z))]
        + UpdateBhs(bhs[1..], angle, radius, fromAngle)
  }

  /** When `fromAngle` maps the trailing heading to the opposite direction of
      the leading one, a leading and a trailing attractor end up at opposite
      points of the orbit. */
  lemma AttractorsOpposite(bhs: seq<Attractor>, angle: real, radius: real, fromAngle: real -> Vec2, i: int, j: int)
    requires 0 <= i < |bhs| && 0 <= j < |bhs|
    requires bhs[i].s && !bhs[j].s
    requires fromAngle(angle - Pi) == Neg(fromAngle(angle))
    ensures var r := UpdateBhs(bhs, angle, radius, fromAngle);
      Xy(r[j].translation) == Neg(Xy(r[i].translation))
  {
    var f := fromAngle(angle);
    assert Scale(Neg(f), radius) == Neg(Scale(f, radius));
  }

  /** When `fromAngle` yields unit vectors, every attractor is at distance
      `radius` from the origin. */
  lemma AttractorsOnOrbit(bhs: seq<Attractor>, angle: real, radius: real, fromAngle: real -> Vec2, i: int)
    requires 0 <= i < |bhs|
    requires forall t :: Norm2(fromAngle(t)) == 1.0
    ensures Norm2(Xy(UpdateBhs(bhs, angle, radius, fromAngle)[i].translation)) == radius * radius
  {
    NormOfScale(fromAngle(Heading(bhs[i].s, angle)), radius);
  }
}
