/** The entities of the simulation, as plain records. */
module Components {
  import opened Vectors

  /** An attractor (`BH`): its role flag `s` and the translation of its transform. */
  datatype Attractor = Attractor(s: bool, translation: Vec3)

  /** A ball: the translation of its transform and its `velocity`. */
  datatype Ball = Ball(translation: Vec3, velocity: Vec2)

  /** The `SpawnBall` event: a request to create a ball at `pos`. */
  datatype SpawnBall = SpawnBall(pos: Vec2)
}
