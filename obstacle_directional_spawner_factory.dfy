/** ObstacleDirectionalSpawnerFactory: maps a spawn direction (Horizontal = 0,
    Vertical = 100) to the ordered pair of builders a directional spawner is
    made from. */
module SpawnerFactory {
  import opened Common
  import opened ObstacleGeometry
  import Movement

  /** The declared ObstacleSpawnDirection codes. */
  const HORIZONTAL: int := 0
  const VERTICAL: int := 100

  /** Unit vector pointing from the screen centre towards an edge. */
  function EdgeNormal(loc: BoundsLocation): Vec3 {
    match loc
    case Top | TopOffScreen => Vec3(0.0, 1.0, 0.0)
    case Bottom | BottomOffScreen => Vec3(0.0, -1.0, 0.0)
    case Left | LeftOffScreen => Vec3(-1.0, 0.0, 0.0)
    case Right | RightOffScreen => Vec3(1.0, 0.0, 0.0)
  }

  predicate IsOffScreen(loc: BoundsLocation) {
    loc == TopOffScreen || loc == BottomOffScreen || loc == LeftOffScreen || loc == RightOffScreen
  }

  /** A builder enters from the off-screen edge behind it: the edge lies
      opposite to its direction of travel. */
  predicate EntersFromBehind(b: Builder) {
    IsOffScreen(b.boundsLocation) &&
    EdgeNormal(b.boundsLocation) == Negate(Movement.UnitVector(b.moveDirection))
  }

  /** Make: the builder pair for a declared direction, null otherwise. */
  function Make(direction: int): (r: Option<(Builder, Builder)>)
    ensures r.Some? <==> direction == HORIZONTAL || direction == VERTICAL
    ensures r.Some? ==>
      r.value.0.orientation == r.value.1.orientation &&
      (r.value.0.orientation == Horizontal <==> direction == HORIZONTAL) &&
      r.value.1.moveDirection == Movement.Opposite(r.value.0.moveDirection)
  {
    if direction == HORIZONTAL then
      Some((Builder(Horizontal, Direction.Left, RightOffScreen), Builder(Horizontal, Direction.Right, LeftOffScreen)))
    else if direction == VERTICAL then
      Some((Builder(Vertical, Up, BottomOffScreen), Builder(Vertical, Down, TopOffScreen)))
    else
      Option.None
  }

  /** Horizontal obstacles first move left from off the right edge, then
      right from off the left edge; vertical ones first move up from below,
      then down from above. This is the factory's table itself, stated as
      the two concrete pairs; the facts that follow from it are
      MakeEntersFromBehind and PairMovesOpposite. */
  lemma MakePairs()
    ensures Make(HORIZONTAL) == Some((Builder(Horizontal, Direction.Left, RightOffScreen),
                                     Builder(Horizontal, Direction.Right, LeftOffScreen)))
    ensures Make(VERTICAL) == Some((Builder(Vertical, Up, BottomOffScreen),
                                   Builder(Vertical, Down, TopOffScreen)))
  {
  }

  /** Every builder Make hands out starts its obstacle off screen, on the
      edge it moves away from. */
  lemma MakeEntersFromBehind(direction: int)
    requires Make(direction).Some?
    ensures EntersFromBehind(Make(direction).value.0) && EntersFromBehind(Make(direction).value.1)
  {
    if direction == HORIZONTAL {
      assert Movement.UnitVector(Direction.Left) == Vec3(-1.0, 0.0, 0.0);
      assert Movement.UnitVector(Direction.Right) == Vec3(1.0, 0.0, 0.0);
    } else {
      assert Movement.UnitVector(Up) == Vec3(0.0, 1.0, 0.0);
      assert Movement.UnitVector(Down) == Vec3(0.0, -1.0, 0.0);
    }
  }

  /** The two builders of a pair move in opposite directions, along negated
      unit vectors, whichever of them is taken first. */
  lemma PairMovesOpposite(direction: int)
    requires Make(direction).Some?
    ensures var (one, two) := Make(direction).value;
      one.moveDirection == Movement.Opposite(two.moveDirection) &&
      Movement.UnitVector(two.moveDirection) == Negate(Movement.UnitVector(one.moveDirection)) &&
      Movement.UnitVector(one.moveDirection) == Negate(Movement.UnitVector(two.moveDirection))
  {
    var (one, two) := Make(direction).value;
    Movement.OppositeNegates(one.moveDirection);
    Movement.OppositeNegates(two.moveDirection);
  }
}
