/** MovementDirectionFactory: maps a Direction enum value to a movement with a
    constant unit vector and the given speed. */
module Movement {
  import opened Common

  /** MoveDirectionImpl: a direction vector and a speed in units per second. */
  datatype MoveDirectionImpl = MoveDirectionImpl(direction: Vec3, speed: real)

  /** A vector of length one along a single axis of the plane. */
  predicate IsUnitAxis(v: Vec3) {
    v.z == 0.0 &&
    ((v.x == 0.0 && (v.y == 1.0 || v.y == -1.0)) ||
     (v.y == 0.0 && (v.x == 1.0 || v.x == -1.0)))
  }

  predicate IsDeclaredDirection(code: int) {
    code == 1 || code == 100 || code == 200 || code == 300
  }

  /** Unity's Vector3.down/up/right/left for each direction. */
  function UnitVector(d: Direction): (v: Vec3)
    ensures IsUnitAxis(v)
  {
    match d
    case Down => Vec3(0.0, -1.0, 0.0)
    case Up => Vec3(0.0, 1.0, 0.0)
    case Right => Vec3(1.0, 0.0, 0.0)
    case Left => Vec3(-1.0, 0.0, 0.0)
  }

  function Opposite(d: Direction): Direction {
    match d
    case Down => Up
    case Up => Down
    case Right => Direction.Left
    case Left => Direction.Right
  }

  /** Make switches on the raw enum value: any value that is not a declared
      Direction falls through the switch and yields null. */
  function Make(direction: int, speed: real): (r: Option<MoveDirectionImpl>)
    ensures r.Some? <==> IsDeclaredDirection(direction)
    ensures r.Some? ==> IsUnitAxis(r.value.direction) && r.value.speed == speed
  {
    if direction == DirectionCode(Down) then Some(MoveDirectionImpl(UnitVector(Down), speed))
    else if direction == DirectionCode(Up) then Some(MoveDirectionImpl(UnitVector(Up), speed))
    else if direction == DirectionCode(Direction.Right) then Some(MoveDirectionImpl(UnitVector(Direction.Right), speed))
    else if direction == DirectionCode(Direction.Left) then Some(MoveDirectionImpl(UnitVector(Direction.Left), speed))
    else Option.None
  }

  /** Every declared direction gets its own axis vector: Down (0,-1,0),
      Up (0,1,0), Right (1,0,0), Left (-1,0,0). */
  lemma MakeDeclared(d: Direction, speed: real)
    ensures Make(DirectionCode(d), speed) == Some(MoveDirectionImpl(UnitVector(d), speed))
    ensures d == Down ==> UnitVector(d) == Vec3(0.0, -1.0, 0.0)
    ensures d == Up ==> UnitVector(d) == Vec3(0.0, 1.0, 0.0)
    ensures d == Direction.Right ==> UnitVector(d) == Vec3(1.0, 0.0, 0.0)
    ensures d == Direction.Left ==> UnitVector(d) == Vec3(-1.0, 0.0, 0.0)
  {
  }

  /** Distinct directions move along distinct vectors. */
  lemma UnitVectorInjective(d: Direction, e: Direction)
    requires UnitVector(d) == UnitVector(e)
    ensures d == e
  {
    var v := UnitVector(d);
    match d {
      case Down => assert v.y == -1.0;
      case Up => assert v.y == 1.0;
      case Right => assert v.x == 1.0;
      case Left => assert v.x == -1.0;
    }
  }

  /** Opposite directions move along negated vectors. */
  lemma OppositeNegates(d: Direction)
    ensures UnitVector(Opposite(d)) == Negate(UnitVector(d))
    ensures Opposite(Opposite(d)) == d
  {
    match d {
      case Down => assert UnitVector(Up) == Vec3(0.0, 1.0, 0.0);
      case Up => assert UnitVector(Down) == Vec3(0.0, -1.0, 0.0);
      case Right => assert UnitVector(Direction.Left) == Vec3(-1.0, 0.0, 0.0);
      case Left => assert UnitVector(Direction.Right) == Vec3(1.0, 0.0, 0.0);
    }
  }
}
