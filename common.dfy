/** Values shared by the spawning core: Unity vectors, the game's enums with
    their declared numeric codes, the game-over input, the object pool as an
    input, and Unity's float Random.Range expressed over a unit draw. */
module Common {

  datatype Option<T> = None | Some(value: T)

  datatype Vec2 = Vec2(x: real, y: real)

  datatype Vec3 = Vec3(x: real, y: real, z: real)

  const Zero3: Vec3 := Vec3(0.0, 0.0, 0.0)

  /** Unity's implicit Vector2 -> Vector3 conversion: z becomes 0. */
  function ToVec3(v: Vec2): Vec3 {
    Vec3(v.x, v.y, 0.0)
  }

  function Negate(v: Vec3): Vec3 {
    Vec3(-v.x, -v.y, -v.z)
  }

  /** Direction of movement (declared values Left = 1, Up = 100, Right = 200, Down = 300). */
  datatype Direction = Left | Up | Right | Down

  function DirectionCode(d: Direction): int {
    match d
    case Left => 1
    case Up => 100
    case Right => 200
    case Down => 300
  }

  /** Camera bounds locations, with their declared codes. */
  datatype BoundsLocation =
    | Top | TopOffScreen | Left | LeftOffScreen
    | Right | RightOffScreen | Bottom | BottomOffScreen

  /** A possibly locked 2D axis (None = 0, X = 100, Y = 200, XY = 300). */
  datatype Axis = None | X | Y | XY

  /** Which screen side a scale ratio is locked to. */
  datatype Side = None | Width | Height

  /** The GameStateController singleton as seen by the core: absent, or
      present with its isGameOver flag. */
  datatype GameState = NoController | Controller(isGameOver: bool)

  /** Both removal-signal emitters and the obstacle controller treat a
      missing controller as game over. */
  predicate IsGameOver(g: GameState) {
    g.NoController? || g.isGameOver
  }

  /** ObjectPool.instance: missing, or present and handing out `obj` for the
      requested prefab. */
  datatype Pool<T> = Missing | Present(obj: T)

  /** A draw of Unity's Random.value, inclusive at both ends. */
  predicate IsUnitDraw(t: real) {
    0.0 <= t <= 1.0
  }

  /** Linear interpolation from lo to hi at t in [0, 1]. Unity's float
      Random.Range(lo, hi) is Interpolate(lo, hi, t) for a unit draw t, and
      Vector2.Lerp applies it to each coordinate. */
  function Interpolate(lo: real, hi: real, t: real): (r: real)
    requires IsUnitDraw(t)
    ensures lo <= hi ==> lo <= r <= hi
    ensures hi <= lo ==> hi <= r <= lo
    ensures t == 0.0 ==> r == lo
    ensures t == 1.0 ==> r == hi
  {
    var p := (hi - lo) * t;
    ScaledByUnit(hi - lo, t, p);
    lo + p
  }

  /** Scaling a value by a unit draw keeps it between zero and itself. */
  lemma ScaledByUnit(d: real, t: real, p: real)
    requires IsUnitDraw(t) && p == d * t
    ensures d >= 0.0 ==> 0.0 <= p <= d
    ensures d <= 0.0 ==> d <= p <= 0.0
    ensures t == 0.0 ==> p == 0.0
    ensures t == 1.0 ==> p == d
  {
  }

  function Min(a: real, b: real): real {
    if a <= b then a else b
  }

  function Max(a: real, b: real): real {
    if a <= b then b else a
  }
}
