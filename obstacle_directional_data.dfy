/** ObstacleHorizontalDataImpl / ObstacleVerticalDataImpl: build the
    description of one two-sided obstacle from three random draws. */
module ObstacleGeometry {
  import opened Common

  /** Thickness of each side along its fixed axis. */
  const OBSTACLE_HEIGHT: real := 0.02
  /** Smallest variable extent of a side. */
  const MINIMUM_SCALE: real := 0.05

  /** The two builder classes. */
  datatype Orientation = Horizontal | Vertical

  /** MINIMUM_OBSTACLE_GAP of each builder class. */
  function MinimumObstacleGap(o: Orientation): real {
    match o
    case Horizontal => 0.35
    case Vertical => 0.45
  }

  /** MIN_MAX_MOVEMENT_SPEED of each builder class. */
  function MinMaxMovementSpeed(o: Orientation): Vec2 {
    match o
    case Horizontal => Vec2(1.0, 1.5)
    case Vertical => Vec2(1.0, 2.0)
  }

  /** A builder: its class and the two values its constructor stores. */
  datatype Builder = Builder(orientation: Orientation, moveDirection: Direction, boundsLocation: BoundsLocation)

  /** ObstacleDataContainerSide. */
  datatype ContainerSide = ContainerSide(
    scale: Vec2,
    lockedScaleSide: Side,
    boundsLocation: BoundsLocation,
    lockedAxis: Axis,
    basedOnHeightOnly: bool)

  /** ObstacleDataContainer. */
  datatype Container = Container(
    moveDirection: Direction,
    moveDistancePerSecond: real,
    parentBoundsLocation: BoundsLocation,
    parentLockedAxis: Axis,
    leftSide: ContainerSide,
    rightSide: ContainerSide)

  /** The three random draws one Build makes, in program order: the speed's
      Random.Range, the first scale's Random.Range and the Random.value coin. */
  datatype Draws = Draws(speed: real, firstScale: real, coin: real)

  predicate ValidDraws(d: Draws) {
    IsUnitDraw(d.speed) && IsUnitDraw(d.firstScale) && IsUnitDraw(d.coin)
  }

  /** The extent that varies from obstacle to obstacle: y for horizontal
      obstacles, x for vertical ones. */
  function VariableExtent(o: Orientation, s: ContainerSide): real {
    if o == Horizontal then s.scale.y else s.scale.x
  }

  /** The extent that is always OBSTACLE_HEIGHT. */
  function FixedExtent(o: Orientation, s: ContainerSide): real {
    if o == Horizontal then s.scale.x else s.scale.y
  }

  /** The packing constraint: both variable extents at least MINIMUM_SCALE,
      and together with the gap they fill the axis exactly. */
  ghost predicate Packed(o: Orientation, c: Container) {
    var l := VariableExtent(o, c.leftSide);
    var r := VariableExtent(o, c.rightSide);
    l >= MINIMUM_SCALE && r >= MINIMUM_SCALE && l + r + MinimumObstacleGap(o) == 1.0 &&
    FixedExtent(o, c.leftSide) == OBSTACLE_HEIGHT && FixedExtent(o, c.rightSide) == OBSTACLE_HEIGHT
  }

  /** The first scale drawn from [MINIMUM_SCALE, 1 - gap - MINIMUM_SCALE]. */
  function FirstScale(o: Orientation, t: real): (r: real)
    requires IsUnitDraw(t)
    ensures MINIMUM_SCALE <= r <= 1.0 - MinimumObstacleGap(o) - MINIMUM_SCALE
  {
    Interpolate(MINIMUM_SCALE, 1.0 - MinimumObstacleGap(o) - MINIMUM_SCALE, t)
  }

  /** The second scale fills what the first scale and the gap leave; a
      first scale in its drawing range leaves a second one in the same range. */
  function SecondScale(o: Orientation, first: real): (r: real)
    ensures first + r + MinimumObstacleGap(o) == 1.0
    ensures MINIMUM_SCALE <= first <= 1.0 - MinimumObstacleGap(o) - MINIMUM_SCALE ==>
      MINIMUM_SCALE <= r <= 1.0 - MinimumObstacleGap(o) - MINIMUM_SCALE
  {
    (1.0 - first) - MinimumObstacleGap(o)
  }

  /** A scale vector: the variable extent on the orientation's variable axis,
      OBSTACLE_HEIGHT on the other. */
  function ScaleVector(o: Orientation, extent: real): (v: Vec2)
    ensures VariableExtent(o, ContainerSide(v, Side.None, Top, Axis.None, false)) == extent
  {
    if o == Horizontal then Vec2(OBSTACLE_HEIGHT, extent) else Vec2(extent, OBSTACLE_HEIGHT)
  }

  /** The parent's locked axis: Y for horizontal obstacles, X for vertical ones. */
  function ParentLockedAxis(o: Orientation): Axis {
    if o == Horizontal then Axis.Y else Axis.X
  }

  /** GetDefaultContainer: every field except the speed and the two scales,
      which are left at zero. */
  function GetDefaultContainer(b: Builder): (c: Container)
    ensures c.moveDirection == b.moveDirection && c.parentBoundsLocation == b.boundsLocation
    ensures c.parentLockedAxis == ParentLockedAxis(b.orientation)
    ensures c.moveDistancePerSecond == 0.0
    ensures c.leftSide.scale == Vec2(0.0, 0.0) && c.rightSide.scale == Vec2(0.0, 0.0)
    ensures c.leftSide.basedOnHeightOnly == c.rightSide.basedOnHeightOnly == (b.orientation == Horizontal)
  {
    match b.orientation
    case Horizontal =>
      Container(b.moveDirection, 0.0, b.boundsLocation, Axis.Y,
        ContainerSide(Vec2(0.0, 0.0), Side.None, Top, Axis.None, true),
        ContainerSide(Vec2(0.0, 0.0), Side.None, Bottom, Axis.None, true))
    case Vertical =>
      Container(b.moveDirection, 0.0, b.boundsLocation, Axis.X,
        ContainerSide(Vec2(0.0, 0.0), Side.None, BoundsLocation.Left, Axis.None, false),
        ContainerSide(Vec2(0.0, 0.0), Side.None, BoundsLocation.Right, Axis.None, false))
  }

  /** SetScale: returns the two sides with their scales written; a coin of
      at least 0.5 gives the first scale to the left side. */
  function SetScale(o: Orientation, left: ContainerSide, right: ContainerSide, firstT: real, coin: real)
    : (sides: (ContainerSide, ContainerSide))
    requires IsUnitDraw(firstT)
    ensures sides.0 == left.(scale := sides.0.scale) && sides.1 == right.(scale := sides.1.scale)
  {
    var first := FirstScale(o, firstT);
    var second := SecondScale(o, first);
    if coin >= 0.5 then
      (left.(scale := ScaleVector(o, first)), right.(scale := ScaleVector(o, second)))
    else
      (left.(scale := ScaleVector(o, second)), right.(scale := ScaleVector(o, first)))
  }

  /** Build: the default container, a speed in the builder's range, and the
      two scales. */
  function Build(b: Builder, d: Draws): (c: Container)
    requires ValidDraws(d)
    ensures Packed(b.orientation, c)
    ensures multiset{VariableExtent(b.orientation, c.leftSide), VariableExtent(b.orientation, c.rightSide)}
         == multiset{FirstScale(b.orientation, d.firstScale),
                     SecondScale(b.orientation, FirstScale(b.orientation, d.firstScale))}
    ensures MinMaxMovementSpeed(b.orientation).x <= c.moveDistancePerSecond <= MinMaxMovementSpeed(b.orientation).y
    ensures c.moveDirection == b.moveDirection && c.parentBoundsLocation == b.boundsLocation
    ensures c.parentLockedAxis == ParentLockedAxis(b.orientation)
  {
    var dflt := GetDefaultContainer(b);
    var speed := Interpolate(MinMaxMovementSpeed(b.orientation).x, MinMaxMovementSpeed(b.orientation).y, d.speed);
    var sides := SetScale(b.orientation, dflt.leftSide, dflt.rightSide, d.firstScale, d.coin);
    dflt.(moveDistancePerSecond := speed, leftSide := sides.0, rightSide := sides.1)
  }

  /** Horizontal obstacles: the first scale lies in [0.05, 0.60], the sides
      are thin in x, and the extents plus the 0.35 gap sum to 1. */
  lemma HorizontalBounds(b: Builder, d: Draws)
    requires b.orientation == Horizontal && ValidDraws(d)
    ensures 0.05 <= FirstScale(Horizontal, d.firstScale) <= 0.60
    ensures var c := Build(b, d);
      c.leftSide.scale.x == 0.02 && c.rightSide.scale.x == 0.02 &&
      c.leftSide.scale.y >= 0.05 && c.rightSide.scale.y >= 0.05 &&
      c.leftSide.scale.y + c.rightSide.scale.y + 0.35 == 1.0 &&
      1.0 <= c.moveDistancePerSecond <= 1.5
  {
    var c := Build(b, d);
    assert Packed(Horizontal, c);
  }

  /** Vertical obstacles: the first scale lies in [0.05, 0.50], the sides
      are thin in y, and the extents plus the 0.45 gap sum to 1. */
  lemma VerticalBounds(b: Builder, d: Draws)
    requires b.orientation == Vertical && ValidDraws(d)
    ensures 0.05 <= FirstScale(Vertical, d.firstScale) <= 0.50
    ensures var c := Build(b, d);
      c.leftSide.scale.y == 0.02 && c.rightSide.scale.y == 0.02 &&
      c.leftSide.scale.x >= 0.05 && c.rightSide.scale.x >= 0.05 &&
      c.leftSide.scale.x + c.rightSide.scale.x + 0.45 == 1.0 &&
      1.0 <= c.moveDistancePerSecond <= 2.0
  {
    var c := Build(b, d);
    assert Packed(Vertical, c);
  }

  /** The coin decides which side receives the first scale: at least 0.5
      gives it to the left side, anything lower to the right side. */
  lemma CoinChoosesSide(b: Builder, d: Draws)
    requires ValidDraws(d)
    ensures var c := Build(b, d);
      var o := b.orientation;
      var first := FirstScale(o, d.firstScale);
      (d.coin >= 0.5 ==> VariableExtent(o, c.leftSide) == first && VariableExtent(o, c.rightSide) == SecondScale(o, first)) &&
      (d.coin < 0.5 ==> VariableExtent(o, c.leftSide) == SecondScale(o, first) && VariableExtent(o, c.rightSide) == first)
  {
  }

  /** Fixed per-orientation placement of the two sides: horizontal sides sit
      at Top and Bottom and scale on height only; vertical sides sit at Left
      and Right and do not. No side locks a scale side or an axis. */
  lemma DefaultPlacement(b: Builder, d: Draws)
    requires ValidDraws(d)
    ensures var c := Build(b, d);
      c.leftSide.lockedScaleSide == Side.None && c.rightSide.lockedScaleSide == Side.None &&
      c.leftSide.lockedAxis == Axis.None && c.rightSide.lockedAxis == Axis.None &&
      (b.orientation == Horizontal ==>
        c.leftSide.boundsLocation == Top && c.rightSide.boundsLocation == Bottom &&
        c.leftSide.basedOnHeightOnly && c.rightSide.basedOnHeightOnly) &&
      (b.orientation == Vertical ==>
        c.leftSide.boundsLocation == BoundsLocation.Left && c.rightSide.boundsLocation == BoundsLocation.Right &&
        !c.leftSide.basedOnHeightOnly && !c.rightSide.basedOnHeightOnly)
  {
  }
}
