/** ObstacleDirectionalSpawner: holds two obstacle builders, builds an
    obstacle with the current one, applies the result to a pooled obstacle,
    and switches to the other builder after every successful spawn. */
module DirectionalSpawner {
  import opened Common
  import opened ObstacleGeometry
  import Signals
  import Placement

  /** ObstacleData.ObstacleSide: which child obstacle a side setup goes to. */
  datatype ObstacleSide = Left | Right

  /** The arguments ObstacleData.SetupParent passes to MoveInDirection.Setup. */
  datatype MovementSetup = MovementSetup(moveDirection: Direction, moveDistancePerSecond: real)

  /** A pooled obstacle GameObject: whether it is active, the last setup its
      ObstacleData component passed to each child and to the movement, its
      PlaceAtCameraBounds component `placementMain` (whose position is the
      obstacle's own transform position), and its ActionOnDisabled component
      (null when it has none). */
  class ObstacleObject {
    var active: bool
    var leftObstacle: Option<ContainerSide>
    var rightObstacle: Option<ContainerSide>
    var movement: Option<MovementSetup>
    const placementMain: Placement.PlaceAtCameraBounds
    const action: Signals.ActionOnDisabled?

    constructor (placementMain: Placement.PlaceAtCameraBounds, action: Signals.ActionOnDisabled?)
      ensures this.placementMain == placementMain && this.action == action && !active
      ensures leftObstacle == Option.None && rightObstacle == Option.None && movement == Option.None
    {
      this.placementMain := placementMain;
      this.action := action;
      active := false;
      leftObstacle := Option.None;
      rightObstacle := Option.None;
      movement := Option.None;
    }
  }

  /** The obstacle carries the container: each side's data went to the
      child of that side and the direction and speed to the movement. */
  ghost predicate Carries(obj: ObstacleObject, c: Container)
    reads obj
  {
    obj.leftObstacle == Some(c.leftSide) &&
    obj.rightObstacle == Some(c.rightSide) &&
    obj.movement == Some(MovementSetup(c.moveDirection, c.moveDistancePerSecond))
  }

  /** The obstacle's placement after SetupParent, for the desired position
      `desired` of the container's bounds location: with a sprite renderer
      the location and lock are stored and the obstacle stands at
      PlacedPosition; without one the obstacle stays at `before` and the
      stored location and lock are those of the earlier state. */
  twostate predicate PlacedBy(p: Placement.PlaceAtCameraBounds, c: Container, desired: Vec2, before: Vec3)
    reads p
  {
    if p.hasSpriteRenderer then
      p.boundsLocation == c.parentBoundsLocation && p.lockAxis == c.parentLockedAxis &&
      p.position == Placement.PlacedPosition(c.parentLockedAxis, p.parentPosition, desired)
    else
      p.position == before && p.boundsLocation == old(p.boundsLocation) && p.lockAxis == old(p.lockAxis)
  }

  /** The obstacle carries what builder `b` built from `draws` and stands
      where SetupParent placed it after the reset to the world origin. */
  twostate predicate SpawnedFrom(obj: ObstacleObject, b: Builder, draws: Draws, desired: Vec2)
    requires ValidDraws(draws)
    reads obj, obj.placementMain
  {
    Carries(obj, Build(b, draws)) && PlacedBy(obj.placementMain, Build(b, draws), desired, Zero3)
  }

  class ObstacleDirectionalSpawner {
    const dataBuilders: seq<Builder>
    var currentIndex: int

    ghost predicate Valid()
      reads this
    {
      |dataBuilders| == 2 && 0 <= currentIndex < 2
    }

    /** The two builders in order; the first builder used is Random.Range(0, 2). */
    constructor (dataDirectionOne: Builder, dataDirectionTwo: Builder, initialIndex: int)
      requires 0 <= initialIndex < 2
      ensures Valid()
      ensures dataBuilders == [dataDirectionOne, dataDirectionTwo] && currentIndex == initialIndex
    {
      dataBuilders := [dataDirectionOne, dataDirectionTwo];
      currentIndex := initialIndex;
    }

    /** SpawnNew: throws (None) before building anything when the pool is
        missing. Otherwise the pooled obstacle is moved to the world origin,
        gets the container built by the current builder, is placed at the
        container's bounds location (`desired` is the position the camera
        bounds give for it), keeps its active flag (activation is the
        caller's), and the other builder becomes current. */
    method SpawnNew(pool: Pool<ObstacleObject>, draws: Draws, desired: Vec2) returns (spawned: Option<ObstacleObject>)
      requires Valid() && ValidDraws(draws)
      modifies this, if pool.Present? then {pool.obj, pool.obj.placementMain} else {}
      ensures Valid()
      ensures pool.Missing? ==> spawned == Option.None && currentIndex == old(currentIndex)
      ensures pool.Present? ==>
        spawned == Some(pool.obj) &&
        currentIndex == 1 - old(currentIndex) &&
        SpawnedFrom(pool.obj, dataBuilders[old(currentIndex)], draws, desired) &&
        pool.obj.active == old(pool.obj.active)
    {
      if pool.Missing? {
        return Option.None;
      }
      var dataContainer := Build(dataBuilders[currentIndex], draws);
      var obsObject := pool.obj;
      obsObject.placementMain.position := Zero3;
      ApplyData(obsObject, dataContainer, desired);
      SwitchLocations();
      spawned := Some(obsObject);
    }

    /** The next spawn uses the other builder. */
    method SwitchLocations()
      requires Valid()
      modifies this
      ensures Valid() && currentIndex == 1 - old(currentIndex)
    {
      currentIndex := (currentIndex + 1) % |dataBuilders|;
    }

    /** Left-side data to the Left child, right-side data to the Right child,
        then SetupParent: the placement component places the obstacle at the
        container's bounds location and the movement gets the direction and
        speed. The active flag does not change. */
    method ApplyData(data: ObstacleObject, dataContainer: Container, desired: Vec2)
      modifies data, data.placementMain
      ensures Carries(data, dataContainer)
      ensures PlacedBy(data.placementMain, dataContainer, desired, old(data.placementMain.position))
      ensures data.active == old(data.active)
    {
      ApplyIndividualObstacleData(data, ObstacleSide.Left, dataContainer.leftSide);
      ApplyIndividualObstacleData(data, ObstacleSide.Right, dataContainer.rightSide);
      data.placementMain.Setup(dataContainer.parentBoundsLocation, dataContainer.parentLockedAxis, desired);
      data.movement := Some(MovementSetup(dataContainer.moveDirection, dataContainer.moveDistancePerSecond));
    }

    method ApplyIndividualObstacleData(mainData: ObstacleObject, side: ObstacleSide, sideData: ContainerSide)
      modifies mainData
      ensures side == ObstacleSide.Left ==>
        mainData.leftObstacle == Some(sideData) && mainData.rightObstacle == old(mainData.rightObstacle)
      ensures side == ObstacleSide.Right ==>
        mainData.rightObstacle == Some(sideData) && mainData.leftObstacle == old(mainData.leftObstacle)
      ensures mainData.movement == old(mainData.movement) && mainData.active == old(mainData.active)
    {
      if side == ObstacleSide.Left {
        mainData.leftObstacle := Some(sideData);
      } else {
        mainData.rightObstacle := Some(sideData);
      }
    }
  }
}
