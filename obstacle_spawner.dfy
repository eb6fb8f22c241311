/** ObstacleSpawner: keeps one chain of obstacles alive. Each spawned
    obstacle's removal signal is subscribed to SpawnShape, so the next
    obstacle is spawned when the current one is disabled. */
module Obstacles {
  import opened Common
  import opened ObstacleGeometry
  import SpawnerFactory
  import DirectionalSpawner
  import Signals

  /** The objects one spawn may change: the pooled obstacle, its placement
      component and its removal signal. */
  function PoolFrame(pool: Pool<DirectionalSpawner.ObstacleObject>): set<object> {
    if pool.Missing? then {}
    else if pool.obj.action == null then {pool.obj, pool.obj.placementMain}
    else {pool.obj, pool.obj.placementMain, pool.obj.action}
  }

  /** A failed spawn leaves the pooled obstacle, its placement and its
      removal signal as they were. */
  twostate predicate PoolUntouched(pool: Pool<DirectionalSpawner.ObstacleObject>)
    reads PoolFrame(pool)
  {
    pool.Present? ==>
      unchanged(pool.obj, pool.obj.placementMain) &&
      (pool.obj.action != null ==> unchanged(pool.obj.action))
  }

  class ObstacleSpawner {
    /** Written by the difficulty system; never read here. */
    var delayBetweenSpawn: real
    /** The raw ObstacleSpawnDirection value (Horizontal = 0, Vertical = 100). */
    const spawnDirection: int
    var directionalSpawner: DirectionalSpawner.ObstacleDirectionalSpawner?
    /** The removal signal currently subscribed to, if any. */
    var actionWhenDisabled: Signals.ActionOnDisabled?
    /** Every removal signal this spawner has ever held in its slot. */
    ghost var Seen: set<Signals.ActionOnDisabled>

    /** The delegate `SpawnShape` bound to this spawner. */
    function SpawnHandler(): Signals.Handler {
      Signals.Handler(this, "SpawnShape")
    }

    /** At most one subscription: the handler occurs at most once in the
        current slot and in no other signal this spawner has held. */
    ghost predicate Valid()
      reads this, directionalSpawner, Seen
    {
      (actionWhenDisabled != null ==> actionWhenDisabled in Seen) &&
      (forall s :: s in Seen ==>
        multiset(s.onDisabled)[SpawnHandler()] <= (if s == actionWhenDisabled then 1 else 0)) &&
      (directionalSpawner != null ==> directionalSpawner.Valid())
    }

    constructor (spawnDirection: int, delayBetweenSpawn: real)
      ensures Valid()
      ensures this.spawnDirection == spawnDirection && this.delayBetweenSpawn == delayBetweenSpawn
      ensures directionalSpawner == null && actionWhenDisabled == null && Seen == {}
    {
      this.spawnDirection := spawnDirection;
      this.delayBetweenSpawn := delayBetweenSpawn;
      directionalSpawner := null;
      actionWhenDisabled := null;
      Seen := {};
    }

    /** OnStart: the directional spawner comes from the factory (null for an
        undeclared direction; its first builder index is the Random.Range(0, 2)
        draw `initialIndex`), then exactly one spawn is attempted, with the
        first builder when it succeeds. */
    method OnStart(game: GameState, pool: Pool<DirectionalSpawner.ObstacleObject>, draws: Draws, initialIndex: int,
                   desired: Vec2)
      returns (spawned: bool)
      requires Valid() && ValidDraws(draws) && 0 <= initialIndex < 2
      requires pool.Present? && pool.obj.action != null && pool.obj.action !in Seen ==>
        SpawnHandler() !in pool.obj.action.onDisabled
      modifies this, actionWhenDisabled, PoolFrame(pool)
      ensures Valid()
      ensures (directionalSpawner == null) == SpawnerFactory.Make(spawnDirection).None?
      ensures directionalSpawner != null ==>
        fresh(directionalSpawner) &&
        directionalSpawner.dataBuilders == [SpawnerFactory.Make(spawnDirection).value.0, SpawnerFactory.Make(spawnDirection).value.1] &&
        directionalSpawner.currentIndex == (if spawned then 1 - initialIndex else initialIndex)
      ensures spawned <==> !IsGameOver(game) && SpawnerFactory.Make(spawnDirection).Some? && pool.Present?
      ensures spawned ==> pool.obj.active && actionWhenDisabled == pool.obj.action
      ensures spawned ==>
        DirectionalSpawner.SpawnedFrom(pool.obj, directionalSpawner.dataBuilders[initialIndex], draws, desired) &&
        Signals.Swapped(old(actionWhenDisabled), actionWhenDisabled, SpawnHandler())
      ensures !spawned ==>
        actionWhenDisabled == old(actionWhenDisabled) && Seen == old(Seen) &&
        (forall s :: s in Seen ==> s.onDisabled == old(s.onDisabled)) && PoolUntouched(pool)
      ensures delayBetweenSpawn == old(delayBetweenSpawn)
    {
      var pair := SpawnerFactory.Make(spawnDirection);
      if pair.Some? {
        directionalSpawner := new DirectionalSpawner.ObstacleDirectionalSpawner(pair.value.0, pair.value.1, initialIndex);
      } else {
        directionalSpawner := null;
      }
      spawned := SpawnShape(game, pool, draws, desired);
    }

    /** OnDisable: the current subscription is removed, so afterwards this
        spawner is subscribed to no signal at all. */
    method OnDisable()
      requires Valid()
      modifies actionWhenDisabled
      ensures Valid()
      ensures forall s :: s in Seen ==> SpawnHandler() !in s.onDisabled
      ensures actionWhenDisabled != null ==>
        actionWhenDisabled.onDisabled == Signals.RemoveLast(old(actionWhenDisabled.onDisabled), SpawnHandler())
    {
      RemoveListener();
    }

    /** SpawnShape: nothing happens when the game is over (or there is no
        GameStateController), when the directional spawner is null (the call
        throws), or when the pool is missing (the UnityException is caught).
        Otherwise the new obstacle is built, placed (`desired` is the
        position the camera bounds give for its location) and activated, the
        old subscription is removed, the slot becomes the new obstacle's
        signal and SpawnShape is subscribed to it, so the chain continues from
        the new obstacle. No other handler of either signal is touched. */
    method SpawnShape(game: GameState, pool: Pool<DirectionalSpawner.ObstacleObject>, draws: Draws, desired: Vec2)
      returns (spawned: bool)
      requires Valid() && ValidDraws(draws)
      requires pool.Present? && pool.obj.action != null && pool.obj.action !in Seen ==>
        SpawnHandler() !in pool.obj.action.onDisabled
      modifies this, directionalSpawner, actionWhenDisabled, PoolFrame(pool)
      ensures Valid()
      ensures spawned <==> !IsGameOver(game) && directionalSpawner != null && pool.Present?
      ensures directionalSpawner == old(directionalSpawner) && delayBetweenSpawn == old(delayBetweenSpawn)
      ensures !spawned ==>
        actionWhenDisabled == old(actionWhenDisabled) && Seen == old(Seen) &&
        (forall s :: s in Seen ==> s.onDisabled == old(s.onDisabled)) &&
        (directionalSpawner != null ==> directionalSpawner.currentIndex == old(directionalSpawner.currentIndex)) &&
        PoolUntouched(pool)
      ensures spawned ==>
        pool.obj.active && actionWhenDisabled == pool.obj.action &&
        Seen == old(Seen) + (if pool.obj.action == null then {} else {pool.obj.action}) &&
        directionalSpawner.currentIndex == 1 - old(directionalSpawner.currentIndex) &&
        DirectionalSpawner.SpawnedFrom(pool.obj, directionalSpawner.dataBuilders[old(directionalSpawner.currentIndex)], draws, desired) &&
        Signals.Swapped(old(actionWhenDisabled), actionWhenDisabled, SpawnHandler())
      ensures spawned && actionWhenDisabled != null ==>
        multiset(actionWhenDisabled.onDisabled)[SpawnHandler()] == 1
    {
      if IsGameOver(game) || directionalSpawner == null {
        return false;
      }
      ghost var b := directionalSpawner.dataBuilders[directionalSpawner.currentIndex];
      var obstacle := directionalSpawner.SpawnNew(pool, draws, desired);
      if obstacle.None? {
        return false;
      }
      var obj := obstacle.value;
      assert DirectionalSpawner.SpawnedFrom(obj, b, draws, desired);
      assert actionWhenDisabled != null ==> actionWhenDisabled.onDisabled == old(actionWhenDisabled.onDisabled);
      assert obj.action != null ==> obj.action.onDisabled == old(obj.action.onDisabled);
      Adopt(obj);
      spawned := true;
    }

    /** The obstacle is activated and the subscription moves to its signal;
        what the obstacle was built and placed with is kept. */
    method Adopt(obj: DirectionalSpawner.ObstacleObject)
      requires Valid()
      requires obj.action != null && obj.action !in Seen ==> SpawnHandler() !in obj.action.onDisabled
      modifies this, actionWhenDisabled, obj, obj.action
      ensures Valid()
      ensures obj.active && actionWhenDisabled == obj.action
      ensures obj.leftObstacle == old(obj.leftObstacle) && obj.rightObstacle == old(obj.rightObstacle)
      ensures obj.movement == old(obj.movement)
      ensures directionalSpawner == old(directionalSpawner) && delayBetweenSpawn == old(delayBetweenSpawn)
      ensures Seen == old(Seen) + (if obj.action == null then {} else {obj.action})
      ensures Signals.Swapped(old(actionWhenDisabled), obj.action, SpawnHandler())
      ensures obj.action != null ==> multiset(obj.action.onDisabled)[SpawnHandler()] == 1
    {
      obj.active := true;
      SwapSubscription(obj.action);
    }

    /** RemoveListener, take the new signal into the slot, AddListener. */
    method SwapSubscription(action: Signals.ActionOnDisabled?)
      requires Valid()
      requires action != null && action !in Seen ==> SpawnHandler() !in action.onDisabled
      modifies this, actionWhenDisabled, action
      ensures Valid()
      ensures actionWhenDisabled == action && directionalSpawner == old(directionalSpawner)
      ensures Seen == old(Seen) + (if action == null then {} else {action})
      ensures Signals.Swapped(old(actionWhenDisabled), action, SpawnHandler())
      ensures delayBetweenSpawn == old(delayBetweenSpawn)
      ensures action != null ==> multiset(action.onDisabled)[SpawnHandler()] == 1
    {
      RemoveListener();
      actionWhenDisabled := action;
      if actionWhenDisabled != null {
        Seen := Seen + {actionWhenDisabled};
      }
      AddListener();
    }

    /** `onDisabled -= SpawnShape` on the current slot, if any. */
    method RemoveListener()
      requires Valid()
      modifies actionWhenDisabled
      ensures Valid()
      ensures forall s :: s in Seen ==> SpawnHandler() !in s.onDisabled
      ensures actionWhenDisabled != null ==>
        actionWhenDisabled.onDisabled == Signals.RemoveLast(old(actionWhenDisabled.onDisabled), SpawnHandler())
    {
      if actionWhenDisabled != null {
        actionWhenDisabled.Unsubscribe(SpawnHandler());
      }
    }

    /** `onDisabled += SpawnShape` on the current slot, if any. */
    method AddListener()
      requires actionWhenDisabled != null ==> actionWhenDisabled in Seen
      requires forall s :: s in Seen ==> SpawnHandler() !in s.onDisabled
      requires directionalSpawner != null ==> directionalSpawner.Valid()
      modifies actionWhenDisabled
      ensures Valid()
      ensures actionWhenDisabled != null ==>
        actionWhenDisabled.onDisabled == old(actionWhenDisabled.onDisabled) + [SpawnHandler()] &&
        multiset(actionWhenDisabled.onDisabled)[SpawnHandler()] == 1
    {
      if actionWhenDisabled != null {
        actionWhenDisabled.Subscribe(SpawnHandler());
      }
    }
  }
}
