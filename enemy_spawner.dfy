/** EnemySpawner: keeps one enemy chain alive. Every spawn waits for a
    random delay; the spawned enemy's removal signal schedules the next
    wait. */
module Enemies {
  import opened Common
  import Signals

  /** A pooled enemy GameObject and its ActionOnDisabled component (null
      when it has none). */
  class EnemyObject {
    var active: bool
    var position: Vec3
    const action: Signals.ActionOnDisabled?

    constructor (action: Signals.ActionOnDisabled?)
      ensures this.action == action && !active && position == Zero3
    {
      this.action := action;
      active := false;
      position := Zero3;
    }
  }

  /** The objects one spawn may change: the pooled enemy and its removal
      signal. */
  function PoolFrame(pool: Pool<EnemyObject>): set<object> {
    if pool.Missing? then {}
    else if pool.obj.action == null then {pool.obj}
    else {pool.obj, pool.obj.action}
  }

  /** A failed spawn leaves the pooled enemy and its removal signal as they
      were. */
  twostate predicate PoolUntouched(pool: Pool<EnemyObject>)
    reads PoolFrame(pool)
  {
    pool.Present? ==> unchanged(pool.obj) && (pool.obj.action != null ==> unchanged(pool.obj.action))
  }

  class EnemySpawner {
    /** Written by the difficulty system; never read here. */
    var delayBetweenSpawn: real
    const minMaxSpawnDelay: Vec2
    /** The removal signal currently subscribed to, if any. */
    var enemyAction: Signals.ActionOnDisabled?
    /** The delays of the SpawnAfterDelay coroutines still waiting, in the
        order they were started. */
    var pendingSpawns: seq<real>
    /** Every removal signal this spawner has ever held in its slot. */
    ghost var Seen: set<Signals.ActionOnDisabled>

    /** The delegate `OnEnemyRemovedFromGame` bound to this spawner. */
    function RemovedHandler(): Signals.Handler {
      Signals.Handler(this, "OnEnemyRemovedFromGame")
    }

    /** At most one subscription: the handler occurs at most once in the
        current slot and in no other signal this spawner has held. */
    ghost predicate Valid()
      reads this, Seen
    {
      (enemyAction != null ==> enemyAction in Seen) &&
      (forall s :: s in Seen ==>
        multiset(s.onDisabled)[RemovedHandler()] <= (if s == enemyAction then 1 else 0))
    }

    /** Every scheduled delay was drawn from minMaxSpawnDelay. */
    ghost predicate DelaysInRange()
      reads this
    {
      forall k :: 0 <= k < |pendingSpawns| ==>
        Min(minMaxSpawnDelay.x, minMaxSpawnDelay.y) <= pendingSpawns[k] <= Max(minMaxSpawnDelay.x, minMaxSpawnDelay.y)
    }

    constructor (minMaxSpawnDelay: Vec2, delayBetweenSpawn: real)
      ensures Valid() && DelaysInRange()
      ensures this.minMaxSpawnDelay == minMaxSpawnDelay && this.delayBetweenSpawn == delayBetweenSpawn
      ensures enemyAction == null && pendingSpawns == [] && Seen == {}
    {
      this.minMaxSpawnDelay := minMaxSpawnDelay;
      this.delayBetweenSpawn := delayBetweenSpawn;
      enemyAction := null;
      pendingSpawns := [];
      Seen := {};
    }

    /** OnStart: exactly one spawn is scheduled, after Random.Range over
        minMaxSpawnDelay (the unit draw `t`). */
    method OnStart(t: real)
      requires IsUnitDraw(t) && DelaysInRange()
      modifies this
      ensures DelaysInRange()
      ensures pendingSpawns == old(pendingSpawns) + [Interpolate(minMaxSpawnDelay.x, minMaxSpawnDelay.y, t)]
      ensures enemyAction == old(enemyAction) && Seen == old(Seen) && delayBetweenSpawn == old(delayBetweenSpawn)
    {
      ScheduleSpawn(t);
    }

    /** OnEnemyRemovedFromGame: nothing when the pool is missing; otherwise
        one more spawn is scheduled after a fresh delay from the same range. */
    method OnEnemyRemovedFromGame(poolPresent: bool, t: real)
      requires IsUnitDraw(t) && DelaysInRange()
      modifies this
      ensures DelaysInRange()
      ensures pendingSpawns ==
        if poolPresent then old(pendingSpawns) + [Interpolate(minMaxSpawnDelay.x, minMaxSpawnDelay.y, t)]
        else old(pendingSpawns)
      ensures enemyAction == old(enemyAction) && Seen == old(Seen) && delayBetweenSpawn == old(delayBetweenSpawn)
    {
      if !poolPresent {
        return;
      }
      ScheduleSpawn(t);
    }

    /** StartCoroutine(SpawnAfterDelay(delay)). */
    method ScheduleSpawn(t: real)
      requires IsUnitDraw(t) && DelaysInRange()
      modifies this
      ensures DelaysInRange()
      ensures pendingSpawns == old(pendingSpawns) + [Interpolate(minMaxSpawnDelay.x, minMaxSpawnDelay.y, t)]
      ensures enemyAction == old(enemyAction) && Seen == old(Seen) && delayBetweenSpawn == old(delayBetweenSpawn)
    {
      var delay := Interpolate(minMaxSpawnDelay.x, minMaxSpawnDelay.y, t);
      pendingSpawns := pendingSpawns + [delay];
    }

    /** The wait of coroutine `i` is over: it leaves the pending list and
        Spawn runs, with Spawn's effect on the enemy and the subscription. */
    method FinishWait(i: int, pool: Pool<EnemyObject>, location: Vec2) returns (spawned: bool)
      requires 0 <= i < |pendingSpawns| && Valid() && DelaysInRange()
      requires pool.Present? && pool.obj.action != null && pool.obj.action !in Seen ==>
        RemovedHandler() !in pool.obj.action.onDisabled
      modifies this, enemyAction, PoolFrame(pool)
      ensures Valid() && DelaysInRange()
      ensures pendingSpawns == old(pendingSpawns[..i] + pendingSpawns[i + 1..])
      ensures spawned <==> pool.Present?
      ensures !spawned ==>
        enemyAction == old(enemyAction) && Seen == old(Seen) &&
        (forall s :: s in Seen ==> s.onDisabled == old(s.onDisabled))
      ensures spawned ==>
        pool.obj.active && pool.obj.position == ToVec3(location) && enemyAction == pool.obj.action &&
        Seen == old(Seen) + (if enemyAction == null then {} else {enemyAction}) &&
        Signals.Swapped(old(enemyAction), enemyAction, RemovedHandler())
      ensures spawned && enemyAction != null ==>
        multiset(enemyAction.onDisabled)[RemovedHandler()] == 1
      ensures delayBetweenSpawn == old(delayBetweenSpawn)
    {
      pendingSpawns := pendingSpawns[..i] + pendingSpawns[i + 1..];
      spawned := Spawn(pool, location);
    }

    /** Spawn: with no pool the call throws and nothing changes. Otherwise
        the enemy is activated and placed at `location`, the old subscription
        is removed, the slot becomes the enemy's signal and
        OnEnemyRemovedFromGame is subscribed to it; no other handler of either
        signal is touched. There is no game-over check; an enemy without a
        signal ends the chain. */
    method Spawn(pool: Pool<EnemyObject>, location: Vec2) returns (spawned: bool)
      requires Valid()
      requires pool.Present? && pool.obj.action != null && pool.obj.action !in Seen ==>
        RemovedHandler() !in pool.obj.action.onDisabled
      modifies this, enemyAction, PoolFrame(pool)
      ensures Valid()
      ensures spawned <==> pool.Present?
      ensures pendingSpawns == old(pendingSpawns) && delayBetweenSpawn == old(delayBetweenSpawn)
      ensures !spawned ==>
        enemyAction == old(enemyAction) && Seen == old(Seen) &&
        (forall s :: s in Seen ==> s.onDisabled == old(s.onDisabled)) && PoolUntouched(pool)
      ensures spawned ==>
        pool.obj.active && pool.obj.position == ToVec3(location) && enemyAction == pool.obj.action &&
        Seen == old(Seen) + (if enemyAction == null then {} else {enemyAction}) &&
        Signals.Swapped(old(enemyAction), enemyAction, RemovedHandler())
      ensures spawned && enemyAction != null ==>
        multiset(enemyAction.onDisabled)[RemovedHandler()] == 1
      ensures spawned && enemyAction == null ==>
        forall s :: s in Seen ==> RemovedHandler() !in s.onDisabled
    {
      if pool.Missing? {
        return false;
      }
      var enemyObj := pool.obj;
      enemyObj.active := true;
      enemyObj.position := ToVec3(location);
      RemoveListener();
      enemyAction := enemyObj.action;
      if enemyAction != null {
        Seen := Seen + {enemyAction};
      }
      AddListener();
      spawned := true;
    }

    /** OnDisable: the current subscription is removed, so afterwards this
        spawner is subscribed to no signal at all. */
    method OnDisable()
      requires Valid()
      modifies enemyAction
      ensures Valid()
      ensures forall s :: s in Seen ==> RemovedHandler() !in s.onDisabled
      ensures enemyAction != null ==>
        enemyAction.onDisabled == Signals.RemoveLast(old(enemyAction.onDisabled), RemovedHandler())
    {
      RemoveListener();
    }

    /** `onDisabled += OnEnemyRemovedFromGame` on the current slot, if any. */
    method AddListener()
      requires enemyAction != null ==> enemyAction in Seen
      requires forall s :: s in Seen ==> RemovedHandler() !in s.onDisabled
      modifies enemyAction
      ensures Valid()
      ensures enemyAction != null ==>
        enemyAction.onDisabled == old(enemyAction.onDisabled) + [RemovedHandler()] &&
        multiset(enemyAction.onDisabled)[RemovedHandler()] == 1
    {
      if enemyAction != null {
        enemyAction.Subscribe(RemovedHandler());
      }
    }

    /** `onDisabled -= OnEnemyRemovedFromGame` on the current slot, if any. */
    method RemoveListener()
      requires Valid()
      modifies enemyAction
      ensures Valid()
      ensures forall s :: s in Seen ==> RemovedHandler() !in s.onDisabled
      ensures enemyAction != null ==>
        enemyAction.onDisabled == Signals.RemoveLast(old(enemyAction.onDisabled), RemovedHandler())
    {
      if enemyAction != null {
        enemyAction.Unsubscribe(RemovedHandler());
      }
    }
  }
}
