/** ProjectileSpawner: an endless coroutine that waits a random time, flips
    a coin, and spawns a projectile source from the pool; only a missing
    pool ends it. The endless loop runs here over a finite sequence of
    iterations' draws. */
module Projectiles {
  import opened Common

  /** The Inspector settings. */
  datatype Config = Config(minMaxTimeBetweenSpawns: Vec2, minMaxTimeInitialDelay: Vec2, chanceToSpawn: real)

  /** The inputs of one loop iteration: the unit draw behind the wait's
      Random.Range, the Random.value coin, and whether ObjectPool.instance
      exists when SpawnPoint runs. */
  datatype Tick = Tick(delayDraw: real, coin: real, poolPresent: bool)

  /** What the coroutine does, in order: a WaitForSeconds, or one projectile
      source taken from the pool and activated. */
  datatype Event = Wait(seconds: real) | Spawned

  /** The events so far, and whether the loop has been left by `break`. */
  datatype Outcome = Outcome(events: seq<Event>, stopped: bool)

  predicate ValidTicks(ticks: seq<Tick>) {
    forall k :: 0 <= k < |ticks| ==> IsUnitDraw(ticks[k].delayDraw) && IsUnitDraw(ticks[k].coin)
  }

  /** A spawn is attempted only when the coin does not exceed the chance. */
  predicate Attempts(cfg: Config, tick: Tick) {
    tick.coin <= cfg.chanceToSpawn
  }

  /** GetNextSpawnTime: a wait within minMaxTimeBetweenSpawns. */
  function NextSpawnTime(cfg: Config, t: real): (r: real)
    requires IsUnitDraw(t)
    ensures Min(cfg.minMaxTimeBetweenSpawns.x, cfg.minMaxTimeBetweenSpawns.y) <= r
    ensures r <= Max(cfg.minMaxTimeBetweenSpawns.x, cfg.minMaxTimeBetweenSpawns.y)
  {
    Interpolate(cfg.minMaxTimeBetweenSpawns.x, cfg.minMaxTimeBetweenSpawns.y, t)
  }

  /** The wait before the loop: present only when minMaxTimeInitialDelay is
      not the zero vector, and drawn from the between-spawns range. */
  function InitialWait(cfg: Config, t: real): (r: seq<Event>)
    requires IsUnitDraw(t)
    ensures r == [] <==> cfg.minMaxTimeInitialDelay == Vec2(0.0, 0.0)
    ensures r != [] ==> r == [Wait(NextSpawnTime(cfg, t))]
  {
    if cfg.minMaxTimeInitialDelay != Vec2(0.0, 0.0) then [Wait(NextSpawnTime(cfg, t))] else []
  }

  /** One iteration: wait; skip when the coin exceeds the chance; otherwise
      SpawnPoint, which throws (and breaks the loop) without a pool. */
  function Step(cfg: Config, events: seq<Event>, tick: Tick): Outcome
    requires IsUnitDraw(tick.delayDraw)
  {
    var waited := events + [Wait(NextSpawnTime(cfg, tick.delayDraw))];
    if !Attempts(cfg, tick) then Outcome(waited, false)
    else if !tick.poolPresent then Outcome(waited, true)
    else Outcome(waited + [Spawned], false)
  }

  /** The loop over `ticks`: every iteration after a `break` is ignored. */
  function Run(cfg: Config, ticks: seq<Tick>): Outcome
    requires ValidTicks(ticks)
    decreases |ticks|
  {
    if ticks == [] then Outcome([], false)
    else
      var prev := Run(cfg, ticks[..|ticks| - 1]);
      if prev.stopped then prev else Step(cfg, prev.events, ticks[|ticks| - 1])
  }

  /** One iteration keeps the events so far and appends its wait, then a
      spawn exactly when the coin allows it and the pool exists; it stops
      the loop exactly when the coin allows a spawn and the pool is missing. */
  lemma StepAppends(cfg: Config, events: seq<Event>, tick: Tick)
    requires IsUnitDraw(tick.delayDraw)
    ensures var r := Step(cfg, events, tick);
      r.events[..|events|] == events &&
      r.events[|events|..] ==
        [Wait(NextSpawnTime(cfg, tick.delayDraw))] + (if Attempts(cfg, tick) && tick.poolPresent then [Spawned] else []) &&
      (r.stopped <==> Attempts(cfg, tick) && !tick.poolPresent)
  {
  }

  /** The loop makes at most two events per iteration, and any iteration
      at all starts it with a wait. */
  lemma {:induction false} RunBounded(cfg: Config, ticks: seq<Tick>)
    requires ValidTicks(ticks)
    ensures |Run(cfg, ticks).events| <= 2 * |ticks|
    ensures ticks != [] ==> Run(cfg, ticks).events != [] && Run(cfg, ticks).events[0].Wait?
    decreases |ticks|
  {
    if ticks != [] {
      var init := ticks[..|ticks| - 1];
      RunBounded(cfg, init);
      var prev := Run(cfg, init);
      if !prev.stopped {
        StepAppends(cfg, prev.events, ticks[|ticks| - 1]);
      }
    }
  }

  /** SpawnShapes: the initial wait, then the loop. Returns the events and
      whether the loop ended by `break`. */
  method SpawnShapes(cfg: Config, initialDraw: real, ticks: seq<Tick>) returns (events: seq<Event>, stopped: bool)
    requires IsUnitDraw(initialDraw) && ValidTicks(ticks)
    ensures events == InitialWait(cfg, initialDraw) + Run(cfg, ticks).events
    ensures stopped == Run(cfg, ticks).stopped
  {
    events := [];
    if cfg.minMaxTimeInitialDelay != Vec2(0.0, 0.0) {
      events := events + [Wait(NextSpawnTime(cfg, initialDraw))];
    }
    ghost var initial := events;
    stopped := false;
    var i := 0;
    while i < |ticks|
      invariant 0 <= i <= |ticks|
      invariant |initial| <= |events| && events[..|initial|] == initial
      invariant Run(cfg, ticks[..i]) == Outcome(events[|initial|..], false)
      invariant initial == InitialWait(cfg, initialDraw)
    {
      assert ticks[..i + 1][..i] == ticks[..i];
      var nextSpawnTime := NextSpawnTime(cfg, ticks[i].delayDraw);
      events := events + [Wait(nextSpawnTime)];
      if ticks[i].coin > cfg.chanceToSpawn {
        i := i + 1;
        continue;
      }
      if !ticks[i].poolPresent {
        stopped := true;
        StoppedStaysStopped(cfg, ticks, i + 1);
        break;
      }
      events := events + [Spawned];
      i := i + 1;
    }
    if !stopped {
      assert ticks[..i] == ticks;
    }
    assert events == initial + events[|initial|..];
  }

  /** After a `break`, later draws change nothing. */
  lemma {:induction false} StoppedStaysStopped(cfg: Config, ticks: seq<Tick>, i: int)
    requires ValidTicks(ticks) && 0 <= i <= |ticks|
    requires Run(cfg, ticks[..i]).stopped
    ensures Run(cfg, ticks) == Run(cfg, ticks[..i])
    decreases |ticks| - i
  {
    if i < |ticks| {
      assert ticks[..i + 1][..i] == ticks[..i];
      StoppedStaysStopped(cfg, ticks, i + 1);
    } else {
      assert ticks[..i] == ticks;
    }
  }

  /** The loop ends exactly when some attempted spawn finds no pool: no
      other input (in particular no game-over flag) stops it. */
  lemma {:induction false} StopsIffPoolMissing(cfg: Config, ticks: seq<Tick>)
    requires ValidTicks(ticks)
    ensures Run(cfg, ticks).stopped <==>
      exists k :: 0 <= k < |ticks| && Attempts(cfg, ticks[k]) && !ticks[k].poolPresent
    decreases |ticks|
  {
    if ticks != [] {
      var init := ticks[..|ticks| - 1];
      StopsIffPoolMissing(cfg, init);
      var last := |ticks| - 1;
      if exists k :: 0 <= k < |init| && Attempts(cfg, init[k]) && !init[k].poolPresent {
        var k :| 0 <= k < |init| && Attempts(cfg, init[k]) && !init[k].poolPresent;
        assert ticks[k] == init[k];
      } else if Attempts(cfg, ticks[last]) && !ticks[last].poolPresent {
        assert Run(cfg, ticks).stopped;
      } else {
        forall k | 0 <= k < |ticks| && Attempts(cfg, ticks[k])
          ensures ticks[k].poolPresent
        {
          if k < last {
            assert init[k] == ticks[k];
          }
        }
      }
    }
  }

  /** Every wait the loop makes lies within minMaxTimeBetweenSpawns. */
  lemma {:induction false} WaitsInRange(cfg: Config, ticks: seq<Tick>)
    requires ValidTicks(ticks)
    ensures forall e :: e in Run(cfg, ticks).events && e.Wait? ==>
      Min(cfg.minMaxTimeBetweenSpawns.x, cfg.minMaxTimeBetweenSpawns.y) <= e.seconds <=
      Max(cfg.minMaxTimeBetweenSpawns.x, cfg.minMaxTimeBetweenSpawns.y)
    decreases |ticks|
  {
    if ticks != [] {
      WaitsInRange(cfg, ticks[..|ticks| - 1]);
    }
  }

  /** Number of spawns among the events. */
  function CountSpawned(events: seq<Event>): nat {
    if events == [] then 0
    else CountSpawned(events[..|events| - 1]) + (if events[|events| - 1].Spawned? then 1 else 0)
  }

  /** Number of iterations whose coin let a spawn be attempted. */
  function CountAttempts(cfg: Config, ticks: seq<Tick>): nat {
    if ticks == [] then 0
    else CountAttempts(cfg, ticks[..|ticks| - 1]) + (if Attempts(cfg, ticks[|ticks| - 1]) then 1 else 0)
  }

  lemma CountSpawnedAppend(a: seq<Event>, b: seq<Event>)
    ensures CountSpawned(a + b) == CountSpawned(a) + CountSpawned(b)
    decreases |b|
  {
    if b == [] {
      assert a + b == a;
    } else {
      assert (a + b)[..|a + b| - 1] == a + b[..|b| - 1];
      assert (a + b)[|a + b| - 1] == b[|b| - 1];
      CountSpawnedAppend(a, b[..|b| - 1]);
    }
  }

  /** While the pool exists, every iteration waits once, and spawns exactly
      when its coin does not exceed chanceToSpawn. */
  lemma {:induction false} RunningLoopCounts(cfg: Config, ticks: seq<Tick>)
    requires ValidTicks(ticks)
    requires !Run(cfg, ticks).stopped
    ensures |Run(cfg, ticks).events| == |ticks| + CountAttempts(cfg, ticks)
    ensures CountSpawned(Run(cfg, ticks).events) == CountAttempts(cfg, ticks)
    decreases |ticks|
  {
    if ticks != [] {
      var init := ticks[..|ticks| - 1];
      var prev := Run(cfg, init);
      RunningLoopCounts(cfg, init);
      var tick := ticks[|ticks| - 1];
      var w := [Wait(NextSpawnTime(cfg, tick.delayDraw))];
      CountSpawnedAppend(prev.events, w);
      if Attempts(cfg, tick) {
        CountSpawnedAppend(prev.events + w, [Spawned]);
      }
    }
  }
}
