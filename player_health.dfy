/** PlayerHealth: counts hits, shrinks the player towards 60% of its size,
    and latches death (and game over) once the accumulated scale reaches 1.
    The float accumulator `_currentScale` is hits * (1 / hitPoints). */
module Player {
  import opened Common

  /** Whether the accumulated scale after `hits` hits is at least 1. With
      hitPoints == 0 the per-hit step 1f/0 is +infinity, so any hit reaches
      it; with negative hitPoints the scale only decreases. */
  predicate ScaleReachedOne(hits: nat, hitPoints: int) {
    if hitPoints > 0 then hits >= hitPoints
    else if hitPoints == 0 then hits > 0
    else false
  }

  /** Vector2.Lerp's interpolation parameter after clamping to [0, 1]. */
  function LerpParameter(hits: nat, hitPoints: int): (t: real)
    ensures 0.0 <= t <= 1.0
    ensures t == 1.0 <== ScaleReachedOne(hits, hitPoints)
  {
    if hitPoints > 0 then Min(1.0, hits as real / hitPoints as real)
    else if hitPoints == 0 then (if hits > 0 then 1.0 else 0.0)
    else 0.0
  }

  /** Vector2.Lerp(a, b, t) for t already in [0, 1]. */
  function Lerp(a: Vec2, b: Vec2, t: real): Vec2
    requires 0.0 <= t <= 1.0
  {
    Vec2(Interpolate(a.x, b.x, t), Interpolate(a.y, b.y, t))
  }

  /** The part of the player's state that damage changes. */
  datatype Health = Health(hits: nat, isDead: bool)

  /** One ApplyDamage call: ignored once dead; otherwise one more hit, and
      death as soon as the accumulated scale reaches 1. */
  function Damage(s: Health, hitPoints: int): (r: Health)
    ensures s.isDead ==> r == s
    ensures !s.isDead ==> r.hits == s.hits + 1 && r.isDead == ScaleReachedOne(s.hits + 1, hitPoints)
  {
    if s.isDead then s
    else Health(s.hits + 1, ScaleReachedOne(s.hits + 1, hitPoints))
  }

  /** n calls of ApplyDamage in a row. */
  function DamageN(s: Health, hitPoints: int, n: nat): Health
    decreases n
  {
    if n == 0 then s else DamageN(Damage(s, hitPoints), hitPoints, n - 1)
  }

  /** From a freshly enabled player with hitPoints > 0, n hits leave
      min(n, hitPoints) counted hits, and the player is dead exactly when
      n >= hitPoints: the hitPoints-th hit kills and later hits change
      nothing. */
  lemma {:induction false} DamageCountsToDeath(hitPoints: int, n: nat)
    requires hitPoints > 0
    ensures var r := DamageN(Health(0, false), hitPoints, n);
      r.hits == (if n < hitPoints then n else hitPoints) && r.isDead == (n >= hitPoints)
  {
    DamageFrom(hitPoints, 0, n);
  }

  lemma {:induction false} DamageFrom(hitPoints: int, k: nat, n: nat)
    requires 0 <= k < hitPoints
    ensures var r := DamageN(Health(k, false), hitPoints, n);
      r.hits == (if k + n < hitPoints then k + n else hitPoints) && r.isDead == (k + n >= hitPoints)
    decreases n
  {
    if n > 0 {
      var s := Damage(Health(k, false), hitPoints);
      if k + 1 < hitPoints {
        DamageFrom(hitPoints, k + 1, n - 1);
      } else {
        assert s == Health(hitPoints, true);
        DeadStaysDead(s, hitPoints, n - 1);
      }
    }
  }

  lemma {:induction false} DeadStaysDead(s: Health, hitPoints: int, n: nat)
    requires s.isDead
    ensures DamageN(s, hitPoints, n) == s
    decreases n
  {
    if n > 0 {
      DeadStaysDead(Damage(s, hitPoints), hitPoints, n - 1);
    }
  }

  /** Each coordinate of the scale always lies between the minimum (0.6 of
      the initial size) and the initial size, whatever the sign of the
      initial scale (a mirrored sprite has a negative one), and the scale is
      the minimum once the accumulated scale reached 1. */
  lemma ScaleBetweenInitialAndMinimum(initial: Vec2, hits: nat, hitPoints: int)
    ensures var s := Lerp(initial, Vec2(initial.x * 0.6, initial.y * 0.6), LerpParameter(hits, hitPoints));
      Min(initial.x * 0.6, initial.x) <= s.x <= Max(initial.x * 0.6, initial.x) &&
      Min(initial.y * 0.6, initial.y) <= s.y <= Max(initial.y * 0.6, initial.y) &&
      (ScaleReachedOne(hits, hitPoints) ==> s == Vec2(initial.x * 0.6, initial.y * 0.6))
  {
  }

  class PlayerHealth {
    /** The number of hits that kill the player (an Inspector value). */
    const hitPoints: int
    /** Number of ScaleDown calls since OnEnable: `_currentScale` is
        hits * (1 / hitPoints). */
    var hits: nat
    var isDead: bool
    var initialScale: Vec2
    var minimumScale: Vec2
    var localScale: Vec2
    /** Whether GameStateController.OnGameOver has been called. */
    var gameOverSignalled: bool
    /** Whether Destroy(gameObject) has been called. */
    var destroyed: bool

    constructor (hitPoints: int, localScale: Vec2)
      ensures this.hitPoints == hitPoints && this.localScale == localScale
      ensures hits == 0 && !isDead && !gameOverSignalled && !destroyed
    {
      this.hitPoints := hitPoints;
      this.localScale := localScale;
      hits := 0;
      isDead := false;
      initialScale := Vec2(0.0, 0.0);
      minimumScale := Vec2(0.0, 0.0);
      gameOverSignalled := false;
      destroyed := false;
    }

    function State(): Health
      reads this
    {
      Health(hits, isDead)
    }

    /** Start: alive, and the minimum size is 0.6 of the size at start. */
    method Start()
      modifies this
      ensures !isDead && initialScale == old(localScale)
      ensures minimumScale == Vec2(initialScale.x * 0.6, initialScale.y * 0.6)
      ensures hits == old(hits) && localScale == old(localScale)
      ensures gameOverSignalled == old(gameOverSignalled) && destroyed == old(destroyed)
    {
      isDead := false;
      initialScale := localScale;
      minimumScale := Vec2(initialScale.x * 0.6, initialScale.y * 0.6);
    }

    /** OnEnable: the accumulated scale goes back to 0 (the step 1/hitPoints
        is implied by hitPoints). The death latch is not touched. */
    method OnEnable()
      modifies this
      ensures hits == 0 && isDead == old(isDead)
      ensures localScale == old(localScale) && initialScale == old(initialScale) && minimumScale == old(minimumScale)
      ensures gameOverSignalled == old(gameOverSignalled) && destroyed == old(destroyed)
    {
      hits := 0;
    }

    /** ApplyDamage: one step of Damage; every hit taken while alive shrinks
        the player, and the killing hit signals game over and destroys the
        player (when there is no GameStateController, OnGameOver throws after
        the latch is set, and Destroy is not reached). */
    method ApplyDamage(controllerPresent: bool)
      modifies this
      ensures State() == Damage(old(State()), hitPoints)
      ensures old(isDead) ==> localScale == old(localScale)
      ensures !old(isDead) ==> localScale == Lerp(initialScale, minimumScale, LerpParameter(hits, hitPoints))
      ensures gameOverSignalled == (old(gameOverSignalled) || (!old(isDead) && isDead && controllerPresent))
      ensures destroyed == (old(destroyed) || (!old(isDead) && isDead && controllerPresent))
      ensures initialScale == old(initialScale) && minimumScale == old(minimumScale)
    {
      if !isDead {
        ScaleDown(controllerPresent);
      }
    }

    method ScaleDown(controllerPresent: bool)
      requires !isDead
      modifies this
      ensures hits == old(hits) + 1 && isDead == ScaleReachedOne(hits, hitPoints)
      ensures localScale == Lerp(initialScale, minimumScale, LerpParameter(hits, hitPoints))
      ensures gameOverSignalled == (old(gameOverSignalled) || (isDead && controllerPresent))
      ensures destroyed == (old(destroyed) || (isDead && controllerPresent))
      ensures initialScale == old(initialScale) && minimumScale == old(minimumScale)
    {
      hits := hits + 1;
      localScale := Lerp(initialScale, minimumScale, LerpParameter(hits, hitPoints));
      if ScaleReachedOne(hits, hitPoints) {
        OnDead(controllerPresent);
      }
    }

    method OnDead(controllerPresent: bool)
      modifies this
      ensures isDead
      ensures gameOverSignalled == (old(gameOverSignalled) || controllerPresent)
      ensures destroyed == (old(destroyed) || controllerPresent)
      ensures hits == old(hits) && localScale == old(localScale)
      ensures initialScale == old(initialScale) && minimumScale == old(minimumScale)
    {
      isDead := true;
      if !controllerPresent {
        return;
      }
      gameOverSignalled := true;
      destroyed := true;
    }
  }
}
