/** DifficultySystem: raises the difficulty stage as the score grows and
    rewrites the spawners' delayBetweenSpawn as baseline times the current
    stage's multiplier. */
module Difficulty {
  import opened Common
  import Obstacles
  import Enemies

  /** One difficulty stage as configured in the Inspector. */
  datatype DifficultyStage = DifficultyStage(
    stageName: string,
    scoreThreshold: int,
    pointSpawnDelayMultiplier: real,
    obstacleSpawnDelayMultiplier: real,
    enemySpawnDelayMultiplier: real)

  /** PointsSpawner is not part of this model: only the field the difficulty
      system reads and writes. */
  class PointsSpawner {
    var delayBetweenSpawn: real

    constructor (delayBetweenSpawn: real)
      ensures this.delayBetweenSpawn == delayBetweenSpawn
    {
      this.delayBetweenSpawn := delayBetweenSpawn;
    }
  }

  /** The position of the last occurrence of x in xs. */
  function LastIndexOf<T(==)>(xs: seq<T>, x: T): (r: int)
    requires x in xs
    ensures 0 <= r < |xs| && xs[r] == x
    ensures forall k :: r < k < |xs| ==> xs[k] != x
    decreases |xs|
  {
    if xs[|xs| - 1] == x then |xs| - 1 else LastIndexOf(xs[..|xs| - 1], x)
  }

  /** Appending y moves the last occurrence of y to the end and leaves the
      last occurrence of every other value where it was. */
  lemma LastIndexOfSnoc<T>(xs: seq<T>, y: T, x: T)
    requires x in xs + [y]
    ensures LastIndexOf(xs + [y], x) == if x == y then |xs| else LastIndexOf(xs, x)
  {
    if x != y {
      assert (xs + [y])[..|xs|] == xs;
    }
  }

  // ----- Stage progression as a function of the observed scores -----

  /** The tracked part of the state: the stage index and the last known score. */
  datatype Progress = Progress(stageIndex: int, lastKnownScore: int)

  /** CheckDifficultyProgression: the next stage is entered when it exists
      and the score reached its threshold; no stage is ever skipped. */
  function NextStage(stages: seq<DifficultyStage>, index: int, score: int): (r: int)
    requires 0 <= index < |stages|
    ensures index <= r <= index + 1 && r < |stages|
    ensures r == index + 1 <==> index + 1 < |stages| && score >= stages[index + 1].scoreThreshold
  {
    if index + 1 < |stages| && score >= stages[index + 1].scoreThreshold then index + 1 else index
  }

  /** One Update with the current score: progression is checked only when
      the score differs from the last known score. */
  function Frame(stages: seq<DifficultyStage>, p: Progress, score: int): (r: Progress)
    requires 0 <= p.stageIndex < |stages|
    ensures r.lastKnownScore == score
    ensures score == p.lastKnownScore ==> r == p
    ensures p.stageIndex <= r.stageIndex <= p.stageIndex + 1 && r.stageIndex < |stages|
    ensures r.stageIndex == p.stageIndex + 1 ==> score >= stages[r.stageIndex].scoreThreshold
    ensures score != p.lastKnownScore && p.stageIndex + 1 < |stages| && score >= stages[p.stageIndex + 1].scoreThreshold
      ==> r.stageIndex == p.stageIndex + 1
  {
    if score != p.lastKnownScore then Progress(NextStage(stages, p.stageIndex, score), score) else p
  }

  /** A run of Updates, one per score in order. The stage never goes back
      and never leaves the stage list. */
  function Frames(stages: seq<DifficultyStage>, p: Progress, scores: seq<int>): (r: Progress)
    requires 0 <= p.stageIndex < |stages|
    ensures p.stageIndex <= r.stageIndex < |stages|
    decreases |scores|
  {
    if scores == [] then p
    else Frame(stages, Frames(stages, p, scores[..|scores| - 1]), scores[|scores| - 1])
  }

  /** The most recent score seen, starting from `last`. */
  function LastSeen(last: int, scores: seq<int>): int {
    if scores == [] then last else scores[|scores| - 1]
  }

  /** How many Updates saw a score different from the one before. */
  function Changes(last: int, scores: seq<int>): nat {
    if scores == [] then 0
    else
      var init := scores[..|scores| - 1];
      Changes(last, init) + (if scores[|scores| - 1] != LastSeen(last, init) then 1 else 0)
  }

  /** The last known score is always the most recent score. */
  lemma {:induction false} FramesTrackLastScore(stages: seq<DifficultyStage>, p: Progress, scores: seq<int>)
    requires 0 <= p.stageIndex < |stages|
    ensures Frames(stages, p, scores).lastKnownScore == LastSeen(p.lastKnownScore, scores)
  {
  }

  /** Each score change advances at most one stage, so a run of Updates
      advances at most as many stages as the score changed. */
  lemma {:induction false} FramesAdvanceAtMostOncePerChange(stages: seq<DifficultyStage>, p: Progress, scores: seq<int>)
    requires 0 <= p.stageIndex < |stages|
    ensures Frames(stages, p, scores).stageIndex - p.stageIndex <= Changes(p.lastKnownScore, scores)
    decreases |scores|
  {
    if scores != [] {
      var init := scores[..|scores| - 1];
      FramesAdvanceAtMostOncePerChange(stages, p, init);
      FramesTrackLastScore(stages, p, init);
    }
  }

  /** Every stage above the starting one was earned: some observed score
      reached its threshold. */
  lemma {:induction false} FramesStageEarned(stages: seq<DifficultyStage>, p: Progress, scores: seq<int>)
    requires 0 <= p.stageIndex < |stages|
    ensures var r := Frames(stages, p, scores);
      r.stageIndex > p.stageIndex ==>
        exists k :: 0 <= k < |scores| && scores[k] >= stages[r.stageIndex].scoreThreshold
    decreases |scores|
  {
    if scores != [] {
      var init := scores[..|scores| - 1];
      var prev := Frames(stages, p, init);
      var r := Frames(stages, p, scores);
      FramesStageEarned(stages, p, init);
      if r.stageIndex == prev.stageIndex {
        if r.stageIndex > p.stageIndex {
          var k :| 0 <= k < |init| && init[k] >= stages[r.stageIndex].scoreThreshold;
          assert scores[k] == init[k];
        }
      } else {
        assert scores[|scores| - 1] >= stages[r.stageIndex].scoreThreshold;
      }
    }
  }

  /** Three stages (thresholds 0, 100, 300): scores rising through the
      thresholds one at a time reach the last stage, a single jump from 0 to
      999 reaches only the second, and a score that is already past a
      threshold at start advances nothing until it changes. */
  lemma ProgressionExample()
    ensures var stages := [DifficultyStage("Easy", 0, 1.0, 1.0, 1.0),
                           DifficultyStage("Medium", 100, 0.5, 0.5, 0.5),
                           DifficultyStage("Hard", 300, 0.25, 0.25, 0.25)];
      Frames(stages, Progress(0, 0), [50, 100, 250, 300, 999]) == Progress(2, 999) &&
      Frames(stages, Progress(0, 0), [999]) == Progress(1, 999) &&
      Frames(stages, Progress(0, 150), [150, 150]) == Progress(0, 150) &&
      Frames(stages, Progress(0, 150), [150, 151]) == Progress(1, 151)
  {
    var stages := [DifficultyStage("Easy", 0, 1.0, 1.0, 1.0),
                   DifficultyStage("Medium", 100, 0.5, 0.5, 0.5),
                   DifficultyStage("Hard", 300, 0.25, 0.25, 0.25)];
    var scores := [50, 100, 250, 300, 999];
    assert scores[..4] == [50, 100, 250, 300];
    assert scores[..4][..3] == [50, 100, 250];
    assert scores[..4][..3][..2] == [50, 100];
    assert scores[..4][..3][..2][..1] == [50];
    assert Frames(stages, Progress(0, 0), [50]) == Progress(0, 50);
    assert Frames(stages, Progress(0, 0), [50, 100]) == Progress(1, 100);
    assert Frames(stages, Progress(0, 0), [50, 100, 250]) == Progress(1, 250);
    assert Frames(stages, Progress(0, 0), [50, 100, 250, 300]) == Progress(2, 300);
    assert [150, 150][..1] == [150];
    assert [150, 151][..1] == [150];
  }

  // ----- The component -----

  class DifficultySystem {
    /** MonoBehaviour.enabled: Unity calls Update only while it is true. */
    var enabled: bool
    const pointsSpawner: PointsSpawner?
    /** The Inspector list; a slot may be empty (null) and a spawner may be
        listed more than once. */
    const obstacleSpawners: seq<Obstacles.ObstacleSpawner?>
    const enemySpawner: Enemies.EnemySpawner?
    /** The Inspector stage list; a null list is the empty list. */
    const difficultyStages: seq<DifficultyStage>
    var currentStageIndex: int
    var lastKnownScore: int
    var originalPointSpawnDelay: real
    var originalObstacleSpawnDelays: seq<real>
    var originalEnemySpawnDelay: real

    /** The obstacle spawners listed. */
    ghost function ObstacleSet(): set<Obstacles.ObstacleSpawner> {
      set s: Obstacles.ObstacleSpawner | s in obstacleSpawners
    }

    /** The points spawner, if one is assigned. */
    ghost function PointsSet(): set<PointsSpawner> {
      if pointsSpawner == null then {} else {pointsSpawner}
    }

    /** The enemy spawner, if one is assigned. */
    ghost function EnemySet(): set<Enemies.EnemySpawner> {
      if enemySpawner == null then {} else {enemySpawner}
    }

    /** Every delay is its baseline times the multiplier of stage `index`; a
        spawner listed in several slots carries the value of its last slot. */
    ghost predicate Applied(index: int)
      requires 0 <= index < |difficultyStages|
      reads this, pointsSpawner, enemySpawner, ObstacleSet()
    {
      var stage := difficultyStages[index];
      (pointsSpawner != null ==>
        pointsSpawner.delayBetweenSpawn == Scaled(originalPointSpawnDelay, stage.pointSpawnDelayMultiplier)) &&
      (enemySpawner != null ==>
        enemySpawner.delayBetweenSpawn == Scaled(originalEnemySpawnDelay, stage.enemySpawnDelayMultiplier)) &&
      (forall j :: 0 <= j < |obstacleSpawners| && obstacleSpawners[j] != null ==>
        obstacleSpawners[j].delayBetweenSpawn ==
          Scaled(Baseline(originalObstacleSpawnDelays, LastIndexOf(obstacleSpawners, obstacleSpawners[j])), stage.obstacleSpawnDelayMultiplier))
    }

    /** While enabled, the stage index is in range and its stage is applied. */
    ghost predicate Valid()
      reads this, pointsSpawner, enemySpawner, ObstacleSet()
    {
      0 <= currentStageIndex &&
      (enabled ==> currentStageIndex < |difficultyStages| && Applied(currentStageIndex))
    }

    /** No spawner delay changed. */
    twostate predicate DelaysUnchanged()
      reads this, pointsSpawner, enemySpawner, ObstacleSet()
    {
      (pointsSpawner != null ==> pointsSpawner.delayBetweenSpawn == old(pointsSpawner.delayBetweenSpawn)) &&
      (enemySpawner != null ==> enemySpawner.delayBetweenSpawn == old(enemySpawner.delayBetweenSpawn)) &&
      (forall j :: 0 <= j < |obstacleSpawners| && obstacleSpawners[j] != null ==>
        obstacleSpawners[j].delayBetweenSpawn == old(obstacleSpawners[j].delayBetweenSpawn))
    }

    constructor (pointsSpawner: PointsSpawner?, obstacleSpawners: seq<Obstacles.ObstacleSpawner?>,
                 enemySpawner: Enemies.EnemySpawner?, difficultyStages: seq<DifficultyStage>)
      ensures this.pointsSpawner == pointsSpawner && this.obstacleSpawners == obstacleSpawners
      ensures this.enemySpawner == enemySpawner && this.difficultyStages == difficultyStages
      ensures enabled && currentStageIndex == 0 && lastKnownScore == 0
      ensures originalObstacleSpawnDelays == [] && originalPointSpawnDelay == 0.0 && originalEnemySpawnDelay == 0.0
    {
      this.pointsSpawner := pointsSpawner;
      this.obstacleSpawners := obstacleSpawners;
      this.enemySpawner := enemySpawner;
      this.difficultyStages := difficultyStages;
      enabled := true;
      currentStageIndex := 0;
      lastKnownScore := 0;
      originalPointSpawnDelay := 0.0;
      originalObstacleSpawnDelays := [];
      originalEnemySpawnDelay := 0.0;
    }

    /** Start, with `score` the current score (0 when there is no Score).
        Without stages the component disables itself and touches nothing
        else. Otherwise it records the baselines (one per obstacle slot, in
        order, 1.0 for an empty slot), applies the current stage and records
        the score. */
    method Start(score: int)
      requires 0 <= currentStageIndex
      modifies this, PointsSet()`delayBetweenSpawn, EnemySet()`delayBetweenSpawn, ObstacleSet()`delayBetweenSpawn
      ensures Valid()
      ensures |difficultyStages| == 0 ==>
        !enabled && DelaysUnchanged() && currentStageIndex == old(currentStageIndex) &&
        lastKnownScore == old(lastKnownScore) && originalObstacleSpawnDelays == old(originalObstacleSpawnDelays) &&
        originalPointSpawnDelay == old(originalPointSpawnDelay) && originalEnemySpawnDelay == old(originalEnemySpawnDelay)
      ensures |difficultyStages| > 0 ==>
        enabled == old(enabled) && lastKnownScore == score &&
        currentStageIndex == Clamp(old(currentStageIndex), |difficultyStages|) &&
        Applied(currentStageIndex)
      ensures |difficultyStages| > 0 ==>
        originalPointSpawnDelay == (if pointsSpawner != null then old(pointsSpawner.delayBetweenSpawn) else old(originalPointSpawnDelay)) &&
        originalEnemySpawnDelay == (if enemySpawner != null then old(enemySpawner.delayBetweenSpawn) else old(originalEnemySpawnDelay))
      ensures |difficultyStages| > 0 && |obstacleSpawners| == 0 ==>
        originalObstacleSpawnDelays == old(originalObstacleSpawnDelays)
      ensures |difficultyStages| > 0 && |obstacleSpawners| > 0 ==>
        |originalObstacleSpawnDelays| == |obstacleSpawners| &&
        forall j :: 0 <= j < |obstacleSpawners| ==>
          originalObstacleSpawnDelays[j] ==
            if obstacleSpawners[j] == null then 1.0 else old(obstacleSpawners[j].delayBetweenSpawn)
    {
      if |difficultyStages| == 0 {
        enabled := false;
        return;
      }
      if pointsSpawner != null {
        originalPointSpawnDelay := pointsSpawner.delayBetweenSpawn;
      }
      if |obstacleSpawners| > 0 {
        originalObstacleSpawnDelays := [];
        var i := 0;
        while i < |obstacleSpawners|
          modifies this
          invariant 0 <= i <= |obstacleSpawners|
          invariant |originalObstacleSpawnDelays| == i
          invariant forall j :: 0 <= j < i ==>
            originalObstacleSpawnDelays[j] ==
              if obstacleSpawners[j] == null then 1.0 else obstacleSpawners[j].delayBetweenSpawn
          invariant originalPointSpawnDelay ==
            (if pointsSpawner != null then old(pointsSpawner.delayBetweenSpawn) else old(originalPointSpawnDelay))
          invariant enabled == old(enabled) && currentStageIndex == old(currentStageIndex)
          invariant originalEnemySpawnDelay == old(originalEnemySpawnDelay)
        {
          var spawner := obstacleSpawners[i];
          if spawner != null {
            originalObstacleSpawnDelays := originalObstacleSpawnDelays + [spawner.delayBetweenSpawn];
          } else {
            originalObstacleSpawnDelays := originalObstacleSpawnDelays + [1.0];
          }
          i := i + 1;
        }
      }
      if enemySpawner != null {
        originalEnemySpawnDelay := enemySpawner.delayBetweenSpawn;
      }
      ApplyCurrentStageDifficulty();
      lastKnownScore := score;
    }

    /** Update, with `score` the current score: a disabled component is not
        updated; otherwise it follows Frame, and delays change only when the
        stage does. */
    method Update(score: int)
      requires Valid()
      modifies this, PointsSet()`delayBetweenSpawn, EnemySet()`delayBetweenSpawn, ObstacleSet()`delayBetweenSpawn
      ensures Valid()
      ensures enabled == old(enabled)
      ensures !enabled ==>
        DelaysUnchanged() && currentStageIndex == old(currentStageIndex) && lastKnownScore == old(lastKnownScore)
      ensures enabled ==>
        Progress(currentStageIndex, lastKnownScore) ==
          Frame(difficultyStages, Progress(old(currentStageIndex), old(lastKnownScore)), score)
      ensures currentStageIndex == old(currentStageIndex) ==> DelaysUnchanged()
      ensures originalObstacleSpawnDelays == old(originalObstacleSpawnDelays)
      ensures originalPointSpawnDelay == old(originalPointSpawnDelay) &&
              originalEnemySpawnDelay == old(originalEnemySpawnDelay)
    {
      if !enabled {
        return;
      }
      var currentScore := score;
      if currentScore != lastKnownScore {
        lastKnownScore := currentScore;
        CheckDifficultyProgression();
      }
    }

    /** CheckDifficultyProgression: enter the next stage (and apply it) when
        it exists and the last known score reached its threshold. */
    method CheckDifficultyProgression()
      requires 0 <= currentStageIndex < |difficultyStages| && Applied(currentStageIndex)
      modifies this, PointsSet()`delayBetweenSpawn, EnemySet()`delayBetweenSpawn, ObstacleSet()`delayBetweenSpawn
      ensures currentStageIndex == NextStage(difficultyStages, old(currentStageIndex), lastKnownScore)
      ensures Applied(currentStageIndex)
      ensures currentStageIndex == old(currentStageIndex) ==> DelaysUnchanged()
      ensures enabled == old(enabled) && lastKnownScore == old(lastKnownScore)
      ensures originalObstacleSpawnDelays == old(originalObstacleSpawnDelays)
      ensures originalPointSpawnDelay == old(originalPointSpawnDelay) &&
              originalEnemySpawnDelay == old(originalEnemySpawnDelay)
    {
      if currentStageIndex + 1 < |difficultyStages| {
        var nextStage := difficultyStages[currentStageIndex + 1];
        if lastKnownScore >= nextStage.scoreThreshold {
          currentStageIndex := currentStageIndex + 1;
          ApplyCurrentStageDifficulty();
        }
      }
    }

    /** ApplyCurrentStageDifficulty: nothing without stages; otherwise the
        index is clamped to the last stage and every delay is set to its
        baseline times the stage's multiplier. The live delays are never
        read, so applying an already applied stage changes nothing. */
    method ApplyCurrentStageDifficulty()
      requires 0 <= currentStageIndex
      modifies this, PointsSet()`delayBetweenSpawn, EnemySet()`delayBetweenSpawn, ObstacleSet()`delayBetweenSpawn
      ensures |difficultyStages| == 0 ==> DelaysUnchanged() && currentStageIndex == old(currentStageIndex)
      ensures |difficultyStages| > 0 ==>
        currentStageIndex == Clamp(old(currentStageIndex), |difficultyStages|) && Applied(currentStageIndex)
      ensures old(currentStageIndex) < |difficultyStages| && old(Applied(currentStageIndex)) ==> DelaysUnchanged()
      ensures enabled == old(enabled) && lastKnownScore == old(lastKnownScore)
      ensures originalObstacleSpawnDelays == old(originalObstacleSpawnDelays)
      ensures originalPointSpawnDelay == old(originalPointSpawnDelay) && originalEnemySpawnDelay == old(originalEnemySpawnDelay)
    {
      if |difficultyStages| == 0 {
        return;
      }
      if currentStageIndex >= |difficultyStages| {
        currentStageIndex := |difficultyStages| - 1;
      }
      var currentStage := difficultyStages[currentStageIndex];
      if pointsSpawner != null {
        pointsSpawner.delayBetweenSpawn := Scaled(originalPointSpawnDelay, currentStage.pointSpawnDelayMultiplier);
      }
      ApplyObstacleDelays(obstacleSpawners, originalObstacleSpawnDelays, currentStage.obstacleSpawnDelayMultiplier);
      if enemySpawner != null {
        enemySpawner.delayBetweenSpawn := Scaled(originalEnemySpawnDelay, currentStage.enemySpawnDelayMultiplier);
      }
    }

  }

  /** A delay after applying a stage: the baseline times the multiplier. */
  function Scaled(baseline: real, multiplier: real): real {
    baseline * multiplier
  }

  /** The baseline used for obstacle slot j: its recorded original, or 1.0
      when none was recorded. */
  function Baseline(originals: seq<real>, j: int): (r: real)
    ensures 0 <= j < |originals| ==> r == originals[j]
    ensures !(0 <= j < |originals|) ==> r == 1.0
  {
    if 0 <= j < |originals| then originals[j] else 1.0
  }

  /** The obstacle loop of ApplyCurrentStageDifficulty: each non-empty slot
      in order gets its baseline times `m`, empty slots are skipped, so a
      spawner listed twice keeps the value of its last slot. */
  method ApplyObstacleDelays(slots: seq<Obstacles.ObstacleSpawner?>, originals: seq<real>, m: real)
    modifies (set s: Obstacles.ObstacleSpawner | s in slots)`delayBetweenSpawn
    ensures forall j :: 0 <= j < |slots| && slots[j] != null ==>
      slots[j].delayBetweenSpawn == Scaled(Baseline(originals, LastIndexOf(slots, slots[j])), m)
  {
    var i := 0;
    while i < |slots|
      invariant 0 <= i <= |slots|
      invariant forall j :: 0 <= j < i && slots[j] != null ==>
        slots[j].delayBetweenSpawn == Scaled(Baseline(originals, LastIndexOf(slots[..i], slots[j])), m)
    {
      var spawner := slots[i];
      assert slots[..i + 1] == slots[..i] + [spawner];
      if spawner != null {
        var originalDelay := if i < |originals| then originals[i] else 1.0;
        spawner.delayBetweenSpawn := Scaled(originalDelay, m);
      }
      forall j | 0 <= j <= i && slots[j] != null
        ensures LastIndexOf(slots[..i + 1], slots[j]) ==
          if slots[j] == spawner then i else LastIndexOf(slots[..i], slots[j])
      {
        LastIndexOfSnoc(slots[..i], spawner, slots[j]);
      }
      i := i + 1;
    }
    assert slots[..i] == slots;
  }

  /** An index past the end is brought back to the last stage. */
  function Clamp(index: int, count: int): (r: int)
    requires 0 <= index && count > 0
    ensures 0 <= r < count
    ensures index < count ==> r == index
  {
    if index >= count then count - 1 else index
  }
}
