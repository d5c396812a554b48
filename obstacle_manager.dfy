/**
 * The obstacle manager: a live list of obstacles and a forward spawn
 * counter, updated in place by obstacle creation and cleanup.
 */
module ObstacleManagement {
  import opened Options
  import opened GameSettings
  import opened Obstacles

  /** The depth of the first obstacle and the spacing between successive ones. */
  const InitialZ: real := 20.0
  const ZSpacing: real := 2.5

  /** The depth at which the `k`-th obstacle of a manager is placed (counting from 0). */
  function SpawnZ(k: nat): real
  {
    InitialZ + ZSpacing * k as real
  }

  class ObstacleManager {
    /** The shared configuration record the manager reads. */
    const config: GameConfig
    var obstacles: seq<Obstacle>
    var currentZPosition: real
    const zSpacing: real
    const maxObstacles: nat
    /** How many obstacles this manager has created. */
    ghost var spawnCount: nat

    /**
     * The manager's invariant: the counter is the depth of the next spawn,
     * every obstacle is well formed, lies in front of the counter, and the
     * list is ordered by strictly increasing depth.
     */
    ghost predicate Valid()
      reads this
    {
      && zSpacing == ZSpacing
      && currentZPosition == SpawnZ(spawnCount)
      && (forall i | 0 <= i < |obstacles| :: WellFormed(obstacles[i]) && obstacles[i].position.z < currentZPosition)
      && AscendingZ(obstacles)
    }

    /** A fresh manager: no obstacles, the counter at its initial depth, the limit from the table. */
    constructor (config: GameConfig)
      ensures Valid()
      ensures this.config == config
      ensures obstacles == [] && spawnCount == 0
      ensures currentZPosition == InitialZ && zSpacing == ZSpacing
      ensures maxObstacles == Settings(config.currentDifficulty).maxObstacles
    {
      this.config := config;
      obstacles := [];
      currentZPosition := InitialZ;
      zSpacing := ZSpacing;
      maxObstacles := Settings(config.currentDifficulty).maxObstacles;
      spawnCount := 0;
    }

    /**
     * Spawns one obstacle from the random draws `uType`, `uColor` and `uX`
     * unless the game is not started or already over, then runs the cleanup.
     */
    method CreateObstacle(uType: real, uColor: real, uX: real) returns (r: Option<Obstacle>)
      requires Valid()
      requires IsRandom(uType) && IsRandom(uColor) && IsRandom(uX)
      modifies this
      ensures Valid()
      ensures r.None? <==> !config.Playing()
      ensures r.None? ==>
        obstacles == old(obstacles) && currentZPosition == old(currentZPosition) && spawnCount == old(spawnCount)
      ensures r.Some? ==>
        && r.value == MakeObstacle(uType, uColor, uX, old(currentZPosition))
        && WellFormed(r.value)
        && r.value.position.z == old(currentZPosition) == SpawnZ(old(spawnCount))
        && currentZPosition == old(currentZPosition) + zSpacing
        && spawnCount == old(spawnCount) + 1
        && obstacles == Survivors(old(obstacles) + [r.value])
        && obstacles == Survivors(old(obstacles)) + [r.value]
      ensures r.Some? && (forall i | 0 <= i < |old(obstacles)| :: !Expired(old(obstacles)[i])) ==>
        obstacles == old(obstacles) + [r.value]
      ensures |obstacles| <= |old(obstacles)| + 1
    {
      if !config.isGameStarted || config.isGameOver {
        return None;
      }
      var obstacle := MakeObstacle(uType, uColor, uX, currentZPosition);
      ghost var before := obstacles;
      obstacles := obstacles + [obstacle];
      currentZPosition := currentZPosition + zSpacing;
      spawnCount := spawnCount + 1;
      CleanupObstacles();
      SurvivorsAppend(before, [obstacle]);
      SurvivorsOfLive([obstacle]);
      if forall i | 0 <= i < |before| :: !Expired(before[i]) {
        SurvivorsOfLive(before + [obstacle]);
      }
      r := Some(obstacle);
    }

    /** Drops (and disposes of) every obstacle that has passed the threshold, keeping the rest in order. */
    method CleanupObstacles()
      requires Valid()
      modifies this`obstacles
      ensures Valid()
      ensures obstacles == Survivors(old(obstacles))
    {
      var before := obstacles;
      SurvivorsAscending(before);
      obstacles := Survivors(before);
      forall i | 0 <= i < |obstacles|
        ensures WellFormed(obstacles[i]) && obstacles[i].position.z < currentZPosition
      {
        assert obstacles[i] in before;
      }
    }
  }
}
