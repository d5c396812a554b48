/** The state change of the start button, and what callers can rely on afterwards. */
module StartButton {
  import opened Options
  import opened GameSettings
  import opened Obstacles
  import opened ObstacleManagement

  /**
   * The start handler: marks the game as started and builds a fresh manager
   * over the shared configuration. Nothing else in the record changes.
   */
  method OnStartPressed(config: GameConfig) returns (manager: ObstacleManager)
    modifies config
    ensures config.isGameStarted
    ensures config.isGameOver == old(config.isGameOver)
    ensures config.currentDifficulty == old(config.currentDifficulty)
    ensures config.score == old(config.score) && config.lives == old(config.lives)
    ensures fresh(manager) && manager.Valid() && manager.config == config
    ensures manager.obstacles == [] && manager.spawnCount == 0
    ensures manager.currentZPosition == InitialZ && manager.zSpacing == ZSpacing
    ensures manager.maxObstacles == Settings(config.currentDifficulty).maxObstacles
  {
    config.isGameStarted := true;
    manager := new ObstacleManager(config);
  }

  /**
   * From a freshly loaded page: pressing start and spawning three times gives
   * three obstacles at depths 20, 22.5 and 25, all kept by the cleanup, and an
   * easy-difficulty limit of 3.
   */
  method StartAndSpawnThree(u: seq<real>) returns (manager: ObstacleManager, a: Obstacle, b: Obstacle, c: Obstacle)
    requires |u| == 9 && forall i | 0 <= i < |u| :: IsRandom(u[i])
    ensures manager.maxObstacles == 3
    ensures manager.obstacles == [a, b, c]
    ensures a.position.z == 20.0 && b.position.z == 22.5 && c.position.z == 25.0
    ensures manager.currentZPosition == 27.5
    ensures WellFormed(a) && WellFormed(b) && WellFormed(c)
  {
    var config := new GameConfig();
    manager := OnStartPressed(config);
    var ra := manager.CreateObstacle(u[0], u[1], u[2]);
    a := ra.value;
    var rb := manager.CreateObstacle(u[3], u[4], u[5]);
    b := rb.value;
    var rc := manager.CreateObstacle(u[6], u[7], u[8]);
    c := rc.value;
  }

  /** Before the start button is pressed, creation is refused and changes nothing. */
  method SpawnBeforeStart(uType: real, uColor: real, uX: real) returns (r: Option<Obstacle>, obstacles: seq<Obstacle>)
    requires IsRandom(uType) && IsRandom(uColor) && IsRandom(uX)
    ensures r == None && obstacles == []
  {
    var config := new GameConfig();
    var manager := new ObstacleManager(config);
    r := manager.CreateObstacle(uType, uColor, uX);
    obstacles := manager.obstacles;
  }
}
