/**
 * The shared configuration record of the game: the difficulty table, the
 * current difficulty, the score, the lives and the two phase flags.
 */
module GameSettings {

  /** The keys of the difficulty table. */
  datatype Difficulty = Easy | Medium | Hard

  /** One row of the difficulty table. */
  datatype DifficultySettings = DifficultySettings(speed: real, obstacleFrequency: nat, maxObstacles: nat)

  /** The difficulty table. */
  function Settings(d: Difficulty): DifficultySettings
  {
    match d
    case Easy => DifficultySettings(0.5, 1, 3)
    case Medium => DifficultySettings(1.0, 2, 5)
    case Hard => DifficultySettings(2.0, 3, 7)
  }

  /** The order the difficulty names imply: easy before medium before hard. */
  function Rank(d: Difficulty): nat
  {
    match d
    case Easy => 0
    case Medium => 1
    case Hard => 2
  }

  /** A harder setting is faster, spawns more often and allows more obstacles. */
  lemma HarderIsFasterAndDenser(d1: Difficulty, d2: Difficulty)
    requires Rank(d1) < Rank(d2)
    ensures Settings(d1).speed < Settings(d2).speed
    ensures Settings(d1).obstacleFrequency < Settings(d2).obstacleFrequency
    ensures Settings(d1).maxObstacles < Settings(d2).maxObstacles
  {
  }

  const InitialLives: int := 3

  /** The process-wide mutable configuration record. */
  class GameConfig {
    var currentDifficulty: Difficulty
    var score: int
    var lives: int
    var isGameOver: bool
    var isGameStarted: bool

    /** The record as the page creates it. */
    constructor ()
      ensures currentDifficulty == Easy
      ensures score == 0 && lives == InitialLives
      ensures !isGameOver && !isGameStarted
    {
      currentDifficulty := Easy;
      score := 0;
      lives := InitialLives;
      isGameOver := false;
      isGameStarted := false;
    }

    /** The guard of obstacle creation: started and not over. */
    predicate Playing()
      reads this
    {
      isGameStarted && !isGameOver
    }
  }
}
