# Obstacle bookkeeping of an AR obstacle-dodging game

This project models the obstacle manager of a browser AR game in which the
player dodges boxes that are spawned in front of them. The model covers:

- the shared configuration record `GameConfig`, with its difficulty table;
- the fixed catalogues of obstacle types and colours;
- the `ObstacleManager` class: its constructor, the random pick from a
  catalogue, obstacle creation and the cleanup of obstacles left behind;
- the start button's state change, which sets `isGameStarted` and builds a
  fresh manager.

Modules, one per component of `game.js`:

- `Options`: `Option`, standing for the `null`-or-obstacle result of creation.
- `GameSettings`: the difficulty table (`Settings`) and the `GameConfig` class.
- `Obstacles`: the values. It holds the catalogues, the `Obstacle` record
  (type, colour, position), `GetRandomItem`, `MakeObstacle` (lines 99-108) and
  `Survivors`, the filter the cleanup applies. The properties of each are
  proved here.
- `ObstacleManagement`: the `ObstacleManager` class. Its `obstacles` list and
  its `currentZPosition` counter are fields that the methods update in place.
  `Valid()` is the invariant every method keeps:
  - the counter is the depth of the next spawn;
  - every obstacle is well formed and lies before the counter;
  - the list is ordered by strictly increasing depth.
- `StartButton`: the start handler, plus two client methods. They show what a
  caller can conclude from the contracts alone: three spawns after start land
  at 20, 22.5 and 25, and a spawn before start is refused.

How the model abstracts the source:

- `Math.random()` is an injected real `u` with `0 <= u < 1`. The picked index
  is `floor(u * n)`, as in the source.
- Babylon meshes are plain records. `dispose` is removal from the list.
- Coordinates are `real`. The code only adds exact decimals and compares them.
- The difficulty keys `'easy'`, `'medium'` and `'hard'` are the constructors of
  `Difficulty`.

What the code does not do:

- The start handler spawns nothing; it does not seed an initial batch.
- Creation ignores `maxObstacles`.
- No code path sets `isGameOver` or changes `lives` or `score`.

## Model

| member | source | states |
|---|---|---|
| GameSettings.HarderIsFasterAndDenser | game.js:6-10 | going from easy to medium to hard strictly raises the speed, the obstacle frequency and the obstacle limit |
| GameSettings.GameConfig.constructor | game.js:5-16 | the initial record: difficulty easy, score 0, 3 lives, neither over nor started |
| Obstacles.CataloguesNonEmpty | game.js:60-72 | both catalogues are non-empty and every obstacle type lists at least one lateral position, so every random pick has something to pick from |
| Obstacles.RandomIndex | game.js:86 | `floor(u * n)` for a draw `u` in [0, 1) is a valid index below `n`, and it is the one with `k <= u*n < k+1` |
| Obstacles.RandomIndexCovers | game.js:86 | every index `i < n` is picked by some draw in [0, 1), namely `i/n` |
| Obstacles.GetRandomItem | game.js:85-87 | the pick is an element of the catalogue, namely the one at index `floor(u * n)` |
| Obstacles.GetRandomItemCovers | game.js:85-87 | every entry of a catalogue is the pick of some draw |
| Obstacles.MakeObstacle | game.js:99-108 | the new obstacle has a catalogue type and colour, an x among its type's `xPositions`, y equal to half its type's height, and the given z |
| Obstacles.MakeObstacleCovers | game.js:99-108 | conversely, every obstacle with those properties, at any depth, is built by some three draws |
| Obstacles.Survivors | game.js:119-127 | the cleanup keeps exactly the obstacles with z not below -10 and never lengthens the list |
| Obstacles.SurvivorsAppend | game.js:120-126 | the cleanup distributes over concatenation, so it keeps the survivors in their original relative order |
| Obstacles.SurvivorsOfLive | game.js:121-125 | a list with no obstacle below -10 is left exactly as it is |
| Obstacles.SurvivorsIdempotent | game.js:119-127 | running the cleanup twice equals running it once |
| Obstacles.SurvivorsAscending | game.js:119-127 | if the list is ordered by strictly increasing depth, so is what the cleanup keeps |
| ObstacleManagement.ObstacleManager.constructor | game.js:76-83 | a new manager has no obstacles, counter 20, spacing 2.5 and the obstacle limit of the current difficulty; it satisfies the invariant |
| ObstacleManagement.ObstacleManager.CreateObstacle | game.js:96-117 | refuses (returns None) exactly when the game is not started or is over, then changing nothing; otherwise returns a well-formed obstacle at the old counter, advances the counter by exactly `zSpacing`, sets the list to the cleanup of the old list plus the new obstacle (the new one survives), grows the list by at most one, and keeps the invariant |
| ObstacleManagement.ObstacleManager.CleanupObstacles | game.js:119-127 | the list becomes its survivors and the invariant (well-formedness, depth order, all before the counter) is kept |
| StartButton.OnStartPressed | game.js:154-159 | sets `isGameStarted`, leaves the rest of the record unchanged, and returns a fresh manager in its initial state |
| StartButton.StartAndSpawnThree | game.js:79-115 | after start on a fresh page at easy difficulty, three spawns place obstacles at 20, 22.5 and 25, all kept, with counter 27.5 and limit 3 |
| StartButton.SpawnBeforeStart | game.js:97 | before the start button is pressed, creation returns None and the list stays empty |

## Left out

- Scene, camera, light, ground, XR session, GUI text and buttons, render loop and resize listener (game.js:1-57, 131-169): engine and UI calls with no logic of their own. The only exception is the `isGameStarted` change in the start handler, which is modelled.
- The `scene` and `playerMesh` fields of the manager are not modelled. The manager only passes them to the engine.
- `createObstacleMaterial` (game.js:89-94) is not modelled. It is an engine material call with transparency 0.7; the model keeps just the chosen catalogue colour on the obstacle.
- `checkCollisions` on a new mesh is not modelled. It is an engine flag.
- The mesh name built from `Date.now()` (game.js:101) is not modelled. It needs the clock, and its uniqueness is not a property of the code.
- `updateObstaclePositions` (game.js:158) is registered by the start handler but is not defined in the source, so it is not modelled. The same goes for movement, collisions, lives, score and restart.
- Floating-point rounding is not modelled. Coordinates are exact reals, and the model treats `Math.random() * length` as exact. In doubles the product can round up to the next integer, which changes which entry is picked but never leaves the catalogue.
- Obstacles.GetRandomItem: requires a non-empty catalogue. On an empty array JavaScript would yield `undefined`, but every caller passes a non-empty catalogue (`CataloguesNonEmpty`).
- ObstacleManagement.ObstacleManager.CleanupObstacles: requires the manager's invariant. The invariant holds at its only call site, inside `CreateObstacle`.
- js/ar.js is not part of this model. It is a separate scene set-up with no logic of its own.
