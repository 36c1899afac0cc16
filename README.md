# Kittens arcade game: a Dafny model of its game state

This project models the game-state logic of the browser game in `js/kittens.js`. The player
steps around a grid of five columns and seven rows on a 375 x 500 canvas, starting in the
bottom row. Enemies fall down five
lanes at a speed drawn once when they spawn. The engine keeps three lanes occupied. It adds
the elapsed milliseconds to the score every frame. When an enemy overlaps the player, the
player loses one life, and a hit with no lives left ends the game.

The model is one stateful session, written in the source's own imperative form:

- `config.dfy`, module `Config`: the constants of the game.
- `entities.dfy`, module `Entities`: the `Enemy` class (a `const` lane position and speed and a
  falling `y`) and the `Player` class (grid position and lives). It also holds the pure
  functions that specify them: `SpawnSpeed`, `Descend`, `Step`, `Walk`.
- `lanes.dfy`, module `Lanes`: counting the occupied slots of the sparse lane table, and the
  lemmas about that count.
- `engine.dfy`, module `GameEngine`: the `Engine` class with `AddEnemy`, `SetupEnemies`, the
  per-frame steps, `IsPlayerDead`, `GameLoop`, `Start`, and the keyboard handler. It also holds
  the pure collision test `Hits` and the key mapping `KeyCommand`.

Modelling choices:

- The lane table `this.enemies` is a JavaScript array with holes. Here it is a field
  `enemies: seq<Enemy?>` of length 5, and `null` stands for a hole (a deleted or never-filled
  slot). `filter(e => e)`, `forEach` and `some` only see these five index slots.
- On the first `addEnemy` call the slot variable is still `undefined`. The source therefore
  stores that enemy under the non-index key `"undefined"`, and no lane gets filled. The model
  records this with the boolean `strayEntry`. That enemy's x is `NaN` and is never read, so no
  `Enemy` object is modelled for it; only the fact that the key is taken is, because the retry
  test reads it. Every later call finds that key taken, loops at least once, and fills a real
  lane. No step of the game ever deletes that key.
- The retry loop `while (this.enemies[enemySpot]) enemySpot = random lane` becomes a
  nondeterministic choice of a free lane. Its precondition is that a free lane exists once
  the stray entry is taken. `Math.random()` for an enemy's speed is likewise a
  nondeterministic `r` in [0, 1).
- `Date.now()` becomes two parameters of `GameLoop`. `currentFrame` is the clock at the start
  of the frame; `resetTime` is the clock read just before the next frame is scheduled.
  `requestAnimationFrame` becomes the returned flag `scheduled`.
- `!this.player.numLives > 0` parses as `(!numLives) > 0`. It is modelled with explicit
  JavaScript coercions (`JsNot`, `JsToNumber`), and `OutOfLivesAtZero` shows that it holds
  exactly when `numLives == 0`.
- The player's position and an enemy's x are `int` pixels. An enemy's y and its speed are
  exact `real`s. Times and the score are `int` milliseconds.
- The code has no shots, bonus or levels. It does not clamp a negative elapsed time. It does
  not remove an enemy that hits the player. The enemy speed is `random/2 + 0.25`, and game over
  is tested at exactly zero lives.

## Model

| member | source | states |
|---|---|---|
| Config.LaneCount | js/kittens.js:145 | the number of lanes, GAME_WIDTH / ENEMY_WIDTH, is exactly 5, and 5 lanes span the canvas width |
| Entities.SpawnSpeed | js/kittens.js:62 | an enemy's speed lies in [0.25, 0.75) for every value Math.random() can return |
| Entities.Descend | js/kittens.js:65-67 | the fall moves y down, never up, for a non-negative elapsed time; strictly down for a positive time; not at all for zero time |
| Entities.DescendSplit | js/kittens.js:186-187 | falling for two frames ends where falling once for their total time ends, so the descent scaled by the time delta does not depend on the frame rate |
| Entities.Enemy.constructor | js/kittens.js:56-63 | a new enemy is at the given x and at y = -ENEMY_HEIGHT, with its speed fixed in [0.25, 0.75) |
| Entities.Enemy.Update | js/kittens.js:65-67 | y increases by timeDiff * speed; x and speed are constants and cannot change |
| Entities.Step | js/kittens.js:80-93 | a move leaves the position unchanged or takes exactly one grid step in its own direction |
| Entities.StepIsGuardedOffset | js/kittens.js:80-93 | a move either passes its bounds guard and takes exactly one step in its own direction, or is blocked and changes nothing; at most one coordinate changes; the position changes iff the guard passes |
| Entities.StepOnGrid | js/kittens.js:80-93 | a move from a grid position (x a multiple of 75 in [0, 300], y a multiple of 70 in [0, 420]) lands on the grid |
| Entities.WalkOnGrid | js/kittens.js:80-93 | any sequence of moves from a grid position stays on the grid |
| Entities.StartOnGrid | js/kittens.js:73-74 | the start position is (150, 420) and is on the grid |
| Entities.Player.constructor | js/kittens.js:71-77 | the player starts at (150, 420) with 5 lives |
| Entities.Player.Move | js/kittens.js:80-93 | the new position is Step(old position, direction), it stays on the grid, and the lives are unchanged |
| Lanes.Occupied | js/kittens.js:138 | the number of occupied slots is at most the table length, and it is zero iff every slot is empty |
| Lanes.OccupiedFill | js/kittens.js:153 | filling one empty slot raises the occupied count by exactly one |
| Lanes.OccupiedMonotone | js/kittens.js:206-210 | deleting slots never raises the occupied count |
| Lanes.HoleExists | js/kittens.js:149-151 | a lane table that is not full has an empty slot, so the free-lane search has a lane to find |
| Lanes.AlignedLanesDistinct | js/kittens.js:153 | because the enemy of slot i sits at x = i * ENEMY_WIDTH, different slots hold different enemies |
| GameEngine.KeyCommand | js/kittens.js:163-173 | exactly the eight bound key codes produce a command, the four arrow codes 37-40 give moves, and every other code does nothing |
| GameEngine.KeyBindingsRoundTrip | js/kittens.js:163-172 | the bindings are a bijection: each command's key maps back to that command, and each bound key is its command's key |
| GameEngine.OutOfLives | js/kittens.js:238 | the game-over test, with JavaScript's coercions written out, holds exactly when numLives is 0 |
| GameEngine.OutOfLivesAtZero | js/kittens.js:238 | the test `!numLives > 0` holds exactly when numLives is 0; for non-negative counts it agrees with `!(numLives > 0)` |
| GameEngine.Hits | js/kittens.js:235-237 | a hit needs the enemy in the player's column, with its top edge between ENEMY_HEIGHT above the player's top edge and PLAYER_HEIGHT - ENEMY_RAINBOW_BUFFER below it |
| GameEngine.HitsWindow | js/kittens.js:235-237 | a hit means the same column, the enemy's bottom edge at or below the player's top edge, and the enemy's solid part starting above the player's bottom edge |
| GameEngine.Escaped | js/kittens.js:207 | an enemy exactly at y == GAME_HEIGHT has not escaped, and an escaped enemy can no longer hit the player in any grid row |
| GameEngine.Engine.AnyHit | js/kittens.js:235-237 | the `some` over the lane table: a hit needs an enemy in the player's column, and there is none while every enemy's bottom edge is above the player |
| GameEngine.Engine.constructor | js/kittens.js:110-116 | a new engine has a fresh player at (150, 420) with 5 lives, exactly 3 occupied lanes holding fresh enemies at y = -ENEMY_HEIGHT, and the stray "undefined" entry taken |
| GameEngine.Engine.AddEnemy | js/kittens.js:144-154 | the first call only takes the "undefined" key; every later call fills exactly one previously empty lane i with a fresh enemy at x = i * ENEMY_WIDTH and y = -ENEMY_HEIGHT, leaves every other lane unchanged, and raises the occupied count by one |
| GameEngine.Engine.SetupEnemies | js/kittens.js:133-141 | starting with fewer than 3 occupied lanes it ends with exactly 3, and otherwise with the count unchanged; lanes occupied before keep their enemy; every changed lane holds a fresh enemy at y = -ENEMY_HEIGHT; the lanes hold distinct enemies |
| GameEngine.Engine.UpdateEnemies | js/kittens.js:198 | every enemy in the lane table falls by timeDiff * speed |
| GameEngine.Engine.RemoveEscaped | js/kittens.js:206-210 | exactly the lanes whose enemy has y > GAME_HEIGHT become empty (an enemy at y == GAME_HEIGHT stays); every other lane is unchanged and the count does not rise |
| GameEngine.Engine.AdvanceEnemies | js/kittens.js:197-211 | every old enemy falls by timeDiff * speed; a surviving one keeps its lane, and an escaped one is gone; a changed non-empty lane holds a fresh spawn; exactly 3 lanes end up occupied; a taken "undefined" key stays taken |
| GameEngine.Engine.IsPlayerDead | js/kittens.js:234-250 | on a hit with lives left, numLives drops by exactly one however many enemies overlap, and the result is false; on a hit with 0 lives the result is true; with no hit nothing changes and the result is false; the position is unchanged and lives stay in [0, 5] |
| GameEngine.Engine.GameLoop | js/kittens.js:189-232 | the score grows by the elapsed time; the enemy steps are as in AdvanceEnemies; the lives are as in IsPlayerDead, checked on the refilled lanes; the next frame is scheduled iff the player is not dead; lastFrame is reset to the new clock only when a frame is scheduled; a taken "undefined" key stays taken |
| GameEngine.Engine.Start | js/kittens.js:157-177 | the score restarts at 0, so after the first frame it is the time since the start; that frame's enemy, lane, lives and scheduling facts are GameLoop's, with the start time as the last frame time |
| GameEngine.Engine.HandleKey | js/kittens.js:162-174 | an arrow key moves the player by Step in its direction; shoot keys and unknown keys leave the position unchanged; the lives never change |

`GameEngine.SessionScenario` walks a fresh session through its first key presses, using the
contracts alone. From (150, 420), LEFT gives x = 75. Two more LEFTs give x = 0, and a further
LEFT and a DOWN at (0, 420) change nothing. It then starts the game and runs the next frame.

## Left out

- Rendering: image preloading (lines 36-41), the canvas (lines 118-123), `Entity.render`,
  every `drawImage`, `fillText`, font and style call, and the game-over sprite and background
  swap in `isPlayerDead`. They are drawing side effects and change no game state.
- `Date.now()` and `requestAnimationFrame`: the host clock and scheduler. They are parameters
  and the `scheduled` result.
- `Math.random()`: a nondeterministic choice. The free-lane retry loop's probabilistic
  termination is not modelled. Its precondition is that a free lane exists.
- `Player.shoot`: it only writes to the console, so the shoot keys change nothing here.
- The `addEventListener` registration and its asynchronous delivery. Only the handler body
  (`HandleKey`) is modelled.
- The launch lines 257-259 (`new Engine(...)`, `start()`): they are one constructor call and one
  `Start` call.
- IEEE floating point: positions and speeds are exact reals.
- The stray enemy stored under the key `"undefined"`: its x is `NaN` and is never read again,
  so only the fact that the key is taken is modelled.
- `if (!this.enemies) this.enemies = []` (lines 134-136) only runs on the first call, from the
  constructor. The constructor starts the table with five empty slots instead, which
  `filter`, `forEach` and `some` treat the same way. The JavaScript array's `length` is not
  modelled.
- `score` and `lastFrame` are undefined in the source until `start()` runs. The constructor
  here sets them to 0, and `Start` sets them as the source does.
- GameEngine.Engine.AddEnemy: does not state which free lane is chosen or that the choice is
  uniform, because the source chooses at random.
