/** The game engine of js/kittens.js: one session holding the player, the enemy lane
    table, the score and the time of the last frame, advanced one frame at a time.
    The host clock (Date.now) and scheduler (requestAnimationFrame) are parameters and
    results; every draw call is left out. */
module GameEngine {
  import opened Config
  import opened Entities
  import opened Lanes

  // ---------------------------------------------------------------- keyboard

  const LEFT_ARROW_CODE := 37
  const UP_ARROW_CODE := 38
  const RIGHT_ARROW_CODE := 39
  const DOWN_ARROW_CODE := 40
  const LEFT_SHOOT_CODE := 65
  const RIGHT_SHOOT_CODE := 68
  const UP_SHOOT_CODE := 87
  const DOWN_SHOOT_CODE := 83

  datatype Command = Move(dir: Direction) | Shoot(dir: Direction) | Ignore

  /** What the keydown listener does with a key code; unknown codes do nothing. */
  function KeyCommand(keyCode: int): (c: Command)
    ensures c != Ignore <==> keyCode in {37, 38, 39, 40, 65, 68, 87, 83}
    ensures c.Move? <==> 37 <= keyCode <= 40
  {
    if keyCode == LEFT_ARROW_CODE then Move(Left)
    else if keyCode == RIGHT_ARROW_CODE then Move(Right)
    else if keyCode == UP_ARROW_CODE then Move(Up)
    else if keyCode == DOWN_ARROW_CODE then Move(Down)
    else if keyCode == LEFT_SHOOT_CODE then Shoot(Left)
    else if keyCode == RIGHT_SHOOT_CODE then Shoot(Right)
    else if keyCode == UP_SHOOT_CODE then Shoot(Up)
    else if keyCode == DOWN_SHOOT_CODE then Shoot(Down)
    else Ignore
  }

  /** The key bound to a command. */
  function KeyCode(c: Command): int
    requires c != Ignore
  {
    match c
    case Move(Left) => LEFT_ARROW_CODE
    case Move(Right) => RIGHT_ARROW_CODE
    case Move(Up) => UP_ARROW_CODE
    case Move(Down) => DOWN_ARROW_CODE
    case Shoot(Left) => LEFT_SHOOT_CODE
    case Shoot(Right) => RIGHT_SHOOT_CODE
    case Shoot(Up) => UP_SHOOT_CODE
    case Shoot(Down) => DOWN_SHOOT_CODE
  }

  /** Every command has exactly one key: the mapping is a bijection between the eight
      bound codes and the eight commands. */
  lemma KeyBindingsRoundTrip(c: Command, keyCode: int)
    ensures c != Ignore ==> KeyCommand(KeyCode(c)) == c
    ensures KeyCommand(keyCode) != Ignore ==> KeyCode(KeyCommand(keyCode)) == keyCode
  {
  }

  // ---------------------------------------------------------------- lives test

  /** JavaScript's `!` applied to a number: true exactly for 0. */
  predicate JsNot(n: int) {
    n == 0
  }

  /** JavaScript's conversion of a boolean to a number, as `>` performs it. */
  function JsToNumber(b: bool): int {
    if b then 1 else 0
  }

  /** The game-over test `!this.player.numLives > 0`, which parses as `(!numLives) > 0`. */
  predicate OutOfLives(numLives: int): (out: bool)
    ensures out <==> numLives == 0
  {
    JsToNumber(JsNot(numLives)) > 0
  }

  /** The test holds exactly at zero lives; for a lives count that is never negative this
      is the same as `!(numLives > 0)`. */
  lemma OutOfLivesAtZero(numLives: int)
    ensures OutOfLives(numLives) <==> numLives == 0
    ensures numLives >= 0 ==> (OutOfLives(numLives) <==> !(numLives > 0))
  {
  }

  // ---------------------------------------------------------------- collision

  /** The collision test of isPlayerDead for an enemy at (ex, ey) and a player at (px, py). */
  predicate Hits(ex: int, ey: real, px: int, py: int): (hit: bool)
    ensures hit ==> ex == px
    ensures hit ==> -ENEMY_HEIGHT as real <= ey - py as real < (PLAYER_HEIGHT - ENEMY_RAINBOW_BUFFER) as real
  {
    && (ey + ENEMY_RAINBOW_BUFFER as real) + (ENEMY_HEIGHT - ENEMY_RAINBOW_BUFFER) as real >= py as real
    && (py + PLAYER_HEIGHT) as real > ey + ENEMY_RAINBOW_BUFFER as real
    && ex == px
  }

  /** A hit means: same column, the enemy's bottom edge has reached the player's top edge,
      and the solid part of the enemy (below its rainbow margin) starts above the player's
      bottom edge. */
  lemma HitsWindow(ex: int, ey: real, px: int, py: int)
    ensures Hits(ex, ey, px, py) <==>
      ex == px && ey + ENEMY_HEIGHT as real >= py as real &&
      ey + ENEMY_RAINBOW_BUFFER as real < (py + PLAYER_HEIGHT) as real
  {
  }

  /** An enemy counts as escaped once its top edge is below the bottom of the canvas. */
  predicate Escaped(e: Enemy): (gone: bool)
    reads e
    ensures e.y == GAME_HEIGHT as real ==> !gone
    ensures gone ==> forall px, py :: py <= START.y ==> !Hits(e.x, e.y, px, py)
  {
    e.y > GAME_HEIGHT as real
  }

  // ---------------------------------------------------------------- engine

  class Engine {
    const player: Player
    /** The lane table: slot i holds the enemy of lane i, or null for a hole. */
    var enemies: seq<Enemy?>
    /** Whether the table's non-index key "undefined" holds an entry. The first addEnemy
        call stores its enemy there, where filter, forEach and some never look. */
    var strayEntry: bool
    var score: int
    var lastFrame: int

    ghost predicate Valid()
      reads this, player
    {
      && player.Valid()
      && |enemies| == LANES
      && forall i :: 0 <= i < LANES && enemies[i] != null ==>
           enemies[i].x == i * ENEMY_WIDTH && enemies[i].Valid()
    }

    /** Whether some enemy in the lane table hits the player. */
    predicate AnyHit()
      reads this, player, enemies
      ensures AnyHit() ==> exists i :: 0 <= i < |enemies| && enemies[i] != null && enemies[i].x == player.x
      ensures (forall i :: 0 <= i < |enemies| && enemies[i] != null ==>
                 enemies[i].y + (ENEMY_HEIGHT as real) < player.y as real) ==> !AnyHit()
    {
      exists i :: 0 <= i < |enemies| && enemies[i] != null &&
        Hits(enemies[i].x, enemies[i].y, player.x, player.y)
    }

    /** The player (Engine.constructor) and a full lane table (setupEnemies). The score
        and the frame time are set by Start. */
    constructor ()
      ensures Valid() && fresh(player)
      ensures Pos(player.x, player.y) == START && player.numLives == PLAYER_START_NUM_LIVES
      ensures strayEntry && Occupied(enemies) == MAX_ENEMIES
      ensures forall i :: 0 <= i < LANES && enemies[i] != null ==>
        fresh(enemies[i]) && enemies[i].y == -ENEMY_HEIGHT as real
      ensures score == 0 && lastFrame == 0
    {
      player := new Player();
      enemies := seq(LANES, _ => null);
      strayEntry := false;
      score := 0;
      lastFrame := 0;
      new;
      SetupEnemies();
    }

    /** Puts a new enemy into a free lane. On the first call the slot index is still
        undefined and the enemy lands under the key "undefined" instead. Otherwise the
        source retries random lanes until it finds a free one; here the free lane is
        chosen nondeterministically, and the random speed factor too. */
    method AddEnemy()
      requires Valid()
      requires strayEntry ==> Occupied(enemies) < LANES
      modifies this
      ensures Valid() && strayEntry
      ensures score == old(score) && lastFrame == old(lastFrame)
      ensures !old(strayEntry) ==> enemies == old(enemies)
      ensures old(strayEntry) ==>
        exists i :: (0 <= i < LANES && old(enemies[i]) == null &&
          enemies == old(enemies)[i := enemies[i]] &&
          enemies[i] != null && fresh(enemies[i]) && enemies[i].y == -ENEMY_HEIGHT as real)
      ensures Occupied(enemies) == old(Occupied(enemies)) + (if old(strayEntry) then 1 else 0)
    {
      if !strayEntry {
        strayEntry := true;
      } else {
        HoleExists(enemies);
        var spot :| 0 <= spot < LANES && enemies[spot] == null;
        var r: real :| 0.0 <= r < 1.0;
        var e := new Enemy(spot * ENEMY_WIDTH, r);
        OccupiedFill(enemies, spot, e);
        enemies := enemies[spot := e];
      }
    }

    /** Adds enemies until MAX_ENEMIES lanes are occupied. */
    method SetupEnemies()
      requires Valid()
      modifies this
      ensures Valid()
      ensures score == old(score) && lastFrame == old(lastFrame)
      ensures Occupied(enemies) ==
        if old(Occupied(enemies)) < MAX_ENEMIES then MAX_ENEMIES else old(Occupied(enemies))
      ensures old(Occupied(enemies)) < MAX_ENEMIES ==> strayEntry
      ensures old(strayEntry) ==> strayEntry
      ensures forall i :: 0 <= i < LANES && old(enemies[i]) != null ==> enemies[i] == old(enemies[i])
      ensures forall i :: 0 <= i < LANES && enemies[i] != old(enemies[i]) ==>
        enemies[i] != null && fresh(enemies[i]) && enemies[i].y == -ENEMY_HEIGHT as real
      ensures forall i, j :: 0 <= i < j < LANES && enemies[i] != null ==> enemies[i] != enemies[j]
    {
      while Occupied(enemies) < MAX_ENEMIES
        invariant Valid()
        invariant score == old(score) && lastFrame == old(lastFrame)
        invariant old(Occupied(enemies)) >= MAX_ENEMIES ==> enemies == old(enemies) && strayEntry == old(strayEntry)
        invariant old(Occupied(enemies)) < MAX_ENEMIES ==> Occupied(enemies) <= MAX_ENEMIES
        invariant Occupied(enemies) != old(Occupied(enemies)) ==> strayEntry
        invariant old(strayEntry) ==> strayEntry
        invariant forall i :: 0 <= i < LANES && old(enemies[i]) != null ==> enemies[i] == old(enemies[i])
        invariant forall i :: 0 <= i < LANES && enemies[i] != old(enemies[i]) ==>
          enemies[i] != null && fresh(enemies[i]) && enemies[i].y == -ENEMY_HEIGHT as real
        decreases MAX_ENEMIES - Occupied(enemies), if strayEntry then 0 else 1
      {
        AddEnemy();
      }
      AlignedLanesDistinct(enemies);
    }

    /** Moves every enemy of the lane table down by its speed times the elapsed time. */
    method UpdateEnemies(timeDiff: int)
      requires Valid()
      modifies enemies
      ensures forall i :: 0 <= i < LANES && enemies[i] != null ==>
        enemies[i].y == Descend(old(enemies[i].y), enemies[i].speed, timeDiff)
    {
      for i := 0 to LANES
        invariant forall j :: 0 <= j < i && enemies[j] != null ==>
          enemies[j].y == Descend(old(enemies[j].y), enemies[j].speed, timeDiff)
        invariant forall j :: i <= j < LANES && enemies[j] != null ==> enemies[j].y == old(enemies[j].y)
      {
        if enemies[i] != null {
          enemies[i].Update(timeDiff);
        }
      }
    }

    /** Deletes the enemies that have fallen below the canvas; one at y == GAME_HEIGHT stays. */
    method RemoveEscaped()
      requires Valid()
      modifies this
      ensures Valid()
      ensures strayEntry == old(strayEntry) && score == old(score) && lastFrame == old(lastFrame)
      ensures forall i :: 0 <= i < LANES ==>
        enemies[i] == if old(enemies[i]) != null && Escaped(old(enemies[i])) then null else old(enemies[i])
      ensures Occupied(enemies) <= old(Occupied(enemies))
    {
      for i := 0 to LANES
        invariant Valid()
        invariant strayEntry == old(strayEntry) && score == old(score) && lastFrame == old(lastFrame)
        invariant forall j :: 0 <= j < i ==>
          enemies[j] == if old(enemies[j]) != null && Escaped(old(enemies[j])) then null else old(enemies[j])
        invariant forall j :: i <= j < LANES ==> enemies[j] == old(enemies[j])
      {
        if enemies[i] != null && enemies[i].y > GAME_HEIGHT as real {
          enemies := enemies[i := null];
        }
      }
      OccupiedMonotone(enemies, old(enemies));
    }

    /** The collision and lives check. A hit with lives left costs exactly one life, however
        many enemies overlap the player, and the game goes on; a hit with no lives left is
        game over. The hitting enemy stays where it is. */
    method IsPlayerDead() returns (dead: bool)
      requires Valid()
      modifies player
      ensures Valid()
      ensures Pos(player.x, player.y) == old(Pos(player.x, player.y))
      ensures dead <==> AnyHit() && old(player.numLives) == 0
      ensures player.numLives ==
        if AnyHit() && old(player.numLives) != 0 then old(player.numLives) - 1 else old(player.numLives)
    {
      dead := false;
      if AnyHit() {
        if OutOfLives(player.numLives) {
          dead := true;
        } else {
          player.numLives := player.numLives - 1;
        }
      }
    }

    /** The enemy half of a frame: every enemy falls for `timeDiff`, the escaped ones are
        deleted and the lanes are refilled up to MAX_ENEMIES. */
    method AdvanceEnemies(timeDiff: int)
      requires Valid() && Occupied(enemies) <= MAX_ENEMIES
      modifies this, enemies
      ensures Valid() && Occupied(enemies) == MAX_ENEMIES
      ensures old(strayEntry) ==> strayEntry
      ensures score == old(score) && lastFrame == old(lastFrame)
      ensures forall i :: 0 <= i < LANES && old(enemies[i]) != null ==>
        old(enemies[i]).y == Descend(old(enemies[i].y), old(enemies[i]).speed, timeDiff)
      ensures forall i :: 0 <= i < LANES && old(enemies[i]) != null && !Escaped(old(enemies[i])) ==>
        enemies[i] == old(enemies[i])
      ensures forall i :: 0 <= i < LANES && old(enemies[i]) != null && Escaped(old(enemies[i])) ==>
        enemies[i] != old(enemies[i])
      ensures forall i :: 0 <= i < LANES && enemies[i] != old(enemies[i]) && enemies[i] != null ==>
        fresh(enemies[i]) && enemies[i].y == -ENEMY_HEIGHT as real
    {
      ghost var lanes := enemies;
      UpdateEnemies(timeDiff);
      assert forall i :: 0 <= i < LANES && lanes[i] != null ==>
        lanes[i].y == Descend(old(lanes[i].y), lanes[i].speed, timeDiff);
      label updated:
      RemoveEscaped();
      SetupEnemies();
      assert forall i :: 0 <= i < LANES && lanes[i] != null ==> lanes[i].y == old@updated(lanes[i].y);
    }

    /** One frame: score, enemy descent, escape cleanup, refill, lives check, and the choice
        between scheduling the next frame and ending the game. `currentFrame` is the clock
        at the start of the frame and `resetTime` the clock read when the next frame is
        scheduled; the result says whether it is. */
    method GameLoop(currentFrame: int, resetTime: int) returns (scheduled: bool)
      requires Valid() && Occupied(enemies) <= MAX_ENEMIES
      modifies this, player, enemies
      ensures Valid() && Occupied(enemies) == MAX_ENEMIES
      ensures old(strayEntry) ==> strayEntry
      ensures score == old(score) + (currentFrame - old(lastFrame))
      ensures forall i :: 0 <= i < LANES && old(enemies[i]) != null ==>
        old(enemies[i]).y == Descend(old(enemies[i].y), old(enemies[i]).speed, currentFrame - old(lastFrame))
      ensures forall i :: 0 <= i < LANES && old(enemies[i]) != null && !Escaped(old(enemies[i])) ==>
        enemies[i] == old(enemies[i])
      ensures forall i :: 0 <= i < LANES && old(enemies[i]) != null && Escaped(old(enemies[i])) ==>
        enemies[i] != old(enemies[i])
      ensures forall i :: 0 <= i < LANES && enemies[i] != old(enemies[i]) && enemies[i] != null ==>
        fresh(enemies[i]) && enemies[i].y == -ENEMY_HEIGHT as real
      ensures Pos(player.x, player.y) == old(Pos(player.x, player.y))
      ensures player.numLives ==
        if AnyHit() && old(player.numLives) != 0 then old(player.numLives) - 1 else old(player.numLives)
      ensures scheduled <==> !(AnyHit() && old(player.numLives) == 0)
      ensures lastFrame == if scheduled then resetTime else old(lastFrame)
    {
      var timeDiff := currentFrame - lastFrame;
      score := score + timeDiff;
      AdvanceEnemies(timeDiff);
      var dead := IsPlayerDead();
      ghost var hit := AnyHit();
      if dead {
        scheduled := false;
      } else {
        lastFrame := resetTime;
        scheduled := true;
      }
      assert AnyHit() == hit;
    }

    /** Starts the game: score 0, the frame clock set to `startTime`, and the first frame,
        run at clock `frameTime`. Registering the keydown listener is HandleKey. */
    method Start(startTime: int, frameTime: int, resetTime: int) returns (scheduled: bool)
      requires Valid() && Occupied(enemies) <= MAX_ENEMIES
      modifies this, player, enemies
      ensures Valid() && Occupied(enemies) == MAX_ENEMIES
      ensures old(strayEntry) ==> strayEntry
      ensures score == frameTime - startTime
      ensures forall i :: 0 <= i < LANES && old(enemies[i]) != null ==>
        old(enemies[i]).y == Descend(old(enemies[i].y), old(enemies[i]).speed, frameTime - startTime)
      ensures forall i :: 0 <= i < LANES && old(enemies[i]) != null && !Escaped(old(enemies[i])) ==>
        enemies[i] == old(enemies[i])
      ensures forall i :: 0 <= i < LANES && old(enemies[i]) != null && Escaped(old(enemies[i])) ==>
        enemies[i] != old(enemies[i])
      ensures forall i :: 0 <= i < LANES && enemies[i] != old(enemies[i]) && enemies[i] != null ==>
        fresh(enemies[i]) && enemies[i].y == -ENEMY_HEIGHT as real
      ensures Pos(player.x, player.y) == old(Pos(player.x, player.y))
      ensures player.numLives ==
        if AnyHit() && old(player.numLives) != 0 then old(player.numLives) - 1 else old(player.numLives)
      ensures scheduled <==> !(AnyHit() && old(player.numLives) == 0)
      ensures lastFrame == if scheduled then resetTime else startTime
    {
      score := 0;
      lastFrame := startTime;
      scheduled := GameLoop(frameTime, resetTime);
    }

    /** The keydown listener registered by start: arrow keys move the player, the shoot
        keys only log to the console, and every other key does nothing. */
    method HandleKey(keyCode: int)
      requires Valid()
      modifies player
      ensures Valid()
      ensures Pos(player.x, player.y) ==
        match KeyCommand(keyCode)
        case Move(d) => Step(old(Pos(player.x, player.y)), d)
        case _ => old(Pos(player.x, player.y))
      ensures player.numLives == old(player.numLives)
    {
      match KeyCommand(keyCode)
      case Move(d) => player.Move(d);
      case Shoot(_) =>
      case Ignore =>
    }
  }

  /** A fresh session and the first key presses, as a caller sees them through the contracts. */
  method SessionScenario()
  {
    var game := new Engine();
    assert game.player.numLives == 5 && Occupied(game.enemies) == 3;
    game.HandleKey(LEFT_ARROW_CODE);
    assert game.player.x == 75;
    game.HandleKey(LEFT_ARROW_CODE);
    game.HandleKey(LEFT_ARROW_CODE);
    assert game.player.x == 0;
    game.HandleKey(LEFT_ARROW_CODE);
    assert game.player.x == 0 && game.player.y == 420;
    game.HandleKey(DOWN_ARROW_CODE);
    assert game.player.y == 420;
    var scheduled := game.Start(1000, 1016, 1017);
    assert game.score == 16;
    if scheduled {
      scheduled := game.GameLoop(1033, 1034);
      assert game.score == 32 && Occupied(game.enemies) == 3;
    }
  }
}
