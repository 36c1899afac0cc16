/** The two game entities of js/kittens.js: the enemy that falls down a lane and the
    player that steps around a grid. Rendering (Entity.render, the sprites) is not modelled. */
module Entities {
  import opened Config

  // ---------------------------------------------------------------- Enemy

  /** Speed drawn at spawn from a value `r` of Math.random(), which lies in [0, 1). */
  function SpawnSpeed(r: real): (speed: real)
    requires 0.0 <= r < 1.0
    ensures 0.25 <= speed < 0.75
  {
    r / 2.0 + 0.25
  }

  /** Vertical position after falling for `timeDiff` milliseconds at `speed` pixels per ms. */
  function Descend(y: real, speed: real, timeDiff: int): (y': real)
    ensures speed >= 0.0 && timeDiff >= 0 ==> y' >= y
    ensures speed > 0.0 && timeDiff > 0 ==> y' > y
    ensures timeDiff == 0 ==> y' == y
  {
    y + timeDiff as real * speed
  }

  /** Falling for two frames in a row ends where falling for their total time ends:
      the descent does not depend on how time is split into frames. */
  lemma DescendSplit(y: real, speed: real, t1: int, t2: int)
    ensures Descend(Descend(y, speed, t1), speed, t2) == Descend(y, speed, t1 + t2)
  {
    assert (t1 + t2) as real * speed == t1 as real * speed + t2 as real * speed;
  }

  class Enemy {
    /** Left edge: the lane index times ENEMY_WIDTH. Never reassigned. */
    const x: int
    /** Top edge; grows as the enemy falls. */
    var y: real
    /** Fixed at construction. */
    const speed: real

    ghost predicate Valid() {
      0.25 <= speed < 0.75
    }

    /** `r` is the value Math.random() returns during construction. */
    constructor (xPos: int, r: real)
      requires 0.0 <= r < 1.0
      ensures Valid()
      ensures x == xPos && y == -ENEMY_HEIGHT as real && speed == SpawnSpeed(r)
    {
      x := xPos;
      y := -ENEMY_HEIGHT as real;
      speed := SpawnSpeed(r);
    }

    method Update(timeDiff: int)
      modifies this
      ensures y == Descend(old(y), speed, timeDiff)
    {
      y := y + timeDiff as real * speed;
    }
  }

  // ---------------------------------------------------------------- Player

  datatype Direction = Left | Right | Up | Down

  datatype Pos = Pos(x: int, y: int)

  /** Where the player starts: the middle column, one row above the bottom margin. */
  const START: Pos := Pos(2 * PLAYER_WIDTH, GAME_HEIGHT - PLAYER_HEIGHT - PLAYER_TOP_BUFFER)

  /** The grid of positions the player can occupy: five columns and seven rows. */
  ghost predicate OnGrid(p: Pos) {
    && 0 <= p.x <= GAME_WIDTH - PLAYER_WIDTH && p.x % PLAYER_WIDTH == 0
    && 0 <= p.y <= START.y && p.y % PLAYER_HEIGHT == 0
  }

  /** Whether the bounds guard of `move` lets a step in direction `d` through. */
  predicate CanMove(p: Pos, d: Direction) {
    match d
    case Left => p.x > 0
    case Right => p.x < GAME_WIDTH - PLAYER_WIDTH
    case Up => p.y > 0
    case Down => p.y < GAME_HEIGHT - 2 * PLAYER_HEIGHT
  }

  /** One grid step in direction `d`, ignoring the bounds. */
  function Offset(p: Pos, d: Direction): Pos {
    match d
    case Left => p.(x := p.x - PLAYER_WIDTH)
    case Right => p.(x := p.x + PLAYER_WIDTH)
    case Up => p.(y := p.y - PLAYER_HEIGHT)
    case Down => p.(y := p.y + PLAYER_HEIGHT)
  }

  /** The position after `move(d)`: either unchanged or one grid step in direction `d`. */
  function Step(p: Pos, d: Direction): (q: Pos)
    ensures q == p || q == Offset(p, d)
  {
    if d == Left && p.x > 0 then p.(x := p.x - PLAYER_WIDTH)
    else if d == Right && p.x < GAME_WIDTH - PLAYER_WIDTH then p.(x := p.x + PLAYER_WIDTH)
    else if d == Up && p.y > 0 then p.(y := p.y - PLAYER_HEIGHT)
    else if d == Down && p.y < GAME_HEIGHT - 2 * PLAYER_HEIGHT then p.(y := p.y + PLAYER_HEIGHT)
    else p
  }

  /** A move either is blocked by its guard and changes nothing, or takes exactly one
      step in its own direction: one coordinate changes, by one cell. */
  lemma StepIsGuardedOffset(p: Pos, d: Direction)
    ensures CanMove(p, d) ==> Step(p, d) == Offset(p, d)
    ensures !CanMove(p, d) ==> Step(p, d) == p
    ensures Step(p, d).x == p.x || Step(p, d).y == p.y
    ensures Step(p, d) != p <==> CanMove(p, d)
  {
  }

  /** A move from a grid position lands on the grid. */
  lemma StepOnGrid(p: Pos, d: Direction)
    requires OnGrid(p)
    ensures OnGrid(Step(p, d))
  {
  }

  /** The position after a whole sequence of moves. */
  function Walk(p: Pos, ds: seq<Direction>): Pos
    decreases |ds|
  {
    if ds == [] then p else Walk(Step(p, ds[0]), ds[1..])
  }

  /** Whatever keys are pressed, the player stays on the grid it starts on. */
  lemma {:induction false} WalkOnGrid(p: Pos, ds: seq<Direction>)
    requires OnGrid(p)
    ensures OnGrid(Walk(p, ds))
    decreases |ds|
  {
    if ds != [] {
      StepOnGrid(p, ds[0]);
      WalkOnGrid(Step(p, ds[0]), ds[1..]);
    }
  }

  lemma StartOnGrid()
    ensures OnGrid(START) && START == Pos(150, 420)
  {
  }

  class Player {
    var x: int
    var y: int
    var numLives: int

    /** The player's invariant: on the grid, and a lives count in [0, PLAYER_START_NUM_LIVES]. */
    ghost predicate Valid()
      reads this
    {
      OnGrid(Pos(x, y)) && 0 <= numLives <= PLAYER_START_NUM_LIVES
    }

    constructor ()
      ensures Valid()
      ensures Pos(x, y) == START && numLives == PLAYER_START_NUM_LIVES
    {
      x := 2 * PLAYER_WIDTH;
      y := GAME_HEIGHT - PLAYER_HEIGHT - PLAYER_TOP_BUFFER;
      numLives := PLAYER_START_NUM_LIVES;
    }

    method Move(d: Direction)
      requires Valid()
      modifies this
      ensures Valid()
      ensures Pos(x, y) == Step(old(Pos(x, y)), d)
      ensures numLives == old(numLives)
    {
      if d == Left && x > 0 {
        x := x - PLAYER_WIDTH;
      } else if d == Right && x < GAME_WIDTH - PLAYER_WIDTH {
        x := x + PLAYER_WIDTH;
      } else if d == Up && y > 0 {
        y := y - PLAYER_HEIGHT;
      } else if d == Down && y < GAME_HEIGHT - 2 * PLAYER_HEIGHT {
        y := y + PLAYER_HEIGHT;
      }
      StepOnGrid(old(Pos(x, y)), d);
    }
  }
}
