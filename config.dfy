/** The game's fixed dimensions and limits (js/kittens.js lines 4-15). */
module Config {
  const GAME_WIDTH := 375
  const GAME_HEIGHT := 500

  const ENEMY_WIDTH := 75
  const ENEMY_HEIGHT := 156
  /** Transparent top margin of the enemy sprite that does not count for a hit. */
  const ENEMY_RAINBOW_BUFFER := 58
  const MAX_ENEMIES := 3

  const PLAYER_WIDTH := 75
  const PLAYER_HEIGHT := 70
  const PLAYER_TOP_BUFFER := 10
  const PLAYER_START_NUM_LIVES := 5

  /** Number of enemy lanes: GAME_WIDTH / ENEMY_WIDTH, which divides exactly. */
  const LANES := GAME_WIDTH / ENEMY_WIDTH

  lemma LaneCount()
    ensures LANES == 5 && LANES * ENEMY_WIDTH == GAME_WIDTH
  {
  }
}
