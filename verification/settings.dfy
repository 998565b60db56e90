/** Static configuration of the game: the board and the difficulty table. */
module Settings {

  /** A value that may be absent, such as a storage entry that was never written. */
  datatype Option<T> = None | Some(value: T)

  /** Number of tiles on the 3x3 board. */
  const BoardSize: int := 9

  /** A tile of the board, identified by its index 0..8. */
  type Tile = t: int | 0 <= t < BoardSize

  /** The values of the difficulty selector. */
  datatype Difficulty = Easy | Medium | Hard

  /** A difficulty profile: spawn period in milliseconds and round duration in seconds. */
  datatype Config = Config(speed: nat, time: nat)

  /** The fixed difficulty table. */
  function DifficultySettings(d: Difficulty): (c: Config)
    ensures 1000 <= c.speed <= 1400 && 35 <= c.time <= 50
    ensures c.time == 50 <==> d == Easy
    ensures c.speed == 1000 <==> d == Hard
  {
    match d
    case Easy => Config(1400, 50)
    case Medium => Config(1100, 35)
    case Hard => Config(1000, 35)
  }

}
