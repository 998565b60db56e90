/**
 * The state of one page of the game and its transitions: starting a
 * round, one countdown tick, the end of the round, one spawn cycle, one
 * tile click, the sound toggle and a page reload.
 */
module Session {
  import opened Settings
  import opened Spawner

  /** All game state of one page load. */
  datatype Game = Game(
    score: nat,
    hits: nat,
    misses: nat,
    /** High score as read from storage when the page loaded; never updated afterwards. */
    highScore: nat,
    /** High score held in persistent storage. */
    storedHigh: nat,
    gameOver: bool,
    /** Seconds left on the countdown. */
    timeLeft: nat,
    /** Tiles holding a mole in the current spawn cycle. */
    moles: seq<Tile>,
    /** Tiles holding a plant in the current spawn cycle. */
    plants: seq<Tile>,
    /** The spawn and countdown intervals are scheduled. */
    timersLive: bool,
    /** The start button is visible (it is hidden once a round starts). */
    startShown: bool,
    sound: bool)

  /** The larger of two scores. */
  function Max(a: nat, b: nat): (r: nat)
    ensures r >= a && r >= b && (r == a || r == b)
  {
    if a >= b then a else b
  }

  /** Page load: storage supplies the high score if one was saved. */
  function Load(saved: Option<nat>): (g: Game)
    ensures g.score == g.hits == g.misses == 0 && !g.gameOver && g.timeLeft == 30
    ensures g.moles == [] && g.plants == [] && !g.timersLive && g.startShown && g.sound
    ensures g.highScore == g.storedHigh == (if saved.Some? then saved.value else 0)
  {
    var high := match saved case Some(v) => v case None => 0;
    Game(0, 0, 0, high, high, false, 30, [], [], false, true, true)
  }

  /** Start a round at the chosen difficulty: counters reset, countdown set
      from the table, both intervals scheduled, start button hidden. The
      over flag and the current mole and plant tiles are left as they were. */
  function Start(g: Game, mode: Difficulty): (r: Game)
    ensures r.score == 0 && r.hits == 0 && r.misses == 0
    ensures mode == Easy ==> r.timeLeft == 50
    ensures mode != Easy ==> r.timeLeft == 35
    ensures r.timersLive && !r.startShown
    ensures r.gameOver == g.gameOver && r.moles == g.moles && r.plants == g.plants
    ensures r.highScore == g.highScore && r.storedHigh == g.storedHigh && r.sound == g.sound
  {
    g.(score := 0, hits := 0, misses := 0, timeLeft := DifficultySettings(mode).time,
       timersLive := true, startShown := false)
  }

  /** End of the round. A second call is a no-op. The first cancels both
      intervals and saves the score when it beats the high score read at load. */
  function EndGame(g: Game): (r: Game)
    ensures r.gameOver
    ensures g.gameOver ==> r == g
    ensures !g.gameOver ==> !r.timersLive
    ensures !g.gameOver && g.score > g.highScore ==> r.storedHigh == g.score
    ensures !g.gameOver && g.score <= g.highScore ==> r.storedHigh == g.storedHigh
    ensures r.score == g.score && r.hits == g.hits && r.misses == g.misses && r.timeLeft == g.timeLeft
    ensures r.moles == g.moles && r.plants == g.plants && r.highScore == g.highScore
    ensures r.startShown == g.startShown && r.sound == g.sound
  {
    if g.gameOver then g
    else
      var saved := if g.score > g.highScore then g.score else g.storedHigh;
      g.(gameOver := true, timersLive := false, storedHigh := saved)
  }

  /** One firing of the countdown interval: one second off while time is
      left, otherwise the end of the round. */
  function Tick(g: Game): (r: Game)
    ensures g.timeLeft > 0 ==> r == g.(timeLeft := r.timeLeft) && r.timeLeft + 1 == g.timeLeft
    ensures g.timeLeft == 0 ==> r.timeLeft == 0 && r.gameOver && r.score == g.score
    ensures g.timeLeft == 0 && !g.gameOver ==>
      r == g.(gameOver := true, timersLive := false, storedHigh := r.storedHigh)
      && r.storedHigh == (if g.score > g.highScore then g.score else g.storedHigh)
    ensures g.timeLeft == 0 && g.gameOver ==> r == g
  {
    if g.timeLeft > 0 then g.(timeLeft := g.timeLeft - 1)
    else EndGame(g)
  }

  /** One spawn cycle: a no-op once the round is over; otherwise the previous
      moles and plants are cleared and fresh tiles are claimed, moles first. */
  function SpawnCombined(g: Game, mode: Difficulty, p: PatternRoll, rolls: seq<Tile>): (r: Game)
    requires Determined(mode, p, rolls)
    ensures g.gameOver ==> r == g
    ensures !g.gameOver ==> (|r.moles|, |r.plants|) == PatternCounts(mode, p)
    ensures !g.gameOver ==> Distinct(r.moles) && Distinct(r.plants) && Disjoint(r.moles, r.plants)
    ensures r == g.(moles := r.moles, plants := r.plants)
  {
    if g.gameOver then g
    else
      var (moles, plants) := SpawnPicks(mode, p, rolls).value;
      g.(moles := moles, plants := plants)
  }

  /** One click on tile `t`. A mole scores ten and counts a hit, but the tile
      stays in the mole list; a plant counts a miss and ends the round; any
      other tile, or any click after the round, changes nothing. */
  function SelectTile(g: Game, t: Tile): (r: Game)
    ensures g.gameOver ==> r == g
    ensures !g.gameOver && t in g.moles ==>
      r == g.(score := g.score + 10, hits := g.hits + 1)
    ensures !g.gameOver && t !in g.moles && t in g.plants ==>
      r == g.(misses := g.misses + 1, gameOver := true, timersLive := false, storedHigh := r.storedHigh)
      && r.storedHigh == (if g.score > g.highScore then g.score else g.storedHigh)
    ensures !g.gameOver && t !in g.moles && t !in g.plants ==> r == g
    ensures r.moles == g.moles && r.plants == g.plants
  {
    if g.gameOver then g
    else if t in g.moles then g.(score := g.score + 10, hits := g.hits + 1)
    else if t in g.plants then EndGame(g.(misses := g.misses + 1))
    else g
  }

  /** The sound toggle flips the flag and nothing else. */
  function ToggleSound(g: Game): (r: Game)
    ensures r.sound != g.sound && r.(sound := g.sound) == g
  {
    g.(sound := !g.sound)
  }

  /** The restart button reloads the page; only the stored high score survives. */
  function Restart(g: Game): (r: Game)
    ensures r.storedHigh == r.highScore == g.storedHigh
    ensures r.score == r.hits == r.misses == 0 && !r.gameOver && !r.timersLive && r.startShown
    ensures r.moles == [] && r.plants == []
    ensures r.sound && r.timeLeft == 30
  {
    Load(Some(g.storedHigh))
  }

  /** Accuracy in percent, `Math.round(hits / (hits + misses) * 100)`, or 0
      when there was no interaction: rounding to nearest, halves upward. */
  function Accuracy(hits: nat, misses: nat): (acc: nat)
    ensures acc <= 100
    ensures hits + misses == 0 ==> acc == 0
    ensures hits + misses > 0 ==>
      2 * acc * (hits + misses) <= 200 * hits + (hits + misses) < 2 * (acc + 1) * (hits + misses)
  {
    var n := hits + misses;
    if n == 0 then 0
    else
      var acc := (200 * hits + n) / (2 * n);
      RoundingBounds(200 * hits + n, 2 * n, acc);
      PercentAtMost100(hits, n, acc);
      acc
  }

  /** Euclidean division brackets the dividend. */
  lemma RoundingBounds(a: nat, b: nat, q: nat)
    requires b > 0 && q == a / b
    ensures q * b <= a < (q + 1) * b
  {
  }

  /** A rounded share of at most the whole is at most one hundred percent. */
  lemma PercentAtMost100(hits: nat, n: nat, acc: nat)
    requires 0 < n && hits <= n
    requires acc * (2 * n) <= 200 * hits + n
    ensures acc <= 100
  {
  }

}
