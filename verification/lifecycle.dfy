/**
 * The events the page delivers to the game, the invariant every reachable
 * state keeps, and what sequences of events can and cannot do.
 *
 * Timer scheduling is reduced to the `timersLive` flag: a countdown tick or a
 * spawn cycle can only fire while the intervals are scheduled, and the start
 * button can only be pressed while it is shown.
 */
module Lifecycle {
  import opened Settings
  import opened Spawner
  import opened Session

  datatype Event =
    | StartPressed(mode: Difficulty)
    | TickFired
    | SpawnFired(spawnMode: Difficulty, pattern: PatternRoll, rolls: seq<Tile>)
    | TileClicked(tile: Tile)
    | SoundToggled
    | RestartPressed

  /** A spawn event carries enough random draws for its rejection loops to finish. */
  predicate EventOk(e: Event) {
    e.SpawnFired? ==> Determined(e.spawnMode, e.pattern, e.rolls)
  }

  predicate EventsOk(events: seq<Event>) {
    forall i :: 0 <= i < |events| ==> EventOk(events[i])
  }

  /** The effect of one delivered event. Ticks and spawn cycles fire only
      while the intervals are scheduled; the start button works only while it
      is shown, and pressing it is the only way to schedule the intervals. */
  function Step(g: Game, e: Event): (r: Game)
    requires EventOk(e)
    ensures (e.TickFired? || e.SpawnFired?) && !g.timersLive ==> r == g
    ensures e.StartPressed? && !g.startShown ==> r == g
    ensures e.StartPressed? && g.startShown ==> r.timersLive && !r.startShown && r.score == 0
    ensures !g.timersLive && r.timersLive ==> e.StartPressed? && g.startShown
    ensures g.timersLive && !r.timersLive && !e.RestartPressed? ==> r.gameOver && !g.gameOver
  {
    match e
    case StartPressed(mode) => if g.startShown then Start(g, mode) else g
    case TickFired => if g.timersLive then Tick(g) else g
    case SpawnFired(mode, p, rolls) => if g.timersLive then SpawnCombined(g, mode, p, rolls) else g
    case TileClicked(t) => SelectTile(g, t)
    case SoundToggled => ToggleSound(g)
    case RestartPressed => Restart(g)
  }

  /** The effect of a sequence of events, in order. */
  function Run(g: Game, events: seq<Event>): (r: Game)
    requires EventsOk(events)
    decreases |events|
  {
    if |events| == 0 then g else Run(Step(g, events[0]), events[1..])
  }

  /** The current mole and plant tiles are those of one spawn cycle (or none yet). */
  predicate BoardOk(moles: seq<Tile>, plants: seq<Tile>) {
    && Distinct(moles) && Distinct(plants) && Disjoint(moles, plants)
    && (|moles| + |plants| == 0 || IsSpawnShape(|moles|, |plants|))
  }

  /** What holds of every state reachable from a page load. */
  predicate Valid(g: Game) {
    && g.score == 10 * g.hits
    && g.misses <= 1
    && (g.misses == 1 ==> g.gameOver)
    && (g.gameOver ==> !g.timersLive)
    && (g.startShown ==> !g.gameOver && !g.timersLive && g.hits == 0 && g.misses == 0)
    && (g.startShown ==> g.moles == [] && g.plants == [])
    && g.highScore <= g.storedHigh
    && (!g.gameOver ==> g.storedHigh == g.highScore)
    && (g.gameOver ==> g.storedHigh == Max(g.highScore, g.score))
    && BoardOk(g.moles, g.plants)
  }

  /** A page load starts in a valid state. */
  lemma LoadValid(saved: Option<nat>)
    ensures Valid(Load(saved))
  {
  }

  /** Every event keeps the invariant. */
  lemma StepValid(g: Game, e: Event)
    requires Valid(g) && EventOk(e)
    ensures Valid(Step(g, e))
  {
  }

  /** Every sequence of events keeps the invariant; in particular the score is
      always ten times the hits and there is at most one miss per round. */
  lemma {:induction false} RunValid(g: Game, events: seq<Event>)
    requires Valid(g) && EventsOk(events)
    ensures Valid(Run(g, events))
    ensures Run(g, events).score == 10 * Run(g, events).hits
    ensures Run(g, events).misses <= 1
    decreases |events|
  {
    if |events| > 0 {
      StepValid(g, events[0]);
      RunValid(Step(g, events[0]), events[1..]);
    }
  }

  /** No event except a page reload clears the over flag. */
  lemma StepKeepsOver(g: Game, e: Event)
    requires EventOk(e) && !e.RestartPressed?
    ensures g.gameOver ==> Step(g, e).gameOver
  {
  }

  predicate NoRestart(events: seq<Event>) {
    forall i :: 0 <= i < |events| ==> !events[i].RestartPressed?
  }

  /** Once over, a round stays over until the page is reloaded. */
  lemma {:induction false} OverIsSticky(g: Game, events: seq<Event>)
    requires EventsOk(events) && NoRestart(events) && g.gameOver
    ensures Run(g, events).gameOver
    decreases |events|
  {
    if |events| > 0 {
      StepKeepsOver(g, events[0]);
      OverIsSticky(Step(g, events[0]), events[1..]);
    }
  }

  /** After the round is over, every event but the sound toggle and a reload
      leaves the state exactly as it is. */
  lemma StepAfterOver(g: Game, e: Event)
    requires Valid(g) && g.gameOver && EventOk(e)
    requires !e.RestartPressed? && !e.SoundToggled?
    ensures Step(g, e) == g
  {
  }

  /** Over a whole sequence of events without a reload, a finished round only
      ever changes its sound setting. */
  lemma {:induction false} RunAfterOver(g: Game, events: seq<Event>)
    requires Valid(g) && g.gameOver && EventsOk(events) && NoRestart(events)
    ensures Run(g, events) == g.(sound := Run(g, events).sound)
    decreases |events|
  {
    if |events| > 0 {
      var e := events[0];
      var g' := Step(g, e);
      if e.SoundToggled? {
        assert g' == g.(sound := !g.sound);
      } else {
        StepAfterOver(g, e);
      }
      StepValid(g, e);
      RunAfterOver(g', events[1..]);
    }
  }

  /** The stored high score never decreases, across rounds and reloads. */
  lemma {:induction false} HighScoreMonotone(g: Game, events: seq<Event>)
    requires Valid(g) && EventsOk(events)
    ensures Run(g, events).storedHigh >= g.storedHigh
    decreases |events|
  {
    if |events| > 0 {
      StepValid(g, events[0]);
      HighScoreMonotone(Step(g, events[0]), events[1..]);
    }
  }

  /** When a round ends, the stored high score becomes the larger of the old
      high score and the round's score. */
  lemma EndGameRecordsHighScore(g: Game)
    requires Valid(g) && !g.gameOver
    ensures EndGame(g).storedHigh == Max(g.storedHigh, g.score)
  {
  }

  /** Ending a round twice is the same as ending it once. */
  lemma EndGameIdempotent(g: Game)
    ensures EndGame(EndGame(g)) == EndGame(g)
  {
  }

  /** A mole hit leaves the mole in place, so clicking the same tile again
      before the next spawn cycle scores again. */
  lemma RepeatedMoleHit(g: Game, t: Tile)
    requires !g.gameOver && t in g.moles
    ensures SelectTile(SelectTile(g, t), t).score == g.score + 20
    ensures SelectTile(SelectTile(g, t), t).hits == g.hits + 2
    ensures SelectTile(SelectTile(g, t), t).moles == g.moles
  {
  }

  /** `n` countdown ticks. */
  function Ticks(n: nat): (events: seq<Event>)
    ensures |events| == n && EventsOk(events)
    ensures forall i :: 0 <= i < n ==> events[i] == TickFired
  {
    seq(n, i => TickFired)
  }

  /** While time is left, each tick takes off exactly one second: after
      `n <= timeLeft` ticks the round is still running with `n` seconds fewer. */
  lemma {:induction false} CountdownRuns(g: Game, n: nat)
    requires g.timersLive && !g.gameOver && n <= g.timeLeft
    ensures Run(g, Ticks(n)) == g.(timeLeft := g.timeLeft - n)
    decreases n
  {
    if n > 0 {
      var g' := Step(g, TickFired);
      assert g' == g.(timeLeft := g.timeLeft - 1);
      assert Ticks(n)[1..] == Ticks(n - 1);
      CountdownRuns(g', n - 1);
    }
  }

  /** The tick that finds the countdown at zero ends the round: a running
      round with `t` seconds left ends on exactly tick `t + 1`. */
  lemma CountdownEnds(g: Game)
    requires g.timersLive && !g.gameOver
    ensures !Run(g, Ticks(g.timeLeft)).gameOver && Run(g, Ticks(g.timeLeft)).timeLeft == 0
    ensures Run(g, Ticks(g.timeLeft + 1)).gameOver
    ensures Run(g, Ticks(g.timeLeft + 1)).timeLeft == 0
  {
    var t := g.timeLeft;
    CountdownRuns(g, t);
    var g0 := Run(g, Ticks(t));
    RunSplit(g, Ticks(t), [TickFired]);
    assert Ticks(t) + [TickFired] == Ticks(t + 1);
    assert Run(g0, [TickFired]) == Step(g0, TickFired);
  }

  /** Running two sequences of events is running their concatenation. */
  lemma {:induction false} RunSplit(g: Game, a: seq<Event>, b: seq<Event>)
    requires EventsOk(a) && EventsOk(b)
    ensures EventsOk(a + b)
    ensures Run(g, a + b) == Run(Run(g, a), b)
    decreases |a|
  {
    if |a| > 0 {
      assert (a + b)[0] == a[0];
      assert (a + b)[1..] == a[1..] + b;
      RunSplit(Step(g, a[0]), a[1..], b);
    } else {
      assert a + b == b;
    }
  }

  /** In a valid state the accuracy shown at the end of a round is 0 without
      hits, 100 when every interaction was a hit, and at least 50 when the
      round ended on a plant after some hits. */
  lemma AccuracyOfRound(g: Game)
    requires Valid(g)
    ensures g.hits == 0 ==> Accuracy(g.hits, g.misses) == 0
    ensures g.misses == 0 && g.hits > 0 ==> Accuracy(g.hits, g.misses) == 100
    ensures g.misses == 1 && g.hits > 0 ==> 50 <= Accuracy(g.hits, g.misses)
  {
    var h := g.hits;
    var acc := Accuracy(h, g.misses);
    if h == 0 && g.misses == 1 {
      DivUnique(1, 2, 0, 1);
    } else if g.misses == 0 && h > 0 {
      DivUnique(201 * h, 2 * h, 100, h);
    } else if g.misses == 1 && h > 0 {
      if acc < 50 {
        MulMono(2 * (acc + 1), 100, h + 1);
      }
    }
  }

  /** Integer division is determined by quotient and remainder. */
  lemma DivUnique(a: nat, b: nat, q: nat, r: nat)
    requires 0 <= r < b && a == q * b + r
    ensures a / b == q
  {
    var q' := a / b;
    assert a == q' * b + a % b;
    if q' > q {
      MulMono(q + 1, q', b);
    } else if q' < q {
      MulMono(q' + 1, q, b);
    }
  }

  /** A miss does not always lower the accuracy shown: 199 hits and one miss
      round up to 100. */
  lemma AccuracyRoundsUpToFull()
    ensures Accuracy(199, 1) == 100
  {
  }

  lemma MulMono(a: nat, b: nat, c: nat)
    requires a <= b
    ensures a * c <= b * c
  {
  }
}
