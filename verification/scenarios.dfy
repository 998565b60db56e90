/** Concrete rounds played through the event model. */
module Scenarios {
  import opened Settings
  import opened Spawner
  import opened Session
  import opened Lifecycle

  /** The medium-level spawn that draws 4 then 2 puts a mole on tile 4 and a plant on tile 2. */
  lemma SpawnFourTwo()
    ensures SpawnPicks(Medium, 0, [4, 2]) == Some(([4], [2]))
  {
    var rolls: seq<Tile> := [4, 2];
    assert PatternCounts(Medium, 0) == (1, 1);
    ClaimFirst([], rolls);
    assert rolls[1..] == [2];
    ClaimFirst([4], [2]);
  }

  /** Claiming one tile when the first roll is free takes that roll. */
  lemma ClaimFirst(used: seq<Tile>, rolls: seq<Tile>)
    requires |rolls| > 0 && rolls[0] !in used
    ensures Claim(used, 1, rolls) == Some(([rolls[0]], rolls[1..]))
  {
    assert FirstUnused(used, rolls) == Some(0);
    assert Claim(used + [rolls[0]], 0, rolls[1..]) == Some(([], rolls[1..]));
    assert [rolls[0]] + [] == [rolls[0]];
  }

  /** A medium round: a mole at tile 4 is hit, then a cycle puts a plant on
      tile 2, and clicking it ends the round at 50% accuracy. */
  lemma MediumRoundEndsOnPlant()
    ensures
      var g := Start(Load(None), Medium);
      && g.timeLeft == 35
      && var g1 := SpawnCombined(g, Medium, 0, [4, 2]);
      && g1.moles == [4] && g1.plants == [2]
      && var g2 := SelectTile(g1, 4);
      && g2.score == 10 && g2.hits == 1 && !g2.gameOver
      && var g3 := SpawnCombined(g2, Medium, 0, [4, 2]);
      && var g4 := SelectTile(g3, 2);
      && g4.gameOver && g4.hits == 1 && g4.misses == 1 && !g4.timersLive
      && Accuracy(g4.hits, g4.misses) == 50
  {
    SpawnFourTwo();
    assert Accuracy(1, 1) == 50 by { DivUnique(202, 4, 50, 2); }
  }

  /** Seven hits and three misses give 70%. */
  lemma SevenOfTen()
    ensures Accuracy(7, 3) == 70
  {
  }

  /** The high score survives a reload and is kept when a later round scores less;
      the same mole tile is clicked repeatedly within one cycle. */
  lemma HighScoreAcrossReloads()
    ensures
      var g := Start(Load(None), Medium);
      var g1 := SpawnCombined(g, Medium, 0, [4, 2]);
      && var g2 := SelectTile(SelectTile(SelectTile(SelectTile(g1, 4), 4), 4), 4);
      && g2.score == 40
      && var g3 := SelectTile(g2, 2);
      && g3.gameOver && g3.storedHigh == 40
      && var g4 := Start(Restart(g3), Medium);
      && g4.highScore == 40
      && var g5 := SpawnCombined(g4, Medium, 0, [4, 2]);
      && var g6 := SelectTile(SelectTile(SelectTile(SelectTile(g5, 4), 4), 4), 2);
      && g6.score == 30 && g6.gameOver && g6.storedHigh == 40
  {
    SpawnFourTwo();
  }
}
