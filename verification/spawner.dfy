/**
 * The tile selection of one spawn cycle: the difficulty-driven mole and
 * plant counts, and the rejection sampling that draws unclaimed tiles.
 *
 * Random draws are explicit: a pattern roll stands for
 * `Math.floor(Math.random() * 3)` and a sequence of tile rolls stands for
 * successive values of `Math.floor(Math.random() * 9)`.
 */
module Spawner {
  import opened Settings

  /** One value of `Math.floor(Math.random() * 3)`. */
  type PatternRoll = p: int | 0 <= p < 3

  /** No tile occurs twice. */
  predicate Distinct(s: seq<Tile>) {
    forall i, j :: 0 <= i < j < |s| ==> s[i] != s[j]
  }

  /** No tile occurs in both sequences. */
  predicate Disjoint(a: seq<Tile>, b: seq<Tile>) {
    forall i, j :: 0 <= i < |a| && 0 <= j < |b| ==> a[i] != b[j]
  }

  /** The (mole, plant) counts one spawn cycle may use on any level. */
  predicate IsSpawnShape(moleCount: nat, plantCount: nat) {
    (moleCount, plantCount) in {(1, 1), (1, 2), (2, 1), (2, 2)}
  }

  /** The mole and plant counts for one cycle: (1,1) except on the hard level,
      where the pattern roll picks (1,2), (2,1) or (2,2). */
  function PatternCounts(mode: Difficulty, p: PatternRoll): (r: (nat, nat))
    ensures mode != Hard ==> r == (1, 1)
    ensures mode == Hard ==> r in {(1, 2), (2, 1), (2, 2)}
    ensures IsSpawnShape(r.0, r.1) && r.0 + r.1 <= 4
  {
    var (moleCount, plantCount) :=
      if mode == Hard then
        if p == 0 then (1, 2) else if p == 1 then (2, 1) else (2, 2)
      else (1, 1);
    (moleCount, plantCount)
  }

  /** Every hard pattern is drawn by some pattern roll, and distinct rolls give distinct patterns. */
  lemma HardPatternsAllReachable()
    ensures exists p: PatternRoll :: PatternCounts(Hard, p) == (1, 2)
    ensures exists p: PatternRoll :: PatternCounts(Hard, p) == (2, 1)
    ensures exists p: PatternRoll :: PatternCounts(Hard, p) == (2, 2)
    ensures forall p: PatternRoll, q: PatternRoll :: PatternCounts(Hard, p) == PatternCounts(Hard, q) ==> p == q
  {
    assert PatternCounts(Hard, 0) == (1, 2);
    assert PatternCounts(Hard, 1) == (2, 1);
    assert PatternCounts(Hard, 2) == (2, 2);
  }

  /** One do-while rejection loop: the position of the first roll that is not
      already used, or None when every supplied roll is already used. */
  function FirstUnused(used: seq<Tile>, rolls: seq<Tile>): (r: Option<nat>)
    ensures r.Some? ==> r.value < |rolls| && rolls[r.value] !in used
    ensures r.Some? ==> forall j :: 0 <= j < r.value ==> rolls[j] in used
    ensures r.None? <==> forall j :: 0 <= j < |rolls| ==> rolls[j] in used
    decreases |rolls|
  {
    if |rolls| == 0 then None
    else if rolls[0] !in used then Some(0)
    else match FirstUnused(used, rolls[1..])
      case None => None
      case Some(k) => Some(k + 1)
  }

  /** `count` successive rejection loops, each excluding the tiles claimed
      before it: the claimed tiles and the rolls left over, or None when the
      supplied rolls run out first. */
  function Claim(used: seq<Tile>, count: nat, rolls: seq<Tile>): (r: Option<(seq<Tile>, seq<Tile>)>)
    ensures r.Some? ==> |r.value.0| == count && Distinct(r.value.0)
    ensures r.Some? ==> forall i :: 0 <= i < |r.value.0| ==> r.value.0[i] !in used && r.value.0[i] in rolls
    ensures r.Some? ==> |r.value.1| <= |rolls| && r.value.1 == rolls[|rolls| - |r.value.1|..]
    decreases count
  {
    if count == 0 then Some(([], rolls))
    else match FirstUnused(used, rolls)
      case None => None
      case Some(k) =>
        var t := rolls[k];
        var next := Claim(used + [t], count - 1, rolls[k + 1..]);
        if next.None? then None
        else
          ClaimStep(used, rolls, k, next.value.0, next.value.1);
          Some(([t] + next.value.0, next.value.1))
  }

  /** Prepending the tile accepted at position `k` to the claims made from the
      rolls after it keeps the claims distinct, unused and among the rolls. */
  lemma ClaimStep(used: seq<Tile>, rolls: seq<Tile>, k: nat, more: seq<Tile>, rest: seq<Tile>)
    requires k < |rolls| && rolls[k] !in used
    requires Distinct(more)
    requires forall i :: 0 <= i < |more| ==> more[i] !in used + [rolls[k]] && more[i] in rolls[k + 1..]
    requires |rest| <= |rolls[k + 1..]| && rest == rolls[k + 1..][|rolls[k + 1..]| - |rest|..]
    ensures Distinct([rolls[k]] + more)
    ensures forall i :: 0 <= i < |[rolls[k]] + more| ==> ([rolls[k]] + more)[i] !in used && ([rolls[k]] + more)[i] in rolls
    ensures |rest| <= |rolls| && rest == rolls[|rolls| - |rest|..]
  {
    var picked := [rolls[k]] + more;
    forall i | 0 <= i < |picked|
      ensures picked[i] !in used && picked[i] in rolls
    {
      if i > 0 {
        assert picked[i] == more[i - 1];
        assert more[i - 1] in rolls[k + 1..];
      }
    }
  }

  /** The tiles one spawn cycle claims: moles first, then plants excluding
      the moles. When the rolls suffice, the two lists are duplicate-free and
      disjoint, and their sizes are the counts of the level and pattern. */
  function SpawnPicks(mode: Difficulty, p: PatternRoll, rolls: seq<Tile>): (r: Option<(seq<Tile>, seq<Tile>)>)
    ensures r.Some? ==> (|r.value.0|, |r.value.1|) == PatternCounts(mode, p)
    ensures r.Some? ==> Distinct(r.value.0) && Distinct(r.value.1) && Disjoint(r.value.0, r.value.1)
    ensures r.Some? ==> |r.value.0| + |r.value.1| <= 4
  {
    var (moleCount, plantCount) := PatternCounts(mode, p);
    match Claim([], moleCount, rolls)
    case None => None
    case Some((moles, rest)) =>
      match Claim(moles, plantCount, rest)
      case None => None
      case Some((plants, _)) => Some((moles, plants))
  }

  /** The supplied rolls are enough for every rejection loop of the cycle to finish. */
  predicate Determined(mode: Difficulty, p: PatternRoll, rolls: seq<Tile>) {
    SpawnPicks(mode, p, rolls).Some?
  }

  /** With at most three tiles claimed, some tile of the board is still free. */
  lemma UnusedTileExists(used: seq<Tile>)
    requires |used| <= 3
    ensures exists t: Tile :: t !in used
  {
    if 0 !in used {
      assert (0 as Tile) !in used;
    } else if 1 !in used {
      assert (1 as Tile) !in used;
    } else if 2 !in used {
      assert (2 as Tile) !in used;
    } else {
      var i0 :| 0 <= i0 < |used| && used[i0] == 0;
      var i1 :| 0 <= i1 < |used| && used[i1] == 1;
      var i2 :| 0 <= i2 < |used| && used[i2] == 2;
      assert |used| == 3;
      assert (3 as Tile) !in used;
    }
  }

  /** Every tile of the board occurs among the rolls. */
  predicate CoversBoard(rolls: seq<Tile>) {
    forall t: Tile :: t in rolls
  }

  /** A run of rolls that shows every tile ends each rejection loop that
      has at most three tiles to avoid, within that run. */
  lemma CoveringRollsFinish(used: seq<Tile>, pre: seq<Tile>, block: seq<Tile>, tail: seq<Tile>)
    requires |used| <= 3 && CoversBoard(block)
    ensures FirstUnused(used, pre + block + tail).Some?
    ensures FirstUnused(used, pre + block + tail).value < |pre| + |block|
  {
    UnusedTileExists(used);
    var t: Tile :| t !in used;
    assert t in block;
    var j :| 0 <= j < |block| && block[j] == t;
    var rolls := pre + block + tail;
    assert rolls[|pre| + j] == t;
  }

  /** The rolls of several blocks, one after another. */
  function Concat(blocks: seq<seq<Tile>>): (r: seq<Tile>) {
    if |blocks| == 0 then [] else blocks[0] + Concat(blocks[1..])
  }

  /** Claims made from one board-covering block of rolls per claim always
      finish, whatever rolls come before the blocks, and leave every roll
      after the blocks unconsumed. */
  lemma {:induction false} ClaimFinishes(used: seq<Tile>, count: nat, pre: seq<Tile>, blocks: seq<seq<Tile>>, tail: seq<Tile>)
    requires |used| + count <= 4 && |blocks| == count
    requires forall i :: 0 <= i < |blocks| ==> CoversBoard(blocks[i])
    ensures Claim(used, count, pre + Concat(blocks) + tail).Some?
    ensures |Claim(used, count, pre + Concat(blocks) + tail).value.1| >= |tail|
    decreases count
  {
    if count > 0 {
      var rolls := pre + Concat(blocks) + tail;
      var tail' := Concat(blocks[1..]) + tail;
      assert rolls == pre + blocks[0] + tail';
      CoveringRollsFinish(used, pre, blocks[0], tail');
      var k := FirstUnused(used, rolls).value;
      var head := pre + blocks[0];
      assert k < |head|;
      var pre' := head[k + 1..];
      assert rolls == head + tail';
      assert rolls[k + 1..] == pre' + tail';
      assert pre' + tail' == pre' + Concat(blocks[1..]) + tail;
      ClaimFinishes(used + [rolls[k]], count - 1, pre', blocks[1..], tail);
      var r := Claim(used + [rolls[k]], count - 1, rolls[k + 1..]);
      assert Claim(used, count, rolls).value.1 == r.value.1;
    }
  }

  /** Rejection sampling always has room: four board-covering blocks of rolls
      finish every spawn cycle on every level. */
  lemma FourSweepsSuffice(mode: Difficulty, p: PatternRoll, blocks: seq<seq<Tile>>)
    requires |blocks| == 4
    requires forall i :: 0 <= i < |blocks| ==> CoversBoard(blocks[i])
    ensures Determined(mode, p, Concat(blocks))
  {
    var counts := PatternCounts(mode, p);
    var mBlocks := blocks[..counts.0];
    var pBlocks := blocks[counts.0..][..counts.1];
    var others := blocks[counts.0..][counts.1..];
    SplitBlocks(blocks, counts.0, counts.1);
    TwoClaimsFinish(counts.0, counts.1, mBlocks, pBlocks, Concat(others));
    DeterminedByClaims(mode, p, Concat(blocks));
  }

  /** Cutting the blocks in three keeps their rolls and their coverage. */
  lemma SplitBlocks(blocks: seq<seq<Tile>>, m: nat, n: nat)
    requires m + n <= |blocks|
    requires forall i :: 0 <= i < |blocks| ==> CoversBoard(blocks[i])
    ensures Concat(blocks) == Concat(blocks[..m]) + Concat(blocks[m..][..n]) + Concat(blocks[m..][n..])
    ensures forall i :: 0 <= i < m ==> CoversBoard(blocks[..m][i])
    ensures forall i :: 0 <= i < n ==> CoversBoard(blocks[m..][..n][i])
  {
    ConcatThree(blocks, m, n);
    forall i | 0 <= i < m
      ensures CoversBoard(blocks[..m][i])
    {
      assert blocks[..m][i] == blocks[i];
    }
    forall i | 0 <= i < n
      ensures CoversBoard(blocks[m..][..n][i])
    {
      assert blocks[m..][..n][i] == blocks[m + i];
    }
  }

  lemma ConcatThree(blocks: seq<seq<Tile>>, m: nat, n: nat)
    requires m + n <= |blocks|
    ensures Concat(blocks) == Concat(blocks[..m]) + Concat(blocks[m..][..n]) + Concat(blocks[m..][n..])
  {
    ConcatSplit(blocks, m);
    ConcatSplit(blocks[m..], n);
    var a, b, c := Concat(blocks[..m]), Concat(blocks[m..][..n]), Concat(blocks[m..][n..]);
    assert Concat(blocks) == a + (b + c);
    assert a + (b + c) == a + b + c;
  }

  /** A cycle is determined once both of its claims finish. */
  lemma DeterminedByClaims(mode: Difficulty, p: PatternRoll, rolls: seq<Tile>)
    requires var first := Claim([], PatternCounts(mode, p).0, rolls);
      first.Some? && Claim(first.value.0, PatternCounts(mode, p).1, first.value.1).Some?
    ensures Determined(mode, p, rolls)
  {
  }

  /** Two successive claims, of `moleCount` and then `plantCount` tiles, finish
      when one board-covering block of rolls is supplied per claimed tile. */
  lemma TwoClaimsFinish(moleCount: nat, plantCount: nat, mBlocks: seq<seq<Tile>>, pBlocks: seq<seq<Tile>>, tail: seq<Tile>)
    requires moleCount + plantCount <= 4 && |mBlocks| == moleCount && |pBlocks| == plantCount
    requires forall i :: 0 <= i < |mBlocks| ==> CoversBoard(mBlocks[i])
    requires forall i :: 0 <= i < |pBlocks| ==> CoversBoard(pBlocks[i])
    ensures var first := Claim([], moleCount, Concat(mBlocks) + Concat(pBlocks) + tail);
      first.Some? && Claim(first.value.0, plantCount, first.value.1).Some?
  {
    var rest := Concat(pBlocks) + tail;
    var rolls := Concat(mBlocks) + rest;
    assert Concat(mBlocks) + Concat(pBlocks) + tail == rolls;
    assert [] + Concat(mBlocks) + rest == rolls;
    ClaimFinishes([], moleCount, [], mBlocks, rest);
    var r := Claim([], moleCount, rolls).value;
    SuffixSplit(rolls, Concat(mBlocks), rest, r.1);
    var pre := r.1[..|r.1| - |rest|];
    assert r.1 == pre + Concat(pBlocks) + tail;
    ClaimFinishes(r.0, plantCount, pre, pBlocks, tail);
  }

  /** A suffix of `a + b` at least as long as `b` is some rolls followed by `b`. */
  lemma SuffixSplit(rolls: seq<Tile>, a: seq<Tile>, b: seq<Tile>, suffix: seq<Tile>)
    requires rolls == a + b
    requires |b| <= |suffix| <= |rolls| && suffix == rolls[|rolls| - |suffix|..]
    ensures suffix == suffix[..|suffix| - |b|] + b
  {
  }

  lemma {:induction false} ConcatSplit(blocks: seq<seq<Tile>>, n: nat)
    requires n <= |blocks|
    ensures Concat(blocks) == Concat(blocks[..n]) + Concat(blocks[n..])
    decreases n
  {
    if n > 0 {
      assert blocks[..n][1..] == blocks[1..][..n - 1];
      assert blocks[n..] == blocks[1..][n - 1..];
      ConcatSplit(blocks[1..], n - 1);
    } else {
      assert blocks[..0] == [];
      assert blocks[0..] == blocks;
    }
  }
}
