/**
  What the difficulty and timestamp rules demand, in their own numbers: the legacy retarget every sixty blocks, the
  ASERT schedule after the upgrade, the median of eleven timestamps, and the miner's timestamp (internal/core/block.go).
 */
module Retarget {
  import opened Common
  import opened Transactions
  import opened Headers

  // ---------------------------------------------------------------- the legacy retarget

  /** Seconds between the medians at the two ends of the last sixty blocks. */
  function Elapsed(hs: seq<Header>): int
    requires |hs| > 60
  {
    MedianTimeAt(hs, |hs| - 1) - MedianTimeAt(hs, |hs| - 61)
  }

  /** A chain whose next header opens a legacy epoch: a multiple of sixty, from 120 up to the upgrade. */
  predicate EpochEnds(hs: seq<Header>) {
    120 <= |hs| < 125_555 && |hs| % 60 == 0
  }

  /** The difficulty demanded of the next header, whatever its timestamp, before the upgrade. */
  ghost predicate Demands(c: Crypto, hs: seq<Header>, difficulty: int) {
    && HeaderChain(c, hs) && WindowShape(hs) && Last(hs).height == |hs| - 1
    && (forall t: int64 :: ExpectedDifficultyAt(hs, |hs|, t) == difficulty)
  }

  lemma ChainHeight(c: Crypto, hs: seq<Header>)
    requires HeaderChain(c, hs)
    ensures WindowShape(hs) && Last(hs).height == |hs| - 1
  {
    hide HeaderRules, GenesisHeader;
  }

  lemma EpochDifficulty(c: Crypto, hs: seq<Header>)
    requires HeaderChain(c, hs) && EpochEnds(hs)
    ensures WindowShape(hs) && Last(hs).height == |hs| - 1
    ensures AdjustmentElapsed(hs) == Elapsed(hs) && 4 <= Last(hs).difficulty <= 255
    ensures Demands(c, hs, LegacyDifficulty(hs, |hs|))
  {
    hide HeaderChain, MedianTimeAt;
    ChainHeight(c, hs);
    DifficultyInRange(c, hs, |hs| - 1);
    LegacyElapsedIsExact(c, hs);
  }

  lemma LegacyRule(hs: seq<Header>)
    requires EpochEnds(hs) && WindowShape(hs) && Last(hs).height == |hs| - 1
    requires AdjustmentElapsed(hs) == Elapsed(hs) && 4 <= Last(hs).difficulty <= 255
    ensures var e, previous, difficulty := Elapsed(hs), Last(hs).difficulty, LegacyDifficulty(hs, |hs|);
      && (300 <= e <= 1200 ==> difficulty == previous)
      && (150 < e < 300 ==> difficulty == Min(previous + 1, 255))
      && (e <= 150 ==> difficulty == Min(previous + 2, 255))
      && (1200 < e < 2400 ==> difficulty == Max(previous - 1, 4))
      && (e >= 2400 ==> difficulty == Max(previous - 2, 4))
  {
    hide MedianTimeAt;
  }

  /**
    The retarget in numbers. An epoch of sixty blocks is meant to take 600 seconds. Within half and twice that nothing
    changes; below 300 seconds the demand rises by one and from 150 down by two, above 1200 it falls by one and from
    2400 up by two, always within 4 and 255.
   */
  lemma RetargetRule(c: Crypto, hs: seq<Header>, difficulty: int)
    requires EpochEnds(hs) && Demands(c, hs, difficulty)
    ensures var e, previous := Elapsed(hs), Last(hs).difficulty;
      && (300 <= e <= 1200 ==> difficulty == previous)
      && (150 < e < 300 ==> difficulty == Min(previous + 1, 255))
      && (e <= 150 ==> difficulty == Min(previous + 2, 255))
      && (1200 < e < 2400 ==> difficulty == Max(previous - 1, 4))
      && (e >= 2400 ==> difficulty == Max(previous - 2, 4))
  {
    hide HeaderChain, MedianTimeAt, LegacyDifficulty;
    EpochDifficulty(c, hs);
    assert ExpectedDifficultyAt(hs, |hs|, 0) == difficulty;
    LegacyRule(hs);
  }

  /** Slower epochs never ask for more work, faster ones for more and slower ones for less where there is room. */
  lemma RetargetDirection(c: Crypto, a: seq<Header>, b: seq<Header>, da: int, db: int)
    requires EpochEnds(a) && Demands(c, a, da) && EpochEnds(b) && Demands(c, b, db)
    ensures Last(a).difficulty == Last(b).difficulty && Elapsed(a) <= Elapsed(b) ==> da >= db
    ensures da > Last(a).difficulty <==> Elapsed(a) < 300 && Last(a).difficulty < 255
    ensures da < Last(a).difficulty <==> Elapsed(a) > 1200 && Last(a).difficulty > 4
    ensures -2 <= da - Last(a).difficulty <= 2
  {
    hide HeaderChain, MedianTimeAt, ExpectedDifficultyAt;
    RetargetRule(c, a, da);
    RetargetRule(c, b, db);
    EpochDifficulty(c, a);
    EpochDifficulty(c, b);
  }

  /** Between epochs the demand is what it was; the first block asks for 22. */
  lemma BetweenEpochs(c: Crypto, hs: seq<Header>)
    requires HeaderChain(c, hs) && |hs| < 125_555 && !EpochEnds(hs)
    ensures |hs| > 0 && Demands(c, hs, if |hs| == 1 then 22 else Last(hs).difficulty)
  {
    hide HeaderChain, MedianTimeAt;
    ChainHeight(c, hs);
  }

  // ---------------------------------------------------------------- the ASERT schedule

  /**
    After the upgrade difficulty follows a schedule of ten seconds a block from the anchor block: it is 35 plus the
    number of 600-second steps the chain is ahead of the schedule, rounded to the nearest, within 4 and 255.
   */
  lemma AsertFollowsSchedule(c: Crypto, hs: seq<Header>, t: int64)
    requires HeaderChain(c, hs) && |hs| >= 125_555
    ensures WindowShape(hs) && Last(hs).height == |hs| - 1
    ensures var ahead := 10 * (|hs| - 123_265) - (t - 1_785_201_853);
      var difficulty := ExpectedDifficultyAt(hs, |hs|, t);
      && (4 < difficulty < 255 ==> -300 <= ahead - 600 * (difficulty - 35) <= 300)
      && (difficulty == 4 <==> ahead <= -18_300)
      && (difficulty == 255 <==> ahead >= 131_700)
  {
    hide HeaderChain;
    ChainHeight(c, hs);
  }

  // ---------------------------------------------------------------- timestamps

  function CountBelow(s: seq<int64>, x: int64): nat {
    if |s| == 0 then 0 else CountBelow(s[1..], x) + if s[0] < x then 1 else 0
  }

  function CountAbove(s: seq<int64>, x: int64): nat {
    if |s| == 0 then 0 else CountAbove(s[1..], x) + if s[0] > x then 1 else 0
  }

  lemma {:induction false} InsertCounts(y: int64, s: seq<int64>, x: int64)
    ensures CountBelow(Insert(y, s), x) == CountBelow(s, x) + if y < x then 1 else 0
    ensures CountAbove(Insert(y, s), x) == CountAbove(s, x) + if y > x then 1 else 0
  {
    if |s| == 0 || y <= s[0] {
      assert ([y] + s)[1..] == s;
    } else {
      InsertCounts(y, s[1..], x);
      assert ([s[0]] + Insert(y, s[1..]))[1..] == Insert(y, s[1..]);
    }
  }

  lemma {:induction false} SortCounts(s: seq<int64>, x: int64)
    ensures CountBelow(Sort(s), x) == CountBelow(s, x) && CountAbove(Sort(s), x) == CountAbove(s, x)
  {
    if |s| > 0 {
      SortCounts(s[1..], x);
      InsertCounts(s[0], Sort(s[1..]), x);
    }
  }

  /** In ascending order nothing from a position on is below it, and nothing up to it is above it. */
  lemma {:induction false} AscendingCounts(s: seq<int64>, x: int64, k: nat)
    requires k <= |s|
    ensures (forall i | k <= i < |s| :: s[i] >= x) ==> CountBelow(s, x) <= k
    ensures (forall i | 0 <= i < k :: s[i] <= x) ==> CountAbove(s, x) <= |s| - k
    decreases |s|
  {
    if |s| > 0 {
      AscendingCounts(s[1..], x, if k > 0 then k - 1 else 0);
      assert forall i | 1 <= i < |s| :: s[i] == s[1..][i - 1];
    }
  }

  lemma MiddleOfSorted(window: seq<int64>)
    requires |window| > 0
    ensures var middle := Sort(window)[|window| / 2];
      && middle in window
      && CountBelow(window, middle) <= |window| / 2 && CountAbove(window, middle) <= |window| - 1 - |window| / 2
  {
    hide Sort, Insert, CountBelow, CountAbove;
    var sorted, m := Sort(window), |window| / 2;
    SortSorts(window);
    assert sorted[m] in multiset(sorted);
    SortCounts(window, sorted[m]);
    AscendingCounts(sorted, sorted[m], m);
    AscendingCounts(sorted, sorted[m], m + 1);
  }

  /** The median is in the middle of the last eleven timestamps, or of all while there are fewer. */
  lemma MedianIsMiddle(hs: seq<Header>, end: nat)
    requires end < |hs|
    ensures var window := Timestamps(if end >= 10 then hs[end - 10..end + 1] else hs[..end + 1]);
      var median := MedianTimeAt(hs, end);
      && |window| == Min(end + 1, 11) && median in window
      && CountBelow(window, median) <= |window| / 2 && CountAbove(window, median) <= |window| - 1 - |window| / 2
  {
    hide Sort, CountBelow, CountAbove;
    MiddleOfSorted(Timestamps(if end >= 10 then hs[end - 10..end + 1] else hs[..end + 1]));
  }

  /** A timestamp the rules allow on top of these headers. */
  predicate Admissible(hs: seq<Header>, t: int)
    requires |hs| > 0
  {
    t > MedianTimePast(hs) && (Last(hs).height + 1 >= 125_555 ==> t > Last(hs).timestamp)
  }

  /** The miner takes the clock whenever the rules allow it, and otherwise the least timestamp they allow. */
  lemma NextTimestampIsLeast(hs: seq<Header>, now: int64)
    requires |hs| > 0 && MedianTimePast(hs) < MAX_INT64
    requires Last(hs).height + 1 >= 125_555 ==> Last(hs).timestamp < MAX_INT64
    ensures Admissible(hs, now) ==> NextTimestampAt(hs, now) == now
    ensures !Admissible(hs, now) ==>
      var t := NextTimestampAt(hs, now); Admissible(hs, t) && (forall other | Admissible(hs, other) :: t <= other)
  {
    hide MedianTimePast;
  }
}
