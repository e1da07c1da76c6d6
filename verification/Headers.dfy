/**
  internal/core/block.go and the header half of internal/core/chain.go: consensus rules by height,
  difficulty, median time and the verdict on a block header.
 */
module Headers {
  import opened Common
  import opened Encoding
  import opened Transactions

  const CONSENSUS_UPGRADE_HEIGHT: int := 125_555
  const ASERT_ANCHOR_HEIGHT: int := 123_265
  const ASERT_ANCHOR_TIMESTAMP: int := 1_785_201_853
  const ASERT_ANCHOR_DIFFICULTY: int := 35
  const ASERT_HALF_LIFE_SECONDS: int := 600
  const TARGET_BLOCK_SECONDS: int := 10
  const INITIAL_DIFFICULTY: int := 22
  const ADJUSTMENT_BLOCKS: int := 60
  const FIRST_ADJUSTMENT: int := 120
  const MINIMUM_DIFFICULTY: int := 4
  const MAXIMUM_DIFFICULTY: int := 255
  const MEDIAN_TIME_BLOCKS: int := 11
  const MAX_FUTURE_SECONDS: int := 120
  const GENESIS_TIMESTAMP: int := 1_783_983_600

  datatype Header = Header(version: uint32, height: uint64, timestamp: int64, previousHash: Text,
                           merkleRoot: Text, difficulty: uint8, nonce: uint64, hash: Text)

  /** ConsensusRules at a height: integer ASERT and monotonic timestamps hold from the upgrade on. */
  predicate Upgraded(height: nat) {
    height >= CONSENSUS_UPGRADE_HEIGHT
  }

  function BlockVersion(height: nat): uint32 {
    if Upgraded(height) then 2 else 1
  }

  // ---------------------------------------------------------------- hashing

  function EncodeHeaderLinks(h: Header): seq<Atom> {
    EncodeText(h.previousHash) + (EncodeText(h.merkleRoot) + (BigEndian(h.difficulty, 1) + EncodeUint64(h.nonce)))
  }

  function EncodeHeader(h: Header): seq<Atom> {
    EncodeText(NetworkId()) + (EncodeUint32(h.version) + (EncodeUint64(h.height)
    + (EncodeInt64(h.timestamp) + EncodeHeaderLinks(h))))
  }

  function ComputeHash(h: Header): Text {
    HashHex(EncodeHeader(h))
  }

  predicate LinksInMemory(h: Header) {
    Sliceable(Width(h.previousHash)) && Sliceable(Width(h.merkleRoot))
  }

  lemma LinksInjective(a: Header, b: Header)
    requires LinksInMemory(a) && LinksInMemory(b)
    requires EncodeHeaderLinks(a) == EncodeHeaderLinks(b)
    ensures a.previousHash == b.previousHash && a.merkleRoot == b.merkleRoot
    ensures a.difficulty == b.difficulty && a.nonce == b.nonce
  {
    Pow256Values();
    var na, nb := EncodeUint64(a.nonce), EncodeUint64(b.nonce);
    var da, db := BigEndian(a.difficulty, 1) + na, BigEndian(b.difficulty, 1) + nb;
    TextInjective(a.previousHash, b.previousHash, EncodeText(a.merkleRoot) + da, EncodeText(b.merkleRoot) + db);
    TextInjective(a.merkleRoot, b.merkleRoot, da, db);
    NumberInjective(a.difficulty, b.difficulty, 1, na, nb);
    assert na + [] == na && nb + [] == nb;
    NumberInjective(a.nonce, b.nonce, 8, [], []);
  }

  lemma HeaderFieldsInjective(a: Header, b: Header)
    requires EncodeHeader(a) == EncodeHeader(b)
    ensures a.version == b.version && a.height == b.height && a.timestamp == b.timestamp
    ensures EncodeHeaderLinks(a) == EncodeHeaderLinks(b)
  {
    Pow256Values();
    var ta, tb := EncodeInt64(a.timestamp) + EncodeHeaderLinks(a), EncodeInt64(b.timestamp) + EncodeHeaderLinks(b);
    var ha, hb := EncodeUint64(a.height) + ta, EncodeUint64(b.height) + tb;
    assert Width(NetworkId()) == 18;
    TextInjective(NetworkId(), NetworkId(), EncodeUint32(a.version) + ha, EncodeUint32(b.version) + hb);
    NumberInjective(a.version, b.version, 4, ha, hb);
    NumberInjective(a.height, b.height, 8, ta, tb);
    NumberInjective(a.timestamp % 0x1_0000_0000_0000_0000, b.timestamp % 0x1_0000_0000_0000_0000, 8,
                    EncodeHeaderLinks(a), EncodeHeaderLinks(b));
  }

  /** Headers at different heights have different hashes. */
  lemma HashBindsHeight(a: Header, b: Header)
    requires ComputeHash(a) == ComputeHash(b)
    ensures a.height == b.height
  {
    assert HashHex(EncodeHeader(a))[0].digest.preimage == HashHex(EncodeHeader(b))[0].digest.preimage;
    HeaderFieldsInjective(a, b);
  }

  /** A block hash commits to every field of the header. */
  lemma HashBindsHeader(a: Header, b: Header)
    requires LinksInMemory(a) && LinksInMemory(b)
    requires a.hash == ComputeHash(a) && b.hash == ComputeHash(b)
    ensures a.hash == b.hash <==> a == b
  {
    if a.hash == b.hash {
      assert HashHex(EncodeHeader(a))[0].digest.preimage == HashHex(EncodeHeader(b))[0].digest.preimage;
      HeaderFieldsInjective(a, b);
      LinksInjective(a, b);
    }
  }

  function ZeroHash(): Text {
    [Hex(Literal(0))]
  }

  function GenesisHeader(): Header {
    var h := Header(1, 0, GENESIS_TIMESTAMP, ZeroHash(), HashHex([]), 0, 0, []);
    h.(hash := ComputeHash(h))
  }

  // ---------------------------------------------------------------- median time

  function Insert(x: int64, s: seq<int64>): seq<int64> {
    if |s| == 0 || x <= s[0] then [x] + s else [s[0]] + Insert(x, s[1..])
  }

  lemma {:induction false} SortKeepsLength(x: int64, s: seq<int64>)
    ensures |Insert(x, s)| == |s| + 1
  {
    if |s| > 0 && x > s[0] {
      SortKeepsLength(x, s[1..]);
    }
  }

  function Sort(s: seq<int64>): (r: seq<int64>)
    ensures |r| == |s|
  {
    if |s| == 0 then [] else
    SortKeepsLength(s[0], Sort(s[1..]));
    Insert(s[0], Sort(s[1..]))
  }

  predicate Ascending(s: seq<int64>) {
    forall i, j | 0 <= i < j < |s| :: s[i] <= s[j]
  }

  lemma {:induction false} InsertPermutes(x: int64, s: seq<int64>)
    ensures multiset(Insert(x, s)) == multiset(s) + multiset{x}
  {
    if |s| > 0 && x > s[0] {
      InsertPermutes(x, s[1..]);
      assert s == [s[0]] + s[1..];
    }
  }

  lemma InsertedMember(x: int64, s: seq<int64>, y: int64)
    requires y in Insert(x, s)
    ensures y == x || y in s
  {
    InsertPermutes(x, s);
    assert y in multiset(Insert(x, s));
    assert y == x || y in multiset(s);
  }

  lemma {:induction false} InsertAscends(x: int64, s: seq<int64>)
    requires Ascending(s)
    ensures Ascending(Insert(x, s))
  {
    if |s| > 0 && x > s[0] {
      InsertAscends(x, s[1..]);
      var rest := Insert(x, s[1..]);
      forall i | 0 <= i < |rest| ensures s[0] <= rest[i] {
        InsertedMember(x, s[1..], rest[i]);
      }
    }
  }

  /** Sort is a sort: ascending and a permutation. */
  lemma {:induction false} SortSorts(s: seq<int64>)
    ensures Ascending(Sort(s)) && multiset(Sort(s)) == multiset(s)
  {
    if |s| > 0 {
      SortSorts(s[1..]);
      InsertPermutes(s[0], Sort(s[1..]));
      InsertAscends(s[0], Sort(s[1..]));
      assert s == [s[0]] + s[1..];
    }
  }

  function Timestamps(hs: seq<Header>): (r: seq<int64>)
    ensures |r| == |hs|
  {
    seq(|hs|, i requires 0 <= i < |hs| => hs[i].timestamp)
  }

  /** Median of the at most eleven timestamps ending at index `end`. */
  function MedianTimeAt(hs: seq<Header>, end: nat): int64
    requires end < |hs|
  {
    var start := if end - MEDIAN_TIME_BLOCKS + 1 < 0 then 0 else end - MEDIAN_TIME_BLOCKS + 1;
    var sorted := Sort(Timestamps(hs[start..end + 1]));
    sorted[|sorted| / 2]
  }

  function MedianTimePast(hs: seq<Header>): int64
    requires |hs| > 0
  {
    MedianTimeAt(hs, |hs| - 1)
  }

  /** The median is one of the timestamps it was taken from. */
  lemma MedianIsMember(hs: seq<Header>, end: nat)
    requires end < |hs|
    ensures exists i :: 0 <= i <= end && hs[i].timestamp == MedianTimeAt(hs, end)
  {
    var start := if end - MEDIAN_TIME_BLOCKS + 1 < 0 then 0 else end - MEDIAN_TIME_BLOCKS + 1;
    var times := Timestamps(hs[start..end + 1]);
    var sorted := Sort(times);
    SortSorts(times);
    assert sorted[|sorted| / 2] in multiset(sorted);
    assert MedianTimeAt(hs, end) in times;
    var k :| 0 <= k < |times| && times[k] == MedianTimeAt(hs, end);
    assert hs[start + k].timestamp == MedianTimeAt(hs, end);
  }

  // ---------------------------------------------------------------- difficulty

  function ClampDifficulty(difficulty: int): uint8 {
    if difficulty < MINIMUM_DIFFICULTY then MINIMUM_DIFFICULTY
    else if difficulty > MAXIMUM_DIFFICULTY then MAXIMUM_DIFFICULTY
    else difficulty
  }

  /** Consecutive headers that reach back to genesis, or at least FIRST_ADJUSTMENT blocks. */
  predicate WindowShape(hs: seq<Header>) {
    && |hs| > 0
    && (forall i | 0 <= i < |hs| :: hs[i].height == hs[0].height + i)
    && (hs[0].height == 0 || |hs| >= FIRST_ADJUSTMENT)
  }

  function Last(hs: seq<Header>): Header
    requires |hs| > 0
  {
    hs[|hs| - 1]
  }

  /** Seconds between the two medians one adjustment period apart, in 64-bit arithmetic. */
  function AdjustmentElapsed(hs: seq<Header>): int64
    requires |hs| > ADJUSTMENT_BLOCKS
  {
    Wrap64(MedianTimeAt(hs, |hs| - 1) - MedianTimeAt(hs, |hs| - 1 - ADJUSTMENT_BLOCKS))
  }

  function LegacyDifficulty(hs: seq<Header>, nextHeight: nat): uint8
    requires WindowShape(hs) && nextHeight == Last(hs).height + 1
  {
    if nextHeight == 1 then INITIAL_DIFFICULTY
    else
      var previous := Last(hs).difficulty;
      if nextHeight < FIRST_ADJUSTMENT || nextHeight % ADJUSTMENT_BLOCKS != 0 then previous
      else
        var actual := AdjustmentElapsed(hs);
        var target := ADJUSTMENT_BLOCKS * TARGET_BLOCK_SECONDS;
        if actual <= target / 4 then ClampDifficulty(previous + 2)
        else if actual < target / 2 then ClampDifficulty(previous + 1)
        else if actual >= target * 4 then ClampDifficulty(previous - 2)
        else if actual > target * 2 then ClampDifficulty(previous - 1)
        else previous
  }

  /** Integer quotient rounded to nearest, halves away from zero. */
  function RoundedQuotient(numerator: int, denominator: int): int
    requires denominator > 0
  {
    var half := denominator / 2;
    Quo(if numerator < 0 then numerator - half else numerator + half, denominator)
  }

  function AsertDifficulty(nextHeight: nat, nextTimestamp: int64): uint8 {
    var ideal := (nextHeight - ASERT_ANCHOR_HEIGHT) * TARGET_BLOCK_SECONDS;
    var actual := nextTimestamp - ASERT_ANCHOR_TIMESTAMP;
    var correction := RoundedQuotient(ideal - actual, ASERT_HALF_LIFE_SECONDS);
    if correction > MAXIMUM_DIFFICULTY - ASERT_ANCHOR_DIFFICULTY then MAXIMUM_DIFFICULTY
    else if correction < -(ASERT_ANCHOR_DIFFICULTY - MINIMUM_DIFFICULTY) then MINIMUM_DIFFICULTY
    else ASERT_ANCHOR_DIFFICULTY + correction
  }

  function ExpectedDifficultyAt(hs: seq<Header>, nextHeight: nat, nextTimestamp: int64): uint8
    requires WindowShape(hs) && nextHeight == Last(hs).height + 1
  {
    if Upgraded(nextHeight) then AsertDifficulty(nextHeight, nextTimestamp) else LegacyDifficulty(hs, nextHeight)
  }

  /** The ASERT correction is the integer nearest to deviation/600: no other integer is closer. */
  lemma AsertCorrectionIsNearest(deviation: int)
    ensures var q := RoundedQuotient(deviation, ASERT_HALF_LIFE_SECONDS);
      -300 <= deviation - 600 * q <= 300
      && (deviation >= 0 ==> deviation - 600 * q != 300) && (deviation < 0 ==> deviation - 600 * q != -300)
  {
  }

  /** A later timestamp never asks for more work. */
  lemma AsertIsMonotone(height: nat, early: int64, late: int64)
    requires early <= late
    ensures MINIMUM_DIFFICULTY <= AsertDifficulty(height, late) <= AsertDifficulty(height, early) <= MAXIMUM_DIFFICULTY
  {
  }

  // ---------------------------------------------------------------- the verdict

  predicate ValidWork(c: Crypto, h: Header) {
    DecodeHash(h.hash).Some? && c.zeroBits(DecodeHash(h.hash).value) >= h.difficulty
  }

  /** Every header rule that does not depend on the clock. */
  predicate HeaderRules(c: Crypto, h: Header, prior: seq<Header>)
    requires WindowShape(prior)
  {
    && h.version == BlockVersion(h.height)
    && h.height == Last(prior).height + 1
    && h.previousHash == Last(prior).hash
    && h.timestamp > MedianTimePast(prior)
    && (Upgraded(h.height) ==> h.timestamp > Last(prior).timestamp)
    && h.difficulty == ExpectedDifficultyAt(prior, h.height, h.timestamp)
    && DecodeHash(h.merkleRoot).Some?
    && h.hash == ComputeHash(h)
    && ValidWork(c, h)
  }

  predicate NotTooFarAhead(timestamp: int64, now: int64) {
    timestamp <= (if now <= MAX_INT64 - MAX_FUTURE_SECONDS then now + MAX_FUTURE_SECONDS else MAX_INT64)
  }

  /** The timestamp a miner uses: the clock, raised to the least timestamp the rules allow. */
  function NextTimestampAt(hs: seq<Header>, now: int64): int64
    requires |hs| > 0
  {
    var base := Wrap64(MedianTimePast(hs) + 1);
    var minimum := if Upgraded(Last(hs).height + 1) && Last(hs).timestamp >= base
                   then Wrap64(Last(hs).timestamp + 1) else base;
    if now < minimum then minimum else now
  }

  // ---------------------------------------------------------------- the validation window

  /** The headers a ledger hands to validation: the last FIRST_ADJUSTMENT of them. */
  function Window(hs: seq<Header>): (w: seq<Header>)
    ensures |hs| > 0 ==> |w| > 0
  {
    if |hs| > FIRST_ADJUSTMENT then hs[|hs| - FIRST_ADJUSTMENT..] else hs
  }

  lemma WindowHasShape(hs: seq<Header>)
    requires WindowShape(hs)
    ensures WindowShape(Window(hs)) && Last(Window(hs)) == Last(hs)
  {
  }

  lemma MedianInWindow(hs: seq<Header>, back: nat)
    requires |hs| > FIRST_ADJUSTMENT && back <= ADJUSTMENT_BLOCKS
    ensures MedianTimeAt(Window(hs), FIRST_ADJUSTMENT - 1 - back) == MedianTimeAt(hs, |hs| - 1 - back)
  {
    var end := |hs| - 1 - back;
    var e := FIRST_ADJUSTMENT - 1 - back;
    assert Window(hs)[e - 10..e + 1] == hs[end - 10..end + 1];
  }

  lemma DifficultyInWindow(hs: seq<Header>, t: int64)
    requires WindowShape(hs)
    ensures WindowShape(Window(hs)) && Last(Window(hs)) == Last(hs)
    ensures ExpectedDifficultyAt(Window(hs), Last(hs).height + 1, t) == ExpectedDifficultyAt(hs, Last(hs).height + 1, t)
  {
    hide MedianTimeAt, AsertDifficulty;
    WindowHasShape(hs);
    if |hs| > FIRST_ADJUSTMENT {
      MedianInWindow(hs, 0);
      MedianInWindow(hs, ADJUSTMENT_BLOCKS);
    }
  }

  /**
    The window is enough: difficulty, median time, the miner's timestamp and the verdict itself are the
    same on the last 120 headers as on any longer history.
   */
  lemma WindowSuffices(c: Crypto, h: Header, hs: seq<Header>, now: int64)
    requires WindowShape(hs)
    ensures WindowShape(Window(hs))
    ensures MedianTimePast(Window(hs)) == MedianTimePast(hs)
    ensures NextTimestampAt(Window(hs), now) == NextTimestampAt(hs, now)
    ensures HeaderRules(c, h, Window(hs)) <==> HeaderRules(c, h, hs)
  {
    hide MedianTimeAt, ComputeHash, AsertDifficulty, Sort;
    WindowHasShape(hs);
    DifficultyInWindow(hs, h.timestamp);
    if |hs| > FIRST_ADJUSTMENT {
      MedianInWindow(hs, 0);
    }
  }

  // ---------------------------------------------------------------- header chains

  /** A chain of headers from genesis, each obeying the rules against all that come before it. */
  predicate HeaderChain(c: Crypto, hs: seq<Header>) {
    && |hs| > 0 && hs[0] == GenesisHeader()
    && (forall i | 0 <= i < |hs| :: hs[i].height == i)
    && (forall i | 0 < i < |hs| :: WindowShape(hs[..i]) && HeaderRules(c, hs[i], hs[..i]))
  }

  lemma RulesFixHeight(c: Crypto, h: Header, hs: seq<Header>)
    requires WindowShape(hs) && HeaderRules(c, h, hs)
    ensures h.height == Last(hs).height + 1 && h.previousHash == Last(hs).hash && h.hash == ComputeHash(h)
  {
  }

  /** Appending a valid header keeps a chain a chain; nothing else does. */
  lemma HeaderChainStep(c: Crypto, hs: seq<Header>, h: Header)
    requires HeaderChain(c, hs)
    ensures WindowShape(hs)
    ensures HeaderChain(c, hs + [h]) <==> HeaderRules(c, h, hs)
  {
    hide HeaderRules, GenesisHeader;
    var next := hs + [h];
    if HeaderRules(c, h, hs) {
      RulesFixHeight(c, h, hs);
    }
    assert next[..|hs|] == hs;
    assert forall i | 0 < i < |hs| :: next[..i] == hs[..i];
    if HeaderChain(c, next) {
      assert HeaderRules(c, next[|hs|], next[..|hs|]);
    }
  }

  lemma HeaderChainPrefix(c: Crypto, hs: seq<Header>, n: nat)
    requires HeaderChain(c, hs) && 0 < n <= |hs|
    ensures HeaderChain(c, hs[..n])
  {
    hide HeaderRules, GenesisHeader;
    assert forall i | 0 < i < n :: hs[..n][..i] == hs[..i];
  }

  /** Past genesis the difficulty stays within its bounds. */
  lemma {:induction false} DifficultyInRange(c: Crypto, hs: seq<Header>, i: nat)
    requires HeaderChain(c, hs) && 0 < i < |hs|
    ensures MINIMUM_DIFFICULTY <= hs[i].difficulty <= MAXIMUM_DIFFICULTY
  {
    hide ComputeHash, MedianTimeAt, GenesisHeader;
    if i > 1 {
      DifficultyInRange(c, hs, i - 1);
    }
    assert HeaderRules(c, hs[i], hs[..i]);
    assert Last(hs[..i]) == hs[i - 1];
  }

  /** Every block above genesis is dated after one of the blocks before it, the one in the median. */
  lemma LaterThanSome(c: Crypto, hs: seq<Header>, i: nat) returns (j: nat)
    requires HeaderChain(c, hs) && 0 < i < |hs|
    ensures j < i && hs[j].timestamp < hs[i].timestamp
  {
    hide ComputeHash, MedianTimeAt, ExpectedDifficultyAt, GenesisHeader, ValidWork, BlockVersion;
    var prior := hs[..i];
    assert HeaderRules(c, hs[i], prior);
    MedianIsMember(prior, i - 1);
    j :| 0 <= j <= i - 1 && prior[j].timestamp == MedianTimeAt(prior, i - 1);
  }

  lemma StartsAtGenesis(c: Crypto, hs: seq<Header>)
    requires HeaderChain(c, hs) && |hs| > 0
    ensures hs[0].timestamp == GENESIS_TIMESTAMP
  {
    hide HeaderRules;
  }

  /** No block is dated before genesis. */
  lemma {:induction false} NoTimestampBeforeGenesis(c: Crypto, hs: seq<Header>, i: nat)
    requires HeaderChain(c, hs) && i < |hs|
    ensures hs[i].timestamp >= GENESIS_TIMESTAMP
  {
    hide *;
    if i == 0 {
      StartsAtGenesis(c, hs);
    } else {
      var j := LaterThanSome(c, hs, i);
      NoTimestampBeforeGenesis(c, hs, j);
    }
  }

  /** So the legacy retarget never overflows its 64-bit subtraction. */
  lemma LegacyElapsedIsExact(c: Crypto, hs: seq<Header>)
    requires HeaderChain(c, hs) && |hs| > ADJUSTMENT_BLOCKS
    ensures AdjustmentElapsed(hs) == MedianTimeAt(hs, |hs| - 1) - MedianTimeAt(hs, |hs| - 1 - ADJUSTMENT_BLOCKS)
  {
    hide HeaderRules, MedianTimeAt, HeaderChain;
    var a, b := |hs| - 1, |hs| - 1 - ADJUSTMENT_BLOCKS;
    MedianIsMember(hs, a);
    MedianIsMember(hs, b);
    var i :| 0 <= i <= a && hs[i].timestamp == MedianTimeAt(hs, a);
    var j :| 0 <= j <= b && hs[j].timestamp == MedianTimeAt(hs, b);
    NoTimestampBeforeGenesis(c, hs, i);
    NoTimestampBeforeGenesis(c, hs, j);
  }

  /**
    A header mined with the miner's timestamp and the expected difficulty obeys the timestamp rules,
    unless the history already sits at the end of 64-bit time.
   */
  lemma NextTimestampIsValid(hs: seq<Header>, now: int64)
    requires |hs| > 0
    ensures var t := NextTimestampAt(hs, now);
      (t > MedianTimePast(hs) && (Upgraded(Last(hs).height + 1) ==> t > Last(hs).timestamp))
      <==> (MedianTimePast(hs) < MAX_INT64 && (Upgraded(Last(hs).height + 1) ==> Last(hs).timestamp < MAX_INT64))
  {
  }

  /** Proof of work accumulated after the first header of the list. */
  function ChainWork(hs: seq<Header>): nat {
    if |hs| <= 1 then 0 else ChainWork(hs[..|hs| - 1]) + Pow2(hs[|hs| - 1].difficulty)
  }

  method CumulativeWork(hs: seq<Header>) returns (work: nat)
    requires |hs| > 0
    ensures work == ChainWork(hs)
  {
    work := 0;
    for i := 1 to |hs|
      invariant work == ChainWork(hs[..i])
    {
      assert hs[..i + 1][..i] == hs[..i];
      work := work + Pow2(hs[i].difficulty);
    }
    assert hs[..|hs|] == hs;
  }

  /** An extension of a header list has strictly more work. */
  lemma {:induction false} MoreHeadersMoreWork(hs: seq<Header>, n: nat)
    requires 0 < n <= |hs|
    ensures ChainWork(hs[..n]) <= ChainWork(hs)
    ensures n < |hs| ==> ChainWork(hs[..n]) < ChainWork(hs)
  {
    if n < |hs| {
      var front := hs[..|hs| - 1];
      assert front[..n] == hs[..n];
      MoreHeadersMoreWork(front, n);
      Pow2Positive(hs[|hs| - 1].difficulty);
    } else {
      assert hs[..n] == hs;
    }
  }
}
