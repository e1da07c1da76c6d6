/**
  internal/ledger/query.go: the block locator, whose heights thin out exponentially toward genesis, and the
  search for the first of its hashes another ledger knows.
 */
module Locators {
  import opened Common
  import opened Encoding
  import opened Transactions
  import opened Headers
  import opened ChainTables

  const MAX_LOCATOR_HASHES: int := 64

  /** The tallest chain whose locator still reaches genesis within 64 hashes. */
  const LOCATOR_REACH: int := 0x40_0000_0000_0008

  /** How far below the tip entry i lies: ten single steps, then steps that double. */
  function Offset(i: nat): nat {
    if i <= 10 then i else 8 + Pow2(i - 9)
  }

  function LocatorHeight(tip: nat, i: nat): nat {
    if Offset(i) >= tip then 0 else tip - Offset(i)
  }

  /** The step the loop holds after entry i. */
  function StepAfter(i: nat): nat {
    if i < 10 then 1 else Pow2(i - 9)
  }

  lemma OffsetGrows(i: nat)
    ensures Offset(i + 1) == Offset(i) + StepAfter(i) && StepAfter(i) >= 1
    ensures StepAfter(i) <= Offset(i) + 1
  {
    Pow2Positive(if i < 9 then 0 else i - 9);
    assert Pow2(1) == 2 && Pow2(2) == 4;
    if i >= 10 {
      assert Pow2(i - 8) == 2 * Pow2(i - 9);
    }
  }

  lemma {:induction false} OffsetIsMonotone(i: nat, j: nat)
    requires i < j
    ensures Offset(i) < Offset(j)
    decreases j - i
  {
    OffsetGrows(j - 1);
    if i < j - 1 {
      OffsetIsMonotone(i, j - 1);
    }
  }

  lemma {:induction false} Pow2Adds(a: nat, b: nat)
    ensures Pow2(a + b) == Pow2(a) * Pow2(b)
  {
    if b > 0 {
      Pow2Adds(a, b - 1);
      assert Pow2(a + b) == 2 * Pow2(a + (b - 1));
    }
  }

  lemma ReachValue()
    ensures Offset(63) == LOCATOR_REACH
  {
    assert Pow2(10) == 1024;
    Pow2Adds(10, 10);
    Pow2Adds(20, 20);
    Pow2Adds(40, 14);
    assert Pow2(14) == 16384;
  }

  /** The height of entry i on a chain. */
  function EntryHeight(hs: seq<Header>, i: nat): nat
    requires |hs| > 0
  {
    LocatorHeight(|hs| - 1, i)
  }

  /** Descending, from the tip, entry by entry. */
  ghost predicate IsLocator(hs: seq<Header>, hashes: seq<Text>, n: nat) {
    && 0 < n <= |hashes| && |hs| > 0
    && (forall i | 0 <= i < n :: EntryHeight(hs, i) < |hs| && hashes[i] == hs[EntryHeight(hs, i)].hash)
    && (forall i | 0 <= i < n - 1 :: EntryHeight(hs, i) > 0)
  }

  /** Heights of a locator fall strictly. */
  lemma LocatorDescends(hs: seq<Header>, hashes: seq<Text>, n: nat, i: nat, j: nat)
    requires IsLocator(hs, hashes, n) && i < j < n
    ensures EntryHeight(hs, i) > EntryHeight(hs, j)
  {
    OffsetIsMonotone(i, j);
  }

  lemma NextHeight(tip: nat, i: nat)
    requires LocatorHeight(tip, i) > 0
    ensures LocatorHeight(tip, i + 1) == if StepAfter(i) > LocatorHeight(tip, i) then 0 else LocatorHeight(tip, i) - StepAfter(i)
  {
  }

  lemma LocatorSnoc(hs: seq<Header>, hashes: seq<Text>, n: nat)
    requires |hs| > 0 && n == |hashes| && EntryHeight(hs, n) < |hs|
    requires n > 0 ==> IsLocator(hs, hashes, n) && EntryHeight(hs, n - 1) > 0
    ensures IsLocator(hs, hashes + [hs[EntryHeight(hs, n)].hash], n + 1)
  {
  }

  lemma LocatorLonger(hs: seq<Header>, hashes: seq<Text>, n: nat)
    requires IsLocator(hs, hashes, n)
    ensures IsLocator(hs, hashes + [hs[0].hash], n)
  {
  }

  lemma FirstEntry(tip: nat)
    ensures LocatorHeight(tip, 0) == tip
  {
  }

  lemma StepDoubles(n: nat)
    requires n > 0
    ensures StepAfter(n - 1) == if n == 1 then 1 else if n > 10 then StepAfter(n - 2) * 2 else StepAfter(n - 2)
  {
  }

  /** The loop ends at genesis, unless the chain is too tall for 64 entries. */
  lemma LastEntry(tip: nat, n: nat)
    requires 0 < n <= 64
    ensures n == 64 ==> (LocatorHeight(tip, n - 1) == 0 <==> tip <= LOCATOR_REACH)
    ensures LocatorHeight(tip, n - 1) == 0 ==> tip <= LOCATOR_REACH
  {
    hide Offset;
    ReachValue();
    if n < 64 {
      OffsetIsMonotone(n - 1, 63);
    }
  }

  lemma ChainFacts(c: Crypto, hs: seq<Header>)
    requires HeaderChain(c, hs)
    ensures |hs| > 0 && hs[0] == GenesisHeader() && (forall i | 0 <= i < |hs| :: hs[i].height == i)
  {
  }

  lemma HashesDiffer(c: Crypto, hs: seq<Header>, i: nat)
    requires HeaderChain(c, hs) && 0 < i < |hs|
    ensures hs[i].hash != hs[0].hash
  {
    hide HeaderRules, ComputeHash, GenesisHeader;
    ChainHash(c, hs, 0);
    ChainHash(c, hs, i);
    if hs[i].hash == hs[0].hash {
      HashBindsHeight(hs[i], hs[0]);
    }
  }

  /**
    BlockLocator. Up to LOCATOR_REACH the locator has at most 64 hashes and ends at genesis; beyond it genesis is
    appended as a sixty-fifth.
   */
  method BlockLocator(ghost c: Crypto, hs: seq<Header>) returns (locator: seq<Text>)
    requires HeaderChain(c, hs)
    ensures IsLocator(hs, locator, Min(|locator|, MAX_LOCATOR_HASHES))
    ensures |hs| - 1 <= LOCATOR_REACH ==> |locator| <= 64 && EntryHeight(hs, |locator| - 1) == 0
    ensures |hs| - 1 > LOCATOR_REACH ==> |locator| == 65 && locator[64] == hs[0].hash
  {
    hide HeaderRules, HeaderChain, Offset, StepAfter, LocatorHeight, Pow2, IsLocator, GenesisHeader;
    ChainFacts(c, hs);
    locator := [];
    ghost var n := 0;
    var tip := |hs| - 1;
    var height := tip;
    var step := 1;
    FirstEntry(tip);
    while true
      invariant n == |locator| < 64 && 0 <= height < |hs| && height == LocatorHeight(tip, n)
      invariant step == if n == 0 then 1 else StepAfter(n - 1)
      invariant n > 0 ==> IsLocator(hs, locator, n) && LocatorHeight(tip, n - 1) > 0
      decreases 64 - n
    {
      LocatorSnoc(hs, locator, n);
      locator := locator + [hs[height].hash];
      n := n + 1;
      if height == 0 || |locator| >= 64 {
        break;
      }
      if |locator| > 10 {
        step := step * 2;
      }
      StepDoubles(n);
      NextHeight(tip, n - 1);
      height := if step > height then 0 else height - step;
    }
    LastEntry(tip, n);
    if height > 0 {
      HashesDiffer(c, hs, height);
    }
    if locator[|locator| - 1] != hs[0].hash {
      LocatorLonger(hs, locator, n);
      locator := locator + [hs[0].hash];
    }
  }

  /** FindLocator: the first hash that is known. */
  method FindLocator(hs: seq<Header>, hashes: seq<Text>) returns (r: Option<(nat, Text)>, ghost at: nat)
    ensures |hashes| == 0 || |hashes| > MAX_LOCATOR_HASHES ==> r.None?
    ensures r.Some? ==>
      && at < |hashes| && r.value.0 < |hs| && hs[r.value.0].hash == r.value.1 == hashes[at]
      && (forall i, h | 0 <= i < at && 0 <= h < |hs| :: hs[h].hash != hashes[i])
    ensures r.None? && 0 < |hashes| <= MAX_LOCATOR_HASHES ==>
      forall i, h | 0 <= i < |hashes| && 0 <= h < |hs| :: hs[h].hash != hashes[i]
  {
    at := 0;
    if |hashes| == 0 || |hashes| > MAX_LOCATOR_HASHES {
      return None, at;
    }
    for i := 0 to |hashes|
      invariant forall j, h | 0 <= j < i && 0 <= h < |hs| :: hs[h].hash != hashes[j]
    {
      if height :| 0 <= height < |hs| && hs[height].hash == hashes[i] {
        return Some((height, hashes[i])), i;
      }
    }
    return None, at;
  }

  // ---------------------------------------------------------------- two chains

  lemma DigestFits(text: Text)
    requires DecodeHash(text).Some?
    ensures Sliceable(Width(text))
  {
  }

  /** Past genesis a header links by full digests, so its hash commits to it. */
  lemma ChainLinks(c: Crypto, hs: seq<Header>, i: nat)
    requires HeaderChain(c, hs) && 0 < i < |hs|
    ensures hs[i].previousHash == hs[i - 1].hash && hs[i].hash == ComputeHash(hs[i]) && LinksInMemory(hs[i])
  {
    hide MedianTimeAt, ExpectedDifficultyAt, EncodeHeader, GenesisHeader;
    assert HeaderRules(c, hs[i], hs[..i]);
    ChainHash(c, hs, i - 1);
    DigestFits(hs[i].merkleRoot);
    DigestFits(hs[i].previousHash);
  }

  /** The same hash anywhere in two chains is at the same height, above the same history. */
  lemma {:induction false} SameHashSameHistory(c: Crypto, a: seq<Header>, b: seq<Header>, i: nat, j: nat)
    requires HeaderChain(c, a) && HeaderChain(c, b) && i < |a| && j < |b| && a[i].hash == b[j].hash
    ensures i == j && a[..i + 1] == b[..i + 1]
  {
    hide HeaderChain, ComputeHash, GenesisHeader;
    ChainFacts(c, a);
    ChainFacts(c, b);
    ChainHash(c, a, i);
    ChainHash(c, b, j);
    HashBindsHeight(a[i], b[j]);
    if i == 0 {
      assert a[..1] == [a[0]] && b[..1] == [b[0]];
    } else {
      ChainLinks(c, a, i);
      ChainLinks(c, b, i);
      HashBindsHeader(a[i], b[i]);
      SameHashSameHistory(c, a, b, i - 1, i - 1);
      assert a[..i + 1] == a[..i] + [a[i]] && b[..i + 1] == b[..i] + [b[i]];
    }
  }

  /** The chains agree through height `common` and no further. */
  ghost predicate ShareThrough(a: seq<Header>, b: seq<Header>, common: nat) {
    && common < |a| && common < |b| && a[..common + 1] == b[..common + 1]
    && (common + 1 < |a| && common + 1 < |b| ==> a[common + 1] != b[common + 1])
  }

  lemma PrefixElement(a: seq<Header>, b: seq<Header>, n: nat, i: nat)
    requires i < n && n <= |a| && n <= |b| && a[..n] == b[..n]
    ensures a[i] == b[i]
  {
  }

  lemma SharedIsBelow(c: Crypto, a: seq<Header>, b: seq<Header>, common: nat, i: nat, j: nat)
    requires HeaderChain(c, a) && HeaderChain(c, b) && ShareThrough(a, b, common) && i < |a| && j < |b|
    requires a[i].hash == b[j].hash
    ensures i == j <= common
  {
    hide HeaderChain;
    SameHashSameHistory(c, a, b, i, j);
    if i > common {
      PrefixElement(a, b, i + 1, common + 1);
    }
  }

  lemma EndsAtGenesis(hs: seq<Header>, hashes: seq<Text>, n: nat)
    requires IsLocator(hs, hashes, n) && EntryHeight(hs, n - 1) == 0
    ensures 0 < n <= |hashes| && |hs| > 0 && hashes[n - 1] == hs[0].hash
  {
  }

  lemma FoundSomething(peer: seq<Header>, hashes: seq<Text>, i: nat, found: bool)
    requires i < |hashes| && |peer| > 0 && peer[0].hash == hashes[i]
    requires !found ==> forall j, h | 0 <= j < |hashes| && 0 <= h < |peer| :: peer[h].hash != hashes[j]
    ensures found
  {
  }

  lemma SharedStarts(a: seq<Header>, b: seq<Header>, common: nat)
    requires ShareThrough(a, b, common)
    ensures common < |a| && common < |b| && a[..common + 1] == b[..common + 1]
  {
  }

  lemma HeightInChain(tip: nat, i: nat)
    ensures LocatorHeight(tip, i) <= tip
  {
  }

  /** An entry that was not found lies above everything shared. */
  lemma NotYetShared(local: seq<Header>, peer: seq<Header>, hashes: seq<Text>, n: nat, at: nat, common: nat)
    requires IsLocator(local, hashes, n) && 0 < at < n && ShareThrough(local, peer, common)
    requires forall i, h | 0 <= i < at && 0 <= h < |peer| :: peer[h].hash != hashes[i]
    ensures EntryHeight(local, at - 1) > common
  {
  }

  lemma CloseEnough(tip: nat, at: nat, common: nat)
    requires at > 0 && common < LocatorHeight(tip, at - 1)
    ensures common - LocatorHeight(tip, at) <= tip - common
  {
  }

  lemma FoundClose(c: Crypto, local: seq<Header>, peer: seq<Header>, common: nat, hashes: seq<Text>, n: nat, at: nat,
                   found: nat)
    requires HeaderChain(c, local) && HeaderChain(c, peer) && ShareThrough(local, peer, common)
    requires IsLocator(local, hashes, n) && at < n && found < |peer| && peer[found].hash == hashes[at]
    requires forall i, h | 0 <= i < at && 0 <= h < |peer| :: peer[h].hash != hashes[i]
    ensures found <= common && common - found <= |local| - 1 - common
  {
    hide HeaderChain, Offset, LocatorHeight;
    HeightInChain(|local| - 1, at);
    SharedIsBelow(c, local, peer, common, EntryHeight(local, at), found);
    if at == 0 {
      FirstEntry(|local| - 1);
    } else {
      NotYetShared(local, peer, hashes, n, at, common);
      CloseEnough(|local| - 1, at, common);
    }
  }

  /**
    Against a peer sharing the chain up to `common`, the locator of a chain not too tall finds a shared height at
    most as far below `common` as `common` is below the tip.
   */
  method LocateOnPeer(ghost c: Crypto, local: seq<Header>, peer: seq<Header>, ghost common: nat)
    returns (r: Option<(nat, Text)>)
    requires HeaderChain(c, local) && HeaderChain(c, peer) && ShareThrough(local, peer, common)
    ensures |local| - 1 <= LOCATOR_REACH <==> r.Some?
    ensures r.Some? ==> r.value.0 <= common && common - r.value.0 <= |local| - 1 - common
  {
    hide HeaderChain, Offset, StepAfter, Pow2, IsLocator, ShareThrough;
    ChainFacts(c, local);
    SharedStarts(local, peer, common);
    ChainFacts(c, peer);
    var locator := BlockLocator(c, local);
    ghost var n := Min(|locator|, MAX_LOCATOR_HASHES);
    ghost var at;
    r, at := FindLocator(peer, locator);
    if |local| - 1 <= LOCATOR_REACH {
      EndsAtGenesis(local, locator, n);
      PrefixElement(local, peer, common + 1, 0);
      FoundSomething(peer, locator, n - 1, r.Some?);
      FoundClose(c, local, peer, common, locator, n, at, r.value.0);
    }
  }
}
