/**
  What header sync finds at an honest peer (internal/node/http_protocol.go). A peer that pages its chain in batches of
  128 from a shared block is followed to the first page that shows more work, and the replacement starts at the highest
  shared block. The limit of 20 000 headers is checked a page at a time: a peer with more than that to show is only
  followed for 156 full pages, and the next one counts as a fault.
 */
module SyncCompleteness {
  import opened Common
  import opened Encoding
  import opened Transactions
  import opened Headers
  import opened Locators
  import opened HeaderSyncs

  /** The page of a chain that follows a header. */
  function PageAt(remote: seq<Header>, from: nat): Page
    requires from < |remote|
  {
    Page(from, remote[from].hash, remote[from + 1..Min(from + 129, |remote|)])
  }

  /** The replies page `remote` from height `s` on, as long as there is something to page. */
  predicate Pages(remote: seq<Header>, s: nat, replies: nat -> Option<Page>, p: nat) {
    s + 128 * p < |remote| ==> replies(p) == Some(PageAt(remote, s + 128 * p))
  }

  /** A peer with a valid timely chain that shares the block at height `s` and pages from there. */
  ghost predicate Honest(c: Crypto, local: seq<Header>, remote: seq<Header>, s: nat, replies: nat -> Option<Page>,
                         now: int64) {
    && HeaderChain(c, local) && HeaderChain(c, remote) && CandidatesOnTime(remote, now)
    && s < |local| && s < |remote| && local[s].hash == remote[s].hash
    && (forall p: nat :: Pages(remote, s, replies, p))
  }

  /** How many headers of the peer are looked at when there are `n` above the shared block. */
  function Visible(n: nat): nat {
    if n <= 20_000 then n else 19_968
  }

  lemma HeadersAt(remote: seq<Header>, s: nat, replies: nat -> Option<Page>, p: nat)
    requires Pages(remote, s, replies, p) && s + 128 * p < |remote|
    ensures HeadersIn(replies(p)) == remote[s + 128 * p + 1..Min(s + 128 * p + 129, |remote|)]
  {
  }

  /** What an honest peer has shown before and after a page. */
  lemma {:induction false} HonestShows(c: Crypto, local: seq<Header>, remote: seq<Header>, s: nat,
                                       replies: nat -> Option<Page>, now: int64, p: nat)
    requires Honest(c, local, remote, s, replies, now) && s + 128 * p < |remote|
    ensures Shown(local, replies, p) == remote[..s + 128 * p + 1]
    ensures Shown(local, replies, p + 1) == remote[..Min(s + 128 * p + 129, |remote|)]
  {
    hide HeaderChain, CandidatesOnTime;
    assert Pages(remote, s, replies, p);
    HeadersAt(remote, s, replies, p);
    if p == 0 {
      SameHashSameHistory(c, local, remote, s, s);
    } else {
      HonestShows(c, local, remote, s, replies, now, p - 1);
    }
  }

  lemma HonestPage(c: Crypto, local: seq<Header>, remote: seq<Header>, s: nat, replies: nat -> Option<Page>, now: int64,
                   p: nat)
    requires Honest(c, local, remote, s, replies, now) && s + 128 * p < |remote|
    ensures |HeadersIn(replies(p))| == Min(128, |remote| - 1 - s - 128 * p)
    ensures GoodPage(c, local, replies, now, p) <==> 128 * p + |HeadersIn(replies(p))| <= 20_000
    ensures Heavier(local, replies, p) <==> ChainWork(remote[..Min(s + 128 * p + 129, |remote|)]) > ChainWork(local)
  {
    hide HeaderRules, ChainWork, WindowShape, GenesisHeader, NotTooFarAhead, Shown;
    HonestShows(c, local, remote, s, replies, now, p);
    assert Pages(remote, s, replies, p);
    HeadersAt(remote, s, replies, p);
    HeaderChainPrefix(c, remote, Min(s + 128 * p + 129, |remote|));
  }

  lemma SharedExists(c: Crypto, local: seq<Header>, remote: seq<Header>, s: nat, replies: nat -> Option<Page>,
                     now: int64)
    requires Honest(c, local, remote, s, replies, now)
    ensures s < |local| && s < |remote| && HeaderChain(c, remote)
  {
  }

  /** Every page an exchange with an honest peer goes on past is full, within the limit, and not heavier. */
  lemma PagesBefore(c: Crypto, local: seq<Header>, remote: seq<Header>, s: nat, replies: nat -> Option<Page>, now: int64,
                    n: nat)
    requires Honest(c, local, remote, s, replies, now) && (forall k: nat | k < n :: GoesOn(c, local, replies, now, k))
    ensures s + 128 * n < |remote| && n <= 156
    ensures n > 0 ==> ChainWork(remote[..s + 128 * n + 1]) <= ChainWork(local)
    decreases n
  {
    hide Honest, GoodPage, Heavier, ChainWork;
    if n == 0 {
      SharedExists(c, local, remote, s, replies, now);
    } else {
      PagesBefore(c, local, remote, s, replies, now, n - 1);
      assert GoesOn(c, local, replies, now, n - 1);
      HonestPage(c, local, remote, s, replies, now, n - 1);
    }
  }

  lemma WorkWithin(remote: seq<Header>, a: nat, b: nat)
    requires 0 < a <= b <= |remote|
    ensures ChainWork(remote[..a]) <= ChainWork(remote[..b])
  {
    hide ChainWork;
    assert remote[..b][..a] == remote[..a];
    MoreHeadersMoreWork(remote[..b], a);
  }

  lemma PrefixElements(local: seq<Header>, remote: seq<Header>, a: nat)
    requires a < |local| && a < |remote| && local[..a + 1] == remote[..a + 1]
    ensures forall i | 0 <= i < a + 1 :: local[i] == remote[i]
  {
    forall i | 0 <= i < a + 1 ensures local[i] == remote[i] {
      assert local[i] == local[..a + 1][i];
    }
  }

  lemma SameAncestor(local: seq<Header>, remote: seq<Header>, shown: seq<Header>, a: nat, b: nat)
    requires ShareThrough(local, remote, a) && shown <= remote && Leaves(local, shown, b)
    ensures a == b
  {
    assert forall i | 0 <= i < b + 1 :: local[i] == shown[i] == remote[i];
    assert forall i | 0 <= i < a + 1 :: local[i] == remote[i] by { PrefixElements(local, remote, a); }
  }

  /** The headers that are looked at have more work than the local chain. */
  ghost predicate Wins(local: seq<Header>, remote: seq<Header>, s: nat)
    requires s < |remote|
  {
    ChainWork(remote[..s + 1 + Visible(|remote| - 1 - s)]) > ChainWork(local)
  }

  lemma WinsMeans(local: seq<Header>, remote: seq<Header>, s: nat)
    requires s < |remote|
    ensures Wins(local, remote, s) <==> ChainWork(remote[..s + 1 + Visible(|remote| - 1 - s)]) > ChainWork(local)
  {
  }

  lemma EndOfPage(remote: seq<Header>, s: nat, n: nat)
    requires s + 128 * n < |remote|
    ensures Min(s + 128 * n + 129, |remote|) == s + 1 + Min(128 * n + 128, |remote| - 1 - s)
    ensures s + 1 <= s + 1 + Min(128 * n + 128, |remote| - 1 - s) <= |remote|
    ensures Min(128, |remote| - 1 - s - 128 * n) <= 128
  {
  }

  lemma PageEnds(n: nat, above: nat)
    requires 128 * n <= above && n <= 156
    ensures Visible(above) <= above
    ensures var headers := Min(128, above - 128 * n);
      if 128 * n + headers <= 20_000 then
        && Min(128 * n + 128, above) <= Visible(above)
        && (headers < 128 ==> above <= 20_000 && Min(128 * n + 128, above) == Visible(above))
      else n > 0 && above > 20_000 && Visible(above) == 128 * n
  {
  }

  /** What the last page decides, in terms of the peer's chain. */
  lemma LastPage(c: Crypto, local: seq<Header>, remote: seq<Header>, s: nat, replies: nat -> Option<Page>, now: int64,
                 n: nat)
    requires Honest(c, local, remote, s, replies, now) && (forall k: nat | k < n :: GoesOn(c, local, replies, now, k))
    ensures s < |remote|
    ensures !GoodPage(c, local, replies, now, n) ==> !Wins(local, remote, s) && |remote| - 1 - s > 20_000
    ensures GoodPage(c, local, replies, now, n) && Heavier(local, replies, n) ==> Wins(local, remote, s)
    ensures GoodPage(c, local, replies, now, n) && !Heavier(local, replies, n) && |HeadersIn(replies(n))| < 128 ==>
      !Wins(local, remote, s) && |remote| - 1 - s <= 20_000
  {
    hide *;
    SharedExists(c, local, remote, s, replies, now);
    PagesBefore(c, local, remote, s, replies, now, n);
    HonestPage(c, local, remote, s, replies, now, n);
    var above := |remote| - 1 - s;
    PageEnds(n, above);
    WinsMeans(local, remote, s);
    EndOfPage(remote, s, n);
    if GoodPage(c, local, replies, now, n) {
      WorkWithin(remote, s + 1 + Min(128 * n + 128, above), s + 1 + Visible(above));
    }
  }

  lemma PartOfRemote(remote: seq<Header>, shown: seq<Header>, a: nat)
    requires shown <= remote && a < |shown|
    ensures DirectPart(shown[a + 1..], true) <= remote[a + 1..] && shown[a + 1..] <= remote[a + 1..]
  {
  }

  /** A replacement asked for starts at the highest shared block and follows the peer's chain. */
  lemma FoundBranch(c: Crypto, local: seq<Header>, remote: seq<Header>, s: nat, replies: nat -> Option<Page>, now: int64,
                    n: nat, a: nat, b: nat, prunedThrough: nat)
    requires Honest(c, local, remote, s, replies, now) && ShareThrough(local, remote, a) && s + 128 * n < |remote|
    requires Leaves(local, Shown(local, replies, n + 1), b)
    ensures var r := Adoption(local, Shown(local, replies, n + 1), b, prunedThrough);
      && a == b && (r.CrossesPrune? <==> a < prunedThrough)
      && (r.Replace? <==> prunedThrough <= a) && (r.Replace? ==> r.ancestor == a && r.candidates <= remote[a + 1..])
  {
    hide Honest, Shown, ShareThrough;
    HonestShows(c, local, remote, s, replies, now, n);
    var shown := Shown(local, replies, n + 1);
    SameAncestor(local, remote, shown, a, b);
    PartOfRemote(remote, shown, a);
  }

  /**
    An exchange with an honest peer asks for the replacement, or refuses it for the horizon, exactly when the headers
    it looks at have more work than the local chain. The replacement starts at the highest shared block and follows the
    peer's chain. It finds nothing better exactly when the whole chain is seen and is not heavier, and calls the peer
    faulty exactly when more than 20 000 headers are there and the first 19 968 are not heavier.
   */
  lemma SyncFinds(c: Crypto, local: seq<Header>, remote: seq<Header>, s: nat, replies: nat -> Option<Page>, now: int64,
                  prunedThrough: nat, n: nat, r: SyncResult, a: nat)
    requires Honest(c, local, remote, s, replies, now) && ShareThrough(local, remote, a)
    requires Outcome(c, local, prunedThrough, replies, now, n, r)
    ensures s < |remote|
    ensures r.Replace? <==> Wins(local, remote, s) && prunedThrough <= a
    ensures r.CrossesPrune? <==> Wins(local, remote, s) && a < prunedThrough
    ensures r.NothingBetter? <==> !Wins(local, remote, s) && |remote| - 1 - s <= 20_000
    ensures r.PeerFault? <==> !Wins(local, remote, s) && |remote| - 1 - s > 20_000
    ensures r.Replace? ==> r.ancestor == a && r.candidates <= remote[a + 1..]
  {
    hide Honest, GoodPage, Heavier, GoesOn, Shown, ShareThrough, Wins, Adoption, Branch;
    LastPage(c, local, remote, s, replies, now, n);
    PagesBefore(c, local, remote, s, replies, now, n);
    if GoodPage(c, local, replies, now, n) && Heavier(local, replies, n) {
      var shown := Shown(local, replies, n + 1);
      var b :| Leaves(local, shown, b) && r == Adoption(local, shown, b, prunedThrough);
      FoundBranch(c, local, remote, s, replies, now, n, a, b, prunedThrough);
    }
  }

  lemma SharedIs(c: Crypto, local: seq<Header>, remote: seq<Header>, s: nat, replies: nat -> Option<Page>, now: int64)
    requires Honest(c, local, remote, s, replies, now)
    ensures s < |local|
  {
  }

  lemma LongerIsHeavier(remote: seq<Header>, a: nat, b: nat)
    requires 0 < a < b <= |remote|
    ensures ChainWork(remote[..a]) < ChainWork(remote[..b])
  {
    hide ChainWork;
    assert remote[..b][..a] == remote[..a];
    MoreHeadersMoreWork(remote[..b], a);
  }

  /** Where the branch leaves the local tip, no page ever shows more than fits one direct extension. */
  lemma ExtensionFits(c: Crypto, local: seq<Header>, remote: seq<Header>, s: nat, replies: nat -> Option<Page>,
                      now: int64, n: nat)
    requires Honest(c, local, remote, s, replies, now) && (forall k: nat | k < n :: GoesOn(c, local, replies, now, k))
    requires |remote| >= |local| && remote[..|local|] == local
    ensures s + 128 * n + 1 <= |local|
  {
    hide Honest, GoesOn, ChainWork;
    SharedIs(c, local, remote, s, replies, now);
    PagesBefore(c, local, remote, s, replies, now, n);
    if n > 0 && s + 128 * n + 1 > |local| {
      LongerIsHeavier(remote, |local|, s + 128 * n + 1);
    }
  }

  lemma Adopted(local: seq<Header>, remote: seq<Header>, shown: seq<Header>, a: nat, prunedThrough: nat)
    requires Leaves(local, shown, a) && shown <= remote
    ensures a < |shown|
    ensures a == |local| - 1 ==> |remote| >= |local| && remote[..|local|] == local
    ensures var r := Adoption(local, shown, a, prunedThrough);
      r.Replace? && (a == |local| - 1 ==> |shown| <= |local| + 128) ==> r.candidates == remote[a + 1..|shown|]
  {
  }

  /**
    What a replacement takes from an honest peer: everything above the highest shared block that was shown, up to the
    end of the first page that brings more work.
   */
  lemma SyncTakes(c: Crypto, local: seq<Header>, remote: seq<Header>, s: nat, replies: nat -> Option<Page>, now: int64,
                  prunedThrough: nat, n: nat, r: SyncResult, a: nat)
    requires Honest(c, local, remote, s, replies, now) && ShareThrough(local, remote, a)
    requires Outcome(c, local, prunedThrough, replies, now, n, r) && r.Replace?
    ensures s + 128 * n < |remote|
    ensures var end := Min(s + 128 * n + 129, |remote|);
      && a < end && r.candidates == remote[a + 1..end] && ChainWork(remote[..end]) > ChainWork(local)
      && (forall k: nat | k < n :: ChainWork(remote[..s + 128 * k + 129]) <= ChainWork(local))
  {
    hide Honest, GoodPage, GoesOn, Shown, ShareThrough, Adoption, Branch, ChainWork;
    PagesBefore(c, local, remote, s, replies, now, n);
    HonestShows(c, local, remote, s, replies, now, n);
    HonestPage(c, local, remote, s, replies, now, n);
    var shown, end := Shown(local, replies, n + 1), Min(s + 128 * n + 129, |remote|);
    var b :| Leaves(local, shown, b) && r == Adoption(local, shown, b, prunedThrough);
    SameAncestor(local, remote, shown, a, b);
    Adopted(local, remote, shown, a, prunedThrough);
    if a == |local| - 1 {
      ExtensionFits(c, local, remote, s, replies, now, n);
    }
    forall k: nat | k < n ensures ChainWork(remote[..s + 128 * k + 129]) <= ChainWork(local) {
      WorkWithin(remote, s + 128 * k + 129, s + 128 * n + 1);
    }
  }

  // ---------------------------------------------------------------- work beyond the limit

  /** Genesis and blocks of one second and this Merkle root. */
  predicate Steady(hs: seq<Header>, root: Text) {
    && |hs| > 0 && hs[0] == GenesisHeader()
    && (forall i | 0 <= i < |hs| :: hs[i].height == i && hs[i].timestamp == GENESIS_TIMESTAMP + i)
    && (forall i | 0 < i < |hs| :: hs[i].merkleRoot == root)
  }

  function NextOn(hs: seq<Header>, root: Text): (h: Header)
    requires |hs| <= 1_000_000 && Steady(hs, root)
    ensures h.height == |hs| && h.timestamp == GENESIS_TIMESTAMP + |hs| && h.merkleRoot == root
    ensures h.difficulty == ExpectedDifficultyAt(hs, |hs|, GENESIS_TIMESTAMP + |hs|)
    ensures h.version == BlockVersion(|hs|) && h.previousHash == Last(hs).hash && h.hash == ComputeHash(h)
  {
    var time: int64 := GENESIS_TIMESTAMP + |hs|;
    var h := Header(BlockVersion(|hs|), |hs|, time, Last(hs).hash, root, ExpectedDifficultyAt(hs, |hs|, time), 0, []);
    h.(hash := ComputeHash(h))
  }

  /** A chain of `n` blocks above genesis, one second apart, all with this Merkle root. */
  function Grown(root: Text, n: nat): (hs: seq<Header>)
    requires n <= 1_000_000
    ensures |hs| == n + 1 && Steady(hs, root)
  {
    if n == 0 then [GenesisHeader()]
    else
      var prior := Grown(root, n - 1);
      prior + [NextOn(prior, root)]
  }

  lemma NextIsValid(c: Crypto, hs: seq<Header>, root: Text)
    requires |hs| <= 1_000_000 && Steady(hs, root) && WindowShape(hs)
    requires DecodeHash(root).Some? && (forall hash :: c.zeroBits(hash) >= 255)
    ensures HeaderRules(c, NextOn(hs, root), hs)
  {
    hide ExpectedDifficultyAt, MedianTimeAt, EncodeHeader;
    MedianIsMember(hs, |hs| - 1);
    var j :| 0 <= j <= |hs| - 1 && hs[j].timestamp == MedianTimeAt(hs, |hs| - 1);
    assert NextOn(hs, root).timestamp > MedianTimePast(hs);
  }

  /** Where every hash has enough leading zeros, such a chain is valid. */
  lemma {:induction false} GrownIsChain(c: Crypto, root: Text, n: nat)
    requires n <= 1_000_000 && DecodeHash(root).Some? && (forall hash :: c.zeroBits(hash) >= 255)
    ensures HeaderChain(c, Grown(root, n))
    decreases n
  {
    hide HeaderRules, ComputeHash, GenesisHeader, ExpectedDifficultyAt, MedianTimeAt;
    if n > 0 {
      var prior := Grown(root, n - 1);
      GrownIsChain(c, root, n - 1);
      HeaderChainStep(c, prior, NextOn(prior, root));
      NextIsValid(c, prior, root);
    }
  }

  /** Same times and difficulties. */
  predicate Alike(a: seq<Header>, b: seq<Header>) {
    && |a| == |b|
    && (forall i | 0 <= i < |a| ::
          a[i].timestamp == b[i].timestamp && a[i].difficulty == b[i].difficulty && a[i].height == b[i].height)
  }

  lemma AlikeMedian(a: seq<Header>, b: seq<Header>, end: nat)
    requires Alike(a, b) && end < |a|
    ensures MedianTimeAt(a, end) == MedianTimeAt(b, end)
  {
    hide Sort;
    var start := if end - MEDIAN_TIME_BLOCKS + 1 < 0 then 0 else end - MEDIAN_TIME_BLOCKS + 1;
    assert Timestamps(a[start..end + 1]) == Timestamps(b[start..end + 1]);
  }

  lemma AlikeDemand(a: seq<Header>, b: seq<Header>, t: int64)
    requires Alike(a, b) && |a| > 0 && (forall i | 0 <= i < |a| :: a[i].height == i)
    ensures WindowShape(a) && WindowShape(b) && Last(a).height == Last(b).height == |a| - 1
    ensures ExpectedDifficultyAt(a, |a|, t) == ExpectedDifficultyAt(b, |a|, t)
  {
    hide MedianTimeAt, AsertDifficulty, ClampDifficulty;
    if |a| > 60 {
      AlikeMedian(a, b, |a| - 1);
      AlikeMedian(a, b, |a| - 61);
    }
  }

  lemma {:induction false} GrownAlike(a: Text, b: Text, n: nat)
    requires n <= 1_000_000
    ensures Alike(Grown(a, n), Grown(b, n))
    decreases n
  {
    hide ExpectedDifficultyAt, ComputeHash, GenesisHeader, BlockVersion;
    if n > 0 {
      GrownAlike(a, b, n - 1);
      AlikeDemand(Grown(a, n - 1), Grown(b, n - 1), GENESIS_TIMESTAMP + n);
    }
  }

  lemma GrownStep(root: Text, n: nat)
    requires 0 < n <= 1_000_000
    ensures Grown(root, n - 1) <= Grown(root, n)
  {
    hide NextOn, Steady;
  }

  lemma {:induction false} GrownPrefix(root: Text, n: nat, m: nat)
    requires m <= n <= 1_000_000
    ensures Grown(root, m) <= Grown(root, n)
    decreases n
  {
    hide *;
    if m < n {
      GrownPrefix(root, n - 1, m);
      GrownStep(root, n);
    }
  }

  lemma {:induction false} AlikeWork(a: seq<Header>, b: seq<Header>)
    requires Alike(a, b)
    ensures ChainWork(a) == ChainWork(b)
    decreases |a|
  {
    if |a| > 1 {
      AlikeWork(a[..|a| - 1], b[..|b| - 1]);
    }
  }

  /** An honest peer with this chain, from genesis on. */
  function HonestReplies(remote: seq<Header>): nat -> Option<Page> {
    (p: nat) => if 128 * p < |remote| then Some(PageAt(remote, 128 * p)) else None
  }

  lemma KindOfResult(c: Crypto, local: seq<Header>, prunedThrough: nat, replies: nat -> Option<Page>, n: nat,
                     r: SyncResult)
    requires Outcome(c, local, prunedThrough, replies, MAX_INT64, n, r)
    ensures !r.ExcessWithoutSuffix?
  {
    hide GoodPage, Heavier, Shown, GoesOn;
  }

  /**
    An honest peer whose chain is longer than 20 000 blocks and outweighs the local one within the first 20 000, but not
    within the first 19 968, is called faulty and never adopted: the local chain and the peer's fork at genesis, have
    the same difficulties, and the local one has between 19 968 and 19 999 blocks.
   */
  lemma HeavierWithinLimitMissed(c: Crypto, m: nat, n: nat, k: nat, prunedThrough: nat, r: SyncResult)
    requires (forall hash :: c.zeroBits(hash) >= 255) && 19_968 <= m < 20_000 < n <= 1_000_000
    requires var local, remote := Grown([Hex(Literal(1))], m), Grown([Hex(Literal(2))], n);
      Outcome(c, local, prunedThrough, HonestReplies(remote), MAX_INT64, k, r)
    ensures var local, remote := Grown([Hex(Literal(1))], m), Grown([Hex(Literal(2))], n);
      && Honest(c, local, remote, 0, HonestReplies(remote), MAX_INT64) && ShareThrough(local, remote, 0)
      && ChainWork(remote[..20_001]) > ChainWork(local) && r.PeerFault?
  {
    hide HeaderChain, Outcome, ChainWork, Grown, Alike, GenesisHeader, Wins;
    var a, b := [Hex(Literal(1))], [Hex(Literal(2))];
    var local, remote := Grown(a, m), Grown(b, n);
    GrownIsChain(c, a, m);
    GrownIsChain(c, b, n);
    GrownAlike(a, b, m);
    GrownPrefix(b, n, m);
    assert remote[..m + 1] == Grown(b, m);
    AlikeWork(local, Grown(b, m));
    assert ChainWork(remote[..m + 1]) == ChainWork(local);
    WorkWithin(remote, 19_969, m + 1);
    LongerIsHeavier(remote, m + 1, 20_001);
    assert Honest(c, local, remote, 0, HonestReplies(remote), MAX_INT64) by {
      forall p: nat ensures Pages(remote, 0, HonestReplies(remote), p) {
      }
    }
    assert local[1].merkleRoot != remote[1].merkleRoot;
    assert local[..1] == [local[0]] && remote[..1] == [remote[0]];
    WinsMeans(local, remote, 0);
    SyncFinds(c, local, remote, 0, HonestReplies(remote), MAX_INT64, prunedThrough, k, r, 0);
    KindOfResult(c, local, prunedThrough, HonestReplies(remote), k, r);
  }
}
