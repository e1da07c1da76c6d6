/**
  internal/node/http_protocol.go, syncRemoteChainFromAtTime: headers are paged from a peer, checked against a
  moving window, compared with the local chain, and the branch they reveal is handed to the replacement as soon
  as it has more work. The peer's replies are arbitrary.
 */
module HeaderSyncs {
  import opened Common
  import opened Encoding
  import opened Transactions
  import opened Headers
  import opened Merkle
  import opened Replay
  import opened Tables
  import opened Locators
  import opened Worlds

  const MAX_HEADERS_PER_SYNC: int := 20_000
  const MAX_SYNC_HEADER_BATCH: int := 128
  const MAX_DIRECT_EXTENSION_BLOCKS: int := 128

  datatype Page = Page(commonHeight: nat, commonHash: Text, headers: seq<Header>)

  datatype SyncResult =
    | Replace(ancestor: nat, candidates: seq<Header>)
    | NothingBetter
    | PeerFault
    | CrossesPrune
    | ExcessWithoutSuffix

  predicate CandidatesOnTime(candidates: seq<Header>, now: int64) {
    forall i | 0 <= i < |candidates| :: NotTooFarAhead(candidates[i].timestamp, now)
  }

  lemma WindowVerdict(c: Crypto, h: Header, hs: seq<Header>)
    requires HeaderChain(c, hs)
    ensures WindowShape(hs) && WindowShape(Window(hs)) && (HeaderRules(c, h, Window(hs)) <==> HeaderRules(c, h, hs))
  {
    hide HeaderRules, HeaderChain, WindowShape, MedianTimePast, NextTimestampAt;
    HeaderChainStep(c, hs, h);
    WindowSuffices(c, h, hs, 0);
  }

  /** The remote chain is the local one through the ancestor, then the candidates, the first of which is not local. */
  ghost predicate Branch(local: seq<Header>, remote: seq<Header>, ancestor: nat, candidates: seq<Header>) {
    && ancestor < |local| && remote == local[..ancestor + 1] + candidates
    && (candidates != [] && ancestor + 1 < |local| ==> local[ancestor + 1].hash != candidates[0].hash)
  }

  lemma LastHeightIs(c: Crypto, hs: seq<Header>)
    requires HeaderChain(c, hs)
    ensures |hs| > 0 && Last(hs).height == |hs| - 1
  {
    hide HeaderRules, GenesisHeader;
  }

  lemma WorkAdds(hs: seq<Header>, h: Header)
    requires |hs| > 0
    ensures ChainWork(hs + [h]) == ChainWork(hs) + Pow2(h.difficulty)
  {
  }

  /** Appending and trimming keeps the last 120 headers. */
  lemma WindowSlides(hs: seq<Header>, h: Header)
    requires |hs| > 0
    ensures var w := Window(hs) + [h];
      Window(hs + [h]) == if |w| > FIRST_ADJUSTMENT then w[|w| - FIRST_ADJUSTMENT..] else w
    ensures Last(hs + [h]) == h
  {
  }

  /** One more valid header: still on the local chain, or one more candidate. */
  lemma BranchGrows(c: Crypto, local: seq<Header>, remote: seq<Header>, ancestor: nat, candidates: seq<Header>,
                    h: Header)
    requires HeaderChain(c, local) && HeaderChain(c, remote) && Branch(local, remote, ancestor, candidates)
    requires WindowShape(remote) && HeaderRules(c, h, remote) && h.height == |remote|
    ensures candidates == [] && h.height < |local| && local[h.height].hash == h.hash ==> Branch(local, remote + [h], h.height, [])
    ensures !(candidates == [] && h.height < |local| && local[h.height].hash == h.hash) ==>
      Branch(local, remote + [h], ancestor, candidates + [h])
  {
    hide HeaderRules, HeaderChain, WindowShape;
    var next := remote + [h];
    HeaderChainStep(c, remote, h);
    if candidates == [] && h.height < |local| && local[h.height].hash == h.hash {
      SameHashSameHistory(c, local, next, h.height, h.height);
      assert next[..h.height + 1] == next;
    } else {
      assert next == local[..ancestor + 1] + (candidates + [h]);
    }
  }

  /** Everything one more valid header means. */
  lemma AcceptGrows(c: Crypto, local: seq<Header>, remote: seq<Header>, ancestor: nat, candidates: seq<Header>,
                    h: Header)
    requires HeaderChain(c, local) && HeaderChain(c, remote) && Branch(local, remote, ancestor, candidates)
    requires WindowShape(remote) && HeaderRules(c, h, remote)
    ensures HeaderChain(c, remote + [h]) && Last(remote + [h]) == h
    ensures ChainWork(remote + [h]) == ChainWork(remote) + Pow2(h.difficulty)
    ensures var w := Window(remote) + [h];
      Window(remote + [h]) == if |w| > FIRST_ADJUSTMENT then w[|w| - FIRST_ADJUSTMENT..] else w
    ensures candidates == [] && h.height < |local| && local[h.height].hash == h.hash ==> Branch(local, remote + [h], h.height, [])
    ensures !(candidates == [] && h.height < |local| && local[h.height].hash == h.hash) ==>
      Branch(local, remote + [h], ancestor, candidates + [h])
  {
    hide HeaderRules, HeaderChain, WindowShape, ChainWork, Branch, Window;
    HeaderChainStep(c, remote, h);
    RulesFixHeight(c, h, remote);
    LastHeightIs(c, remote);
    WorkAdds(remote, h);
    WindowSlides(remote, h);
    BranchGrows(c, local, remote, ancestor, candidates, h);
  }

  lemma LastOfWindow(hs: seq<Header>)
    requires |hs| > 0
    ensures |Window(hs)| > 0 && Last(Window(hs)) == Last(hs)
  {
  }

  lemma PartOfChain(c: Crypto, hs: seq<Header>, n: nat)
    requires 0 < n <= |hs|
    ensures HeaderChain(c, hs) ==> HeaderChain(c, hs[..n])
  {
    hide HeaderChain;
    if HeaderChain(c, hs) {
      HeaderChainPrefix(c, hs, n);
    }
  }

  class HeaderSync {
    const crypto: Crypto
    const local: seq<Header>
    const now: int64
    var effectiveAncestor: nat
    var candidateWork: nat
    var priorHeaders: seq<Header>
    var previous: Header
    var received: nat
    var candidateHeaders: seq<Header>
    var diverged: bool
    /** The chain the peer has shown so far, from genesis. */
    ghost var remote: seq<Header>

    /** Local and remote chain agree through the effective ancestor, and the candidates are what follows. */
    ghost predicate Valid()
      reads this
    {
      && HeaderChain(crypto, local) && HeaderChain(crypto, remote)
      && Branch(local, remote, effectiveAncestor, candidateHeaders) && (diverged <==> candidateHeaders != [])
      && CandidatesOnTime(candidateHeaders, now)
      && candidateWork == ChainWork(remote) && priorHeaders == Window(remote) && previous == Last(remote)
    }

    constructor (crypto: Crypto, local: seq<Header>, now: int64)
      requires |local| > 0
      ensures this.crypto == crypto && this.local == local && this.now == now && received == 0
    {
      this.crypto, this.local, this.now := crypto, local, now;
      effectiveAncestor, candidateWork, priorHeaders, previous := 0, 0, [], local[0];
      received, candidateHeaders, diverged, remote := 0, [], false, [];
    }

    /** The first page names the common block. */
    method Begin(commonHeight: nat, commonHash: Text) returns (ok: bool)
      requires HeaderChain(crypto, local) && received == 0
      modifies this
      ensures ok <==> commonHeight < |local| && local[commonHeight].hash == commonHash
      ensures ok ==> Valid() && received == 0 && candidateHeaders == [] && remote == local[..commonHeight + 1]
    {
      hide HeaderRules, HeaderChain, WindowShape;
      if commonHeight >= |local| || local[commonHeight].hash != commonHash {
        return false;
      }
      remote := local[..commonHeight + 1];
      HeaderChainPrefix(crypto, local, commonHeight + 1);
      effectiveAncestor, diverged, candidateHeaders := commonHeight, false, [];
      candidateWork := ChainWork(local[..commonHeight + 1]);
      priorHeaders := Window(local[..commonHeight + 1]);
      previous := priorHeaders[|priorHeaders| - 1];
      LastOfWindow(remote);
      ok := true;
    }

    /** One header of a page: still shared with the local chain, or one more candidate. */
    method Accept(header: Header) returns (ok: bool)
      requires Valid()
      modifies this
      ensures ok <==> old(WindowShape(remote) && HeaderRules(crypto, header, remote)) && NotTooFarAhead(header.timestamp, now)
      ensures ok ==> Valid() && received == old(received) + 1 && remote == old(remote) + [header]
      ensures ok ==>
        if old(candidateHeaders) == [] && header.height < |local| && local[header.height].hash == header.hash
        then candidateHeaders == [] && effectiveAncestor == header.height
        else candidateHeaders == old(candidateHeaders) + [header] && effectiveAncestor == old(effectiveAncestor)
    {
      hide HeaderRules, HeaderChain, WindowShape, NotTooFarAhead, Window, ChainWork, Branch, Last;
      WindowVerdict(crypto, header, remote);
      if !HeaderRules(crypto, header, priorHeaders) || !NotTooFarAhead(header.timestamp, now) {
        return false;
      }
      AcceptGrows(crypto, local, remote, effectiveAncestor, candidateHeaders, header);
      received := received + 1;
      candidateWork := candidateWork + Pow2(header.difficulty);
      if !diverged && header.height < |local| {
        if local[header.height].hash == header.hash {
          effectiveAncestor := header.height;
        } else {
          diverged, candidateHeaders := true, candidateHeaders + [header];
        }
      } else {
        diverged, candidateHeaders := true, candidateHeaders + [header];
      }
      priorHeaders := priorHeaders + [header];
      if |priorHeaders| > FIRST_ADJUSTMENT {
        priorHeaders := priorHeaders[|priorHeaders| - FIRST_ADJUSTMENT..];
      }
      previous := header;
      remote := remote + [header];
      ok := true;
    }

    lemma ValidChain()
      requires Valid()
      ensures HeaderChain(crypto, remote)
    {
      hide HeaderChain;
    }

    /** The headers of one page, in order. */
    method AcceptPage(headers: seq<Header>) returns (ok: bool)
      requires Valid()
      modifies this
      ensures ok <==> old(HeaderChain(crypto, remote + headers)) && CandidatesOnTime(headers, now)
      ensures ok ==> Valid() && received == old(received) + |headers| && remote == old(remote) + headers
      ensures ok && old(candidateHeaders) != [] ==> effectiveAncestor == old(effectiveAncestor)
      ensures ok ==> |candidateHeaders| <= |old(candidateHeaders)| + |headers|
    {
      hide Valid, NotTooFarAhead, HeaderRules, WindowShape, HeaderChain;
      assert remote + headers[..0] == remote;
      ValidChain();
      for i := 0 to |headers|
        invariant HeaderChain(crypto, remote) && CandidatesOnTime(headers[..i], now)
        invariant Valid() && received == old(received) + i && remote == old(remote) + headers[..i]
        invariant old(candidateHeaders) != [] ==> candidateHeaders != [] && effectiveAncestor == old(effectiveAncestor)
        invariant |candidateHeaders| <= |old(candidateHeaders)| + i
      {
        assert headers[..i + 1] == headers[..i] + [headers[i]];
        HeaderChainStep(crypto, remote, headers[i]);
        ghost var shown, all := remote + [headers[i]], old(remote) + headers;
        var accepted := Accept(headers[i]);
        if !accepted {
          PartOfChain(crypto, all, |shown|);
          assert all[..|shown|] == shown;
          return false;
        }
        ValidChain();
      }
      assert headers[..|headers|] == headers;
      ok := true;
    }
  }

  lemma NoSuffixNoWork(local: seq<Header>, remote: seq<Header>, ancestor: nat)
    requires Branch(local, remote, ancestor, [])
    ensures ChainWork(remote) <= ChainWork(local)
  {
    hide ChainWork;
    assert remote == local[..ancestor + 1];
    MoreHeadersMoreWork(local, ancestor + 1);
  }

  lemma ExtensionHasMoreWork(local: seq<Header>, remote: seq<Header>, candidates: seq<Header>)
    requires |local| > 0 && Branch(local, remote, |local| - 1, candidates) && candidates != []
    ensures ChainWork(remote) > ChainWork(local)
  {
    hide ChainWork;
    assert remote[..|local|] == local;
    MoreHeadersMoreWork(remote, |local|);
  }

  /** A branch worth adopting. */
  ghost predicate BetterBranch(c: Crypto, local: seq<Header>, ancestor: nat, candidates: seq<Header>) {
    && ancestor < |local| && candidates != []
    && HeaderChain(c, local[..ancestor + 1] + candidates)
    && ShareThrough(local, local[..ancestor + 1] + candidates, ancestor)
    && ChainWork(local[..ancestor + 1] + candidates) > ChainWork(local)
  }

  lemma BranchIsBetter(c: Crypto, local: seq<Header>, remote: seq<Header>, ancestor: nat, candidates: seq<Header>)
    requires HeaderChain(c, remote) && Branch(local, remote, ancestor, candidates) && candidates != []
    requires ChainWork(remote) > ChainWork(local)
    ensures BetterBranch(c, local, ancestor, candidates)
  {
    hide HeaderChain, ChainWork;
  }

  /** A direct extension of the tip is taken in pieces. */
  function DirectPart(candidates: seq<Header>, extension: bool): seq<Header> {
    if extension && |candidates| > MAX_DIRECT_EXTENSION_BLOCKS then candidates[..MAX_DIRECT_EXTENSION_BLOCKS] else candidates
  }

  /** Without more work than the local chain, candidates never sit on top of the local tip. */
  lemma NotAnExtension(local: seq<Header>, remote: seq<Header>, ancestor: nat, candidates: seq<Header>)
    requires Branch(local, remote, ancestor, candidates) && (candidates == [] || ChainWork(remote) <= ChainWork(local))
    ensures candidates != [] ==> ancestor != |local| - 1
  {
    hide ChainWork, Branch;
    if candidates != [] && ancestor == |local| - 1 {
      ExtensionHasMoreWork(local, remote, candidates);
    }
  }

  // ---------------------------------------------------------------- what the exchange shows

  function HeadersIn(reply: Option<Page>): seq<Header> {
    if reply.None? then [] else reply.value.headers
  }

  /** The peer's chain as far as `n` pages show it: local through the common block, then the headers of the pages. */
  function Shown(local: seq<Header>, replies: nat -> Option<Page>, n: nat): seq<Header> {
    if n > 0 then Shown(local, replies, n - 1) + HeadersIn(replies(n - 1))
    else if replies(0).Some? && replies(0).value.commonHeight < |local| then local[..replies(0).value.commonHeight + 1]
    else []
  }

  /** The page starts where the last one ended, or at a block of the local chain. */
  predicate Continues(local: seq<Header>, replies: nat -> Option<Page>, n: nat) {
    replies(n).Some? &&
    (var page := replies(n).value;
     if n == 0 then page.commonHeight < |local| && local[page.commonHeight].hash == page.commonHash
     else
       var shown := Shown(local, replies, n);
       |shown| > 0 && page.commonHeight == Last(shown).height && page.commonHash == Last(shown).hash)
  }

  /** A page within the limits, at the right place, and of valid timely headers. */
  ghost predicate GoodPage(c: Crypto, local: seq<Header>, replies: nat -> Option<Page>, now: int64, n: nat) {
    && Continues(local, replies, n)
    && |HeadersIn(replies(n))| <= 128 && 128 * n + |HeadersIn(replies(n))| <= 20_000
    && HeaderChain(c, Shown(local, replies, n + 1)) && CandidatesOnTime(HeadersIn(replies(n)), now)
  }

  /** The chain shown by page `n` and those before has more work than the local one. */
  ghost predicate Heavier(local: seq<Header>, replies: nat -> Option<Page>, n: nat) {
    ChainWork(Shown(local, replies, n + 1)) > ChainWork(local)
  }

  /** The exchange goes on past this page: it is good, full, and does not show more work yet. */
  ghost predicate GoesOn(c: Crypto, local: seq<Header>, replies: nat -> Option<Page>, now: int64, n: nat) {
    GoodPage(c, local, replies, now, n) && |HeadersIn(replies(n))| == 128 && !Heavier(local, replies, n)
  }

  /** The shown chain leaves the local one after height `a`. */
  ghost predicate Leaves(local: seq<Header>, shown: seq<Header>, a: nat) {
    a + 1 < |shown| && Branch(local, shown, a, shown[a + 1..])
  }

  /** A replacement at `a` by what is shown above it, or a refusal when that lies below the horizon. */
  function Adoption(local: seq<Header>, shown: seq<Header>, a: nat, prunedThrough: nat): SyncResult
    requires a < |shown|
  {
    if a < prunedThrough then CrossesPrune else Replace(a, DirectPart(shown[a + 1..], a == |local| - 1))
  }

  /** What the exchange ends with at page `n`, the first that does not let it go on. */
  ghost predicate EndsWith(c: Crypto, local: seq<Header>, prunedThrough: nat, replies: nat -> Option<Page>, now: int64,
                           n: nat, r: SyncResult)
  {
    if !GoodPage(c, local, replies, now, n) then r == PeerFault
    else if !Heavier(local, replies, n) then r == NothingBetter && |HeadersIn(replies(n))| < 128
    else
      var shown := Shown(local, replies, n + 1);
      exists a :: Leaves(local, shown, a) && r == Adoption(local, shown, a, prunedThrough)
  }

  /** The result is what the first page that does not let the exchange go on decides. */
  ghost predicate Outcome(c: Crypto, local: seq<Header>, prunedThrough: nat, replies: nat -> Option<Page>, now: int64,
                          n: nat, r: SyncResult)
  {
    && (forall k: nat | k < n :: GoesOn(c, local, replies, now, k))
    && EndsWith(c, local, prunedThrough, replies, now, n, r)
  }

  lemma PrefixWork(local: seq<Header>, n: nat)
    requires 0 < n <= |local|
    ensures ChainWork(local[..n]) <= ChainWork(local)
  {
    hide ChainWork;
    MoreHeadersMoreWork(local, n);
  }

  lemma EndsFault(c: Crypto, local: seq<Header>, prunedThrough: nat, replies: nat -> Option<Page>, now: int64, n: nat)
    requires (forall k: nat | k < n :: GoesOn(c, local, replies, now, k)) && !GoodPage(c, local, replies, now, n)
    ensures Outcome(c, local, prunedThrough, replies, now, n, PeerFault)
  {
    hide GoesOn, GoodPage;
  }

  lemma EndsNothing(c: Crypto, local: seq<Header>, prunedThrough: nat, replies: nat -> Option<Page>, now: int64, n: nat)
    requires (forall k: nat | k < n :: GoesOn(c, local, replies, now, k)) && GoodPage(c, local, replies, now, n)
    requires !Heavier(local, replies, n) && |HeadersIn(replies(n))| < 128
    ensures Outcome(c, local, prunedThrough, replies, now, n, NothingBetter)
  {
    hide GoesOn, GoodPage, Heavier;
  }

  lemma EndsHeavier(c: Crypto, local: seq<Header>, prunedThrough: nat, replies: nat -> Option<Page>, now: int64, n: nat,
                    a: nat, candidates: seq<Header>)
    requires (forall k: nat | k < n :: GoesOn(c, local, replies, now, k)) && GoodPage(c, local, replies, now, n)
    requires Heavier(local, replies, n) && Branch(local, Shown(local, replies, n + 1), a, candidates)
    requires candidates != []
    ensures Outcome(c, local, prunedThrough, replies, now, n,
                    if a < prunedThrough then CrossesPrune else Replace(a, DirectPart(candidates, a == |local| - 1)))
  {
    hide GoesOn, GoodPage, Heavier, DirectPart;
    var shown := Shown(local, replies, n + 1);
    assert candidates == shown[a + 1..] && Leaves(local, shown, a);
  }

  /** A page read after the chain shown so far; `remote` is that chain. */
  lemma PageRead(c: Crypto, local: seq<Header>, replies: nat -> Option<Page>, now: int64, n: nat, remote: seq<Header>)
    requires Continues(local, replies, n) && remote == Shown(local, replies, n)
    ensures Shown(local, replies, n + 1) == remote + HeadersIn(replies(n))
    ensures GoodPage(c, local, replies, now, n) <==>
      && |HeadersIn(replies(n))| <= 128 && 128 * n + |HeadersIn(replies(n))| <= 20_000
      && HeaderChain(c, remote + HeadersIn(replies(n))) && CandidatesOnTime(HeadersIn(replies(n)), now)
    ensures Heavier(local, replies, n) <==> ChainWork(remote + HeadersIn(replies(n))) > ChainWork(local)
  {
    hide HeaderChain, ChainWork, Continues, CandidatesOnTime;
  }

  lemma FirstPage(local: seq<Header>, replies: nat -> Option<Page>, page: Page)
    requires replies(0) == Some(page)
    ensures Continues(local, replies, 0) <==> page.commonHeight < |local| && local[page.commonHeight].hash == page.commonHash
    ensures page.commonHeight < |local| ==> Shown(local, replies, 0) == local[..page.commonHeight + 1]
  {
  }

  lemma NextPage(c: Crypto, local: seq<Header>, replies: nat -> Option<Page>, n: nat, remote: seq<Header>, page: Page)
    requires n > 0 && replies(n) == Some(page) && remote == Shown(local, replies, n) && HeaderChain(c, remote)
    ensures Continues(local, replies, n) <==> page.commonHeight == Last(remote).height && page.commonHash == Last(remote).hash
  {
    hide HeaderRules, Shown;
  }

  lemma PageFull(c: Crypto, local: seq<Header>, replies: nat -> Option<Page>, now: int64, n: nat)
    requires GoodPage(c, local, replies, now, n) && |HeadersIn(replies(n))| == 128 && !Heavier(local, replies, n)
    ensures GoesOn(c, local, replies, now, n)
  {
    hide GoodPage, Heavier;
  }

  lemma PageRefused(c: Crypto, local: seq<Header>, replies: nat -> Option<Page>, now: int64, n: nat)
    requires
      || replies(n).None? || !Continues(local, replies, n)
      || |HeadersIn(replies(n))| > 128 || 128 * n + |HeadersIn(replies(n))| > 20_000
    ensures !GoodPage(c, local, replies, now, n)
  {
    hide HeaderChain, Shown;
  }

  /** An empty page shows nothing new: the chain shown is valid and no heavier than before. */
  lemma EmptyPage(c: Crypto, local: seq<Header>, replies: nat -> Option<Page>, now: int64, n: nat, remote: seq<Header>)
    requires Continues(local, replies, n) && remote == Shown(local, replies, n) && HeadersIn(replies(n)) == []
    requires 128 * n <= 20_000 && HeaderChain(c, remote) && ChainWork(remote) <= ChainWork(local)
    ensures GoodPage(c, local, replies, now, n) && !Heavier(local, replies, n)
  {
    hide HeaderChain, ChainWork, Continues;
    assert remote + [] == remote;
    PageRead(c, local, replies, now, n, remote);
  }

  /**
    The paging loop up to the replacement. Whatever the peer replies, a replacement is asked for only with a
    better branch above the prune horizon, its ancestor is the highest shared block, the truncation of direct
    extensions never cuts anything, and excess work without a candidate suffix does not happen. The result is
    the one the first decisive page calls for.
   */
  method SyncHeaders(c: Crypto, local: seq<Header>, prunedThrough: nat, replies: nat -> Option<Page>, now: int64)
    returns (r: SyncResult)
    requires HeaderChain(c, local)
    ensures exists n :: Outcome(c, local, prunedThrough, replies, now, n, r)
    ensures !r.ExcessWithoutSuffix?
    ensures r.Replace? ==> BetterBranch(c, local, r.ancestor, r.candidates) && prunedThrough <= r.ancestor
    ensures r.Replace? ==> |r.candidates| <= MAX_HEADERS_PER_SYNC
    ensures r.Replace? && r.ancestor == |local| - 1 ==> |r.candidates| <= MAX_DIRECT_EXTENSION_BLOCKS
    ensures r.Replace? ==> CandidatesOnTime(r.candidates, now)
  {
    hide HeaderChain, ChainWork, HeaderRules, Branch, CandidatesOnTime, BetterBranch, Window, GenesisHeader,
      GoodPage, EndsWith, Heavier, Outcome, GoesOn, Continues, Shown;
    LastHeightIs(c, local);
    var sync := new HeaderSync(c, local, now);
    var localWork := ChainWork(local);
    var page := 0;
    while sync.received < MAX_HEADERS_PER_SYNC
      invariant fresh(sync) && sync.crypto == c && sync.local == local && sync.now == now
      invariant sync.received == 128 * page <= MAX_HEADERS_PER_SYNC
      invariant sync.received > 0 ==> sync.Valid() && sync.candidateWork <= localWork && |sync.candidateHeaders| <= sync.received
      invariant sync.received > 0 ==> sync.remote == Shown(local, replies, page)
      invariant forall k: nat | k < page :: GoesOn(c, local, replies, now, k)
      decreases MAX_HEADERS_PER_SYNC - sync.received
    {
      var reply := replies(page);
      if reply.None? {
        PageRefused(c, local, replies, now, page);
        EndsFault(c, local, prunedThrough, replies, now, page);
        return PeerFault;
      }
      var response := reply.value;
      if |response.headers| > MAX_SYNC_HEADER_BATCH || sync.received + |response.headers| > MAX_HEADERS_PER_SYNC {
        PageRefused(c, local, replies, now, page);
        EndsFault(c, local, prunedThrough, replies, now, page);
        return PeerFault;
      }
      if sync.received == 0 {
        FirstPage(local, replies, response);
        var begun := sync.Begin(response.commonHeight, response.commonHash);
        if !begun {
          PageRefused(c, local, replies, now, page);
          EndsFault(c, local, prunedThrough, replies, now, page);
          return PeerFault;
        }
        PrefixWork(local, response.commonHeight + 1);
      } else {
        sync.ValidChain();
        NextPage(c, local, replies, page, sync.remote, response);
        if response.commonHeight != sync.previous.height || response.commonHash != sync.previous.hash {
          PageRefused(c, local, replies, now, page);
          EndsFault(c, local, prunedThrough, replies, now, page);
          return PeerFault;
        }
      }
      assert Continues(local, replies, page) && sync.remote == Shown(local, replies, page);
      if |response.headers| == 0 {
        sync.ValidChain();
        EmptyPage(c, local, replies, now, page, sync.remote);
        EndsNothing(c, local, prunedThrough, replies, now, page);
        break;
      }
      PageRead(c, local, replies, now, page, sync.remote);
      ghost var before := sync.candidateHeaders;
      NotAnExtension(local, sync.remote, sync.effectiveAncestor, before);
      var accepted := sync.AcceptPage(response.headers);
      if !accepted {
        EndsFault(c, local, prunedThrough, replies, now, page);
        return PeerFault;
      }
      if sync.candidateWork > localWork {
        if |sync.candidateHeaders| == 0 {
          NoSuffixNoWork(local, sync.remote, sync.effectiveAncestor);
          return ExcessWithoutSuffix;
        }
        EndsHeavier(c, local, prunedThrough, replies, now, page, sync.effectiveAncestor, sync.candidateHeaders);
        if sync.effectiveAncestor < prunedThrough {
          return CrossesPrune;
        }
        BranchIsBetter(c, local, sync.remote, sync.effectiveAncestor, sync.candidateHeaders);
        return Replace(sync.effectiveAncestor, DirectPart(sync.candidateHeaders, sync.effectiveAncestor == |local| - 1));
      }
      if |response.headers| < MAX_SYNC_HEADER_BATCH {
        EndsNothing(c, local, prunedThrough, replies, now, page);
        break;
      }
      PageFull(c, local, replies, now, page);
      page := page + 1;
    }
    return NothingBetter;
  }

  // ---------------------------------------------------------------- the replacement that follows

  lemma ReplacedWork(c: Crypto, w: World, ancestor: nat, blocks: seq<Block>)
    requires BetterBranch(c, HeadersOf(w.chain), ancestor, HeadersOf(blocks))
    ensures |blocks| > 0 && ancestor < |w.chain| && ChainWork(HeadersOf(Replaced(w.chain, ancestor, blocks))) > Work(w)
  {
    hide ChainWork, HeaderChain, ShareThrough;
    assert HeadersOf(Replaced(w.chain, ancestor, blocks)) == HeadersOf(w.chain)[..ancestor + 1] + HeadersOf(blocks);
  }

  lemma InstallRefuses(c: Crypto, w: World, chain: seq<Block>, orphaned: seq<Transaction>, seen: int64)
    requires Build(c, chain).Some?
    ensures Install(c, w, chain, orphaned, seen).1 == Committed || Install(c, w, chain, orphaned, seen).1 == Failed(Invalid)
  {
    hide Build;
  }

  /**
    On an unchanged ledger the replacement that follows is never refused for its work or for the horizon: bodies
    matching the candidate headers either commit or are invalid themselves.
   */
  lemma SyncedReplacement(c: Crypto, w: World, ancestor: nat, blocks: seq<Block>, now: int64, seen: int64)
    requires WorldOk(c, w) && BetterBranch(c, HeadersOf(w.chain), ancestor, HeadersOf(blocks)) && w.horizon <= ancestor
    ensures var (w1, r) := ExecReplace(c, w, ancestor, blocks, now, seen);
      if AllOnTime(blocks, now) && Build(c, w.chain[..ancestor + 1] + blocks).Some? && ancestor + 1 + |blocks| <= MAX_INT64
      then r == Committed else r == Failed(Invalid) && w1 == w
  {
    hide WorldOk, Build, ChainWork, AllOnTime, HeaderChain, ShareThrough, OrphanedBy, Install, BetterBranch;
    ReplacedWork(c, w, ancestor, blocks);
    var next := Replaced(w.chain, ancestor, blocks);
    WorldHorizon(c, w);
    if Build(c, next).Some? {
      InstallKeepsWorld(c, w, next, OrphanedBy(w.chain, ancestor), seen);
      InstallFails(c, w, next, OrphanedBy(w.chain, ancestor), seen);
      InstallRefuses(c, w, next, OrphanedBy(w.chain, ancestor), seen);
    }
  }
}
