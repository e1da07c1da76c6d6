/** The miner's promise on the ledger as a state machine (internal/ledger/mining.go). */
module MinedBlocks {
  import opened Common
  import opened Encoding
  import opened Transactions
  import opened Headers
  import opened Retarget
  import opened Merkle
  import opened Replay
  import opened Tables
  import opened Horizon
  import opened Mempool
  import opened MiningRules
  import opened Worlds

  /** All that can still stop a mined candidate at its own tip. */
  ghost predicate Acceptable(c: Crypto, w: World, b: Block, now: int64)
    requires Build(c, w.chain).Some? && |w.chain| > 0 && |b.txs| > 0
  {
    && ValidWork(c, b.header) && b.txs[0].id !in TablesOf(c, w).txs
    && NotTooFarAhead(b.header.timestamp, now)
    && MedianTimePast(HeadersOf(w.chain)) < MAX_INT64
    && (Upgraded(|w.chain|) ==> Last(HeadersOf(w.chain)).timestamp < MAX_INT64)
    && |w.chain| < MAX_INT64
  }

  /**
    A candidate built on a world, given a nonce and its hash, is committed at the same tip exactly when it shows
    enough work, its coinbase identifier is new, its timestamp is at most 120 seconds ahead of the validating
    clock, and neither heights nor 64-bit time are at their end.
   */
  lemma MinedCandidateCommits(c: Crypto, w: World, pending: seq<Transaction>, address: Text, draws: (uint64, uint64), built: int64,
                              nonce: uint64, now: int64, seen: int64)
    requires WorldOk(c, w) && TipShape(TablesOf(c, w)) && Unconfirmed(ConfirmedAt(c, w.chain), pending)
    requires CandidateOf(c, TablesOf(c, w), pending, address, draws, built).Some?
    ensures var b := Mined(CandidateOf(c, TablesOf(c, w), pending, address, draws, built).value, nonce);
      && |w.chain| > 0 && |b.txs| > 0
      && (Exec(c, w, Op.CommitMinedBlock(b, |w.chain| - 1, w.chain[|w.chain| - 1].header.hash, now, seen)).1.Committed?
          <==> Acceptable(c, w, b, now))
  {
    hide TipShape, Unconfirmed, CandidateOf, Build, PoolOk, Install, TablesOf, ConfirmedAt, ValidWork, MedianTimePast, NotTooFarAhead,
      Mined, Represents, Connects, Connect, WindowShape, Last, HeadersOf, Upgraded;
    var t := TablesOf(c, w);
    var b := Mined(CandidateOf(c, t, pending, address, draws, built).value, nonce);
    TablesRepresent(c, w);
    ConfirmedIgnoresHorizon(c, w);
    CandidateConnects(c, t, w.chain, w.horizon, pending, address, draws, built, nonce);
    ConnectRepresents(c, t, w.chain, w.horizon, b);
    if Build(c, w.chain + [b]).Some? {
      InstallKeepsWorld(c, w, w.chain + [b], [], seen);
    }
  }

  lemma CandidateStamp(c: Crypto, t: Tables, pending: seq<Transaction>, address: Text, draws: (uint64, uint64),
                       now: int64)
    requires TipShape(t) && CandidateOf(c, t, pending, address, draws, now).Some?
    ensures |HeaderRows(t.blocks)| > 0
    ensures CandidateOf(c, t, pending, address, draws, now).value.header.timestamp
         == NextTimestampAt(Window(HeaderRows(t.blocks)), now)
  {
    hide NextTimestampAt, CandidateBody, ComputeHash, MerkleRoot, ExpectedDifficultyAt;
  }

  /** The rule for the miner's time, on the window of a chain. */
  ghost predicate TimedByRule(hs: seq<Header>, now: int64, t: int64)
    requires |hs| > 0
  {
    if Retarget.Admissible(hs, now) then t == now
    else Retarget.Admissible(hs, t) && (forall other | Retarget.Admissible(hs, other) :: t <= other)
  }

  lemma WindowTime(c: Crypto, hs: seq<Header>, now: int64)
    requires HeaderChain(c, hs) && |hs| > 0 && MedianTimePast(hs) < MAX_INT64
    requires |hs| >= 125_555 ==> hs[|hs| - 1].timestamp < MAX_INT64
    ensures |Window(hs)| > 0 && TimedByRule(hs, now, NextTimestampAt(Window(hs), now))
  {
    hide HeaderChain, HeaderRules, NextTimestampAt, MedianTimePast, Retarget.Admissible;
    ChainHeight(c, hs);
    WindowSuffices(c, GenesisHeader(), hs, now);
    NextTimestampIsLeast(hs, now);
  }

  lemma LastOfChain(chain: seq<Block>)
    requires |chain| > 0
    ensures |HeadersOf(chain)| == |chain| && HeadersOf(chain)[|chain| - 1] == chain[|chain| - 1].header
  {
  }

  /** A candidate is dated by the clock whenever the rules allow that, and otherwise by the least time they allow. */
  lemma CandidateTime(c: Crypto, w: World, pending: seq<Transaction>, address: Text, draws: (uint64, uint64),
                      built: int64)
    requires WorldOk(c, w) && TipShape(TablesOf(c, w)) && |w.chain| > 0
    requires CandidateOf(c, TablesOf(c, w), pending, address, draws, built).Some?
    requires MedianTimePast(HeadersOf(w.chain)) < MAX_INT64
    requires |w.chain| >= 125_555 ==> w.chain[|w.chain| - 1].header.timestamp < MAX_INT64
    ensures TimedByRule(HeadersOf(w.chain), built,
                        CandidateOf(c, TablesOf(c, w), pending, address, draws, built).value.header.timestamp)
  {
    hide *;
    LastOfChain(w.chain);
    WorldHorizon(c, w);
    CandidateStamp(c, TablesOf(c, w), pending, address, draws, built);
    TablesRepresent(c, w);
    RepresentedFacts(c, TablesOf(c, w), w.chain, w.horizon);
    WindowTime(c, HeadersOf(w.chain), built);
  }
}
