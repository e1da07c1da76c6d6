/** internal/ledger/mining.go, buildMiningCandidateAtTime: the candidate block as one operation. */
module Candidate {
  import opened Common
  import opened Encoding
  import opened Amounts
  import opened Transactions
  import opened Headers
  import opened Merkle
  import opened Replay
  import opened Tables
  import opened Horizon
  import opened Mempool
  import opened ChainState
  import opened Priority
  import opened MiningOrder
  import opened Mining
  import opened MiningRules
  import opened MiningChoice

  /** The order in which the miner considers the pool. */
  ghost predicate MiningOrderOf(pool: Pool, order: seq<nat>, pending: seq<Transaction>) {
    && (forall i | 0 <= i < |pool.rows| :: pool.rows[i].size <= MAX_TRANSACTION_BYTES)
    && Greedy(MiningItems(pool.rows), order) && |order| == |pool.rows| && OrderInRange(MiningItems(pool.rows), order)
    && pending == Picked(MiningItems(pool.rows), order)
  }

  lemma OrderServes(c: Crypto, k: Confirmed, pool: Pool, order: seq<nat>, pending: seq<Transaction>)
    requires PoolOk(c, k, pool) && ConfirmedOk(c, k) && MiningOrderOf(pool, order, pending)
    ensures Topological(pool, pending) && Unconfirmed(k, pending)
  {
    hide PoolOk, ConfirmedOk, Topological, Unconfirmed, Greedy;
    GreedyOrderServes(c, k, pool, MiningItems(pool.rows), order);
  }

  /** The priority order of a reachable pool: it exists, whatever the pool holds. */
  method OrderPool(c: Crypto, ghost k: Confirmed, pool: Pool) returns (pending: seq<Transaction>, ghost order: seq<nat>)
    requires PoolOk(c, k, pool) && ConfirmedOk(c, k)
    ensures MiningOrderOf(pool, order, pending)
  {
    hide PoolOk, ConfirmedOk, Cycle, Greedy, MetadataOk;
    ReachablePoolIsAcyclic(c, k, pool);
    var ordered;
    ordered, order := Prioritize(MiningItems(pool.rows));
    pending := ordered.value;
  }

  lemma UnconfirmedDistinct(k: Confirmed, pending: seq<Transaction>)
    requires Unconfirmed(k, pending)
    ensures DistinctIds(pending)
  {
  }

  /**
    The candidate exists for every valid address until heights run out; it is built from the pool in priority
    order on top of the tip.
   */
  method BuildCandidate(c: Crypto, t: Tables, ghost chain: seq<Block>, ghost horizon: nat, pool: Pool, address: Text,
                        draws: (uint64, uint64), now: int64)
    returns (r: Option<Block>, ghost order: seq<nat>, ghost pending: seq<Transaction>)
    requires Represents(c, t, chain, horizon) && PoolOk(c, ConfirmedOf(t), pool)
    ensures TipShape(t) && MiningOrderOf(pool, order, pending)
    ensures r == CandidateOf(c, t, pending, address, draws, now)
    ensures r.Some? <==> ValidAddress(c, address) && |chain| <= MAX_INT64
  {
    hide Represents, PoolOk, ConfirmedOk, TipShape, MiningOrderOf, Unconfirmed, DistinctIds, SelectAll, StartSelection, ValidAddress,
      Subsidy, SelectionOk, SizeOk, WindowShape, HeaderRules, CandidateHeader, CandidateBody;
    RepresentedTipShape(c, t, chain, horizon);
    RepresentedConfirmed(c, t, chain, horizon);
    SupplyOnly(c, t, chain, horizon);
    TipHeight(t);
    var list;
    list, order := OrderPool(c, ConfirmedOf(t), pool);
    pending := list;
    OrderServes(c, ConfirmedOf(t), pool, order, list);
    if !ValidAddress(c, address) || Tip(t).header.height >= MAX_INT64 {
      return None, order, pending;
    }
    UnconfirmedDistinct(ConfirmedOf(t), list);
    SelectionEnds(c, t, chain, horizon, |t.blocks|, list, address, draws.0);
    var selection := Select(c, ConfirmedOf(t), address, draws.0, list);
    var reward := Reward(selection.value, |t.blocks|);
    var body := CandidateBody(selection.value, address, draws.1, reward.value);
    r := Some(Block(CandidateHeader(Window(HeaderRows(t.blocks)), body, now), body));
  }

  lemma StartIsSelecting(c: Crypto, k: Confirmed, address: Text, nonce: uint64, pending: seq<Transaction>)
    requires ValidAddress(c, address)
    ensures Selecting(c, k, StartSelection(address, nonce), pending, 0)
  {
    hide SelectionOk, SizeOk, EncodedSize, ValidAddress, NewCoinbase;
    StartIsOk(c, k, address, nonce);
  }

  /** A candidate leaves out nothing it could hold. */
  lemma CandidateHoldsAllItCan(c: Crypto, t: Tables, chain: seq<Block>, horizon: nat, pool: Pool, order: seq<nat>,
                               pending: seq<Transaction>, address: Text, nonce: uint64, m: nat)
    requires Represents(c, t, chain, horizon) && PoolOk(c, ConfirmedOf(t), pool) && ValidAddress(c, address)
    requires MiningOrderOf(pool, order, pending) && m < |pending|
    ensures var s := SelectAll(c, ConfirmedOf(t), StartSelection(address, nonce), pending);
      s.Some? && Justified(pool, s.value, pending[m])
  {
    hide Represents, PoolOk, ConfirmedOk, MiningOrderOf, Topological, Unconfirmed, SelectAll, StartSelection,
      Justified, Selecting, SelectionOk, SizeOk, ValidAddress, Subsidy;
    var k := ConfirmedOf(t);
    RepresentedConfirmed(c, t, chain, horizon);
    SupplyOnly(c, t, chain, horizon);
    OrderServes(c, k, pool, order, pending);
    var s := StartSelection(address, nonce);
    StartIsSelecting(c, k, address, nonce, pending);
    assert pending[0..] == pending;
    CandidateIsMaximal(c, k, pool, s, pending, 0, m);
  }

  // ---------------------------------------------------------------- the one refusal left

  lemma FirstRewards()
    ensures Subsidy(1) == Subsidy(2)
  {
  }

  lemma MinedBody(b: Block, nonce: uint64)
    ensures Mined(b, nonce).txs == b.txs
  {
  }

  lemma FirstCoinbaseKnown(c: Crypto, t: Tables, chain: seq<Block>, first: Block)
    requires Represents(c, t, chain, 0) && |chain| == 2 && chain[1] == first && |first.txs| > 0
    ensures first.txs[0].id in t.txs
  {
    hide Represents;
    RetainedAboveHorizon(c, t, chain, 0, 1);
    assert RowIs(t.txs, chain[1].txs[0], 1, 0);
  }

  /** With nothing pending a candidate is its coinbase. */
  lemma NothingPending(c: Crypto, t: Tables, address: Text, draws: (uint64, uint64), now: int64)
    requires TipShape(t) && 0 < |t.blocks| <= MAX_INT64 + 1
    ensures Unconfirmed(ConfirmedOf(t), [])
    ensures CandidateOf(c, t, [], address, draws, now).Some? <==> ValidAddress(c, address) && |t.blocks| <= MAX_INT64
    ensures CandidateOf(c, t, [], address, draws, now).Some? ==>
      CandidateOf(c, t, [], address, draws, now).value.txs == [NewCoinbase(address, draws.1, Subsidy(|t.blocks|))]
  {
  }

  /**
    A repeated coinbase draw. Right after the first block, an empty pool and the same address and draw give the
    same coinbase, hence the same identifier; no nonce makes the second candidate acceptable.
   */
  lemma RepeatedDrawIsRefused(c: Crypto, first: Block, address: Text, draws: (uint64, uint64), now: int64,
                              later: int64, nonce: uint64)
    requires TipShape(Genesis()) && Connects(c, Genesis(), first)
    requires CandidateOf(c, Genesis(), [], address, draws, now).Some?
    requires first.txs == CandidateOf(c, Genesis(), [], address, draws, now).value.txs
    ensures var t := Connect(c, Genesis(), first);
      && TipShape(t) && CandidateOf(c, t, [], address, draws, later).Some?
      && !Connects(c, t, Mined(CandidateOf(c, t, [], address, draws, later).value, nonce))
  {
    hide Represents, TipShape, Connects, Connect, CandidateOf, Genesis, GenesisBlock, Unconfirmed, SelectAll, StartSelection,
      Subsidy, CandidateBody, CandidateHeader, Mined, ValidWork, MedianTimePast, ValidAddress, Retained, DistinctIds;
    GenesisRepresents(c);
    var g, chain := Genesis(), [GenesisBlock(), first];
    assert [GenesisBlock()] + [first] == chain;
    ConnectRepresents(c, g, [GenesisBlock()], 0, first);
    var t := Connect(c, g, first);
    RepresentedTipShape(c, t, chain, 0);
    SupplyOnly(c, g, [GenesisBlock()], 0);
    SupplyOnly(c, t, chain, 0);
    NothingPending(c, g, address, draws, now);
    TipHeight(t);
    FirstRewards();
    NothingPending(c, t, address, draws, later);
    CandidateConnects(c, t, chain, 0, [], address, draws, later, nonce);
    FirstCoinbaseKnown(c, t, chain, first);
    MinedBody(CandidateOf(c, t, [], address, draws, later).value, nonce);
  }
}
