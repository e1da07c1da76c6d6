/** What the tables of a represented chain guarantee to the mempool and the miner. */
module ChainState {
  import opened Common
  import opened Transactions
  import opened Headers
  import opened Merkle
  import opened Replay
  import opened Tables
  import opened Refinement
  import opened ChainTables
  import opened Undo
  import opened Horizon
  import opened Mempool

  lemma ViewIsConfirmed(t: Tables, height: nat)
    requires TablesOk(t, height)
    ensures CoinsIndexed(t.coins, t.txs.Keys)
    ensures forall o | o in t.coins :: 0 < t.coins[o].createdHeight <= height
  {
  }

  /** The confirmed side of a represented chain is sound: known, positive, storable coins below the next height. */
  lemma RepresentedConfirmed(c: Crypto, t: Tables, chain: seq<Block>, horizon: nat)
    requires Represents(c, t, chain, horizon)
    ensures ConfirmedOk(c, ConfirmedOf(t)) && ConfirmedOf(t).height == |chain| > 0
  {
    hide Represents, SoundCoins, ReplayChain, HeaderChain, WindowShape;
    RepresentedFacts(c, t, chain, horizon);
    ViewIsConfirmed(t, |chain| - 1);
  }

  /** On a represented chain a block connects exactly when it obeys the rules of the full replay. */
  lemma RepresentedConnects(c: Crypto, t: Tables, chain: seq<Block>, horizon: nat, b: Block)
    requires Represents(c, t, chain, horizon)
    ensures WindowShape(HeadersOf(chain))
    ensures Connects(c, t, b) <==>
      |chain| <= MAX_INT64 && BlockRules(c, b, HeadersOf(chain)) && ReplayBlock(c, TablesView(t), b).Some?
  {
    hide Represents, BlockRules, ReplayBlock, Connects, HeaderChain, WindowShape, Build, ReplayChain, TablesOk,
      SoundCoins, TablesView;
    RepresentedFacts(c, t, chain, horizon);
    ConnectRepresents(c, t, chain, horizon, b);
    BuildAgreesWithReplay(c, chain + [b]);
    ReplaySnoc(c, chain, b);
  }
}
