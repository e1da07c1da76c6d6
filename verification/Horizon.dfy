/**
  Ledgers over a whole history: the tables of a chain, pruned up to a horizon (internal/ledger/prune.go),
  and how connecting and disconnecting act on them.
 */
module Horizon {
  import opened Common
  import opened Encoding
  import opened Amounts
  import opened Transactions
  import opened Headers
  import opened Merkle
  import opened Totals
  import opened Replay
  import opened Tables
  import opened Refinement
  import opened ChainTables
  import opened Undo

  // ---------------------------------------------------------------- transaction rows

  predicate RowIs(txs: TxTable, tx: Transaction, height: nat, index: nat) {
    tx.id in txs && txs[tx.id] == TxRow(height, index, tx.coinbase, Some(tx))
  }

  /** A row is the transaction of the chain at its height and index. */
  predicate RowOf(chain: seq<Block>, id: Text, row: TxRow) {
    && 0 < row.height < |chain| && row.index < |chain[row.height].txs|
    && chain[row.height].txs[row.index].id == id
  }

  /** The transactions table lists exactly the transactions of the chain, each at its place and with its body. */
  predicate BodyRows(txs: TxTable, chain: seq<Block>) {
    && (forall id | id in txs :: RowOf(chain, id, txs[id]))
    && (forall h, i | 0 < h < |chain| && 0 <= i < |chain[h].txs| :: RowIs(txs, chain[h].txs[i], h, i))
  }

  predicate ListRows(txs: TxTable, before: TxTable, list: seq<Transaction>, height: nat, position: nat) {
    && (forall id | id in before :: id in txs && txs[id] == before[id])
    && (forall j | 0 <= j < |list| :: RowIs(txs, list[j], height, position + j))
    && (forall id | id in txs && id !in before :: exists j :: 0 <= j < |list| && list[j].id == id)
  }

  lemma ListRowsCons(txs: TxTable, before: TxTable, list: seq<Transaction>, height: nat, position: nat)
    requires |list| > 0 && list[0].id !in before
    requires ListRows(txs, before[list[0].id := TxRow(height, position, list[0].coinbase, Some(list[0]))], list[1..], height, position + 1)
    ensures ListRows(txs, before, list, height, position)
  {
  }

  lemma {:induction false} RegularsListRows(c: Crypto, w: Progress, list: seq<Transaction>, height: nat, position: nat)
    requires ConnectRegulars(c, w, list, height, position).Some?
    ensures ListRows(ConnectRegulars(c, w, list, height, position).value.txs, w.txs, list, height, position)
    decreases |list|
  {
    hide RegularFee, RowsInsertable, CoinsMature, InputsLoad, AddressRowsOf, CoinsOf;
    if |list| > 0 {
      var w1 := ConnectRegular(c, w, list[0], height, position).value;
      RegularsListRows(c, w1, list[1..], height, position + 1);
      var txs := ConnectRegulars(c, w, list, height, position).value.txs;
      ListRowsCons(txs, w.txs, list, height, position);
    }
  }

  lemma BodyListRows(c: Crypto, t: Tables, b: Block)
    requires ConnectBody(c, t, b).Some?
    ensures |b.txs| > 0 && ListRows(ConnectBody(c, t, b).value.txs, t.txs, b.txs, b.header.height, 0)
  {
    hide ConnectRegulars, CoinbaseOk, RowsInsertable, AddressRowsOf, CoinsOf, Subsidy, CreatedList;
    var rest := b.txs[1..];
    var w1 := ConnectRegulars(c, Start(t), rest, b.header.height, 1).value;
    RegularsListRows(c, Start(t), rest, b.header.height, 1);
    var txs := ConnectBody(c, t, b).value.txs;
    assert txs == w1.txs[b.txs[0].id := TxRow(b.header.height, 0, b.txs[0].coinbase, Some(b.txs[0]))];
    forall j | 0 <= j < |b.txs| ensures RowIs(txs, b.txs[j], b.header.height, j) {
      if j > 0 {
        assert RowIs(w1.txs, rest[j - 1], b.header.height, 1 + (j - 1));
      }
    }
    forall id | id in txs && id !in t.txs ensures exists j :: 0 <= j < |b.txs| && b.txs[j].id == id {
      if id in w1.txs {
        var j :| 0 <= j < |rest| && rest[j].id == id;
        assert b.txs[j + 1].id == id;
      } else {
        assert b.txs[0].id == id;
      }
    }
  }

  lemma BodyRowsStep(txs: TxTable, before: TxTable, chain: seq<Block>, b: Block)
    requires BodyRows(before, chain) && ListRows(txs, before, b.txs, |chain|, 0) && |chain| > 0
    ensures BodyRows(txs, chain + [b])
  {
  }

  // ---------------------------------------------------------------- everything a built ledger satisfies

  ghost predicate BuiltOk(c: Crypto, t: Tables, chain: seq<Block>) {
    && ChainRows(t, chain)
    && TablesOk(t, |chain| - 1)
    && SoundCoins(c, t.coins)
    && BodyRows(t.txs, chain)
  }

  lemma BuiltIsRevertible(c: Crypto, t: Tables, chain: seq<Block>)
    requires BuiltOk(c, t, chain)
    ensures Revertible(c, t)
  {
  }

  lemma BodySound(c: Crypto, t: Tables, b: Block)
    requires ConnectBody(c, t, b).Some? && Revertible(c, t)
    ensures SoundCoins(c, ConnectBody(c, t, b).value.coins)
  {
    hide ConnectBody, RowsAdded, SoundCoins, SpendsFrom, CoinsExplained, DistinctSpends;
    BodyEffect(c, t, b);
  }

  lemma GenesisOk(c: Crypto, chain: seq<Block>)
    requires |chain| == 1 && chain[0] == GenesisBlock()
    ensures SoundCoins(c, Genesis().coins) && BodyRows(Genesis().txs, chain)
  {
  }

  lemma ConnectsBody(c: Crypto, t: Tables, b: Block)
    requires Connects(c, t, b)
    ensures ConnectBody(c, t, b).Some? && |t.blocks| > 0
  {
    hide BlockRules, ConnectBody;
  }

  /** A connected block sits right above the tip. */
  lemma HeightOfConnected(c: Crypto, t: Tables, chain: seq<Block>, b: Block)
    requires Connects(c, t, b) && Build(c, chain) == Some(t)
    ensures b.header.height == |chain| == |t.blocks| > 0
  {
    hide Connects, ChainRows, TablesOk, HeaderChain, ReplayChain, Build, ConnectBody, ReplayBlock;
    BuildAgreesWithReplay(c, chain);
    ReplayedHeaders(c, chain);
    ConnectsAgrees(c, t, chain, b);
    RowCount(t, chain);
  }

  lemma {:induction false} BuildIsOk(c: Crypto, chain: seq<Block>)
    requires Build(c, chain).Some?
    ensures BuiltOk(c, Build(c, chain).value, chain)
    decreases |chain|
  {
    hide Connects, ConnectBody, ChainRows, TablesOk, SoundCoins, BodyRows, ReplayChain, GenesisBlock, Genesis,
      Revertible, BlockRowOf, ListRows, TablesView;
    BuildAgreesWithReplay(c, chain);
    if |chain| == 1 {
      GenesisOk(c, chain);
    } else {
      var prior := chain[..|chain| - 1];
      var b := chain[|chain| - 1];
      var t := Build(c, prior).value;
      BuildIsOk(c, prior);
      BuiltIsRevertible(c, t, prior);
      ConnectsBody(c, t, b);
      BodySound(c, t, b);
      BodyListRows(c, t, b);
      HeightOfConnected(c, t, prior, b);
      BodyRowsStep(Connect(c, t, b).txs, t.txs, prior, b);
      assert prior + [b] == chain;
    }
  }

  /** In a built ledger, disconnecting the tip is building the chain without its last block. */
  lemma DisconnectIsBuildPrefix(c: Crypto, chain: seq<Block>)
    requires 1 < |chain| && Build(c, chain).Some?
    ensures Build(c, chain[..|chain| - 1]).Some?
    ensures Disconnect(c, Build(c, chain).value) == Build(c, chain[..|chain| - 1])
  {
    hide Connects, Connect, Disconnect, BuiltOk, Revertible, GenesisBlock;
    var prior := chain[..|chain| - 1];
    var t := Build(c, prior).value;
    BuildIsOk(c, prior);
    BuiltIsRevertible(c, t, prior);
    HeightOfConnected(c, t, prior, chain[|chain| - 1]);
    DisconnectUndoesConnect(c, t, chain[|chain| - 1]);
  }

  // ---------------------------------------------------------------- pruning commutes

  function PruneProgress(w: Progress, cutoff: nat): Progress {
    w.(txs := PruneTxs(w.txs, cutoff))
  }

  lemma PruneTxsInsert(txs: TxTable, id: Text, row: TxRow, cutoff: nat)
    requires row.height > cutoff
    ensures PruneTxs(txs[id := row], cutoff) == PruneTxs(txs, cutoff)[id := row]
  {
  }

  lemma RegularOnPruned(c: Crypto, w: Progress, tx: Transaction, height: nat, position: nat, cutoff: nat)
    requires height > cutoff
    ensures ConnectRegular(c, PruneProgress(w, cutoff), tx, height, position).Some? <==> ConnectRegular(c, w, tx, height, position).Some?
    ensures ConnectRegular(c, w, tx, height, position).Some? ==>
      ConnectRegular(c, PruneProgress(w, cutoff), tx, height, position).value
        == PruneProgress(ConnectRegular(c, w, tx, height, position).value, cutoff)
  {
    hide RegularFee, CoinsMature, AddressRowsOf, CoinsOf, InputsLoad, PruneTxs, Storable;
    PruneTxsInsert(w.txs, tx.id, TxRow(height, position, tx.coinbase, Some(tx)), cutoff);
  }

  lemma {:induction false} RegularsOnPruned(c: Crypto, w: Progress, list: seq<Transaction>, height: nat,
                                            position: nat, cutoff: nat)
    requires height > cutoff
    ensures ConnectRegulars(c, PruneProgress(w, cutoff), list, height, position).Some? <==> ConnectRegulars(c, w, list, height, position).Some?
    ensures ConnectRegulars(c, w, list, height, position).Some? ==>
      ConnectRegulars(c, PruneProgress(w, cutoff), list, height, position).value
        == PruneProgress(ConnectRegulars(c, w, list, height, position).value, cutoff)
    decreases |list|
  {
    hide ConnectRegular, PruneProgress;
    if |list| > 0 {
      RegularOnPruned(c, w, list[0], height, position, cutoff);
      if ConnectRegular(c, w, list[0], height, position).Some? {
        RegularsOnPruned(c, ConnectRegular(c, w, list[0], height, position).value, list[1..], height, position + 1, cutoff);
      }
    }
  }

  lemma CoinbaseOnPruned(c: Crypto, w: Progress, tx: Transaction, height: uint64, cutoff: nat)
    requires height > cutoff
    ensures ConnectCoinbase(c, PruneProgress(w, cutoff), tx, height).Some? <==> ConnectCoinbase(c, w, tx, height).Some?
    ensures ConnectCoinbase(c, w, tx, height).Some? ==>
      ConnectCoinbase(c, PruneProgress(w, cutoff), tx, height).value
        == PruneProgress(ConnectCoinbase(c, w, tx, height).value, cutoff)
  {
    hide CoinbaseOk, AddressRowsOf, CoinsOf, PruneTxs, Storable, Subsidy;
    PruneTxsInsert(w.txs, tx.id, TxRow(height, 0, tx.coinbase, Some(tx)), cutoff);
  }

  lemma BodyOnPruned(c: Crypto, t: Tables, b: Block, cutoff: nat)
    requires b.header.height > cutoff
    ensures ConnectBody(c, Prune(t, cutoff), b).Some? <==> ConnectBody(c, t, b).Some?
    ensures ConnectBody(c, t, b).Some? ==>
      ConnectBody(c, Prune(t, cutoff), b).value == PruneProgress(ConnectBody(c, t, b).value, cutoff)
  {
    hide ConnectRegulars, ConnectCoinbase, PruneTxs;
    assert Start(Prune(t, cutoff)) == PruneProgress(Start(t), cutoff);
    RegularsOnPruned(c, Start(t), b.txs[if |b.txs| > 0 then 1 else 0..], b.header.height, 1, cutoff);
    if |b.txs| > 0 && ConnectRegulars(c, Start(t), b.txs[1..], b.header.height, 1).Some? {
      CoinbaseOnPruned(c, ConnectRegulars(c, Start(t), b.txs[1..], b.header.height, 1).value, b.txs[0], b.header.height, cutoff);
    }
  }

  lemma HeadersOfPruned(t: Tables, cutoff: nat)
    ensures HeaderRows(Prune(t, cutoff).blocks) == HeaderRows(t.blocks)
    ensures |t.blocks| > 0 ==> Tip(Prune(t, cutoff)).work == Tip(t).work && Tip(Prune(t, cutoff)).header == Tip(t).header
    ensures forall hash :: KnownHash(Prune(t, cutoff).blocks, hash) <==> KnownHash(t.blocks, hash)
  {
    assert forall i | 0 <= i < |t.blocks| :: Prune(t, cutoff).blocks[i].header == t.blocks[i].header;
  }

  lemma FinishOnPruned(t: Tables, b: Block, w: Progress, cutoff: nat)
    requires |t.blocks| == b.header.height > cutoff
    ensures Finish(Prune(t, cutoff), b, PruneProgress(w, cutoff)) == Prune(Finish(t, b, w), cutoff)
  {
  }

  // ---------------------------------------------------------------- the ledger's representation

  /** The tables are those of `chain`, with bodies and undo records gone up to the horizon. */
  ghost predicate Represents(c: Crypto, t: Tables, chain: seq<Block>, horizon: nat) {
    Build(c, chain).Some? && horizon < |chain| && t == Prune(Build(c, chain).value, horizon)
  }

  lemma PruneNothing(t: Tables, chain: seq<Block>)
    ensures Prune(t, 0) == t
  {
  }

  lemma PruneTwice(t: Tables, first: nat, second: nat)
    requires first <= second
    ensures Prune(Prune(t, first), second) == Prune(t, second)
  {
  }

  /** A fresh ledger represents the chain that is only genesis. */
  lemma GenesisRepresents(c: Crypto)
    ensures Represents(c, Genesis(), [GenesisBlock()], 0)
  {
  }

  /** Pruning moves the horizon and nothing else. */
  lemma PruneRepresents(c: Crypto, t: Tables, chain: seq<Block>, horizon: nat, cutoff: nat)
    requires Represents(c, t, chain, horizon) && horizon <= cutoff < |chain|
    ensures Represents(c, Prune(t, cutoff), chain, cutoff)
  {
    hide Build, Prune;
    PruneTwice(Build(c, chain).value, horizon, cutoff);
  }

  lemma PruneKeepsCoins(t: Tables, cutoff: nat, height: nat)
    ensures Prune(t, cutoff).coins == t.coins && Prune(t, cutoff).addresses == t.addresses
    ensures |Prune(t, cutoff).blocks| == |t.blocks| && Prune(t, cutoff).txs.Keys == t.txs.Keys
    ensures TablesView(Prune(t, cutoff)) == TablesView(t)
    ensures TablesOk(t, height) ==> TablesOk(Prune(t, cutoff), height)
  {
  }

  /** What any represented ledger shows, whatever has been pruned. */
  lemma RepresentedFacts(c: Crypto, t: Tables, chain: seq<Block>, horizon: nat)
    requires Represents(c, t, chain, horizon)
    ensures |t.blocks| == |chain| > 0 && |chain| <= MAX_INT64 + 1
    ensures HeaderRows(t.blocks) == HeadersOf(chain) && HeaderChain(c, HeadersOf(chain))
    ensures WindowShape(HeadersOf(chain))
    ensures Tip(t).work == ChainWork(HeadersOf(chain)) && Tip(t).header == chain[|chain| - 1].header
    ensures Tip(t).header.height == |chain| - 1
    ensures ReplayChain(c, chain) == Some(TablesView(t)) && TablesOk(t, |chain| - 1) && SoundCoins(c, t.coins)
  {
    hide Build, ChainRows, TablesOk, SoundCoins, BodyRows, ReplayChain, HeaderChain, Prune, WindowShape;
    var full := Build(c, chain).value;
    BuildIsOk(c, chain);
    BuildAgreesWithReplay(c, chain);
    ReplayedHeaders(c, chain);
    ChainRowsHeaders(full, chain);
    RowCount(full, chain);
    HeadersOfPruned(full, horizon);
    PruneKeepsCoins(full, horizon, |chain| - 1);
    LastHeight(c, chain);
  }

  /** Work and supply of every represented ledger. */
  lemma RepresentedSupply(c: Crypto, t: Tables, chain: seq<Block>, horizon: nat)
    requires Represents(c, t, chain, horizon)
    ensures |chain| - 1 <= MAX_UINT64
    ensures Total(Outputs(t.coins)) == MintedThrough(|chain| - 1) == SubsidySum(|chain| - 1) <= MAX_SUPPLY
  {
    hide Represents, ReplayChain, MintedThrough, SubsidySum;
    RepresentedFacts(c, t, chain, horizon);
    Conservation(c, chain);
  }

  lemma BuildSnoc(c: Crypto, chain: seq<Block>, b: Block)
    requires Build(c, chain).Some?
    ensures Build(c, chain + [b]) == if Connects(c, Build(c, chain).value, b) then Some(Connect(c, Build(c, chain).value, b)) else None
  {
    hide Connects, Connect, GenesisBlock;
    assert (chain + [b])[..|chain|] == chain;
  }

  /** Pruned tables accept exactly the blocks the full ones accept. */
  lemma ConnectsOnPruned(c: Crypto, full: Tables, chain: seq<Block>, horizon: nat, b: Block)
    requires ChainRows(full, chain) && HeaderChain(c, HeadersOf(chain)) && WindowShape(HeadersOf(chain))
    requires TablesOk(full, |chain| - 1) && horizon < |chain|
    ensures Connects(c, Prune(full, horizon), b) <==> Connects(c, full, b)
    ensures Connects(c, full, b) ==> b.header.height == |chain|
  {
    hide ConnectBody, BlockRules, HeaderChain, TablesOk, ReplayBlock, WindowShape, Window, PruneBlocks, PruneTxs,
      KnownHash, ComputeHash;
    RowCount(full, chain);
    HeadersOfPruned(full, horizon);
    ChainRowsHeaders(full, chain);
    RulesInWindow(c, b, HeadersOf(chain));
    HeightOfLast(c, chain);
    if BlockRules(c, b, HeadersOf(chain)) {
      NewHash(c, full, chain, b);
      BodyOnPruned(c, full, b, horizon);
    }
  }

  /** A chain extended by a block the tables accept; and only such blocks extend it. */
  lemma ConnectRepresents(c: Crypto, t: Tables, chain: seq<Block>, horizon: nat, b: Block)
    requires Represents(c, t, chain, horizon)
    ensures Connects(c, t, b) <==> Build(c, chain + [b]).Some?
    ensures Connects(c, t, b) ==> Represents(c, Connect(c, t, b), chain + [b], horizon)
  {
    hide ConnectBody, BlockRules, Prune, ChainRows, TablesOk, ReplayChain, HeaderChain, ReplayBlock, GenesisBlock,
      Finish, KnownHash, WindowShape, Window, Build;
    var full := Build(c, chain).value;
    BuildSnoc(c, chain, b);
    RepresentedFacts(c, t, chain, horizon);
    BuildAgreesWithReplay(c, chain);
    ConnectsAgrees(c, full, chain, b);
    ConnectsOnPruned(c, full, chain, horizon, b);
    if Connects(c, full, b) {
      RowCount(full, chain);
      BodyOnPruned(c, full, b, horizon);
      FinishOnPruned(full, b, ConnectBody(c, full, b).value, horizon);
    }
  }

  lemma SurvivorsOfPruned(txs: TxTable, addresses: AddressTable, height: nat, horizon: nat)
    ensures SurvivingTxs(PruneTxs(txs, horizon), height) == PruneTxs(SurvivingTxs(txs, height), horizon)
    ensures SurvivingAddresses(addresses, PruneTxs(txs, horizon), height) == SurvivingAddresses(addresses, txs, height)
  {
  }

  lemma DisconnectOnPruned(c: Crypto, full: Tables, shorter: Tables, chain: seq<Block>, horizon: nat)
    requires ChainRows(full, chain) && horizon < |chain| - 1 && Disconnect(c, full) == Some(shorter)
    ensures Disconnect(c, Prune(full, horizon)) == Some(Prune(shorter, horizon))
  {
    hide UndoCoins, WorkThrough, HeadersOf;
    var height := |chain| - 1;
    var t := Prune(full, horizon);
    HeadersOfPruned(full, horizon);
    assert PruneBlocks(full.blocks, horizon)[..height] == PruneBlocks(full.blocks[..height], horizon);
    SurvivorsOfPruned(full.txs, full.addresses, height, horizon);
    assert t.undo - {height} == PruneUndo(full.undo - {height}, horizon);
  }

  /** Disconnecting above the horizon restores the ledger of the shorter chain; its undo record is there. */
  lemma DisconnectRepresents(c: Crypto, t: Tables, chain: seq<Block>, horizon: nat)
    requires Represents(c, t, chain, horizon) && horizon < |chain| - 1
    ensures Disconnect(c, t).Some? && Represents(c, Disconnect(c, t).value, chain[..|chain| - 1], horizon)
  {
    hide Build, Disconnect, Prune;
    var full := Build(c, chain).value;
    DisconnectIsBuildPrefix(c, chain);
    BuildAgreesWithReplay(c, chain);
    DisconnectOnPruned(c, full, Build(c, chain[..|chain| - 1]).value, chain, horizon);
  }

  /** The block at `height` can still be read and undone: body, transaction bodies and a matching undo record. */
  predicate Retained(t: Tables, chain: seq<Block>, height: nat) {
    && height < |t.blocks| == |chain|
    && t.blocks[height].data == Some(chain[height])
    && height in t.undo && t.undo[height].hash == chain[height].header.hash
    && (forall i | 0 <= i < |chain[height].txs| :: RowIs(t.txs, chain[height].txs[i], height, i))
    && (forall id | id in t.txs && t.txs[id].height == height :: RowOf(chain, id, t.txs[id]))
  }

  /** Prune safety: nothing above the horizon is ever missing. */
  lemma RetainedAboveHorizon(c: Crypto, t: Tables, chain: seq<Block>, horizon: nat, height: nat)
    requires Represents(c, t, chain, horizon) && horizon < height < |chain|
    ensures Retained(t, chain, height)
  {
    hide Build, TablesOk, SoundCoins, WorkThrough;
    var full := Build(c, chain).value;
    BuildIsOk(c, chain);
    forall i | 0 <= i < |chain[height].txs| ensures RowIs(t.txs, chain[height].txs[i], height, i) {
      assert RowIs(full.txs, chain[height].txs[i], height, i);
    }
    forall id | id in t.txs && t.txs[id].height == height ensures RowOf(chain, id, t.txs[id]) {
      assert RowOf(chain, id, full.txs[id]);
    }
  }
}
