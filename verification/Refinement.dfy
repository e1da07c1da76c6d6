/**
  The incremental tables refine the replayed view: a chain builds tables exactly when it replays, and the
  unspent outputs, origins and known identifiers are the same (internal/ledger/apply.go against
  internal/core/chain.go).
 */
module Refinement {
  import opened Common
  import opened Encoding
  import opened Amounts
  import opened Transactions
  import opened Merkle
  import opened Totals
  import opened Replay
  import opened Guards
  import opened Tables

  function OriginView(coins: Coins): (r: map<Outpoint, Origin>)
    ensures r.Keys == coins.Keys
  {
    map o | o in coins :: Origin(coins[o].createdHeight, coins[o].coinbase)
  }

  function ViewOf(coins: Coins, ids: set<Text>): View {
    View(Outputs(coins), OriginView(coins), ids)
  }

  predicate AddressesIndexed(addresses: AddressTable, txs: TxTable) {
    forall k | k in addresses :: k.txid in txs
  }

  function ProgressView(w: Progress): View {
    ViewOf(w.coins, w.txs.Keys)
  }

  /** What a block connection keeps about its tables besides the view. */
  predicate ProgressOk(w: Progress, height: nat) {
    && w.seen <= w.txs.Keys
    && AddressesIndexed(w.addresses, w.txs)
    && ViewOk(ProgressView(w), height)
  }

  // ---------------------------------------------------------------- one transaction

  lemma InputsLoadAgrees(inputs: seq<TxInput>, w: Progress, height: nat)
    requires ViewOk(ProgressView(w), height)
    ensures InputsLoad(inputs, w.coins) <==> InputsKnown(inputs, Outputs(w.coins))
  {
  }

  lemma FeeAgrees(c: Crypto, tx: Transaction, coins: Coins)
    ensures RegularFee(c, tx, InputView(tx.inputs, coins)) == RegularFee(c, tx, Outputs(coins))
  {
    hide RegularFee;
    forall i | 0 <= i < |tx.inputs| ensures AgreeAt(InputView(tx.inputs, coins), Outputs(coins), Spends(tx.inputs[i])) {
      assert Spends(tx.inputs[i]) in Spent(tx.inputs);
    }
    FeeDependsOnInputs(c, tx, InputView(tx.inputs, coins), Outputs(coins));
  }

  lemma MaturityAgrees(inputs: seq<TxInput>, coins: Coins, height: nat)
    requires InputsLoad(inputs, coins)
    ensures CoinsMature(LoadInputs(inputs, coins), height) <==> InputsMature(inputs, OriginView(coins), height)
  {
    var spent := LoadInputs(inputs, coins);
    if CoinsMature(spent, height) {
      forall i | 0 <= i < |inputs| ensures Spends(inputs[i]) in OriginView(coins)
                                        && OriginMature(OriginView(coins)[Spends(inputs[i])], height) {
        assert spent[i].coin == coins[Spends(inputs[i])];
      }
    }
    if InputsMature(inputs, OriginView(coins), height) {
      forall i | 0 <= i < |spent| ensures spent[i].coin.coinbase ==> IsCoinbaseMature(spent[i].coin.createdHeight, height) {
        assert OriginMature(OriginView(coins)[Spends(inputs[i])], height);
      }
    }
  }

  /** An accepted transaction creates no amount larger than everything unspent. */
  lemma OutputsBounded(c: Crypto, tx: Transaction, utxo: Utxo)
    requires RegularFee(c, tx, utxo).Some? && Total(utxo) <= MAX_INT64
    ensures Storable(tx)
  {
    hide RegularFee;
    RegularLimits(c, tx, utxo);
    TotalInputs(tx.inputs, utxo);
    forall i | 0 <= i < |tx.outputs| ensures tx.outputs[i].amount <= MAX_INT64 {
      OutputBelowSum(tx.outputs, i);
    }
  }

  lemma AddressRowsFresh(w: Progress, tx: Transaction, spent: seq<SpentCoin>)
    requires AddressesIndexed(w.addresses, w.txs) && tx.id !in w.txs
    ensures AddressRowsOf(tx, spent).Keys !! w.addresses.Keys
  {
  }

  lemma OutputsView(coins: Coins, tx: Transaction, height: nat)
    ensures Outputs(coins + CoinsOf(tx, height, tx.coinbase)) == Outputs(coins) + OutputsOf(tx)
    ensures OriginView(coins + CoinsOf(tx, height, tx.coinbase)) == OriginView(coins) + OriginsOf(tx, height)
  {
    hide Created;
  }

  lemma CoinsView(coins: Coins, tx: Transaction, height: nat)
    ensures Outputs(coins - Spent(tx.inputs) + CoinsOf(tx, height, tx.coinbase))
         == Outputs(coins) - Spent(tx.inputs) + OutputsOf(tx)
    ensures OriginView(coins - Spent(tx.inputs) + CoinsOf(tx, height, tx.coinbase))
         == OriginView(coins) - Spent(tx.inputs) + OriginsOf(tx, height)
  {
    hide Spent, Created, CoinsOf, OutputsOf, OriginsOf;
    OutputsView(coins - Spent(tx.inputs), tx, height);
  }

  lemma AddressRowsIndexed(addresses: AddressTable, txs: TxTable, tx: Transaction, spent: seq<SpentCoin>, row: TxRow)
    requires AddressesIndexed(addresses, txs)
    ensures AddressesIndexed(addresses + AddressRowsOf(tx, spent), txs[tx.id := row])
  {
  }

  lemma InsertRowsView(w: Progress, tx: Transaction, spent: seq<SpentCoin>, height: nat, position: nat)
    requires |tx.outputs| <= 0xFFFF_FFFF
    requires w.seen <= w.txs.Keys && AddressesIndexed(w.addresses, w.txs)
    ensures var w1 := InsertRows(WithoutInputs(w, tx), tx, spent, height, position);
      && ProgressView(w1) == ApplyTransaction(ProgressView(w), tx, height)
      && w1.seen <= w1.txs.Keys && AddressesIndexed(w1.addresses, w1.txs)
  {
    hide AddressRowsOf, AddressesIndexed, OriginsOf, CoinsOf, Outputs, OriginView, OutputsOf;
    CoinsView(w.coins, tx, height);
    AddressRowsIndexed(w.addresses, w.txs, tx, spent, TxRow(height, position, tx.coinbase, Some(tx)));
  }

  /** Once a transaction is known to be valid and mature, both sides accept it. */
  lemma ValidRegularInserts(c: Crypto, w: Progress, tx: Transaction, height: nat)
    requires ProgressOk(w, height) && Total(Outputs(w.coins)) <= MAX_INT64
    requires tx.id !in w.txs && RegularFee(c, tx, Outputs(w.coins)).Some? && InputsLoad(tx.inputs, w.coins)
    ensures RowsInsertable(WithoutInputs(w, tx), tx, LoadInputs(tx.inputs, w.coins))
    ensures OutputsFresh(ProgressView(w), tx) && |tx.outputs| <= 0xFFFF_FFFF
  {
    hide RegularFee, AddressRowsOf;
    RegularLimits(c, tx, Outputs(w.coins));
    OutputsBounded(c, tx, Outputs(w.coins));
    FreshOutputs(ProgressView(w), tx, height);
    AddressRowsFresh(w, tx, LoadInputs(tx.inputs, w.coins));
  }

  lemma FeesIgnored(c: Crypto, w: Progress, tx: Transaction, height: nat, position: nat)
    ensures ConnectRegular(c, w, tx, height, position).Some? ==>
      var spent := LoadInputs(tx.inputs, w.coins);
      var w0 := InsertRows(WithoutInputs(w, tx), tx, spent, height, position);
      var w1 := ConnectRegular(c, w, tx, height, position).value;
      && w1 == w0.(fees := w1.fees) && ProgressView(w1) == ProgressView(w0)
      && w1.fees == w.fees + RegularFee(c, tx, InputView(tx.inputs, w.coins)).value
  {
  }

  /** Connecting and replaying one regular transaction give the same verdict and the same view. */
  lemma RegularAgrees(c: Crypto, w: Progress, tx: Transaction, height: nat, position: nat)
    requires ProgressOk(w, height) && height > 0 && Total(Outputs(w.coins)) <= MAX_INT64
    ensures ConnectRegular(c, w, tx, height, position).Some? <==> ReplayRegular(c, ProgressView(w), w.fees, tx, height).Some?
    ensures ConnectRegular(c, w, tx, height, position).Some? ==>
      var w1 := ConnectRegular(c, w, tx, height, position).value;
      ProgressOk(w1, height) && ReplayRegular(c, ProgressView(w), w.fees, tx, height) == Some((ProgressView(w1), w1.fees))
  {
    hide RegularFee, ViewOk, InputsLoad, CoinsMature, InputsMature, RowsInsertable, OutputsFresh, InsertRows,
      AddressesIndexed, ApplyTransaction;
    InputsLoadAgrees(tx.inputs, w, height);
    FeeAgrees(c, tx, w.coins);
    if InputsLoad(tx.inputs, w.coins) {
      MaturityAgrees(tx.inputs, w.coins, height);
      if tx.id !in w.txs && RegularFee(c, tx, Outputs(w.coins)).Some? {
        ValidRegularInserts(c, w, tx, height);
        InsertRowsView(w, tx, LoadInputs(tx.inputs, w.coins), height, position);
      }
    }
    FeesIgnored(c, w, tx, height, position);
    if ReplayRegular(c, ProgressView(w), w.fees, tx, height).Some? {
      RegularStep(c, ProgressView(w), w.fees, tx, height);
    }
  }

  // ---------------------------------------------------------------- one block

  lemma ProgressOkView(w: Progress, height: nat)
    requires ProgressOk(w, height)
    ensures ViewOk(ProgressView(w), height) && ProgressView(w).utxo == Outputs(w.coins)
  {
  }

  lemma {:induction false} RegularsAgree(c: Crypto, w: Progress, txs: seq<Transaction>, height: nat, position: nat)
    requires ProgressOk(w, height) && height > 0 && Total(Outputs(w.coins)) + w.fees <= MAX_INT64
    ensures ConnectRegulars(c, w, txs, height, position).Some? <==> ReplayRegulars(c, ProgressView(w), w.fees, txs, height).Some?
    ensures ConnectRegulars(c, w, txs, height, position).Some? ==>
      var w1 := ConnectRegulars(c, w, txs, height, position).value;
      && ProgressOk(w1, height) && Total(Outputs(w1.coins)) + w1.fees == Total(Outputs(w.coins)) + w.fees
      && ReplayRegulars(c, ProgressView(w), w.fees, txs, height) == Some((ProgressView(w1), w1.fees))
    decreases |txs|
  {
    hide ConnectRegular, ReplayRegular, ProgressOk;
    if |txs| > 0 {
      RegularAgrees(c, w, txs[0], height, position);
      if ConnectRegular(c, w, txs[0], height, position).Some? {
        var w1 := ConnectRegular(c, w, txs[0], height, position).value;
        ProgressOkView(w, height);
        RegularStep(c, ProgressView(w), w.fees, txs[0], height);
        RegularsAgree(c, w1, txs[1..], height, position + 1);
      }
    }
  }

  lemma CoinbaseLimits(c: Crypto, tx: Transaction, maximum: uint64)
    requires CoinbaseOk(c, tx, maximum)
    ensures tx.coinbase && |tx.inputs| == 0 && |tx.outputs| <= 1 && OutputSum(tx.outputs) == maximum
    ensures tx.id == ComputeId(tx) && EncodedSize(tx) <= MAX_TRANSACTION_BYTES
    ensures forall i | 0 <= i < |tx.outputs| :: 0 < tx.outputs[i].amount <= maximum && ValidAddress(c, tx.outputs[i].address)
  {
  }

  lemma NoInputs(w: Progress, tx: Transaction)
    requires |tx.inputs| == 0
    ensures WithoutInputs(w, tx) == w && ProgressView(w).utxo - Spent(tx.inputs) == ProgressView(w).utxo
  {
  }

  lemma CoinbaseAgrees(c: Crypto, w: Progress, tx: Transaction, height: uint64)
    requires ProgressOk(w, height) && height > 0 && Subsidy(height) + w.fees <= MAX_INT64
    ensures ConnectCoinbase(c, w, tx, height).Some? <==> ReplayCoinbase(c, ProgressView(w), w.fees, tx, height).Some?
    ensures ConnectCoinbase(c, w, tx, height).Some? ==>
      var w1 := ConnectCoinbase(c, w, tx, height).value;
      ProgressOk(w1, height) && ReplayCoinbase(c, ProgressView(w), w.fees, tx, height) == Some(ProgressView(w1))
  {
    hide CoinbaseOk, ViewOk, AddressesIndexed, InsertRows, ApplyTransaction, AddressRowsOf, Subsidy;
    if tx.id !in w.txs && CoinbaseOk(c, tx, Subsidy(height) + w.fees) {
      CoinbaseLimits(c, tx, Subsidy(height) + w.fees);
      FreshOutputs(ProgressView(w), tx, height);
      AddressRowsFresh(w, tx, []);
      NoInputs(w, tx);
      InsertRowsView(w, tx, [], height, 0);
      CoinbaseStep(c, ProgressView(w), w.fees, tx, height);
    }
  }

  function TablesView(t: Tables): View {
    ViewOf(t.coins, t.txs.Keys)
  }

  /** What every reachable set of tables keeps besides its rows. */
  ghost predicate TablesOk(t: Tables, height: nat) {
    && AddressesIndexed(t.addresses, t.txs)
    && ViewOk(TablesView(t), height)
    && Total(Outputs(t.coins)) <= MAX_SUPPLY
  }

  lemma StartOk(t: Tables, height: nat)
    requires TablesOk(t, height)
    ensures ProgressOk(Start(t), height + 1) && ProgressView(Start(t)) == TablesView(t)
    ensures Total(Outputs(Start(t).coins)) <= MAX_SUPPLY && Start(t).fees == 0
  {
  }

  lemma TablesOkView(t: Tables, height: nat)
    requires TablesOk(t, height)
    ensures ViewOk(TablesView(t), height) && Total(TablesView(t).utxo) <= MAX_SUPPLY
  {
  }

  /**
    Connecting a block body and replaying it give the same verdict and the same view, that of the rules alone: on
    neither side does a check for overflow, for the range of the store, or for an existing key ever decide.
   */
  lemma BodyAgrees(c: Crypto, t: Tables, b: Block)
    requires b.header.height > 0 && TablesOk(t, b.header.height - 1)
    ensures ReplayBlock(c, TablesView(t), b) == PlainBlock(c, TablesView(t), b)
    ensures ConnectBody(c, t, b).Some? <==> ReplayBlock(c, TablesView(t), b).Some?
    ensures ConnectBody(c, t, b).Some? ==>
      var w := ConnectBody(c, t, b).value;
      ProgressOk(w, b.header.height) && ReplayBlock(c, TablesView(t), b) == Some(ProgressView(w))
  {
    hide ConnectRegulars, ReplayRegulars, ConnectCoinbase, ReplayCoinbase, ProgressOk, TablesOk, Subsidy, Start,
      ProgressView, TablesView, PlainBlock;
    TablesOkView(t, b.header.height - 1);
    BlockGuardsIdle(c, TablesView(t), b);
    if |b.txs| > 0 {
      var height := b.header.height;
      var w := Start(t);
      StartOk(t, height - 1);
      RegularsAgree(c, w, b.txs[1..], height, 1);
      if ConnectRegulars(c, w, b.txs[1..], height, 1).Some? {
        var w1 := ConnectRegulars(c, w, b.txs[1..], height, 1).value;
        SubsidyBound(height);
        CoinbaseAgrees(c, w1, b.txs[0], height);
      }
    }
  }
}
