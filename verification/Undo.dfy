/**
  Disconnecting undoes connecting (internal/ledger/reorg.go against internal/ledger/apply.go): every table
  returns to its value before the block, also when the block spends outputs it creates.
 */
module Undo {
  import opened Common
  import opened Encoding
  import opened Amounts
  import opened Transactions
  import opened Merkle
  import opened Totals
  import opened Replay
  import opened Tables
  import opened Refinement

  // ---------------------------------------------------------------- coins

  /** A coin that insertOutputs could have stored. */
  predicate SoundCoin(c: Crypto, coin: Coin) {
    0 < coin.output.amount <= MAX_INT64 && ValidAddress(c, coin.output.address)
  }

  predicate SoundCoins(c: Crypto, coins: Coins) {
    forall o | o in coins :: SoundCoin(c, coins[o])
  }

  /** Every unspent output belongs to a known transaction. */
  predicate CoinsIndexed(coins: Coins, ids: set<Text>) {
    forall o | o in coins :: o.txid in ids
  }

  predicate DistinctSpends(spent: seq<SpentCoin>) {
    forall i, j | 0 <= i < j < |spent| :: spent[i].outpoint != spent[j].outpoint
  }

  /** What was spent is either from before the block, unchanged, or created by the block itself. */
  predicate SpendsFrom(c: Crypto, spent: seq<SpentCoin>, created: set<Outpoint>, base: Coins) {
    forall i | 0 <= i < |spent| ::
      spent[i].outpoint in created
      || (spent[i].outpoint in base && base[spent[i].outpoint] == spent[i].coin && SoundCoin(c, spent[i].coin))
  }

  /** The coins now: those of before and those created, without those spent. */
  predicate CoinsExplained(coins: Coins, base: Coins, spent: seq<SpentCoin>, created: set<Outpoint>) {
    && coins.Keys == (base.Keys + created) - SpentSet(spent)
    && (forall o | o in coins && o in base :: coins[o] == base[o])
  }

  /** The undo record of a connection in progress is good enough to return to `base`. */
  predicate Undoable(c: Crypto, w: Progress, base: Coins) {
    && Distinct(w.created) && CreatedSet(w.created) !! base.Keys
    && DistinctSpends(w.spent)
    && SpendsFrom(c, w.spent, CreatedSet(w.created), base)
    && CoinsExplained(w.coins, base, w.spent, CreatedSet(w.created))
    && CoinsIndexed(base, w.txs.Keys)
    && (forall o | o in CreatedSet(w.created) :: o.txid in w.txs)
    && SoundCoins(c, w.coins)
  }

  lemma {:induction false} RestoreReturns(c: Crypto, coins: Coins, spent: seq<SpentCoin>, created: set<Outpoint>,
                                          base: Coins)
    requires created !! base.Keys && DistinctSpends(spent) && SpendsFrom(c, spent, created, base)
    requires coins == base - SpentSet(spent)
    ensures RestoreCoins(c, coins, spent, created) == Some(base)
    decreases |spent|
  {
    hide ValidAddress;
    if |spent| == 0 {
      assert base - SpentSet(spent) == base;
    } else {
      var rest := spent[1..];
      assert SpentSet(spent) == {spent[0].outpoint} + SpentSet(rest);
      assert spent[0].outpoint !in SpentSet(rest);
      if spent[0].outpoint in created {
        assert base - SpentSet(rest) == base - SpentSet(spent);
        RestoreReturns(c, coins, rest, created, base);
      } else {
        var next := coins[spent[0].outpoint := spent[0].coin];
        assert next == base - SpentSet(rest);
        RestoreReturns(c, next, rest, created, base);
      }
    }
  }

  /** Playing back the undo record of a connection returns exactly the coins it started from. */
  lemma UndoReturns(c: Crypto, w: Progress, base: Coins, hash: Text)
    requires Undoable(c, w, base)
    ensures UndoCoins(c, w.coins, UndoRow(hash, w.spent, w.created)) == Some(base)
  {
    hide SoundCoins, SpendsFrom;
    var created := CreatedSet(w.created);
    assert w.coins - created == base - SpentSet(w.spent);
    RestoreReturns(c, w.coins - created, w.spent, created, base);
  }

  lemma CreatedListFacts(created: seq<Outpoint>, tx: Transaction)
    requires |tx.outputs| <= 0xFFFF_FFFF && Distinct(created)
    requires forall o | o in CreatedSet(created) :: o.txid != tx.id
    ensures Distinct(created + CreatedList(tx))
    ensures CreatedSet(created + CreatedList(tx)) == CreatedSet(created) + Created(tx)
  {
    var next := created + CreatedList(tx);
    forall i, j | 0 <= i < j < |next| ensures next[i] != next[j] {
      if i < |created| {
        assert next[i] in CreatedSet(created);
      }
    }
    forall o | o in CreatedSet(created) + Created(tx) ensures o in CreatedSet(next) {
      if o in CreatedSet(created) {
        var i :| 0 <= i < |created| && created[i] == o;
        assert next[i] == o;
      } else {
        assert next[|created| + o.index] == o;
      }
    }
  }

  lemma SpentSetConcat(a: seq<SpentCoin>, b: seq<SpentCoin>)
    ensures SpentSet(a + b) == SpentSet(a) + SpentSet(b)
  {
    forall o | o in SpentSet(a) + SpentSet(b) ensures o in SpentSet(a + b) {
      if o in SpentSet(a) {
        var i :| 0 <= i < |a| && a[i].outpoint == o;
        assert (a + b)[i].outpoint == o;
      } else {
        var i :| 0 <= i < |b| && b[i].outpoint == o;
        assert (a + b)[|a| + i].outpoint == o;
      }
    }
  }

  lemma LoadedSet(inputs: seq<TxInput>, coins: Coins)
    requires InputsLoad(inputs, coins) && DistinctInputs(inputs)
    ensures SpentSet(LoadInputs(inputs, coins)) == Spent(inputs) && DistinctSpends(LoadInputs(inputs, coins))
    ensures Spent(inputs) <= coins.Keys
  {
    var spent := LoadInputs(inputs, coins);
    forall o | o in Spent(inputs) ensures o in SpentSet(spent) {
      var i :| 0 <= i < |inputs| && Spends(inputs[i]) == o;
      assert spent[i].outpoint == o;
    }
  }

  lemma SpendsFromStep(c: Crypto, w: Progress, tx: Transaction, base: Coins, spent: seq<SpentCoin>)
    requires Undoable(c, w, base) && InputsLoad(tx.inputs, w.coins) && spent == LoadInputs(tx.inputs, w.coins)
    ensures SpendsFrom(c, w.spent + spent, CreatedSet(w.created) + Created(tx), base)
  {
  }

  lemma DistinctSpendsStep(w: Progress, spent: seq<SpentCoin>)
    requires DistinctSpends(w.spent) && DistinctSpends(spent) && SpentSet(spent) !! SpentSet(w.spent)
    ensures DistinctSpends(w.spent + spent)
  {
    var all := w.spent + spent;
    forall i, j | 0 <= i < j < |all| ensures all[i].outpoint != all[j].outpoint {
      if i < |w.spent| <= j {
        assert w.spent[i].outpoint in SpentSet(w.spent) && spent[j - |w.spent|].outpoint in SpentSet(spent);
      }
    }
  }

  lemma SoundOutputs(c: Crypto, w: Progress, tx: Transaction, height: nat)
    requires SoundCoins(c, w.coins) && Storable(tx)
    requires forall i | 0 <= i < |tx.outputs| :: tx.outputs[i].amount > 0 && ValidAddress(c, tx.outputs[i].address)
    ensures SoundCoins(c, w.coins - Spent(tx.inputs) + CoinsOf(tx, height, tx.coinbase))
  {
  }

  lemma ExplainedStep(w: Progress, tx: Transaction, base: Coins, spent: seq<SpentCoin>, created: set<Outpoint>,
                      height: nat)
    requires CoinsExplained(w.coins, base, w.spent, created)
    requires SpentSet(spent) == Spent(tx.inputs) <= w.coins.Keys
    requires Created(tx) !! base.Keys && Created(tx) !! SpentSet(w.spent) && Created(tx) !! Spent(tx.inputs)
    ensures CoinsExplained(w.coins - Spent(tx.inputs) + CoinsOf(tx, height, tx.coinbase), base, w.spent + spent, created + Created(tx))
  {
    SpentSetConcat(w.spent, spent);
  }

  /** The outputs of a new transaction are strangers to everything the block has touched. */
  lemma NewOutputs(c: Crypto, w: Progress, tx: Transaction, base: Coins)
    requires Undoable(c, w, base) && tx.id !in w.txs
    ensures Created(tx) !! base.Keys && Created(tx) !! SpentSet(w.spent) && Created(tx) !! w.coins.Keys
    ensures forall o | o in CreatedSet(w.created) :: o.txid != tx.id
  {
  }

  lemma ExplainedKeys(w: Progress, base: Coins)
    requires CoinsExplained(w.coins, base, w.spent, CreatedSet(w.created))
    ensures w.coins.Keys !! SpentSet(w.spent)
  {
  }

  /** Writing one transaction keeps the undo record good. */
  lemma InsertKeepsUndoable(c: Crypto, w: Progress, tx: Transaction, base: Coins, height: nat, position: nat)
    requires Undoable(c, w, base) && tx.id !in w.txs && Storable(tx) && |tx.outputs| <= 0xFFFF_FFFF
    requires InputsLoad(tx.inputs, w.coins) && DistinctInputs(tx.inputs)
    requires forall i | 0 <= i < |tx.outputs| :: tx.outputs[i].amount > 0 && ValidAddress(c, tx.outputs[i].address)
    ensures Undoable(c, InsertRows(WithoutInputs(w, tx), tx, LoadInputs(tx.inputs, w.coins), height, position), base)
  {
    hide SoundCoins, SpendsFrom, CoinsExplained, DistinctSpends, Distinct, CoinsOf, AddressRowsOf, SpentSet,
      CreatedSet, ValidAddress, LoadInputs, CreatedList;
    var spent := LoadInputs(tx.inputs, w.coins);
    var created := CreatedSet(w.created);
    NewOutputs(c, w, tx, base);
    LoadedSet(tx.inputs, w.coins);
    CreatedListFacts(w.created, tx);
    SpendsFromStep(c, w, tx, base, spent);
    ExplainedKeys(w, base);
    DistinctSpendsStep(w, spent);
    ExplainedStep(w, tx, base, spent, created, height);
    SoundOutputs(c, w, tx, height);
  }

  lemma RegularOutputs(c: Crypto, tx: Transaction, utxo: Utxo)
    requires RegularFee(c, tx, utxo).Some?
    ensures forall i | 0 <= i < |tx.outputs| :: tx.outputs[i].amount > 0 && ValidAddress(c, tx.outputs[i].address)
  {
  }

  lemma UndoableIgnoresFees(c: Crypto, w: Progress, w1: Progress, base: Coins)
    requires Undoable(c, w, base) && w1 == w.(fees := w1.fees)
    ensures Undoable(c, w1, base)
  {
  }

  lemma RegularKeepsUndoable(c: Crypto, w: Progress, tx: Transaction, height: nat, position: nat, base: Coins)
    requires Undoable(c, w, base) && ConnectRegular(c, w, tx, height, position).Some?
    ensures Undoable(c, ConnectRegular(c, w, tx, height, position).value, base)
  {
    hide RegularFee, Undoable, InsertRows, ValidAddress;
    RegularLimits(c, tx, InputView(tx.inputs, w.coins));
    RegularOutputs(c, tx, InputView(tx.inputs, w.coins));
    InsertKeepsUndoable(c, w, tx, base, height, position);
    UndoableIgnoresFees(c, InsertRows(WithoutInputs(w, tx), tx, LoadInputs(tx.inputs, w.coins), height, position),
                        ConnectRegular(c, w, tx, height, position).value, base);
  }

  lemma {:induction false} RegularsKeepUndoable(c: Crypto, w: Progress, txs: seq<Transaction>, height: nat,
                                                position: nat, base: Coins)
    requires Undoable(c, w, base) && ConnectRegulars(c, w, txs, height, position).Some?
    ensures Undoable(c, ConnectRegulars(c, w, txs, height, position).value, base)
    decreases |txs|
  {
    hide ConnectRegular, Undoable;
    if |txs| > 0 {
      RegularKeepsUndoable(c, w, txs[0], height, position, base);
      RegularsKeepUndoable(c, ConnectRegular(c, w, txs[0], height, position).value, txs[1..], height, position + 1, base);
    }
  }

  lemma CoinbaseKeepsUndoable(c: Crypto, w: Progress, tx: Transaction, height: uint64, base: Coins)
    requires Undoable(c, w, base) && ConnectCoinbase(c, w, tx, height).Some?
    ensures Undoable(c, ConnectCoinbase(c, w, tx, height).value, base)
  {
    hide CoinbaseOk, Undoable, InsertRows, ValidAddress, Subsidy;
    CoinbaseLimits(c, tx, Subsidy(height) + w.fees);
    NoInputs(w, tx);
    assert LoadInputs(tx.inputs, w.coins) == [];
    InsertKeepsUndoable(c, w, tx, base, height, 0);
  }

  lemma StartUndoable(c: Crypto, t: Tables)
    requires SoundCoins(c, t.coins) && CoinsIndexed(t.coins, t.txs.Keys)
    ensures Undoable(c, Start(t), t.coins)
  {
  }

  // ---------------------------------------------------------------- rows

  /** Rows written by one block on top of the tables of before. */
  predicate RowsAdded(w: Progress, txs: TxTable, addresses: AddressTable, height: nat) {
    && (forall id | id in txs :: id in w.txs && w.txs[id] == txs[id])
    && (forall id | id in w.txs && id !in txs :: w.txs[id].height == height)
    && (forall k | k in addresses :: k in w.addresses && w.addresses[k] == addresses[k] && k.txid in txs)
    && (forall k | k in w.addresses && k !in addresses :: k.txid in w.txs && k.txid !in txs)
  }

  lemma InsertKeepsRows(w: Progress, tx: Transaction, spent: seq<SpentCoin>, height: nat, position: nat, txs: TxTable,
                        addresses: AddressTable)
    requires RowsAdded(w, txs, addresses, height) && tx.id !in w.txs && |tx.outputs| <= 0xFFFF_FFFF
    ensures RowsAdded(InsertRows(w, tx, spent, height, position), txs, addresses, height)
  {
  }

  lemma RowsIgnoreCoins(w: Progress, w1: Progress, txs: TxTable, addresses: AddressTable, height: nat)
    requires RowsAdded(w, txs, addresses, height) && w1.txs == w.txs && w1.addresses == w.addresses
    ensures RowsAdded(w1, txs, addresses, height)
  {
  }

  lemma {:induction false} RegularsKeepRows(c: Crypto, w: Progress, list: seq<Transaction>, height: nat,
                                            position: nat, txs: TxTable, addresses: AddressTable)
    requires RowsAdded(w, txs, addresses, height) && ConnectRegulars(c, w, list, height, position).Some?
    ensures RowsAdded(ConnectRegulars(c, w, list, height, position).value, txs, addresses, height)
    decreases |list|
  {
    hide RegularFee, InsertRows, RowsInsertable, CoinsMature, RowsAdded;
    if |list| > 0 {
      var tx := list[0];
      var w0 := WithoutInputs(w, tx);
      var spent := LoadInputs(tx.inputs, w.coins);
      var w1 := ConnectRegular(c, w, tx, height, position).value;
      RowsIgnoreCoins(w, w0, txs, addresses, height);
      InsertKeepsRows(w0, tx, spent, height, position, txs, addresses);
      RowsIgnoreCoins(InsertRows(w0, tx, spent, height, position), w1, txs, addresses, height);
      RegularsKeepRows(c, w1, list[1..], height, position + 1, txs, addresses);
    }
  }

  lemma RowsSurvive(w: Progress, txs: TxTable, addresses: AddressTable, height: nat)
    requires RowsAdded(w, txs, addresses, height)
    requires forall id | id in txs :: txs[id].height != height
    ensures SurvivingTxs(w.txs, height) == txs && SurvivingAddresses(w.addresses, w.txs, height) == addresses
  {
  }

  /** Everything a block connection wrote, in terms of the tables it started from. */
  lemma BodyEffect(c: Crypto, t: Tables, b: Block)
    requires ConnectBody(c, t, b).Some? && SoundCoins(c, t.coins) && CoinsIndexed(t.coins, t.txs.Keys)
    requires AddressesIndexed(t.addresses, t.txs)
    ensures var w := ConnectBody(c, t, b).value;
      Undoable(c, w, t.coins) && RowsAdded(w, t.txs, t.addresses, b.header.height)
  {
    hide ConnectRegulars, Undoable, InsertRows, CoinbaseOk, RowsInsertable, Subsidy;
    var height := b.header.height;
    StartUndoable(c, t);
    RegularsKeepUndoable(c, Start(t), b.txs[1..], height, 1, t.coins);
    RegularsKeepRows(c, Start(t), b.txs[1..], height, 1, t.txs, t.addresses);
    var w1 := ConnectRegulars(c, Start(t), b.txs[1..], height, 1).value;
    CoinbaseKeepsUndoable(c, w1, b.txs[0], height, t.coins);
    CoinbaseLimits(c, b.txs[0], Subsidy(height) + w1.fees);
    InsertKeepsRows(w1, b.txs[0], [], height, 0, t.txs, t.addresses);
  }

  function RowHeight(t: Tables, id: Text): nat
    requires id in t.txs
  {
    t.txs[id].height
  }

  /** What disconnecting needs to know about the tables under the tip. */
  ghost predicate Revertible(c: Crypto, t: Tables) {
    && |t.blocks| > 0
    && SoundCoins(c, t.coins) && CoinsIndexed(t.coins, t.txs.Keys)
    && AddressesIndexed(t.addresses, t.txs)
    && (forall id | id in t.txs :: RowHeight(t, id) < |t.blocks|)
    && |t.blocks| !in t.undo
  }

  /** Disconnecting the block just connected gives back exactly the tables of before, row for row. */
  lemma DisconnectUndoesConnect(c: Crypto, t: Tables, b: Block)
    requires Revertible(c, t) && Connects(c, t, b) && b.header.height == |t.blocks|
    ensures Disconnect(c, Connect(c, t, b)) == Some(t)
  {
    hide BlockRules, ConnectBody, Undoable, RowsAdded, UndoCoins, SoundCoins, CoinsIndexed, KnownHash, SurvivingTxs,
      SurvivingAddresses;
    var w := ConnectBody(c, t, b).value;
    var height := |t.blocks|;
    BodyEffect(c, t, b);
    UndoReturns(c, w, t.coins, b.header.hash);
    assert forall id | id in t.txs :: t.txs[id].height != height by {
      assert forall id | id in t.txs :: RowHeight(t, id) < height;
    }
    RowsSurvive(w, t.txs, t.addresses, height);
    var t1 := Connect(c, t, b);
    assert t1.blocks[..height] == t.blocks;
    assert t1.undo - {height} == t.undo;
  }
}
