/**
  The address index of a ledger (internal/ledger/apply.go, insertTransaction): for every transaction of the chain one
  row for each output, under the address it pays, and one for each input, under the address that owned what it spends.
 */
module AddressIndex {
  import opened Common
  import opened Encoding
  import opened Amounts
  import opened Transactions
  import opened Merkle
  import opened Totals
  import opened Replay
  import opened Tables
  import opened Refinement
  import opened Horizon
  import opened Worlds
  import opened Authenticity
  import opened Runs

  /** An output that this input spends: identifiers bind contents, so there is one. */
  ghost predicate Owned(input: TxInput, address: Text, amount: uint64) {
    OutputOf(Spends(input), TxOutput(amount, address))
  }

  /** An index row of a transaction: who received at an output, or who owned what an input spends, and how much. */
  ghost predicate RowIsOf(tx: Transaction, k: AddressKey, amount: uint64) {
    k.txid == tx.id &&
    match k.direction
    case Received => k.ordinal < |tx.outputs| && tx.outputs[k.ordinal] == TxOutput(amount, k.address)
    case Sent => k.ordinal < |tx.inputs| && Owned(tx.inputs[k.ordinal], k.address, amount)
  }

  ghost predicate InputIndexed(tx: Transaction, n: nat, addresses: AddressTable) {
    exists a :: AddressKey(tx.id, n, a, Sent) in addresses
  }

  /** Both ends of the transaction are in the index. */
  ghost predicate Indexed(tx: Transaction, addresses: AddressTable) {
    && (forall n: nat | n < |tx.outputs| :: AddressKey(tx.id, n, tx.outputs[n].address, Received) in addresses)
    && (forall n: nat | n < |tx.inputs| :: InputIndexed(tx, n, addresses))
  }

  /** The index lists exactly the ends of these transactions. */
  ghost predicate IndexOf(addresses: AddressTable, txs: set<Transaction>) {
    && (forall k | k in addresses :: exists tx :: tx in txs && RowIsOf(tx, k, addresses[k]))
    && (forall tx | tx in txs :: Indexed(tx, addresses))
  }

  function ChainTxs(chain: seq<Block>): set<Transaction> {
    set h, i | 0 <= h < |chain| && 0 <= i < |chain[h].txs| :: chain[h].txs[i]
  }

  function ListTxs(txs: seq<Transaction>): set<Transaction> {
    set i | 0 <= i < |txs| :: txs[i]
  }

  // ---------------------------------------------------------------- connecting

  lemma StillIndexed(tx: Transaction, addresses: AddressTable, next: AddressTable)
    requires Indexed(tx, addresses) && addresses.Keys <= next.Keys
    ensures Indexed(tx, next)
  {
    forall n: nat | n < |tx.inputs| ensures InputIndexed(tx, n, next) {
      assert InputIndexed(tx, n, addresses);
      var a :| AddressKey(tx.id, n, a, Sent) in addresses;
      assert AddressKey(tx.id, n, a, Sent) in next;
    }
  }

  lemma RowsAreOf(tx: Transaction, spent: seq<SpentCoin>)
    requires |spent| == |tx.inputs|
    requires forall i | 0 <= i < |spent| :: OutputOf(Spends(tx.inputs[i]), spent[i].coin.output)
    ensures forall k | k in AddressRowsOf(tx, spent) :: RowIsOf(tx, k, AddressRowsOf(tx, spent)[k])
    ensures Indexed(tx, AddressRowsOf(tx, spent))
  {
    hide OutputOf;
    var rows := AddressRowsOf(tx, spent);
    forall n: nat | n < |tx.inputs| ensures InputIndexed(tx, n, rows) {
      assert AddressKey(tx.id, n, spent[n].coin.output.address, Sent) in rows;
    }
  }

  lemma IndexGrows(addresses: AddressTable, txs: set<Transaction>, tx: Transaction, spent: seq<SpentCoin>)
    requires IndexOf(addresses, txs) && |spent| == |tx.inputs|
    requires forall i | 0 <= i < |spent| :: OutputOf(Spends(tx.inputs[i]), spent[i].coin.output)
    ensures IndexOf(addresses + AddressRowsOf(tx, spent), txs + {tx})
  {
    hide OutputOf;
    var rows, next := AddressRowsOf(tx, spent), addresses + AddressRowsOf(tx, spent);
    RowsAreOf(tx, spent);
    forall k | k in next ensures exists x :: x in txs + {tx} && RowIsOf(x, k, next[k]) {
      if k in rows {
        assert tx in txs + {tx} && RowIsOf(tx, k, next[k]);
      } else {
        var x :| x in txs && RowIsOf(x, k, addresses[k]);
        assert x in txs + {tx};
      }
    }
    forall x | x in txs + {tx} ensures Indexed(x, next) {
      StillIndexed(x, if x in txs then addresses else rows, next);
    }
  }

  lemma ComputedRegular(c: Crypto, tx: Transaction, u: Utxo)
    requires RegularFee(c, tx, u).Some?
    ensures Computed(tx)
  {
    hide RegularFee, ComputeId, InMemory, EncodedSize;
    RegularLimits(c, tx, u);
    ValidatedInMemory(tx);
  }

  lemma RegularIndexed(c: Crypto, w: Progress, tx: Transaction, height: nat, position: nat, txs: set<Transaction>)
    requires IndexOf(w.addresses, txs) && Authentic(Outputs(w.coins))
    requires ConnectRegular(c, w, tx, height, position).Some?
    ensures var w1 := ConnectRegular(c, w, tx, height, position).value;
      IndexOf(w1.addresses, txs + {tx}) && Authentic(Outputs(w1.coins))
  {
    hide RegularFee, AddressRowsOf, IndexOf, ComputeId, InMemory, OutputOf;
    FeeAgrees(c, tx, w.coins);
    ComputedRegular(c, tx, Outputs(w.coins));
    var spent := LoadInputs(tx.inputs, w.coins);
    forall i | 0 <= i < |spent| ensures OutputOf(Spends(tx.inputs[i]), spent[i].coin.output) {
      assert Spends(tx.inputs[i]) in Outputs(w.coins);
    }
    IndexGrows(w.addresses, txs, tx, spent);
    CoinsView(w.coins, tx, height);
    AuthenticUpdate(Outputs(w.coins), Spent(tx.inputs), tx);
  }

  lemma Listed(list: seq<Transaction>)
    requires |list| > 0
    ensures ListTxs(list) == {list[0]} + ListTxs(list[1..])
  {
    forall x | x in ListTxs(list) ensures x in {list[0]} + ListTxs(list[1..]) {
      var i :| 0 <= i < |list| && x == list[i];
      assert i > 0 ==> list[1..][i - 1] == x;
    }
    forall x | x in ListTxs(list[1..]) ensures x in ListTxs(list) {
      var i :| 0 <= i < |list| - 1 && x == list[1..][i];
      assert x == list[i + 1];
    }
  }

  lemma {:induction false} RegularsIndexed(c: Crypto, w: Progress, list: seq<Transaction>, height: nat, position: nat,
                                           txs: set<Transaction>)
    requires IndexOf(w.addresses, txs) && Authentic(Outputs(w.coins))
    requires ConnectRegulars(c, w, list, height, position).Some?
    ensures var w1 := ConnectRegulars(c, w, list, height, position).value;
      IndexOf(w1.addresses, txs + ListTxs(list)) && Authentic(Outputs(w1.coins))
    decreases |list|
  {
    hide ConnectRegular, IndexOf, Authentic;
    if |list| == 0 {
      assert txs + ListTxs(list) == txs;
    } else {
      RegularIndexed(c, w, list[0], height, position, txs);
      RegularsIndexed(c, ConnectRegular(c, w, list[0], height, position).value, list[1..], height, position + 1,
                      txs + {list[0]});
      assert ListTxs(list) == {list[0]} + ListTxs(list[1..]) by { Listed(list); }
      assert txs + {list[0]} + ListTxs(list[1..]) == txs + ListTxs(list);
    }
  }

  lemma CoinbaseIndexed(c: Crypto, w: Progress, tx: Transaction, height: uint64, txs: set<Transaction>)
    requires IndexOf(w.addresses, txs) && Authentic(Outputs(w.coins))
    requires ConnectCoinbase(c, w, tx, height).Some?
    ensures var w1 := ConnectCoinbase(c, w, tx, height).value;
      IndexOf(w1.addresses, txs + {tx}) && Authentic(Outputs(w1.coins))
  {
    hide AddressRowsOf, IndexOf, ComputeId, InMemory, OutputOf, Subsidy, EncodedSize;
    CoinbaseLimits(c, tx, Subsidy(height) + w.fees);
    ValidatedInMemory(tx);
    IndexGrows(w.addresses, txs, tx, []);
    CoinsView(w.coins, tx, height);
    assert w.coins - Spent(tx.inputs) == w.coins;
    AuthenticUpdate(Outputs(w.coins), Spent(tx.inputs), tx);
  }

  // ---------------------------------------------------------------- chains, ledgers and runs

  lemma ChainTxsSnoc(prior: seq<Block>, b: Block)
    requires |b.txs| > 0
    ensures ChainTxs(prior + [b]) == ChainTxs(prior) + ListTxs(b.txs[1..]) + {b.txs[0]}
  {
    Listed(b.txs);
    var next := prior + [b];
    forall x | x in ChainTxs(next) ensures x in ChainTxs(prior) + ListTxs(b.txs) {
      var h, i :| 0 <= h < |next| && 0 <= i < |next[h].txs| && x == next[h].txs[i];
      assert h < |prior| ==> x == prior[h].txs[i];
    }
    forall x | x in ChainTxs(prior) ensures x in ChainTxs(next) {
      var h, i :| 0 <= h < |prior| && 0 <= i < |prior[h].txs| && x == prior[h].txs[i];
      assert x == next[h].txs[i];
    }
    forall x | x in ListTxs(b.txs) ensures x in ChainTxs(next) {
      var i :| 0 <= i < |b.txs| && x == b.txs[i];
      assert x == next[|prior|].txs[i];
    }
  }

  lemma BlockIndexed(c: Crypto, t: Tables, b: Block, txs: set<Transaction>)
    requires IndexOf(t.addresses, txs) && Authentic(Outputs(t.coins)) && ConnectBody(c, t, b).Some?
    ensures var w := ConnectBody(c, t, b).value;
      IndexOf(w.addresses, txs + ListTxs(b.txs[1..]) + {b.txs[0]}) && Authentic(Outputs(w.coins))
  {
    hide ConnectRegulars, ConnectCoinbase, IndexOf, Authentic, ListTxs;
    RegularsIndexed(c, Start(t), b.txs[1..], b.header.height, 1, txs);
    var w := ConnectRegulars(c, Start(t), b.txs[1..], b.header.height, 1).value;
    CoinbaseIndexed(c, w, b.txs[0], b.header.height, txs + ListTxs(b.txs[1..]));
  }

  lemma BodyNotEmpty(c: Crypto, t: Tables, b: Block)
    requires ConnectBody(c, t, b).Some?
    ensures |b.txs| > 0
  {
  }

  lemma ConnectedIndex(c: Crypto, t: Tables, b: Block, txs: set<Transaction>)
    requires IndexOf(t.addresses, txs) && Authentic(Outputs(t.coins)) && Connects(c, t, b)
    ensures |b.txs| > 0
    ensures IndexOf(Connect(c, t, b).addresses, txs + ListTxs(b.txs[1..]) + {b.txs[0]})
    ensures Authentic(Outputs(Connect(c, t, b).coins))
  {
    hide ConnectBody, BlockRules, IndexOf, Authentic, KnownHash, ListTxs, BlockRowOf;
    BodyNotEmpty(c, t, b);
    BlockIndexed(c, t, b, txs);
  }

  lemma GenesisIndex(chain: seq<Block>)
    requires |chain| == 1 && chain[0] == GenesisBlock()
    ensures IndexOf(map[], ChainTxs(chain)) && Authentic(Outputs(map[]))
  {
    assert ChainTxs(chain) == {};
  }

  /** Connecting a chain block by block indexes exactly its transactions. */
  lemma {:induction false} BuiltIndex(c: Crypto, chain: seq<Block>)
    requires Build(c, chain).Some?
    ensures IndexOf(Build(c, chain).value.addresses, ChainTxs(chain)) && Authentic(Outputs(Build(c, chain).value.coins))
    decreases |chain|
  {
    hide Connects, Connect, IndexOf, Authentic, ListTxs, ChainTxs, GenesisBlock, Outputs;
    if |chain| == 1 {
      GenesisIndex(chain);
    } else {
      var prior, b := chain[..|chain| - 1], chain[|chain| - 1];
      BuiltIndex(c, prior);
      ConnectedIndex(c, Build(c, prior).value, b, ChainTxs(prior));
      ChainTxsSnoc(prior, b);
      assert prior + [b] == chain;
    }
  }

  /** After every run the index lists exactly the transactions of the ledger's chain, pruned blocks included. */
  lemma ReachedIndex(c: Crypto, w: World, ops: seq<Op>, t: Tables)
    requires WorldOk(c, w) && Represents(c, t, Run(c, w, ops).chain, Run(c, w, ops).horizon)
    ensures IndexOf(t.addresses, ChainTxs(Run(c, w, ops).chain))
  {
    hide Run, WorldOk, Build, IndexOf;
    BuiltIndex(c, Run(c, w, ops).chain);
  }
}
