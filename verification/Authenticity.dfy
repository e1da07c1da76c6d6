/**
  Why a transaction keeps its worth when the chain under it changes: an outpoint names the transaction that created
  it by content, so every chain and every mempool gives it the same output. What was valid once stays valid wherever
  its inputs exist (internal/ledger/reorg.go and internal/ledger/mempool.go rely on it when orphans return).
 */
module Authenticity {
  import opened Common
  import opened Encoding
  import opened Amounts
  import opened Transactions
  import opened Merkle
  import opened Totals
  import opened Replay
  import opened Tables
  import opened Refinement
  import opened MiningRules
  import opened Worlds
  import opened Reorgs

  /** A transaction that carries its own identifier. */
  predicate Computed(tx: Transaction) {
    tx.id == ComputeId(tx) && InMemory(tx)
  }

  ghost predicate OutputOf(o: Outpoint, output: TxOutput) {
    exists tx :: Computed(tx) && o in Created(tx) && tx.outputs[o.index] == output
  }

  /** Every output of the view is one that the transaction named by its outpoint created. */
  ghost predicate Authentic(u: Utxo) {
    forall o | o in u :: OutputOf(o, u[o])
  }

  lemma OutputUnique(o: Outpoint, a: TxOutput, b: TxOutput)
    requires OutputOf(o, a) && OutputOf(o, b)
    ensures a == b
  {
    hide ComputeId, InMemory;
    var x :| Computed(x) && o in Created(x) && x.outputs[o.index] == a;
    var y :| Computed(y) && o in Created(y) && y.outputs[o.index] == b;
    IdBindsTransaction(x, y);
  }

  /** Two authentic views never disagree about a transaction whose inputs both know. */
  lemma FeeSame(c: Crypto, tx: Transaction, a: Utxo, b: Utxo)
    requires Authentic(a) && Authentic(b) && InputsKnown(tx.inputs, a) && InputsKnown(tx.inputs, b)
    ensures RegularFee(c, tx, a) == RegularFee(c, tx, b)
    ensures forall i | 0 <= i < |tx.inputs| :: AgreeAt(a, b, Spends(tx.inputs[i]))
  {
    hide RegularFee, OutputOf;
    forall i | 0 <= i < |tx.inputs| ensures AgreeAt(a, b, Spends(tx.inputs[i])) {
      var o := Spends(tx.inputs[i]);
      OutputUnique(o, a[o], b[o]);
    }
    FeeDependsOnInputs(c, tx, a, b);
  }

  /** A transaction that was valid on some authentic view within the supply. */
  ghost predicate Payable(c: Crypto, tx: Transaction) {
    exists u :: Authentic(u) && Total(u) <= MAX_SUPPLY && RegularFee(c, tx, u).Some?
  }

  /** Payable transactions fit the store, whatever view they are judged on. */
  lemma PayableFits(c: Crypto, tx: Transaction, u: Utxo)
    requires Payable(c, tx) && Authentic(u) && InputsKnown(tx.inputs, u)
    ensures RegularFee(c, tx, u).Some? && RegularFee(c, tx, u).value <= MAX_SUPPLY && Storable(tx)
    ensures 0 < |tx.inputs| && 0 < EncodedSize(tx)
  {
    hide RegularShape, Authentic, ComputeId;
    var v :| Authentic(v) && Total(v) <= MAX_SUPPLY && RegularFee(c, tx, v).Some?;
    RegularLimits(c, tx, v);
    FeeSame(c, tx, u, v);
    OutputsBounded(c, tx, v);
    TotalInputs(tx.inputs, v);
    EncodedSizeParts(tx);
  }

  lemma AuthenticUpdate(u: Utxo, spent: set<Outpoint>, tx: Transaction)
    requires Authentic(u) && Computed(tx)
    ensures Authentic(u - spent + OutputsOf(tx))
  {
    hide ComputeId, InMemory;
    var next := u - spent + OutputsOf(tx);
    forall o | o in next ensures OutputOf(o, next[o]) {
      if o in OutputsOf(tx) {
        assert Computed(tx) && o in Created(tx) && tx.outputs[o.index] == next[o];
      }
    }
  }

  // ---------------------------------------------------------------- the transactions of a chain

  /** No two of the transactions share an identifier or an input. */
  predicate Apart(txs: seq<Transaction>) {
    forall i, j | 0 <= i < j < |txs| :: txs[i].id != txs[j].id && Spent(txs[i].inputs) !! Spent(txs[j].inputs)
  }

  /** Transactions applied on the way to a view: known and spent for good, apart from each other, each once valid. */
  ghost predicate Applied(c: Crypto, txs: seq<Transaction>, v: View) {
    && InOrder(txs, v.seen) && Apart(txs) && Authentic(v.utxo)
    && (forall n | 0 <= n < |txs| :: Spent(txs[n].inputs) !! v.utxo.Keys && Payable(c, txs[n]))
  }

  lemma IdsSeen(txs: seq<Transaction>, seen: set<Text>)
    requires InOrder(txs, seen)
    ensures forall n | 0 <= n < |txs| :: txs[n].id in seen
    ensures forall n, o | 0 <= n < |txs| && o in Spent(txs[n].inputs) :: o.txid in seen
  {
  }

  lemma OneApart(txs: seq<Transaction>, v: View, tx: Transaction)
    requires Apart(txs) && InOrder(txs, v.seen) && (forall n | 0 <= n < |txs| :: Spent(txs[n].inputs) !! v.utxo.Keys)
    requires tx.id !in v.seen && InputsKnown(tx.inputs, v.utxo)
    ensures Apart(txs + [tx])
  {
    hide InOrder, Created;
    assert forall n | 0 <= n < |txs| :: txs[n].id in v.seen by { IdsSeen(txs, v.seen); }
  }

  lemma IsPayable(c: Crypto, tx: Transaction, u: Utxo)
    requires Authentic(u) && Total(u) <= MAX_SUPPLY && RegularFee(c, tx, u).Some?
    ensures Payable(c, tx)
  {
    hide RegularFee, Authentic;
  }

  lemma SpentForGood(txs: seq<Transaction>, v: View, tx: Transaction)
    requires forall n | 0 <= n < |txs| :: Spent(txs[n].inputs) !! v.utxo.Keys
    requires forall n, o | 0 <= n < |txs| && o in Spent(txs[n].inputs) :: o.txid in v.seen
    requires tx.id !in v.seen && (forall i | 0 <= i < |tx.inputs| :: tx.inputs[i].txid in v.seen)
    ensures var u := v.utxo - Spent(tx.inputs) + OutputsOf(tx);
      forall n | 0 <= n < |txs| + 1 :: Spent((txs + [tx])[n].inputs) !! u.Keys
  {
  }

  lemma RegularApplied(c: Crypto, v: View, fees: uint64, tx: Transaction, height: nat, txs: seq<Transaction>)
    requires ViewOk(v, height) && Total(v.utxo) + fees <= MAX_SUPPLY && Applied(c, txs, v)
    requires ReplayRegular(c, v, fees, tx, height).Some?
    ensures Applied(c, txs + [tx], ReplayRegular(c, v, fees, tx, height).value.0)
  {
    hide RegularFee, ComputeId, InMemory, Apart, InOrder, Payable, Authentic, OutputsFresh, InputsMature, ViewOk,
      Created;
    InputsSeen(c, v, fees, tx, height);
    RegularIsBody(c, tx, v.utxo);
    RegularLimits(c, tx, v.utxo);
    OneMore(txs, v.seen, tx);
    OneApart(txs, v, tx);
    AuthenticUpdate(v.utxo, Spent(tx.inputs), tx);
    IdsSeen(txs, v.seen);
    IsPayable(c, tx, v.utxo);
    SpentForGood(txs, v, tx);
  }

  lemma {:induction false} RegularsApplied(c: Crypto, v: View, fees: uint64, list: seq<Transaction>, height: nat,
                                           txs: seq<Transaction>)
    requires ViewOk(v, height) && height > 0 && Total(v.utxo) + fees <= MAX_SUPPLY && Applied(c, txs, v)
    requires ReplayRegulars(c, v, fees, list, height).Some?
    ensures Applied(c, txs + list, ReplayRegulars(c, v, fees, list, height).value.0)
    decreases |list|
  {
    hide ReplayRegular, ViewOk, Applied;
    if |list| == 0 {
      assert txs + list == txs;
    } else {
      var (v1, fees1) := ReplayRegular(c, v, fees, list[0], height).value;
      RegularApplied(c, v, fees, list[0], height, txs);
      RegularStep(c, v, fees, list[0], height);
      RegularsApplied(c, v1, fees1, list[1..], height, txs + [list[0]]);
      assert txs + [list[0]] + list[1..] == txs + list;
    }
  }

  lemma CoinbaseApplied(c: Crypto, v: View, fees: uint64, tx: Transaction, height: uint64, txs: seq<Transaction>)
    requires Applied(c, txs, v) && ReplayCoinbase(c, v, fees, tx, height).Some?
    ensures Applied(c, txs, ReplayCoinbase(c, v, fees, tx, height).value)
  {
    hide ComputeId, InMemory, Apart, InOrder, Payable, Authentic, OutputsFresh, Subsidy, EncodedSize, Created;
    CoinbaseLimits(c, tx, Subsidy(height) + fees);
    ValidatedInMemory(tx);
    AuthenticUpdate(v.utxo, Spent(tx.inputs), tx);
    MoreSeen(txs, v.seen, tx.id);
    IdsSeen(txs, v.seen);
    SpentForGood(txs, v, tx);
    assert forall n | 0 <= n < |txs| :: (txs + [tx])[n] == txs[n];
  }

  lemma BlockApplied(c: Crypto, v: View, b: Block, txs: seq<Transaction>)
    requires b.header.height > 0 && ViewOk(v, b.header.height - 1) && Total(v.utxo) <= MAX_SUPPLY
    requires Applied(c, txs, v) && ReplayBlock(c, v, b).Some?
    ensures Applied(c, txs + b.txs[1..], ReplayBlock(c, v, b).value)
  {
    hide ReplayRegulars, ReplayCoinbase, ViewOk, Applied;
    var height := b.header.height;
    ViewOkLater(v, height - 1);
    RegularsApplied(c, v, 0, b.txs[1..], height, txs);
    var (v1, fees) := ReplayRegulars(c, v, 0, b.txs[1..], height).value;
    CoinbaseApplied(c, v1, fees, b.txs[0], height, txs + b.txs[1..]);
  }

  /** The bodies of the blocks without their coinbases, oldest first. */
  function Tails(blocks: seq<Block>): seq<Transaction> {
    if |blocks| == 0 then []
    else Tails(blocks[..|blocks| - 1]) + (var b := blocks[|blocks| - 1]; if |b.txs| == 0 then [] else b.txs[1..])
  }

  lemma TailsSnoc(blocks: seq<Block>, b: Block)
    requires |b.txs| > 0
    ensures Tails(blocks + [b]) == Tails(blocks) + b.txs[1..]
  {
    assert (blocks + [b])[..|blocks|] == blocks;
  }

  lemma RegularBodyTail(c: Crypto, v: View, b: Block)
    requires ReplayBlock(c, v, b).Some?
    ensures |b.txs| > 0 && Regular(b.txs) == b.txs[1..]
  {
    hide ReplayRegulars, ReplayCoinbase;
    NoCoinbase(c, v, 0, b.txs[1..], b.header.height);
    assert forall i | 0 < i < |b.txs| :: b.txs[i] == b.txs[1..][i - 1];
    RegularIsTail(b.txs);
  }

  lemma FewerApplied(c: Crypto, txs: seq<Transaction>, v: View)
    requires Applied(c, txs, v)
    ensures Applied(c, [], v)
  {
  }

  lemma GenesisApplied(c: Crypto)
    ensures Applied(c, [], EmptyView())
  {
  }

  /** The regular transactions above any height of a valid chain were all applied on the way to its view. */
  lemma {:induction false} TailsApplied(c: Crypto, chain: seq<Block>, ancestor: nat)
    requires ReplayChain(c, chain).Some? && ancestor < |chain|
    ensures Applied(c, Tails(chain[ancestor + 1..]), ReplayChain(c, chain).value)
    ensures Orphans(chain[ancestor + 1..]) == Tails(chain[ancestor + 1..])
    decreases |chain|
  {
    hide ReplayBlock, BlockRules, ViewOk, Applied, GenesisBlock, Regular;
    if |chain| == 1 {
      assert chain[1..] == [];
      GenesisApplied(c);
    } else {
      var prior, b := chain[..|chain| - 1], chain[|chain| - 1];
      var v := ReplayChain(c, prior).value;
      Conservation(c, prior);
      LastHeight(c, chain);
      RegularBodyTail(c, v, b);
      if ancestor == |chain| - 1 {
        TailsApplied(c, prior, |prior| - 1);
        assert chain[ancestor + 1..] == [] == prior[|prior|..];
        BlockApplied(c, v, b, []);
        FewerApplied(c, [] + b.txs[1..], ReplayChain(c, chain).value);
      } else {
        TailsApplied(c, prior, ancestor);
        var before := prior[ancestor + 1..];
        BlockApplied(c, v, b, Tails(before));
        assert before + [b] == chain[ancestor + 1..];
        TailsSnoc(before, b);
        OrphansSnoc(before, b);
      }
    }
  }
}
