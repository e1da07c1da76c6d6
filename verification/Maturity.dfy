/**
  Coinbase maturity over whole chains: an output of a coinbase is spent at least a hundred blocks after it was mined,
  and that is all that age asks of a transaction (internal/core/chain.go and internal/ledger/apply.go).
 */
module Maturity {
  import opened Common
  import opened Encoding
  import opened Amounts
  import opened Transactions
  import opened Merkle
  import opened Totals
  import opened Replay
  import opened Guards
  import opened Tables
  import opened ChainTables
  import opened Worlds
  import opened Runs

  /** Where a view says an output comes from is where the chain created it, if a coinbase of the chain did. */
  ghost predicate CoinbasesKnown(v: View, chain: seq<Block>) {
    forall g | 0 < g < |chain| ::
      && |chain[g].txs| > 0 && chain[g].txs[0].id in v.seen
      && (forall o | o in v.origins && o.txid == chain[g].txs[0].id :: v.origins[o] == Origin(g, true))
  }

  /** Every transaction of the chain spends from transactions the view has seen. */
  ghost predicate InputsSeenBy(v: View, chain: seq<Block>) {
    forall h, i, n | 0 < h < |chain| && 0 <= i < |chain[h].txs| && 0 <= n < |chain[h].txs[i].inputs| ::
      chain[h].txs[i].inputs[n].txid in v.seen
  }

  /** A spend of a coinbase of the chain at this height is late enough. */
  predicate LateEnough(tx: Transaction, chain: seq<Block>, height: nat) {
    forall g, n | 0 < g < |chain| && |chain[g].txs| > 0 && 0 <= n < |tx.inputs| && tx.inputs[n].txid == chain[g].txs[0].id ::
      g + 100 <= height
  }

  // ---------------------------------------------------------------- one transaction

  /**
    What a view whose total is within the supply asks of a regular transaction: a new identifier, a valid spend, and
    that every coinbase output it spends was created at least a hundred blocks before.
   */
  lemma RegularAccepted(c: Crypto, v: View, fees: uint64, tx: Transaction, height: nat)
    requires ViewOk(v, height) && height > 0 && Total(v.utxo) + fees <= MAX_SUPPLY
    ensures ReplayRegular(c, v, fees, tx, height).Some? <==>
      && tx.id !in v.seen && RegularFee(c, tx, v.utxo).Some?
      && (forall n | 0 <= n < |tx.inputs| ::
            v.origins[Spends(tx.inputs[n])].coinbase ==> v.origins[Spends(tx.inputs[n])].createdHeight + 100 <= height)
  {
    hide RegularFee;
    RegularGuardsIdle(c, v, fees, tx, height);
    if RegularFee(c, tx, v.utxo).Some? {
      RegularLimits(c, tx, v.utxo);
      forall n | 0 <= n < |tx.inputs| ensures Spends(tx.inputs[n]) in v.origins {
        assert Spends(tx.inputs[n]) in v.utxo;
      }
    }
  }

  lemma RegularSpendsLate(c: Crypto, v: View, fees: uint64, tx: Transaction, height: nat, chain: seq<Block>)
    requires ViewOk(v, height) && CoinbasesKnown(v, chain) && InputsSeenBy(v, chain)
    requires ReplayRegular(c, v, fees, tx, height).Some?
    ensures LateEnough(tx, chain, height) && (forall n | 0 <= n < |tx.inputs| :: tx.inputs[n].txid in v.seen)
    ensures var v1 := ReplayRegular(c, v, fees, tx, height).value.0;
      CoinbasesKnown(v1, chain) && InputsSeenBy(v1, chain) && v1.seen == v.seen + {tx.id}
  {
    hide RegularFee;
    RegularLimits(c, tx, v.utxo);
    forall n | 0 <= n < |tx.inputs| ensures tx.inputs[n].txid in v.seen && Spends(tx.inputs[n]) in v.origins {
      assert Spends(tx.inputs[n]) in v.utxo;
    }
  }

  lemma {:induction false} RegularsSpendLate(c: Crypto, v: View, fees: uint64, txs: seq<Transaction>, height: nat,
                                             chain: seq<Block>)
    requires ViewOk(v, height) && height > 0 && CoinbasesKnown(v, chain) && InputsSeenBy(v, chain)
    requires ReplayRegulars(c, v, fees, txs, height).Some?
    ensures var v1 := ReplayRegulars(c, v, fees, txs, height).value.0;
      && CoinbasesKnown(v1, chain) && InputsSeenBy(v1, chain) && v.seen <= v1.seen
      && (forall i | 0 <= i < |txs| :: LateEnough(txs[i], chain, height))
      && (forall i, n | 0 <= i < |txs| && 0 <= n < |txs[i].inputs| :: txs[i].inputs[n].txid in v1.seen)
    decreases |txs|
  {
    hide ReplayRegular, ViewOk, CoinbasesKnown, InputsSeenBy, LateEnough;
    if |txs| > 0 {
      var (v1, fees1) := ReplayRegular(c, v, fees, txs[0], height).value;
      RegularSpendsLate(c, v, fees, txs[0], height, chain);
      RegularStep(c, v, fees, txs[0], height);
      RegularsSpendLate(c, v1, fees1, txs[1..], height, chain);
      assert forall i | 0 < i < |txs| :: txs[i] == txs[1..][i - 1];
    }
  }

  // ---------------------------------------------------------------- one block

  /** The coinbase is new when it comes: nothing in its block or before has spent from it. */
  lemma CoinbaseKnown(c: Crypto, v: View, fees: uint64, b: Block, chain: seq<Block>)
    requires |b.txs| > 0 && b.txs[0].coinbase && b.header.height == |chain| > 0 && ViewOk(v, |chain|)
    requires CoinbasesKnown(v, chain) && InputsSeenBy(v, chain)
    requires forall i, n | 0 < i < |b.txs| && 0 <= n < |b.txs[i].inputs| :: b.txs[i].inputs[n].txid in v.seen
    requires ReplayCoinbase(c, v, fees, b.txs[0], b.header.height).Some?
    ensures var v1 := ReplayCoinbase(c, v, fees, b.txs[0], b.header.height).value;
      CoinbasesKnown(v1, chain + [b]) && InputsSeenBy(v1, chain + [b])
    ensures b.txs[0].id !in v.seen && |b.txs[0].inputs| == 0
  {
    hide OutputsFresh, Subsidy, EncodedSize, ComputeId;
    var next, v1 := chain + [b], ReplayCoinbase(c, v, fees, b.txs[0], b.header.height).value;
    forall g | 0 < g < |next|
      ensures |next[g].txs| > 0 && next[g].txs[0].id in v1.seen
           && (forall o | o in v1.origins && o.txid == next[g].txs[0].id :: v1.origins[o] == Origin(g, true)) {
      if g < |chain| {
        assert next[g] == chain[g];
      }
    }
    forall h, i, n | 0 < h < |next| && 0 <= i < |next[h].txs| && 0 <= n < |next[h].txs[i].inputs|
      ensures next[h].txs[i].inputs[n].txid in v1.seen {
      if h < |chain| {
        assert next[h] == chain[h];
      }
    }
  }

  lemma StillLate(txs: seq<Transaction>, chain: seq<Block>, b: Block, height: nat, seen: set<Text>)
    requires |b.txs| > 0 && b.txs[0].id !in seen
    requires forall i | 0 <= i < |txs| :: LateEnough(txs[i], chain, height)
    requires forall i, n | 0 <= i < |txs| && 0 <= n < |txs[i].inputs| :: txs[i].inputs[n].txid in seen
    ensures forall i | 0 <= i < |txs| :: LateEnough(txs[i], chain + [b], height)
  {
  }

  lemma NothingSpent(tx: Transaction, chain: seq<Block>, height: nat)
    requires |tx.inputs| == 0
    ensures LateEnough(tx, chain, height)
  {
  }

  lemma BlockSpendsLate(c: Crypto, v: View, b: Block, chain: seq<Block>)
    requires b.header.height == |chain| > 0 && ViewOk(v, |chain| - 1)
    requires CoinbasesKnown(v, chain) && InputsSeenBy(v, chain) && ReplayBlock(c, v, b).Some?
    ensures var v1 := ReplayBlock(c, v, b).value;
      CoinbasesKnown(v1, chain + [b]) && InputsSeenBy(v1, chain + [b])
    ensures |b.txs| > 0 && b.txs[0].id !in v.seen
    ensures forall i | 0 <= i < |b.txs| :: LateEnough(b.txs[i], chain + [b], |chain|)
  {
    hide ReplayRegulars, ReplayCoinbase, ViewOk, CoinbasesKnown, InputsSeenBy, LateEnough;
    var rest := b.txs[1..];
    ViewOkLater(v, |chain| - 1);
    RegularsSpendLate(c, v, 0, rest, |chain|, chain);
    RegularsStep(c, v, 0, rest, |chain|);
    var (v1, fees) := ReplayRegulars(c, v, 0, rest, |chain|).value;
    forall i, n | 0 < i < |b.txs| && 0 <= n < |b.txs[i].inputs| ensures b.txs[i].inputs[n].txid in v1.seen {
      assert b.txs[i] == rest[i - 1];
    }
    CoinbaseKnown(c, v1, fees, b, chain);
    StillLate(rest, chain, b, |chain|, v1.seen);
    NothingSpent(b.txs[0], chain + [b], |chain|);
    forall i | 0 <= i < |b.txs| ensures LateEnough(b.txs[i], chain + [b], |chain|) {
      assert i > 0 ==> b.txs[i] == rest[i - 1];
    }
  }

  // ---------------------------------------------------------------- chains, ledgers and runs

  lemma SeenInputs(v: View, chain: seq<Block>, h: nat)
    requires InputsSeenBy(v, chain) && 0 < h < |chain|
    ensures forall i, n | 0 <= i < |chain[h].txs| && 0 <= n < |chain[h].txs[i].inputs| :: chain[h].txs[i].inputs[n].txid in v.seen
  {
  }

  lemma GenesisSpendsNothing(chain: seq<Block>)
    requires |chain| == 1
    ensures CoinbasesKnown(EmptyView(), chain) && InputsSeenBy(EmptyView(), chain)
  {
  }

  lemma {:induction false} ChainSpendsLate(c: Crypto, chain: seq<Block>)
    requires ReplayChain(c, chain).Some?
    ensures CoinbasesKnown(ReplayChain(c, chain).value, chain) && InputsSeenBy(ReplayChain(c, chain).value, chain)
    ensures forall h, i | 0 < h < |chain| && 0 <= i < |chain[h].txs| :: LateEnough(chain[h].txs[i], chain, h)
    decreases |chain|
  {
    hide ReplayBlock, BlockRules, ViewOk, CoinbasesKnown, InputsSeenBy, LateEnough, GenesisBlock;
    if |chain| == 1 {
      GenesisSpendsNothing(chain);
    } else {
      var prior, b := chain[..|chain| - 1], chain[|chain| - 1];
      ChainSpendsLate(c, prior);
      Conservation(c, prior);
      LastHeight(c, chain);
      var v := ReplayChain(c, prior).value;
      BlockSpendsLate(c, v, b, prior);
      assert prior + [b] == chain;
      forall h, i | 0 < h < |chain| && 0 <= i < |chain[h].txs| ensures LateEnough(chain[h].txs[i], chain, h) {
        if h < |prior| {
          assert chain[h] == prior[h];
          SeenInputs(v, prior, h);
          StillLate(prior[h].txs, prior, b, h, v.seen);
        }
      }
    }
  }

  /** On every valid chain whatever spends from the coinbase of one block is at least a hundred blocks above it. */
  lemma CoinbaseSpentLate(c: Crypto, chain: seq<Block>, g: nat, h: nat, i: nat, n: nat)
    requires ReplayChain(c, chain).Some?
    requires 0 < g < |chain| && 0 < h < |chain| && i < |chain[h].txs| && n < |chain[h].txs[i].inputs|
    requires |chain[g].txs| > 0 && chain[h].txs[i].inputs[n].txid == chain[g].txs[0].id
    ensures g + 100 <= h
  {
    hide ReplayChain;
    ChainSpendsLate(c, chain);
    assert LateEnough(chain[h].txs[i], chain, h);
  }

  lemma BuiltSpendsLate(c: Crypto, chain: seq<Block>, g: nat, h: nat, i: nat, n: nat)
    requires Build(c, chain).Some?
    requires 0 < g < |chain| && 0 < h < |chain| && i < |chain[h].txs| && n < |chain[h].txs[i].inputs|
    requires |chain[g].txs| > 0 && chain[h].txs[i].inputs[n].txid == chain[g].txs[0].id
    ensures g + 100 <= h
  {
    hide Build, ReplayChain;
    BuildAgreesWithReplay(c, chain);
    CoinbaseSpentLate(c, chain, g, h, i, n);
  }

  /** The same on the chain of a ledger after every run: connection never lets an immature coinbase be spent. */
  lemma ReachedSpendsLate(c: Crypto, w: World, ops: seq<Op>, g: nat, h: nat, i: nat, n: nat)
    requires WorldOk(c, w)
    requires var chain := Run(c, w, ops).chain;
      && 0 < g < |chain| && 0 < h < |chain| && i < |chain[h].txs| && n < |chain[h].txs[i].inputs|
      && |chain[g].txs| > 0 && chain[h].txs[i].inputs[n].txid == chain[g].txs[0].id
    ensures g + 100 <= h
  {
    hide Run, WorldOk, Build, ReplayChain;
    RunKeepsWorld(c, w, ops);
    WorldHorizon(c, Run(c, w, ops));
    BuiltSpendsLate(c, Run(c, w, ops).chain, g, h, i, n);
  }
}
