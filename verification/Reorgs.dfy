/**
  What a reorganisation hands back to the mempool (internal/ledger/reorg.go): orphaned transactions in the order of
  the chain they come from, parents before children, so that what the collector trims away never takes a parent
  from a child it keeps.
 */
module Reorgs {
  import opened Common
  import opened Encoding
  import opened Transactions
  import opened Merkle
  import opened Totals
  import opened Replay
  import opened Tables
  import opened ChainTables
  import opened Collectors
  import opened Worlds

  /** Transactions in an order in which each could be applied, all of them and all they spend from known to the view. */
  ghost predicate InOrder(txs: seq<Transaction>, seen: set<Text>) {
    && (forall k | 0 <= k < |txs| :: txs[k].id in seen)
    && (forall n, i | 0 <= n < |txs| && 0 <= i < |txs[n].inputs| :: txs[n].inputs[i].txid in seen)
    && (forall n, i, k | 0 <= n < |txs| && 0 <= i < |txs[n].inputs| && n <= k < |txs| :: txs[k].id != txs[n].inputs[i].txid)
  }

  lemma OneMore(txs: seq<Transaction>, seen: set<Text>, tx: Transaction)
    requires InOrder(txs, seen) && tx.id !in seen && (forall i | 0 <= i < |tx.inputs| :: tx.inputs[i].txid in seen)
    ensures InOrder(txs + [tx], seen + {tx.id})
  {
  }

  lemma InputsSeen(c: Crypto, v: View, fees: uint64, tx: Transaction, height: nat)
    requires ViewOk(v, height) && ReplayRegular(c, v, fees, tx, height).Some?
    ensures tx.id !in v.seen && (forall i | 0 <= i < |tx.inputs| :: tx.inputs[i].txid in v.seen)
    ensures ReplayRegular(c, v, fees, tx, height).value.0.seen == v.seen + {tx.id}
  {
    hide RegularFee;
    RegularLimits(c, tx, v.utxo);
    forall i | 0 <= i < |tx.inputs| ensures tx.inputs[i].txid in v.seen {
      assert Spends(tx.inputs[i]) in v.utxo;
    }
  }

  /** Replaying more transactions keeps the order of those before and those added. */
  lemma {:induction false} ReplayInOrder(c: Crypto, v: View, fees: uint64, before: seq<Transaction>,
                                         txs: seq<Transaction>, height: nat)
    requires ViewOk(v, height) && height > 0 && InOrder(before, v.seen) && ReplayRegulars(c, v, fees, txs, height).Some?
    ensures InOrder(before + txs, ReplayRegulars(c, v, fees, txs, height).value.0.seen)
    decreases |txs|
  {
    hide ReplayRegular, ViewOk, InOrder;
    if |txs| == 0 {
      assert before + txs == before;
    } else {
      var (v1, fees1) := ReplayRegular(c, v, fees, txs[0], height).value;
      InputsSeen(c, v, fees, txs[0], height);
      OneMore(before, v.seen, txs[0]);
      RegularStep(c, v, fees, txs[0], height);
      ReplayInOrder(c, v1, fees1, before + [txs[0]], txs[1..], height);
      assert before + [txs[0]] + txs[1..] == before + txs;
    }
  }

  lemma {:induction false} NoCoinbase(c: Crypto, v: View, fees: uint64, txs: seq<Transaction>, height: nat)
    requires ReplayRegulars(c, v, fees, txs, height).Some?
    ensures forall i | 0 <= i < |txs| :: !txs[i].coinbase
    decreases |txs|
  {
    hide RegularFee, OutputsFresh, ApplyTransaction, InputsMature;
    if |txs| > 0 {
      var (v1, fees1) := ReplayRegular(c, v, fees, txs[0], height).value;
      NoCoinbase(c, v1, fees1, txs[1..], height);
      assert forall i | 0 < i < |txs| :: txs[i] == txs[1..][i - 1];
    }
  }

  lemma {:induction false} RegularIsTail(txs: seq<Transaction>)
    requires |txs| > 0 && txs[0].coinbase && (forall i | 0 < i < |txs| :: !txs[i].coinbase)
    ensures Regular(txs) == txs[1..]
    decreases |txs|
  {
    if |txs| == 1 {
      assert Regular(txs[..0]) == [];
    } else {
      RegularIsTail(txs[..|txs| - 1]);
      assert txs[1..] == txs[..|txs| - 1][1..] + [txs[|txs| - 1]];
    }
  }

  lemma MoreSeen(txs: seq<Transaction>, seen: set<Text>, id: Text)
    requires InOrder(txs, seen)
    ensures InOrder(txs, seen + {id})
  {
  }

  /** The transactions of one more block follow those before. */
  lemma BlockInOrder(c: Crypto, v: View, before: seq<Transaction>, b: Block)
    requires b.header.height > 0 && ViewOk(v, b.header.height - 1) && InOrder(before, v.seen)
    requires ReplayBlock(c, v, b).Some?
    ensures InOrder(before + Regular(b.txs), ReplayBlock(c, v, b).value.seen)
  {
    hide ReplayRegulars, ViewOk, InOrder, Regular, CoinbaseOk, OutputsFresh;
    var height := b.header.height;
    ViewOkLater(v, height - 1);
    NoCoinbase(c, v, 0, b.txs[1..], height);
    RegularIsTail(b.txs);
    ReplayInOrder(c, v, 0, before, b.txs[1..], height);
    MoreSeen(before + b.txs[1..], ReplayRegulars(c, v, 0, b.txs[1..], height).value.0.seen, b.txs[0].id);
  }

  lemma OrphansSnoc(blocks: seq<Block>, b: Block)
    ensures Orphans(blocks + [b]) == Orphans(blocks) + Regular(b.txs)
  {
    hide Regular;
    assert (blocks + [b])[..|blocks|] == blocks;
  }

  lemma NoOrphans(seen: set<Text>)
    ensures InOrder(Orphans([]), seen)
  {
  }

  /** The transactions above any height of a valid chain come in an order in which they could be applied again. */
  lemma {:induction false} OrphansInOrder(c: Crypto, chain: seq<Block>, ancestor: nat)
    requires ReplayChain(c, chain).Some? && ancestor < |chain|
    ensures InOrder(Orphans(chain[ancestor + 1..]), ReplayChain(c, chain).value.seen)
    decreases |chain|
  {
    hide ReplayBlock, BlockRules, ViewOk, InOrder, Orphans, GenesisBlock;
    if ancestor == |chain| - 1 {
      NoOrphans(ReplayChain(c, chain).value.seen);
      assert chain[ancestor + 1..] == [];
    } else {
      var prior, b := chain[..|chain| - 1], chain[|chain| - 1];
      OrphansInOrder(c, prior, ancestor);
      Conservation(c, prior);
      LastHeight(c, chain);
      BlockInOrder(c, ReplayChain(c, prior).value, Orphans(prior[ancestor + 1..]), b);
      OrphansSnoc(prior[ancestor + 1..], b);
      assert prior[ancestor + 1..] + [b] == chain[ancestor + 1..];
    }
  }

  /**
    Why the oldest are kept: an orphaned parent of a transaction that goes back to the mempool goes back too, and
    before it. A parent that is not orphaned is not among the regular transactions above the ancestor.
   */
  lemma KeptHaveParents(c: Crypto, chain: seq<Block>, ancestor: nat, n: nat, i: nat, k: nat)
    requires Build(c, chain).Some? && ancestor < |chain|
    requires n < |OrphanedBy(chain, ancestor)| && i < |OrphanedBy(chain, ancestor)[n].inputs|
    requires k < |Orphans(chain[ancestor + 1..])|
    requires Orphans(chain[ancestor + 1..])[k].id == OrphanedBy(chain, ancestor)[n].inputs[i].txid
    ensures k < n && OrphanedBy(chain, ancestor)[k] == Orphans(chain[ancestor + 1..])[k]
  {
    hide Build, ReplayChain, Orphans, Kept;
    BuildAgreesWithReplay(c, chain);
    OrphansInOrder(c, chain, ancestor);
    var orphans := Orphans(chain[ancestor + 1..]);
    assert OrphanedBy(chain, ancestor)[n] == orphans[n];
  }
}
