/**
  The consensus rules in their own numbers: exactly which headers, blocks, transactions and coinbases the full replay
  accepts (internal/core/chain.go, internal/core/transaction.go and internal/core/amount.go).
 */
module Consensus {
  import opened Common
  import opened Encoding
  import opened Amounts
  import opened Transactions
  import opened Headers
  import opened Merkle
  import opened Replay
  import opened Guards
  import opened ChainTables

  /** The subsidy: 6 341 959 units for 12 512 000 blocks, one less up to block 31 536 000, and then the cap is reached. */
  lemma EmissionSchedule(height: uint64)
    ensures Subsidy(height) ==
      if height == 0 then 0 else if height <= 12_512_000 then 6_341_959 else if height <= 31_536_000 then 6_341_958 else 0
    ensures SubsidySum(height) <= 200_000_000_000_000
    ensures SubsidySum(height) == 200_000_000_000_000 <==> height >= 31_536_000
  {
    hide SubsidySum;
    MintedIsSubsidySum(height);
  }

  /** A header extends a chain exactly when it obeys these rules on top of it. */
  lemma HeaderAccepted(c: Crypto, hs: seq<Header>, h: Header)
    requires HeaderChain(c, hs)
    ensures |hs| > 0 && WindowShape(hs) && Last(hs).height == |hs| - 1
    ensures HeaderChain(c, hs + [h]) <==>
      && h.height == |hs| && h.version == (if |hs| < 125_555 then 1 else 2)
      && h.previousHash == hs[|hs| - 1].hash && h.hash == ComputeHash(h)
      && h.timestamp > MedianTimeAt(hs, |hs| - 1) && (|hs| >= 125_555 ==> h.timestamp > hs[|hs| - 1].timestamp)
      && h.difficulty == ExpectedDifficultyAt(hs, |hs|, h.timestamp)
      && DecodeHash(h.merkleRoot).Some?
      && DecodeHash(h.hash).Some? && c.zeroBits(DecodeHash(h.hash).value) >= h.difficulty
  {
    hide MedianTimeAt, ComputeHash, GenesisHeader, ExpectedDifficultyAt;
    HeaderChainStep(c, hs, h);
  }

  /** At a clock reading a header may be dated at most 120 seconds ahead. */
  lemma FutureLimit(timestamp: int64, now: int64)
    ensures NotTooFarAhead(timestamp, now) <==> timestamp <= now + 120
  {
  }

  /** A block extends a valid chain exactly when its header does, its body is within the limits, and the body replays. */
  lemma BlockAccepted(c: Crypto, chain: seq<Block>, b: Block)
    requires ReplayChain(c, chain).Some?
    ensures ReplayChain(c, chain + [b]).Some? <==>
      && HeaderChain(c, HeadersOf(chain) + [b.header])
      && 1 <= |b.txs| <= 2_000 && (forall i | 0 <= i < |b.txs| :: EncodedSize(b.txs[i]) <= 65_536)
      && 256 + BodySize(b.txs) <= 1_048_576 && b.header.merkleRoot == MerkleRoot(b.txs)
      && PlainBlock(c, ReplayChain(c, chain).value, b).Some?
    ensures ReplayChain(c, chain + [b]).Some? ==>
      ReplayChain(c, chain + [b]) == PlainBlock(c, ReplayChain(c, chain).value, b)
  {
    hide ReplayChain, HeaderRules, HeaderChain, EncodedSize, MerkleRoot, BodySize, ReplayBlock, PlainBlock, WindowShape;
    ReplayedHeaders(c, chain);
    HeaderChainStep(c, HeadersOf(chain), b.header);
    ReplaySnoc(c, chain, b);
    if BlockRules(c, b, HeadersOf(chain)) {
      Conservation(c, chain);
      NextHeight(c, chain, b);
      BlockGuardsIdle(c, ReplayChain(c, chain).value, b);
    }
  }

  /** A regular transaction has a fee on a view exactly when it obeys these rules, and the fee is what it leaves over. */
  lemma RegularMeaning(c: Crypto, tx: Transaction, utxo: Utxo)
    ensures RegularFee(c, tx, utxo).Some? <==>
      && !tx.coinbase && tx.id == ComputeId(tx) && EncodedSize(tx) <= 65_536
      && 1 <= |tx.inputs| <= 256 && 1 <= |tx.outputs| <= 256
      && (forall i | 0 <= i < |tx.inputs| ::
            && DecodeHash(tx.inputs[i].txid).Some? && Width(tx.inputs[i].publicKey) == 65
            && 1 <= Width(tx.inputs[i].signature) <= 80
            && Spends(tx.inputs[i]) in utxo && c.authorised(tx, i, utxo[Spends(tx.inputs[i])]))
      && (forall i, j | 0 <= i < j < |tx.inputs| :: Spends(tx.inputs[i]) != Spends(tx.inputs[j]))
      && (forall i | 0 <= i < |tx.outputs| ::
            tx.outputs[i].amount > 0 && Width(tx.outputs[i].address) == 52 && c.checksum(tx.outputs[i].address))
      && InputsKnown(tx.inputs, utxo) && OutputSum(tx.outputs) <= InputSum(tx.inputs, utxo) < 0x1_0000_0000_0000_0000
    ensures RegularFee(c, tx, utxo).Some? ==>
      RegularFee(c, tx, utxo).value == InputSum(tx.inputs, utxo) - OutputSum(tx.outputs)
  {
    hide EncodedSize, ComputeId, OutputSum, InputSum;
  }

  /** A coinbase may claim a reward in exactly one way: one output of the whole of it, or none when there is nothing. */
  lemma CoinbaseMeaning(c: Crypto, tx: Transaction, reward: uint64)
    ensures CoinbaseOk(c, tx, reward) <==>
      && tx.coinbase && tx.inputs == [] && tx.id == ComputeId(tx) && EncodedSize(tx) <= 65_536
      && (if reward == 0 then tx.outputs == []
          else |tx.outputs| == 1 && tx.outputs[0].amount == reward
               && Width(tx.outputs[0].address) == 52 && c.checksum(tx.outputs[0].address))
  {
    hide EncodedSize, ComputeId;
    if |tx.outputs| == 1 {
      assert tx.outputs[..0] == [];
      assert OutputSum(tx.outputs) == tx.outputs[0].amount;
    }
  }

  lemma {:induction false} PlainNoCoinbase(c: Crypto, v: View, fees: nat, txs: seq<Transaction>, height: nat)
    requires PlainRegulars(c, v, fees, txs, height).Some?
    ensures forall i | 0 <= i < |txs| :: !txs[i].coinbase
    decreases |txs|
  {
    hide RegularFee, InputsMature, ApplyTransaction;
    if |txs| > 0 {
      var (v1, fees1) := PlainRegular(c, v, fees, txs[0], height).value;
      PlainNoCoinbase(c, v1, fees1, txs[1..], height);
      assert forall i | 0 < i < |txs| :: txs[i] == txs[1..][i - 1];
    }
  }

  /** The transactions of an accepted block: one coinbase, and it comes first. */
  lemma BodyShape(c: Crypto, v: View, b: Block)
    requires PlainBlock(c, v, b).Some?
    ensures |b.txs| > 0 && b.txs[0].coinbase && (forall i | 0 < i < |b.txs| :: !b.txs[i].coinbase)
  {
    hide PlainRegulars, PlainCoinbase;
    PlainNoCoinbase(c, v, 0, b.txs[1..], b.header.height);
    assert forall i | 0 < i < |b.txs| :: b.txs[i] == b.txs[1..][i - 1];
  }
}
