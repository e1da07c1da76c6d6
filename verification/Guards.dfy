/**
  The checks of block validation that validation makes needless: 64-bit overflow of the fee total and of the reward,
  and outputs that already exist. On every chain they never decide (internal/core/chain.go and
  internal/ledger/apply.go guard against them all the same).
 */
module Guards {
  import opened Common
  import opened Amounts
  import opened Transactions
  import opened Headers
  import opened Merkle
  import opened Totals
  import opened Replay

  // ---------------------------------------------------------------- the rules without the guards

  /** One regular transaction by the rules alone; fees are an unbounded integer. */
  ghost function PlainRegular(c: Crypto, v: View, fees: nat, tx: Transaction, height: nat): Option<(View, nat)> {
    if tx.coinbase || tx.id in v.seen then None
    else match RegularFee(c, tx, v.utxo)
         case None => None
         case Some(fee) =>
           if InputsMature(tx.inputs, v.origins, height) then Some((ApplyTransaction(v, tx, height), fees + fee)) else None
  }

  ghost function PlainRegulars(c: Crypto, v: View, fees: nat, txs: seq<Transaction>, height: nat): Option<(View, nat)>
    decreases |txs|
  {
    if |txs| == 0 then Some((v, fees))
    else match PlainRegular(c, v, fees, txs[0], height)
         case None => None
         case Some(next) => PlainRegulars(c, next.0, next.1, txs[1..], height)
  }

  ghost function PlainCoinbase(c: Crypto, v: View, fees: nat, tx: Transaction, height: uint64): Option<View> {
    if tx.id !in v.seen && CoinbaseOk(c, tx, Subsidy(height) + fees) then Some(ApplyTransaction(v, tx, height)) else None
  }

  ghost function PlainBlock(c: Crypto, v: View, b: Block): Option<View> {
    if |b.txs| == 0 || !b.txs[0].coinbase then None
    else match PlainRegulars(c, v, 0, b.txs[1..], b.header.height)
         case None => None
         case Some(done) => PlainCoinbase(c, done.0, done.1, b.txs[0], b.header.height)
  }

  ghost function PlainChain(c: Crypto, blocks: seq<Block>): Option<View> {
    if |blocks| == 0 || blocks[0] != GenesisBlock() then None
    else if |blocks| == 1 then Some(EmptyView())
    else
      var prior := blocks[..|blocks| - 1];
      var b := blocks[|blocks| - 1];
      match PlainChain(c, prior)
      case None => None
      case Some(v) =>
        if WindowShape(HeadersOf(prior)) && BlockRules(c, b, HeadersOf(prior)) then PlainBlock(c, v, b) else None
  }

  // ---------------------------------------------------------------- why they are idle

  lemma FreshOutputs(v: View, tx: Transaction, height: nat)
    requires ViewOk(v, height) && tx.id !in v.seen
    ensures OutputsFresh(v, tx)
  {
  }

  /** A fee is taken out of what is unspent, so fees collected so far and what is left stay within the supply. */
  lemma FeeFits(c: Crypto, tx: Transaction, utxo: Utxo, fees: nat)
    requires RegularFee(c, tx, utxo).Some? && Total(utxo) + fees <= MAX_SUPPLY
    ensures fees + RegularFee(c, tx, utxo).value <= MAX_SUPPLY
  {
    hide RegularShape;
    RegularLimits(c, tx, utxo);
    TotalInputs(tx.inputs, utxo);
  }

  lemma RegularGuardsIdle(c: Crypto, v: View, fees: uint64, tx: Transaction, height: nat)
    requires ViewOk(v, height) && Total(v.utxo) + fees <= MAX_SUPPLY
    ensures ReplayRegular(c, v, fees, tx, height) == PlainRegular(c, v, fees, tx, height)
  {
    hide RegularFee, ViewOk, OutputsFresh, ApplyTransaction, InputsMature;
    if tx.id !in v.seen && RegularFee(c, tx, v.utxo).Some? {
      FreshOutputs(v, tx, height);
      FeeFits(c, tx, v.utxo, fees);
    }
  }

  lemma {:induction false} RegularsGuardsIdle(c: Crypto, v: View, fees: uint64, txs: seq<Transaction>, height: nat)
    requires ViewOk(v, height) && Total(v.utxo) + fees <= MAX_SUPPLY && height > 0
    ensures ReplayRegulars(c, v, fees, txs, height) == PlainRegulars(c, v, fees, txs, height)
    decreases |txs|
  {
    hide ReplayRegular, PlainRegular, ViewOk;
    if |txs| > 0 {
      RegularGuardsIdle(c, v, fees, txs[0], height);
      if ReplayRegular(c, v, fees, txs[0], height).Some? {
        var (v', fees') := ReplayRegular(c, v, fees, txs[0], height).value;
        RegularStep(c, v, fees, txs[0], height);
        RegularsGuardsIdle(c, v', fees', txs[1..], height);
      }
    }
  }

  lemma SubsidyBound(height: uint64)
    ensures Subsidy(height) <= 6_341_959
  {
  }

  lemma CoinbaseGuardsIdle(c: Crypto, v: View, fees: uint64, tx: Transaction, height: uint64)
    requires ViewOk(v, height) && fees <= MAX_SUPPLY
    ensures ReplayCoinbase(c, v, fees, tx, height) == PlainCoinbase(c, v, fees, tx, height)
  {
    hide CoinbaseOk, ViewOk, OutputsFresh, ApplyTransaction, Subsidy;
    SubsidyBound(height);
    if tx.id !in v.seen {
      FreshOutputs(v, tx, height);
    }
  }

  /** On a view whose total is within the supply a block is judged by the rules alone. */
  lemma BlockGuardsIdle(c: Crypto, v: View, b: Block)
    requires b.header.height > 0 && ViewOk(v, b.header.height - 1) && Total(v.utxo) <= MAX_SUPPLY
    ensures ReplayBlock(c, v, b) == PlainBlock(c, v, b)
  {
    hide ReplayRegulars, PlainRegulars, ReplayCoinbase, PlainCoinbase, ViewOk;
    var height := b.header.height;
    if |b.txs| > 0 {
      ViewOkLater(v, height - 1);
      RegularsGuardsIdle(c, v, 0, b.txs[1..], height);
      if ReplayRegulars(c, v, 0, b.txs[1..], height).Some? {
        var (v1, fees) := ReplayRegulars(c, v, 0, b.txs[1..], height).value;
        RegularsStep(c, v, 0, b.txs[1..], height);
        CoinbaseGuardsIdle(c, v1, fees, b.txs[0], height);
      }
    }
  }

  lemma NextHeight(c: Crypto, prior: seq<Block>, b: Block)
    requires ReplayChain(c, prior).Some? && WindowShape(HeadersOf(prior)) && BlockRules(c, b, HeadersOf(prior))
    ensures b.header.height == |prior|
  {
    hide ReplayChain, BodyOk;
    LastHeight(c, prior);
    RulesFixHeight(c, b.header, HeadersOf(prior));
  }

  /** No chain is accepted or refused because of a guard: the replay is the replay without them. */
  lemma {:induction false} GuardsNeverDecide(c: Crypto, blocks: seq<Block>)
    ensures ReplayChain(c, blocks) == PlainChain(c, blocks)
    decreases |blocks|
  {
    hide BlockRules, ReplayBlock, PlainBlock, ViewOk, GenesisBlock, WindowShape;
    if |blocks| > 1 && blocks[0] == GenesisBlock() {
      var prior, b := blocks[..|blocks| - 1], blocks[|blocks| - 1];
      GuardsNeverDecide(c, prior);
      if ReplayChain(c, prior).Some? && WindowShape(HeadersOf(prior)) && BlockRules(c, b, HeadersOf(prior)) {
        Conservation(c, prior);
        NextHeight(c, prior, b);
        BlockGuardsIdle(c, ReplayChain(c, prior).value, b);
      }
    }
  }
}
