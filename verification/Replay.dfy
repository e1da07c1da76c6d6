/**
  internal/core/chain.go, State.replay: the reference semantics. It folds a whole chain from genesis over a
  map of unspent outputs, a map of their origins and the set of identifiers seen so far.
 */
module Replay {
  import opened Common
  import opened Encoding
  import opened Amounts
  import opened Transactions
  import opened Headers
  import opened Merkle
  import opened Totals

  const COINBASE_MATURITY: int := 100
  const COINBASE_MATURITY_ACTIVATION_HEIGHT: int := 1

  datatype Origin = Origin(createdHeight: nat, coinbase: bool)

  datatype View = View(utxo: Utxo, origins: map<Outpoint, Origin>, seen: set<Text>)

  predicate IsCoinbaseMature(createdHeight: nat, spendingHeight: nat) {
    if spendingHeight < createdHeight then false
    else if spendingHeight < COINBASE_MATURITY_ACTIVATION_HEIGHT then true
    else spendingHeight - createdHeight >= COINBASE_MATURITY
  }

  predicate OriginMature(origin: Origin, spendingHeight: nat) {
    !origin.coinbase || IsCoinbaseMature(origin.createdHeight, spendingHeight)
  }

  predicate InputsMature(inputs: seq<TxInput>, origins: map<Outpoint, Origin>, height: nat) {
    forall i | 0 <= i < |inputs| :: Spends(inputs[i]) in origins && OriginMature(origins[Spends(inputs[i])], height)
  }

  // ---------------------------------------------------------------- block bodies

  ghost function BodySize(txs: seq<Transaction>): nat {
    if |txs| == 0 then 0 else BodySize(txs[..|txs| - 1]) + EncodedSize(txs[|txs| - 1])
  }

  /** The limits on a block body that need no ledger, and the Merkle root that binds it to the header. */
  ghost predicate BodyOk(b: Block) {
    && 0 < |b.txs| <= MAX_BLOCK_TRANSACTIONS
    && (forall i | 0 <= i < |b.txs| :: EncodedSize(b.txs[i]) <= MAX_TRANSACTION_BYTES)
    && 256 + BodySize(b.txs) <= MAX_BLOCK_BYTES
    && b.header.merkleRoot == MerkleRoot(b.txs)
  }

  lemma {:induction false} BodySizePrefix(txs: seq<Transaction>, n: nat)
    requires n <= |txs|
    ensures BodySize(txs[..n]) <= BodySize(txs)
  {
    hide EncodedSize;
    if n == |txs| {
      assert txs[..n] == txs;
    } else {
      var front := txs[..|txs| - 1];
      assert front[..n] == txs[..n];
      BodySizePrefix(front, n);
    }
  }

  method ValidateBody(b: Block) returns (ok: bool)
    ensures ok == BodyOk(b)
  {
    hide EncodedSize;
    if |b.txs| == 0 || |b.txs| > MAX_BLOCK_TRANSACTIONS {
      return false;
    }
    var size := 256;
    for i := 0 to |b.txs|
      invariant size == 256 + BodySize(b.txs[..i]) <= MAX_BLOCK_BYTES
      invariant forall j | 0 <= j < i :: EncodedSize(b.txs[j]) <= MAX_TRANSACTION_BYTES
    {
      assert b.txs[..i + 1][..i] == b.txs[..i];
      BodySizePrefix(b.txs, i + 1);
      var transactionBytes := EncodedSize(b.txs[i]);
      if transactionBytes > MAX_TRANSACTION_BYTES {
        return false;
      }
      size := size + transactionBytes;
      if size > MAX_BLOCK_BYTES {
        return false;
      }
    }
    assert b.txs[..|b.txs|] == b.txs;
    var root := ComputeMerkleRoot(b.txs);
    return b.header.merkleRoot == root;
  }

  /** Everything about a block that its header and the headers before it decide, clock apart. */
  ghost predicate BlockRules(c: Crypto, b: Block, prior: seq<Header>)
    requires WindowShape(prior)
  {
    HeaderRules(c, b.header, prior) && BodyOk(b)
  }

  // ---------------------------------------------------------------- applying transactions

  function OriginsOf(tx: Transaction, height: nat): map<Outpoint, Origin> {
    map o | o in Created(tx) :: Origin(height, tx.coinbase)
  }

  /** The effect of applyRegularTransaction and applyOutputs, once nothing collides. */
  function ApplyTransaction(v: View, tx: Transaction, height: nat): View {
    View(v.utxo - Spent(tx.inputs) + OutputsOf(tx),
         v.origins - Spent(tx.inputs) + OriginsOf(tx, height),
         v.seen + {tx.id})
  }

  predicate OutputsFresh(v: View, tx: Transaction) {
    Created(tx) !! (v.utxo - Spent(tx.inputs)).Keys
  }

  /** One regular transaction: the view after it and its fee, or None when the block must be rejected. */
  ghost function ReplayRegular(c: Crypto, v: View, fees: uint64, tx: Transaction, height: nat): Option<(View, uint64)> {
    if tx.coinbase || tx.id in v.seen then None
    else match RegularFee(c, tx, v.utxo)
         case None => None
         case Some(fee) =>
           if !InputsMature(tx.inputs, v.origins, height) || fees + fee > MAX_UINT64 || !OutputsFresh(v, tx) then None
           else Some((ApplyTransaction(v, tx, height), fees + fee))
  }

  ghost function ReplayRegulars(c: Crypto, v: View, fees: uint64, txs: seq<Transaction>, height: nat): Option<(View, uint64)>
    decreases |txs|
  {
    if |txs| == 0 then Some((v, fees))
    else match ReplayRegular(c, v, fees, txs[0], height)
         case None => None
         case Some(next) => ReplayRegulars(c, next.0, next.1, txs[1..], height)
  }

  ghost function ReplayCoinbase(c: Crypto, v: View, fees: uint64, tx: Transaction, height: uint64): Option<View> {
    if tx.id in v.seen || Subsidy(height) + fees > MAX_UINT64 || !CoinbaseOk(c, tx, Subsidy(height) + fees) || !OutputsFresh(v, tx)
    then None else Some(ApplyTransaction(v, tx, height))
  }

  /** One block body on top of a view. The coinbase comes first in the block and is applied last. */
  ghost function ReplayBlock(c: Crypto, v: View, b: Block): Option<View> {
    if |b.txs| == 0 || !b.txs[0].coinbase then None
    else match ReplayRegulars(c, v, 0, b.txs[1..], b.header.height)
         case None => None
         case Some(done) => ReplayCoinbase(c, done.0, done.1, b.txs[0], b.header.height)
  }

  function GenesisBlock(): Block {
    Block(GenesisHeader(), [])
  }

  function HeadersOf(blocks: seq<Block>): (hs: seq<Header>)
    ensures |hs| == |blocks|
  {
    seq(|blocks|, i requires 0 <= i < |blocks| => blocks[i].header)
  }

  function EmptyView(): View {
    View(map[], map[], {})
  }

  /** The view of a whole chain, or None when the chain is invalid for a reason other than the clock. */
  ghost function ReplayChain(c: Crypto, blocks: seq<Block>): Option<View> {
    if |blocks| == 0 || blocks[0] != GenesisBlock() then None
    else if |blocks| == 1 then Some(EmptyView())
    else
      var prior := blocks[..|blocks| - 1];
      var b := blocks[|blocks| - 1];
      match ReplayChain(c, prior)
      case None => None
      case Some(v) =>
        if WindowShape(HeadersOf(prior)) && BlockRules(c, b, HeadersOf(prior)) then ReplayBlock(c, v, b) else None
  }

  /** No block is dated too far ahead of the clock reading taken when it is checked. */
  ghost predicate OnTime(blocks: seq<Block>, clock: nat -> int64) {
    forall i | 0 < i < |blocks| :: NotTooFarAhead(blocks[i].header.timestamp, clock(i))
  }

  // ---------------------------------------------------------------- the loops of replay

  method ReplayTransaction(c: Crypto, v: View, fees: uint64, tx: Transaction, height: nat)
    returns (r: Option<(View, uint64)>)
    ensures r == ReplayRegular(c, v, fees, tx, height)
  {
    hide RegularFee;
    if tx.coinbase || tx.id in v.seen {
      return None;
    }
    var fee := ValidateRegularTransaction(c, tx, v.utxo);
    if fee.None? || !InputsMature(tx.inputs, v.origins, height) {
      return None;
    }
    var sum := SafeAdd(fees, fee.value);
    if sum.None? || !OutputsFresh(v, tx) {
      return None;
    }
    return Some((ApplyTransaction(v, tx, height), sum.value));
  }

  method ReplayReward(c: Crypto, v: View, fees: uint64, tx: Transaction, height: uint64) returns (r: Option<View>)
    ensures r == ReplayCoinbase(c, v, fees, tx, height)
  {
    hide CoinbaseOk;
    var maximum := SafeAdd(Subsidy(height), fees);
    if tx.id in v.seen || maximum.None? {
      return None;
    }
    var ok := ValidateCoinbase(c, tx, maximum.value);
    if !ok || !OutputsFresh(v, tx) {
      return None;
    }
    return Some(ApplyTransaction(v, tx, height));
  }

  method ReplayBody(c: Crypto, v: View, b: Block) returns (r: Option<View>)
    requires |b.txs| > 0
    ensures r == ReplayBlock(c, v, b)
  {
    hide ReplayRegular, ReplayCoinbase;
    if !b.txs[0].coinbase {
      return None;
    }
    var view := v;
    var fees: uint64 := 0;
    var txs := b.txs[1..];
    for i := 0 to |txs|
      invariant ReplayRegulars(c, v, 0, txs, b.header.height) == ReplayRegulars(c, view, fees, txs[i..], b.header.height)
    {
      assert txs[i..][1..] == txs[i + 1..];
      var next := ReplayTransaction(c, view, fees, txs[i], b.header.height);
      if next.None? {
        return None;
      }
      view, fees := next.value.0, next.value.1;
    }
    r := ReplayReward(c, view, fees, b.txs[0], b.header.height);
  }

  lemma BodyNotEmpty(b: Block)
    requires BodyOk(b)
    ensures |b.txs| > 0
  {
  }

  method ReplayNext(c: Crypto, v: View, prior: seq<Header>, b: Block, now: int64) returns (r: Option<View>)
    requires WindowShape(prior)
    ensures r.Some? <==> NotTooFarAhead(b.header.timestamp, now) && BlockRules(c, b, prior) && ReplayBlock(c, v, b).Some?
    ensures r.Some? ==> r == ReplayBlock(c, v, b)
  {
    hide HeaderRules, BodyOk, ReplayBlock;
    if !HeaderRules(c, b.header, prior) || !NotTooFarAhead(b.header.timestamp, now) {
      return None;
    }
    var bodyOk := ValidateBody(b);
    if !bodyOk {
      return None;
    }
    BodyNotEmpty(b);
    r := ReplayBody(c, v, b);
  }

  lemma {:induction false} ReplayPrefix(c: Crypto, blocks: seq<Block>, n: nat)
    requires ReplayChain(c, blocks).Some? && 0 < n <= |blocks|
    ensures ReplayChain(c, blocks[..n]).Some?
  {
    hide BlockRules, ReplayBlock, GenesisBlock;
    if n == |blocks| {
      assert blocks[..n] == blocks;
    } else {
      var prior := blocks[..|blocks| - 1];
      assert prior[..n] == blocks[..n];
      ReplayPrefix(c, prior, n);
    }
  }

  lemma GenesisIsChain(c: Crypto)
    ensures HeaderChain(c, [GenesisHeader()])
  {
  }

  /** The headers of a replayed chain form a header chain. */
  lemma {:induction false} ReplayedHeaders(c: Crypto, blocks: seq<Block>)
    requires ReplayChain(c, blocks).Some?
    ensures HeaderChain(c, HeadersOf(blocks)) && WindowShape(HeadersOf(blocks))
  {
    hide HeaderRules, BodyOk, ReplayBlock, GenesisHeader;
    if |blocks| == 1 {
      assert HeadersOf(blocks) == [GenesisHeader()];
      GenesisIsChain(c);
    } else {
      var prior := blocks[..|blocks| - 1];
      ReplayedHeaders(c, prior);
      HeaderChainStep(c, HeadersOf(prior), blocks[|blocks| - 1].header);
      assert HeadersOf(blocks) == HeadersOf(prior) + [blocks[|blocks| - 1].header];
    }
  }

  lemma OnTimeStep(blocks: seq<Block>, clock: nat -> int64, n: nat)
    requires n < |blocks|
    ensures n == 0 ==> OnTime(blocks[..1], clock)
    ensures n > 0 ==>
      (OnTime(blocks[..n + 1], clock) <==>
        OnTime(blocks[..n], clock) && NotTooFarAhead(blocks[n].header.timestamp, clock(n)))
    ensures OnTime(blocks, clock) ==> OnTime(blocks[..n + 1], clock)
  {
    hide NotTooFarAhead;
    if OnTime(blocks[..n + 1], clock) && n > 0 {
      assert blocks[..n + 1][n] == blocks[n];
      assert forall i | 0 < i < n :: blocks[..n + 1][i] == blocks[..n][i];
    }
  }

  /** State.replay without the pending list. `clock(i)` is the time read while block i is checked. */
  method ReplayState(c: Crypto, blocks: seq<Block>, clock: nat -> int64) returns (r: Option<View>)
    ensures r.Some? <==> ReplayChain(c, blocks).Some? && OnTime(blocks, clock)
    ensures r.Some? ==> r == ReplayChain(c, blocks)
  {
    hide BlockRules, ReplayBlock, GenesisBlock, NotTooFarAhead, HeaderChain, WindowShape, HeadersOf, OnTime;
    if |blocks| == 0 || blocks[0] != GenesisBlock() {
      return None;
    }
    var v := EmptyView();
    assert blocks[..1] == [blocks[0]];
    OnTimeStep(blocks, clock, 0);
    for index := 1 to |blocks|
      invariant ReplayChain(c, blocks[..index]) == Some(v)
      invariant OnTime(blocks[..index], clock)
    {
      assert blocks[..index + 1][..index] == blocks[..index];
      ReplayedHeaders(c, blocks[..index]);
      OnTimeStep(blocks, clock, index);
      var next := ReplayNext(c, v, HeadersOf(blocks[..index]), blocks[index], clock(index));
      if next.None? {
        if ReplayChain(c, blocks).Some? && OnTime(blocks, clock) {
          ReplayPrefix(c, blocks, index + 1);
        }
        return None;
      }
      v := next.value;
    }
    assert blocks[..|blocks|] == blocks;
    return Some(v);
  }

  // ---------------------------------------------------------------- consequences

  /** Facts every replayed view keeps: identifiers of unspent outputs were seen, origins match, amounts are positive. */
  predicate ViewOk(v: View, height: nat) {
    && v.origins.Keys == v.utxo.Keys
    && (forall o | o in v.utxo :: o.txid in v.seen && v.utxo[o].amount > 0)
    && (forall o | o in v.origins :: 0 < v.origins[o].createdHeight <= height)
  }

  lemma ApplyKeepsView(v: View, tx: Transaction, height: nat)
    requires ViewOk(v, height) && height > 0
    requires forall i | 0 <= i < |tx.outputs| :: tx.outputs[i].amount > 0
    ensures ViewOk(ApplyTransaction(v, tx, height), height)
  {
  }

  lemma RegularStep(c: Crypto, v: View, fees: uint64, tx: Transaction, height: nat)
    requires ReplayRegular(c, v, fees, tx, height).Some? && height > 0 && ViewOk(v, height)
    ensures var (v', fees') := ReplayRegular(c, v, fees, tx, height).value;
      ViewOk(v', height) && Total(v'.utxo) + fees' == Total(v.utxo) + fees
  {
    hide RegularFee, ViewOk;
    RegularLimits(c, tx, v.utxo);
    TotalApply(c, tx, v.utxo);
    ApplyKeepsView(v, tx, height);
  }

  lemma {:induction false} RegularsStep(c: Crypto, v: View, fees: uint64, txs: seq<Transaction>, height: nat)
    requires ReplayRegulars(c, v, fees, txs, height).Some? && height > 0 && ViewOk(v, height)
    ensures var (v', fees') := ReplayRegulars(c, v, fees, txs, height).value;
      ViewOk(v', height) && Total(v'.utxo) + fees' == Total(v.utxo) + fees
    decreases |txs|
  {
    hide ReplayRegular, ViewOk;
    if |txs| > 0 {
      var (v', fees') := ReplayRegular(c, v, fees, txs[0], height).value;
      RegularStep(c, v, fees, txs[0], height);
      RegularsStep(c, v', fees', txs[1..], height);
    }
  }

  lemma CoinbaseStep(c: Crypto, v: View, fees: uint64, tx: Transaction, height: uint64)
    requires ReplayCoinbase(c, v, fees, tx, height).Some? && height > 0 && ViewOk(v, height)
    ensures var v' := ReplayCoinbase(c, v, fees, tx, height).value;
      ViewOk(v', height) && Total(v'.utxo) == Total(v.utxo) + Subsidy(height) + fees
  {
    hide ComputeId, EncodedSize, ViewOk;
    ApplyKeepsView(v, tx, height);
    assert Spent(tx.inputs) == {};
    assert v.utxo - Spent(tx.inputs) == v.utxo && v.origins - Spent(tx.inputs) == v.origins;
    TotalOutputs(tx);
    TotalDisjoint(v.utxo, OutputsOf(tx));
  }

  lemma ViewOkLater(v: View, height: nat)
    requires ViewOk(v, height)
    ensures ViewOk(v, height + 1)
  {
  }

  lemma BlockStep(c: Crypto, v: View, b: Block)
    requires ReplayBlock(c, v, b).Some? && b.header.height > 0 && ViewOk(v, b.header.height - 1)
    ensures var v' := ReplayBlock(c, v, b).value;
      ViewOk(v', b.header.height) && Total(v'.utxo) == Total(v.utxo) + Subsidy(b.header.height)
  {
    hide ReplayRegulars, ReplayCoinbase, ViewOk;
    var height := b.header.height;
    ViewOkLater(v, height - 1);
    var (v1, fees) := ReplayRegulars(c, v, 0, b.txs[1..], height).value;
    RegularsStep(c, v, 0, b.txs[1..], height);
    CoinbaseStep(c, v1, fees, b.txs[0], height);
  }

  lemma LastHeight(c: Crypto, blocks: seq<Block>)
    requires ReplayChain(c, blocks).Some?
    ensures blocks[|blocks| - 1].header.height == |blocks| - 1
  {
    hide HeaderRules;
    ReplayedHeaders(c, blocks);
    assert HeadersOf(blocks)[|blocks| - 1].height == |blocks| - 1;
  }

  lemma EmptyViewOk()
    ensures ViewOk(EmptyView(), 0) && Total(EmptyView().utxo) == 0 == MintedThrough(0)
  {
  }

  /**
    Conservation: the unspent outputs of a valid chain add up to exactly what the emission schedule has
    issued, and never exceed the supply cap.
   */
  lemma {:induction false} Conservation(c: Crypto, blocks: seq<Block>)
    requires ReplayChain(c, blocks).Some?
    ensures |blocks| - 1 <= MAX_UINT64
    ensures ViewOk(ReplayChain(c, blocks).value, |blocks| - 1)
    ensures Total(ReplayChain(c, blocks).value.utxo) == MintedThrough(|blocks| - 1) == SubsidySum(|blocks| - 1) <= MAX_SUPPLY
  {
    hide BlockRules, ReplayBlock, ViewOk, GenesisBlock, MintedThrough, SubsidySum, Subsidy;
    LastHeight(c, blocks);
    MintedIsSubsidySum(|blocks| - 1);
    if |blocks| == 1 {
      EmptyViewOk();
    } else {
      var prior := blocks[..|blocks| - 1];
      Conservation(c, prior);
      MintedStep(|blocks| - 2);
      BlockStep(c, ReplayChain(c, prior).value, blocks[|blocks| - 1]);
    }
  }
}
