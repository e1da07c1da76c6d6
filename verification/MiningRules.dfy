/**
  Every candidate is a valid block but for its proof of work: the selection replays on top of the tip, the size
  reserve is exact, and reachable mempools never have a dependency cycle (internal/ledger/mining.go).
 */
module MiningRules {
  import opened Common
  import opened Encoding
  import opened Amounts
  import opened Transactions
  import opened Headers
  import opened Merkle
  import opened Totals
  import opened Replay
  import opened Guards
  import opened Tables
  import opened Refinement
  import opened Undo
  import opened Horizon
  import opened Mempool
  import opened MempoolRules
  import opened ChainState
  import opened Priority
  import opened MiningOrder
  import opened Mining

  // ---------------------------------------------------------------- reachable mempools are acyclic

  lemma {:induction false} CountedInput(inputs: seq<TxInput>, id: Text) returns (n: nat)
    requires CountFrom(inputs, id) > 0
    ensures n < |inputs| && inputs[n].txid == id
  {
    var last := |inputs| - 1;
    if inputs[last].txid == id {
      n := last;
    } else {
      n := CountedInput(inputs[..last], id);
    }
  }

  lemma SizesFit(c: Crypto, k: Confirmed, rows: seq<PoolRow>)
    requires RowsOk(c, k, rows)
    ensures forall i | 0 <= i < |rows| :: 0 < rows[i].size <= MAX_TRANSACTION_BYTES && rows[i].size == EncodedSize(rows[i].tx)
    ensures forall i | 0 <= i < |rows| :: rows[i].tx.id == ComputeId(rows[i].tx)
  {
  }

  /** On a reachable mempool every pending parent was admitted before its child. */
  lemma ParentIsEarlier(c: Crypto, k: Confirmed, pool: Pool, p: nat, i: nat)
    requires PoolOk(c, k, pool) && ConfirmedOk(c, k) && p < |pool.rows| && i < |pool.rows|
    requires CountFrom(pool.rows[i].tx.inputs, pool.rows[p].tx.id) > 0
    ensures p < i
  {
    hide RowsOk, SoundCoins, CountFrom;
    var n := CountedInput(pool.rows[i].tx.inputs, pool.rows[p].tx.id);
    ParentsFirst(c, k, pool, i, n);
    OutputsUnconfirmed(c, k, pool.rows);
    assert pool.rows[p].tx.id in PoolIds(pool.rows);
    var o := Spends(pool.rows[i].tx.inputs[n]);
    if o !in k.coins {
      var j :| 0 <= j < i && pool.rows[j].tx.id == o.txid;
      if j < p {
        NoSharedInputs(c, k, pool.rows, j, p);
      } else if p < j {
        NoSharedInputs(c, k, pool.rows, p, j);
      }
    }
  }

  lemma {:induction false} WalkFalls(c: Crypto, k: Confirmed, pool: Pool, items: seq<MiningItem>, walk: seq<nat>,
                                     n: nat)
    requires PoolOk(c, k, pool) && ConfirmedOk(c, k) && |items| == |pool.rows|
    requires forall i | 0 <= i < |items| :: items[i].tx == pool.rows[i].tx
    requires 0 < n < |walk| && (forall j | 0 <= j < n :: IsParent(items, walk[j + 1], walk[j]))
    ensures walk[n] < walk[0]
  {
    hide PoolOk, ConfirmedOk;
    assert IsParent(items, walk[n - 1 + 1], walk[n - 1]);
    ParentIsEarlier(c, k, pool, walk[n], walk[n - 1]);
    if n > 1 {
      WalkFalls(c, k, pool, items, walk, n - 1);
    }
  }

  lemma IdNotEmpty(tx: Transaction)
    requires tx.id == ComputeId(tx)
    ensures tx.id != []
  {
  }

  /** So ordering a reachable mempool never reports a cycle. */
  lemma ReachablePoolIsAcyclic(c: Crypto, k: Confirmed, pool: Pool)
    requires PoolOk(c, k, pool) && ConfirmedOk(c, k)
    ensures forall i | 0 <= i < |pool.rows| :: pool.rows[i].size <= MAX_TRANSACTION_BYTES
    ensures MetadataOk(MiningItems(pool.rows)) && !exists walk :: Cycle(MiningItems(pool.rows), walk)
    ensures forall i, j | 0 <= i < j < |pool.rows| ::
      MiningItems(pool.rows)[i].sequence != MiningItems(pool.rows)[j].sequence
  {
    hide RowsOk, ConfirmedOk, IsParent, PoolInputs, PoolOutputs, ComputeId, EncodedSize;
    SizesFit(c, k, pool.rows);
    var items := MiningItems(pool.rows);
    forall i | 0 <= i < |items| ensures items[i].tx.id != [] {
      IdNotEmpty(items[i].tx);
    }
    forall i, j | 0 <= i < j < |items| ensures items[i].tx.id != items[j].tx.id {
      NoSharedInputs(c, k, pool.rows, i, j);
    }
    forall walk ensures !Cycle(items, walk) {
      if Cycle(items, walk) {
        WalkFalls(c, k, pool, items, walk, |walk| - 1);
      }
    }
  }

  // ---------------------------------------------------------------- the selection replays

  function IdsOf(txs: seq<Transaction>): set<Text> {
    set i | 0 <= i < |txs| :: txs[i].id
  }

  function PendingOrigins(created: Utxo, height: nat): map<Outpoint, Origin> {
    map o | o in created :: Origin(height, false)
  }

  /** The replayed view after the selection. */
  function SelectedView(k: Confirmed, s: Selection): View {
    View(Outputs(k.coins) - s.spent + s.created,
         OriginView(k.coins) - s.spent + PendingOrigins(s.created, k.height),
         k.ids + IdsOf(s.selected))
  }

  ghost predicate SelectionOk(c: Crypto, k: Confirmed, s: Selection) {
    ReplayRegulars(c, ViewOf(k.coins, k.ids), 0, s.selected, k.height) == Some((SelectedView(k, s), s.fees))
  }

  lemma LastRegular(c: Crypto, v: View, fees: uint64, tx: Transaction, height: nat)
    ensures ReplayRegulars(c, v, fees, [tx], height) == ReplayRegular(c, v, fees, tx, height)
  {
  }

  lemma {:induction false} ReplayRegularsSnoc(c: Crypto, v: View, fees: uint64, txs: seq<Transaction>,
                                              tx: Transaction, height: nat)
    ensures ReplayRegulars(c, v, fees, txs + [tx], height)
         == match ReplayRegulars(c, v, fees, txs, height)
            case None => None
            case Some(done) => ReplayRegular(c, done.0, done.1, tx, height)
    decreases |txs|
  {
    hide ReplayRegular;
    var all := txs + [tx];
    if |txs| == 0 {
      assert all == [tx] && all[1..] == [];
      LastRegular(c, v, fees, tx, height);
    } else {
      assert all[1..] == txs[1..] + [tx] && all[0] == txs[0];
      if ReplayRegular(c, v, fees, txs[0], height).Some? {
        var (v1, fees1) := ReplayRegular(c, v, fees, txs[0], height).value;
        ReplayRegularsSnoc(c, v1, fees1, txs[1..], tx, height);
      }
    }
  }

  lemma ConfirmedView(c: Crypto, k: Confirmed)
    requires ConfirmedOk(c, k) && k.height > 0
    ensures ViewOk(ViewOf(k.coins, k.ids), k.height)
  {
  }

  lemma SelectionFacts(c: Crypto, k: Confirmed, s: Selection)
    requires SelectionOk(c, k, s) && ConfirmedOk(c, k) && k.height > 0 && Total(Outputs(k.coins)) <= MAX_SUPPLY
    ensures ViewOk(SelectedView(k, s), k.height)
    ensures Total(SelectedView(k, s).utxo) + s.fees == Total(Outputs(k.coins))
  {
    hide ConfirmedOk, ReplayRegulars, ViewOk, SelectedView;
    ConfirmedView(c, k);
    RegularsStep(c, ViewOf(k.coins, k.ids), 0, s.selected, k.height);
  }

  /** The mining lookup and the replayed view agree on what a found input is worth, and that it is mature. */
  lemma MiningLookupMeaning(k: Confirmed, s: Selection, o: Outpoint)
    requires MiningLookup(k, s.created, s.spent, o).Some?
    ensures var v := SelectedView(k, s);
      && o in v.utxo && v.utxo[o] == MiningLookup(k, s.created, s.spent, o).value
      && o in v.origins && OriginMature(v.origins[o], k.height)
  {
  }

  lemma MiningInputsMeaning(c: Crypto, k: Confirmed, s: Selection, tx: Transaction)
    requires MiningInputsFound(k, s.created, s.spent, tx.inputs)
    ensures RegularFee(c, tx, MiningInputs(k, s.created, s.spent, tx.inputs)) == RegularFee(c, tx, SelectedView(k, s).utxo)
    ensures InputsMature(tx.inputs, SelectedView(k, s).origins, k.height)
  {
    hide RegularFee, SelectedView, MiningLookup, OriginMature;
    var a, b := MiningInputs(k, s.created, s.spent, tx.inputs), SelectedView(k, s).utxo;
    forall i | 0 <= i < |tx.inputs|
      ensures AgreeAt(a, b, Spends(tx.inputs[i]))
      ensures Spends(tx.inputs[i]) in SelectedView(k, s).origins
        && OriginMature(SelectedView(k, s).origins[Spends(tx.inputs[i])], k.height)
    {
      MiningLookupMeaning(k, s, Spends(tx.inputs[i]));
      assert Spends(tx.inputs[i]) in Spent(tx.inputs);
    }
    FeeDependsOnInputs(c, tx, a, b);
  }

  lemma OverlayStep<T>(base: map<Outpoint, T>, spent: set<Outpoint>, created: map<Outpoint, T>, more: set<Outpoint>,
                       added: map<Outpoint, T>)
    ensures base - (spent + more) + (created - more + added) == base - spent + created - more + added
  {
  }

  lemma PendingOriginsStep(created: Utxo, tx: Transaction, height: nat)
    requires !tx.coinbase
    ensures PendingOrigins(created - Spent(tx.inputs) + OutputsOf(tx), height)
         == PendingOrigins(created, height) - Spent(tx.inputs) + OriginsOf(tx, height)
  {
  }

  lemma IdsSnocSet(txs: seq<Transaction>, tx: Transaction)
    ensures IdsOf(txs + [tx]) == IdsOf(txs) + {tx.id}
  {
    var all := txs + [tx];
    forall x | x in IdsOf(txs) + {tx.id} ensures x in IdsOf(all) {
      if x in IdsOf(txs) {
        var i :| 0 <= i < |txs| && txs[i].id == x;
        assert all[i].id == x;
      } else {
        assert all[|txs|].id == x;
      }
    }
  }

  lemma TakeView(k: Confirmed, s: Selection, tx: Transaction, fee: uint64)
    requires s.fees + fee <= MAX_UINT64 && !tx.coinbase
    ensures SelectedView(k, Take(s, tx, fee)) == ApplyTransaction(SelectedView(k, s), tx, k.height)
  {
    hide EncodedSize, PendingOrigins, OutputsOf, Spent, OriginsOf, Outputs, OriginView, IdsOf;
    IdsSnocSet(s.selected, tx);
    PendingOriginsStep(s.created, tx, k.height);
    OverlayStep(Outputs(k.coins), s.spent, s.created, Spent(tx.inputs), OutputsOf(tx));
    OverlayStep(OriginView(k.coins), s.spent, PendingOrigins(s.created, k.height), Spent(tx.inputs), OriginsOf(tx, k.height));
  }

  lemma SelectedSeen(k: Confirmed, s: Selection)
    ensures SelectedView(k, s).seen == k.ids + IdsOf(s.selected)
  {
  }

  lemma TakeFields(s: Selection, tx: Transaction, fee: uint64)
    requires s.fees + fee <= MAX_UINT64
    ensures Take(s, tx, fee).selected == s.selected + [tx] && Take(s, tx, fee).fees == s.fees + fee
    ensures Take(s, tx, fee).size == s.size + EncodedSize(tx)
  {
  }

  /** Whatever the loop takes replays next, and the running fee total never overflows. */
  lemma ConsiderReplays(c: Crypto, k: Confirmed, s: Selection, tx: Transaction)
    requires SelectionOk(c, k, s) && ConfirmedOk(c, k) && k.height > 0 && Total(Outputs(k.coins)) <= MAX_SUPPLY
    requires tx.id !in k.ids && tx.id !in IdsOf(s.selected)
    ensures Consider(c, k, s, tx).Some? && SelectionOk(c, k, Consider(c, k, s, tx).value)
  {
    hide RegularFee, EncodedSize, ConfirmedOk, SelectedView, MiningInputs, MiningInputsFound, ReplayRegulars, ViewOk,
      Take, InputsMature, OutputsFresh;
    var v := SelectedView(k, s);
    if MiningInputsFound(k, s.created, s.spent, tx.inputs) {
      MiningInputsMeaning(c, k, s, tx);
      if RegularFee(c, tx, v.utxo).Some? {
        var fee := RegularFee(c, tx, v.utxo).value;
        SelectionFacts(c, k, s);
        SelectedSeen(k, s);
        FreshOutputs(v, tx, k.height);
        RegularLimits(c, tx, v.utxo);
        TotalInputs(tx.inputs, v.utxo);
        TakeView(k, s, tx, fee);
        ReplayRegularsSnoc(c, ViewOf(k.coins, k.ids), 0, s.selected, tx, k.height);
        TakeFields(s, tx, fee);
      }
    }
  }

  /** The bytes accounted for: overhead, the reserved coinbase and the selected transactions. */
  ghost predicate SizeOk(s: Selection, reserve: nat) {
    && |s.selected| <= MAX_BLOCK_TRANSACTIONS - 1
    && s.size == BLOCK_OVERHEAD + reserve + BodySize(s.selected) <= MAX_BLOCK_BYTES
  }

  lemma ConsiderKeepsSize(c: Crypto, k: Confirmed, s: Selection, tx: Transaction, reserve: nat)
    requires SizeOk(s, reserve) && Consider(c, k, s, tx).Some?
    ensures SizeOk(Consider(c, k, s, tx).value, reserve)
    ensures var n := Consider(c, k, s, tx).value; n.selected == s.selected || n.selected == s.selected + [tx]
  {
  }

  lemma IdsTail(pending: seq<Transaction>)
    requires |pending| > 0 && DistinctIds(pending)
    ensures DistinctIds(pending[1..]) && IdsOf(pending[1..]) == IdsOf(pending) - {pending[0].id}
  {
  }

  lemma {:induction false} SelectAllReplays(c: Crypto, k: Confirmed, s: Selection, pending: seq<Transaction>,
                                            reserve: nat)
    requires SelectionOk(c, k, s) && SizeOk(s, reserve)
    requires ConfirmedOk(c, k) && k.height > 0 && Total(Outputs(k.coins)) <= MAX_SUPPLY
    requires DistinctIds(pending) && IdsOf(pending) !! k.ids && IdsOf(pending) !! IdsOf(s.selected)
    ensures SelectAll(c, k, s, pending).Some?
    ensures SelectionOk(c, k, SelectAll(c, k, s, pending).value) && SizeOk(SelectAll(c, k, s, pending).value, reserve)
    decreases |pending|
  {
    hide SelectionOk, SizeOk, Consider, ConfirmedOk;
    if |pending| > 0 {
      var tx := pending[0];
      assert tx.id in IdsOf(pending);
      ConsiderReplays(c, k, s, tx);
      ConsiderKeepsSize(c, k, s, tx, reserve);
      IdsTail(pending);
      IdsSnocSet(s.selected, tx);
      SelectAllReplays(c, k, Consider(c, k, s, tx).value, pending[1..], reserve);
    }
  }

  // ---------------------------------------------------------------- the candidate

  /** The coinbase of a candidate collects the subsidy and the fees. */
  function Reward(s: Selection, height: uint64): (r: Option<uint64>)
    ensures r.None? <==> Subsidy(height) + s.fees > MAX_UINT64
  {
    SafeAdd(Subsidy(height), s.fees)
  }

  function CandidateBody(s: Selection, address: Text, nonce: uint64, reward: uint64): seq<Transaction> {
    [NewCoinbase(address, nonce, reward)] + s.selected
  }

  function CandidateHeader(prior: seq<Header>, body: seq<Transaction>, now: int64): Header
    requires WindowShape(prior) && Last(prior).height < MAX_INT64
  {
    var height := Last(prior).height + 1;
    var timestamp := NextTimestampAt(prior, now);
    var h := Header(BlockVersion(height), height, timestamp, Last(prior).hash, MerkleRoot(body),
                    ExpectedDifficultyAt(prior, height, timestamp), 0, []);
    h.(hash := ComputeHash(h))
  }

  /** What a miner changes: the nonce, and the hash that goes with it. */
  function Mined(b: Block, nonce: uint64): Block {
    var h := b.header.(nonce := nonce);
    b.(header := h.(hash := ComputeHash(h)))
  }

  lemma {:induction false} BodySizeCons(first: Transaction, rest: seq<Transaction>)
    ensures BodySize([first] + rest) == EncodedSize(first) + BodySize(rest)
  {
    hide EncodedSize;
    var all := [first] + rest;
    if |rest| == 0 {
      assert all[..0] == [];
    } else {
      assert all[..|rest|] == [first] + rest[..|rest| - 1];
      BodySizeCons(first, rest[..|rest| - 1]);
    }
  }

  /** Facts of every transaction of a replayed list. */
  ghost predicate RegularBody(tx: Transaction) {
    && !tx.coinbase && EncodedSize(tx) <= MAX_TRANSACTION_BYTES && tx.id == ComputeId(tx) && InMemory(tx)
  }

  lemma RegularIsBody(c: Crypto, tx: Transaction, utxo: Utxo)
    requires RegularFee(c, tx, utxo).Some?
    ensures RegularBody(tx)
  {
    hide RegularFee, EncodedSize, ComputeId, InMemory;
    RegularLimits(c, tx, utxo);
    ValidatedInMemory(tx);
  }

  lemma {:induction false} ReplayedBodies(c: Crypto, v: View, fees: uint64, txs: seq<Transaction>, height: nat)
    requires ReplayRegulars(c, v, fees, txs, height).Some?
    ensures forall i | 0 <= i < |txs| :: RegularBody(txs[i])
    decreases |txs|
  {
    hide RegularFee, RegularBody, InputsMature, OutputsFresh, ApplyTransaction;
    if |txs| > 0 {
      RegularIsBody(c, txs[0], v.utxo);
      var (v1, fees1) := ReplayRegular(c, v, fees, txs[0], height).value;
      ReplayedBodies(c, v1, fees1, txs[1..], height);
      forall i | 0 < i < |txs| ensures RegularBody(txs[i]) {
        assert txs[i] == txs[1..][i - 1];
      }
    }
  }

  lemma OneOutput(output: TxOutput)
    ensures OutputSum([output]) == output.amount && OutputSum([]) == 0
  {
  }

  lemma CoinbaseId(address: Text, nonce: uint64, amount: uint64)
    ensures NewCoinbase(address, nonce, amount).id == ComputeId(NewCoinbase(address, nonce, amount))
  {
  }

  lemma CoinbaseShape(c: Crypto, address: Text, nonce: uint64, amount: uint64)
    requires ValidAddress(c, address)
    ensures var tx := NewCoinbase(address, nonce, amount);
      && CoinbaseOk(c, tx, amount) && InMemory(tx)
      && EncodedSize(tx) == if amount > 0 then 119 else 51
  {
    hide ComputeId, EncodedSize, InMemory;
    var tx := NewCoinbase(address, nonce, amount);
    CoinbaseSize(tx);
    CoinbaseId(address, nonce, amount);
    ValidatedInMemory(tx);
    OneOutput(TxOutput(amount, address));
  }

  lemma CoinbaseIdDiffers(c: Crypto, address: Text, nonce: uint64, amount: uint64, txs: seq<Transaction>)
    requires ValidAddress(c, address) && (forall i | 0 <= i < |txs| :: RegularBody(txs[i]))
    ensures NewCoinbase(address, nonce, amount).id !in IdsOf(txs)
  {
    hide ComputeId, EncodedSize, InMemory, CoinbaseOk;
    var tx := NewCoinbase(address, nonce, amount);
    CoinbaseShape(c, address, nonce, amount);
    CoinbaseId(address, nonce, amount);
    forall i | 0 <= i < |txs| ensures txs[i].id != tx.id {
      IdBindsTransaction(txs[i], tx);
    }
  }

  lemma NewCoinbaseIsCoinbase(address: Text, nonce: uint64, amount: uint64)
    ensures NewCoinbase(address, nonce, amount).coinbase
  {
  }

  /** A candidate body replays exactly when its coinbase identifier is new to the chain. */
  lemma CandidateReplays(c: Crypto, k: Confirmed, s: Selection, b: Block, address: Text, nonce: uint64)
    requires SelectionOk(c, k, s) && ConfirmedOk(c, k) && 0 < k.height == b.header.height
    requires Total(Outputs(k.coins)) <= MAX_SUPPLY && ValidAddress(c, address)
    requires Subsidy(b.header.height) + s.fees <= MAX_UINT64
    requires b.txs == CandidateBody(s, address, nonce, Subsidy(b.header.height) + s.fees)
    ensures ReplayBlock(c, ViewOf(k.coins, k.ids), b).Some? <==> b.txs[0].id !in k.ids
  {
    hide ReplayRegulars, CoinbaseOk, ConfirmedOk, ViewOk, SelectedView, Subsidy, RegularBody, NewCoinbase, OutputsFresh;
    var tx := b.txs[0];
    assert b.txs[1..] == s.selected;
    SelectionFacts(c, k, s);
    SelectedSeen(k, s);
    ReplayedBodies(c, ViewOf(k.coins, k.ids), 0, s.selected, k.height);
    CoinbaseShape(c, address, nonce, Subsidy(b.header.height) + s.fees);
    CoinbaseIdDiffers(c, address, nonce, Subsidy(b.header.height) + s.fees, s.selected);
    NewCoinbaseIsCoinbase(address, nonce, Subsidy(b.header.height) + s.fees);
    if tx.id !in k.ids {
      FreshOutputs(SelectedView(k, s), tx, k.height);
    }
  }

  lemma ConfirmedIndexed(c: Crypto, k: Confirmed)
    requires ConfirmedOk(c, k)
    ensures CoinsIndexed(k.coins, k.ids)
  {
  }

  /** A complete greedy order of the pool lists distinct, unconfirmed transactions. */
  lemma PickedIsSound(c: Crypto, k: Confirmed, pool: Pool, items: seq<MiningItem>, order: seq<nat>)
    requires PoolOk(c, k, pool) && ConfirmedOk(c, k) && |items| == |pool.rows|
    requires forall i | 0 <= i < |items| :: items[i].tx == pool.rows[i].tx
    requires Greedy(items, order) && OrderInRange(items, order)
    ensures DistinctIds(Picked(items, order)) && IdsOf(Picked(items, order)) !! k.ids
  {
    hide RowsOk, ConfirmedOk, Greedy, PoolInputs, PoolOutputs;
    var txs := Picked(items, order);
    forall i, j | 0 <= i < j < |txs| ensures txs[i].id != txs[j].id {
      NeverRepeats(items, order, i, j);
      var x, y := order[i], order[j];
      NoSharedInputs(c, k, pool.rows, if x < y then x else y, if x < y then y else x);
    }
    ConfirmedIndexed(c, k);
    OutputsUnconfirmed(c, k, pool.rows);
    forall i | 0 <= i < |txs| ensures txs[i].id in PoolIds(pool.rows) {
      assert pool.rows[order[i]].tx.id in PoolIds(pool.rows);
    }
  }

  ghost predicate TipShape(t: Tables) {
    && |t.blocks| > 0 && WindowShape(Window(HeaderRows(t.blocks)))
    && Last(Window(HeaderRows(t.blocks))) == Tip(t).header && Tip(t).header.height == |t.blocks| - 1
  }

  lemma RepresentedTipShape(c: Crypto, t: Tables, chain: seq<Block>, horizon: nat)
    requires Represents(c, t, chain, horizon)
    ensures TipShape(t)
  {
    hide Represents, WindowShape, HeaderChain, TablesOk, SoundCoins, ReplayChain;
    RepresentedFacts(c, t, chain, horizon);
    WindowHasShape(HeaderRows(t.blocks));
  }

  /** buildMiningCandidateAtTime on pending transactions already in order; `draws` are the two coinbase nonces. */
  ghost function CandidateOf(c: Crypto, t: Tables, pending: seq<Transaction>, address: Text, draws: (uint64, uint64),
                             now: int64): Option<Block>
    requires TipShape(t)
  {
    if !ValidAddress(c, address) || Tip(t).header.height >= MAX_INT64 then None
    else match SelectAll(c, ConfirmedOf(t), StartSelection(address, draws.0), pending)
         case None => None
         case Some(s) =>
           match Reward(s, |t.blocks|)
           case None => None
           case Some(reward) =>
             var body := CandidateBody(s, address, draws.1, reward);
             Some(Block(CandidateHeader(Window(HeaderRows(t.blocks)), body, now), body))
  }

  lemma StartIsOk(c: Crypto, k: Confirmed, address: Text, nonce: uint64)
    requires ValidAddress(c, address)
    ensures SelectionOk(c, k, StartSelection(address, nonce)) && SizeOk(StartSelection(address, nonce), 119)
    ensures IdsOf(StartSelection(address, nonce).selected) == {}
  {
    hide EncodedSize, CoinbaseOk, InMemory;
    CoinbaseShape(c, address, nonce, 1);
    var s := StartSelection(address, nonce);
    assert Outputs(k.coins) - s.spent + s.created == Outputs(k.coins);
    assert OriginView(k.coins) - s.spent + PendingOrigins(s.created, k.height) == OriginView(k.coins);
    assert SelectedView(k, s) == ViewOf(k.coins, k.ids);
  }

  lemma BodyRootDecodes(txs: seq<Transaction>)
    requires |txs| > 0 && (forall i | 0 <= i < |txs| :: txs[i].id == ComputeId(txs[i]))
    ensures DecodeHash(MerkleRoot(txs)).Some?
  {
  }

  /** A candidate body fits every limit on blocks. The reserve is exact, but for a coinbase that pays nothing. */
  lemma CandidateBodyFits(c: Crypto, k: Confirmed, s: Selection, address: Text, nonce: uint64, reward: uint64)
    requires SelectionOk(c, k, s) && SizeOk(s, 119) && ValidAddress(c, address)
    ensures var body := CandidateBody(s, address, nonce, reward);
      && 0 < |body| <= MAX_BLOCK_TRANSACTIONS
      && (forall i | 0 <= i < |body| :: EncodedSize(body[i]) <= MAX_TRANSACTION_BYTES && body[i].id == ComputeId(body[i]))
      && BLOCK_OVERHEAD + BodySize(body) == (if reward > 0 then s.size else s.size - 68) <= MAX_BLOCK_BYTES
  {
    hide ReplayRegulars, EncodedSize, ComputeId, CoinbaseOk, InMemory, NewCoinbase;
    ReplayedBodies(c, ViewOf(k.coins, k.ids), 0, s.selected, k.height);
    CoinbaseShape(c, address, nonce, reward);
    CoinbaseId(address, nonce, reward);
    BodySizeCons(NewCoinbase(address, nonce, reward), s.selected);
  }

  lemma CandidateRules(c: Crypto, hs: seq<Header>, body: seq<Transaction>, now: int64, nonce: uint64)
    requires WindowShape(hs) && Last(hs).height < MAX_INT64 && DecodeHash(MerkleRoot(body)).Some?
    ensures var h := Mined(Block(CandidateHeader(hs, body, now), body), nonce).header;
      && h.height == Last(hs).height + 1 && h.merkleRoot == MerkleRoot(body)
      && (HeaderRules(c, h, hs) <==>
            && ValidWork(c, h)
            && MedianTimePast(hs) < MAX_INT64
            && (Upgraded(Last(hs).height + 1) ==> Last(hs).timestamp < MAX_INT64))
  {
  }

  /** Distinct transactions, none of them confirmed. */
  predicate Unconfirmed(k: Confirmed, pending: seq<Transaction>) {
    DistinctIds(pending) && IdsOf(pending) !! k.ids
  }

  lemma SupplyOnly(c: Crypto, t: Tables, chain: seq<Block>, horizon: nat)
    requires Represents(c, t, chain, horizon)
    ensures Total(Outputs(t.coins)) <= MAX_SUPPLY && 0 < |t.blocks| <= MAX_INT64 + 1 && |t.blocks| == |chain|
  {
    hide Represents, MintedThrough, SubsidySum, HeaderChain, WindowShape, ReplayChain, TablesOk, SoundCoins;
    RepresentedSupply(c, t, chain, horizon);
    RepresentedFacts(c, t, chain, horizon);
  }

  /** On a represented chain the selection always ends, replays, and accounts for every byte. */
  lemma SelectionEnds(c: Crypto, t: Tables, chain: seq<Block>, horizon: nat, height: uint64,
                      pending: seq<Transaction>, address: Text, nonce: uint64)
    requires height == |t.blocks|
    requires Represents(c, t, chain, horizon) && Unconfirmed(ConfirmedOf(t), pending) && ValidAddress(c, address)
    ensures var r := SelectAll(c, ConfirmedOf(t), StartSelection(address, nonce), pending);
      && r.Some? && SelectionOk(c, ConfirmedOf(t), r.value) && SizeOk(r.value, 119)
      && Subsidy(height) + r.value.fees <= MAX_UINT64
    ensures Total(Outputs(t.coins)) <= MAX_SUPPLY && ConfirmedOk(c, ConfirmedOf(t))
  {
    hide Represents, ConfirmedOk, SelectionOk, SizeOk, StartSelection, SelectedView, Subsidy, MintedThrough,
      SubsidySum, DistinctIds, Consider, Total, SelectAll;
    var k := ConfirmedOf(t);
    RepresentedConfirmed(c, t, chain, horizon);
    SupplyOnly(c, t, chain, horizon);
    StartIsOk(c, k, address, nonce);
    SelectAllReplays(c, k, StartSelection(address, nonce), pending, 119);
    SelectionFacts(c, k, SelectAll(c, k, StartSelection(address, nonce), pending).value);
    SubsidyBound(height);
  }

  /** What a candidate is made of. */
  lemma CandidateParts(c: Crypto, t: Tables, pending: seq<Transaction>, address: Text, draws: (uint64, uint64),
                       now: int64)
    requires TipShape(t) && CandidateOf(c, t, pending, address, draws, now).Some?
    ensures var b := CandidateOf(c, t, pending, address, draws, now).value;
      && ValidAddress(c, address) && Tip(t).header.height < MAX_INT64
      && SelectAll(c, ConfirmedOf(t), StartSelection(address, draws.0), pending).Some?
      && var s := SelectAll(c, ConfirmedOf(t), StartSelection(address, draws.0), pending).value;
      && Subsidy(|t.blocks|) + s.fees <= MAX_UINT64
      && b.txs == CandidateBody(s, address, draws.1, Subsidy(|t.blocks|) + s.fees)
      && b.header == CandidateHeader(Window(HeaderRows(t.blocks)), b.txs, now)
  {
    hide SelectAll, StartSelection, Subsidy, CandidateHeader, ValidAddress, NewCoinbase;
  }

  /** A block body of the right shape under a header of the right root. */
  lemma CandidateBlockRules(c: Crypto, b: Block, hs: seq<Header>)
    requires WindowShape(hs)
    requires 0 < |b.txs| <= MAX_BLOCK_TRANSACTIONS && BLOCK_OVERHEAD + BodySize(b.txs) <= MAX_BLOCK_BYTES
    requires forall i | 0 <= i < |b.txs| :: EncodedSize(b.txs[i]) <= MAX_TRANSACTION_BYTES
    requires b.header.merkleRoot == MerkleRoot(b.txs)
    ensures BlockRules(c, b, hs) <==> HeaderRules(c, b.header, hs)
  {
  }

  /** The headers a candidate is built on are those of the chain, windowed. */
  lemma CandidateWindow(c: Crypto, t: Tables, chain: seq<Block>, horizon: nat, b: Block)
    requires Represents(c, t, chain, horizon) && TipShape(t)
    ensures WindowShape(HeadersOf(chain)) && Last(HeadersOf(chain)).height == |chain| - 1 && |t.blocks| == |chain|
    ensures var w := Window(HeaderRows(t.blocks));
      && MedianTimePast(w) == MedianTimePast(HeadersOf(chain)) && Last(w) == Last(HeadersOf(chain))
      && (forall now :: NextTimestampAt(w, now) == NextTimestampAt(HeadersOf(chain), now))
      && (HeaderRules(c, b.header, w) <==> HeaderRules(c, b.header, HeadersOf(chain)))
  {
    hide Represents, WindowShape, HeaderChain, TablesOk, SoundCoins, ReplayChain, HeaderRules, MedianTimePast,
      NextTimestampAt;
    RepresentedFacts(c, t, chain, horizon);
    forall now: int64
      ensures NextTimestampAt(Window(HeaderRows(t.blocks)), now) == NextTimestampAt(HeadersOf(chain), now)
    {
      WindowSuffices(c, b.header, HeadersOf(chain), now);
    }
    WindowSuffices(c, b.header, HeadersOf(chain), 0);
    WindowHasShape(HeadersOf(chain));
  }

  /** Nothing but the header, and there only nonce and hash, is the miner's to change. */
  lemma MinedParts(hs: seq<Header>, body: seq<Transaction>, now: int64, nonce: uint64)
    requires WindowShape(hs) && Last(hs).height < MAX_INT64
    ensures var b := Mined(Block(CandidateHeader(hs, body, now), body), nonce);
      && b.txs == body && b.header.merkleRoot == MerkleRoot(body) && b.header.height == Last(hs).height + 1
      && b.header.timestamp == NextTimestampAt(hs, now)
  {
  }

  lemma TipHeight(t: Tables)
    requires TipShape(t)
    ensures WindowShape(Window(HeaderRows(t.blocks))) && Last(Window(HeaderRows(t.blocks))) == Tip(t).header
    ensures Tip(t).header.height == |t.blocks| - 1
  {
  }

  /** The verdict on the body and on the header of a mined candidate. */
  lemma MinedVerdict(c: Crypto, t: Tables, chain: seq<Block>, horizon: nat, pending: seq<Transaction>,
                     address: Text, draws: (uint64, uint64), now: int64, nonce: uint64)
    requires Represents(c, t, chain, horizon) && TipShape(t) && Unconfirmed(ConfirmedOf(t), pending)
    requires CandidateOf(c, t, pending, address, draws, now).Some?
    ensures WindowShape(HeadersOf(chain))
    ensures var b := Mined(CandidateOf(c, t, pending, address, draws, now).value, nonce);
      && |b.txs| > 0 && b.header.timestamp == NextTimestampAt(HeadersOf(chain), now)
      && (BlockRules(c, b, HeadersOf(chain)) <==> HeaderRules(c, b.header, HeadersOf(chain)))
      && (HeaderRules(c, b.header, HeadersOf(chain)) <==>
            && ValidWork(c, b.header) && MedianTimePast(HeadersOf(chain)) < MAX_INT64
            && (Upgraded(|chain|) ==> Last(HeadersOf(chain)).timestamp < MAX_INT64))
      && (ReplayBlock(c, TablesView(t), b).Some? <==> b.txs[0].id !in t.txs)
      && |chain| <= MAX_INT64
  {
    hide Represents, TipShape, Unconfirmed, CandidateOf, WindowShape, HeaderRules, BlockRules, ReplayBlock, SelectAll, StartSelection,
      MedianTimePast, NextTimestampAt, ValidWork, SelectionOk, SizeOk, Subsidy, CandidateBody, CandidateHeader,
      Mined, MerkleRoot, ConfirmedOk, ValidAddress, BodySize, EncodedSize, ComputeId, DecodeHash;
    var k := ConfirmedOf(t);
    var b0 := CandidateOf(c, t, pending, address, draws, now).value;
    var b := Mined(b0, nonce);
    CandidateParts(c, t, pending, address, draws, now);
    SupplyOnly(c, t, chain, horizon);
    SelectionEnds(c, t, chain, horizon, |t.blocks|, pending, address, draws.0);
    var s := SelectAll(c, k, StartSelection(address, draws.0), pending).value;
    CandidateBodyFits(c, k, s, address, draws.1, Subsidy(|t.blocks|) + s.fees);
    BodyRootDecodes(b0.txs);
    CandidateWindow(c, t, chain, horizon, b);
    var w := Window(HeaderRows(t.blocks));
    TipHeight(t);
    MinedParts(w, b0.txs, now, nonce);
    CandidateRules(c, w, b0.txs, now, nonce);
    CandidateBlockRules(c, b, HeadersOf(chain));
    CandidateReplays(c, k, s, b, address, draws.1);
  }

  /**
    The miner's promise: at the same tip, a candidate given a nonce and its matching hash connects exactly when
    the hash shows enough work, the coinbase identifier was never used on this chain, and the clock of the chain
    is not at its very end. (The source draws the coinbase nonce at random and does not look for a collision.)
   */
  lemma CandidateConnects(c: Crypto, t: Tables, chain: seq<Block>, horizon: nat, pending: seq<Transaction>,
                          address: Text, draws: (uint64, uint64), now: int64, nonce: uint64)
    requires Represents(c, t, chain, horizon) && TipShape(t) && Unconfirmed(ConfirmedOf(t), pending)
    requires CandidateOf(c, t, pending, address, draws, now).Some?
    ensures var b := Mined(CandidateOf(c, t, pending, address, draws, now).value, nonce);
      |b.txs| > 0 &&
      (Connects(c, t, b) <==>
        && ValidWork(c, b.header) && b.txs[0].id !in t.txs
        && MedianTimePast(HeadersOf(chain)) < MAX_INT64
        && (Upgraded(|chain|) ==> Last(HeadersOf(chain)).timestamp < MAX_INT64))
  {
    hide Represents, TipShape, Unconfirmed, CandidateOf, WindowShape, HeaderRules, BlockRules, ReplayBlock, Connects,
      MedianTimePast, NextTimestampAt, ValidWork, Mined;
    MinedVerdict(c, t, chain, horizon, pending, address, draws, now, nonce);
    RepresentedConnects(c, t, chain, horizon, Mined(CandidateOf(c, t, pending, address, draws, now).value, nonce));
  }
}
