/**
  Which pending transactions outlive a block (internal/ledger/mempool.go, rebuildMempool after a connection): exactly
  those the block did not confirm and whose inputs still stand, in their old order. No budget and no fee rule ever
  drops another.
 */
module Survival {
  import opened Common
  import opened Encoding
  import opened Amounts
  import opened Transactions
  import opened Merkle
  import opened Totals
  import opened Replay
  import opened Tables
  import opened Refinement
  import opened ChainTables
  import opened Undo
  import opened Mempool
  import opened MempoolRules
  import opened MiningRules
  import opened Worlds

  // ---------------------------------------------------------------- the rows that stay

  /** An outpoint that can still be spent: confirmed and mature, or created by a row that stayed. */
  predicate Stands(k: Confirmed, kept: seq<PoolRow>, o: Outpoint) {
    if o in k.coins then k.coins[o].coinbase ==> IsCoinbaseMature(k.coins[o].createdHeight, k.height)
    else o in PoolOutputs(kept)
  }

  predicate Survives(k: Confirmed, kept: seq<PoolRow>, tx: Transaction) {
    tx.id !in k.ids && (forall i | 0 <= i < |tx.inputs| :: Stands(k, kept, Spends(tx.inputs[i])))
  }

  /** The rows, in order, that are not confirmed and whose inputs stand on what is confirmed and on rows that stayed. */
  function Survivors(k: Confirmed, rows: seq<PoolRow>): seq<PoolRow> {
    if |rows| == 0 then []
    else
      var kept := Survivors(k, rows[..|rows| - 1]);
      if Survives(k, kept, rows[|rows| - 1].tx) then kept + [rows[|rows| - 1]] else kept
  }

  /** An outpoint keeps its value: where it is confirmed now, it is the output it was confirmed or pending as before. */
  ghost predicate SameValues(k: Confirmed, rows: seq<PoolRow>, k1: Confirmed) {
    && (forall o | o in k1.coins && o in k.coins :: k1.coins[o].output == k.coins[o].output)
    && (forall j, o | 0 <= j < |rows| && o in k1.coins && o in Created(rows[j].tx) ::
          k1.coins[o].output == rows[j].tx.outputs[o.index])
  }

  predicate UsageWithin(a: Usage, b: Usage) {
    a.count <= b.count && a.bytes <= b.bytes && a.inputs <= b.inputs
  }

  /** What stayed is part of what was: identifiers, inputs, outputs, and usage. */
  predicate Within(kept: seq<PoolRow>, rows: seq<PoolRow>) {
    && PoolIds(kept) <= PoolIds(rows) && PoolInputs(kept).Keys <= PoolInputs(rows).Keys
    && (forall o | o in PoolOutputs(kept) :: o in PoolOutputs(rows) && PoolOutputs(kept)[o] == PoolOutputs(rows)[o])
    && UsageWithin(UsageOf(kept), UsageOf(rows))
  }

  lemma WithinSnoc(kept: seq<PoolRow>, rows: seq<PoolRow>, row: PoolRow)
    requires Within(kept, rows) && row.tx.id !in PoolIds(rows)
    ensures Within(kept, rows + [row]) && Within(kept + [row], rows + [row])
  {
    hide PoolIds, PoolInputs, PoolOutputs, UsageOf, InputRows;
    RowsSnoc(rows, row);
    RowsSnoc(kept, row);
    OutputsIndexed(rows);
  }

  lemma NothingWithin()
    ensures Within([], [])
  {
  }

  lemma RowIsNew(c: Crypto, k: Confirmed, before: seq<PoolRow>, row: PoolRow)
    requires RowOk(c, k, before, row)
    ensures row.tx.id !in PoolIds(before) && row.tx.id !in k.ids
  {
    hide RegularFee, PoolView, PoolIds, EncodedSize;
  }

  lemma {:induction false} SurvivorsWithin(c: Crypto, k: Confirmed, k1: Confirmed, rows: seq<PoolRow>)
    requires RowsOk(c, k, rows)
    ensures Within(Survivors(k1, rows), rows)
    decreases |rows|
  {
    hide RowsOk, Within, Survives;
    if |rows| == 0 {
      NothingWithin();
    } else {
      var before, row := rows[..|rows| - 1], rows[|rows| - 1];
      RowsOkLast(c, k, rows);
      SurvivorsWithin(c, k, k1, before);
      RowIsNew(c, k, before, row);
      WithinSnoc(Survivors(k1, before), before, row);
    }
  }

  lemma {:induction false} OutputValue(rows: seq<PoolRow>, o: Outpoint)
    requires o in PoolOutputs(rows)
    ensures exists j :: 0 <= j < |rows| && o in Created(rows[j].tx) && rows[j].tx.outputs[o.index] == PoolOutputs(rows)[o]
    decreases |rows|
  {
    var before, last := rows[..|rows| - 1], |rows| - 1;
    if o in OutputsOf(rows[last].tx) {
      assert o in Created(rows[last].tx);
    } else {
      OutputValue(before, o);
      var j :| 0 <= j < |before| && o in Created(before[j].tx) && before[j].tx.outputs[o.index] == PoolOutputs(before)[o];
      assert rows[j] == before[j];
    }
  }

  // ---------------------------------------------------------------- a survivor is admissible again

  /** An input that stands is worth what it was worth. */
  lemma SameWorth(c: Crypto, k: Confirmed, k1: Confirmed, before: seq<PoolRow>, kept: seq<PoolRow>, o: Outpoint)
    requires Within(kept, before) && SameValues(k, before, k1) && RowsOk(c, k1, kept) && ConfirmedOk(c, k1)
    requires o in PoolView(k.coins, before) && Stands(k1, kept, o)
    ensures AgreeAt(PoolView(k.coins, before), PoolView(k1.coins, kept), o) && InputOk(k1, kept, o)
  {
    hide RowsOk, PoolIds, PoolInputs, PoolOutputs, UsageOf, SoundCoins, Created;
    OutputsUnconfirmed(c, k1, kept);
    if o in PoolOutputs(before) {
      OutputValue(before, o);
    }
  }

  lemma RowInputs(c: Crypto, k: Confirmed, before: seq<PoolRow>, row: PoolRow, i: nat)
    requires RowOk(c, k, before, row) && i < |row.tx.inputs|
    ensures Spends(row.tx.inputs[i]) in PoolView(k.coins, before)
  {
    hide RegularFee, PoolView, EncodedSize;
    RegularLimits(c, row.tx, PoolView(k.coins, before));
  }

  lemma SurvivorFits(usage: Usage, less: Usage, size: nat, inputs: nat)
    requires WithinBudget(usage, size, inputs) && UsageWithin(less, usage)
    ensures WithinBudget(less, size, inputs)
  {
  }

  lemma SurvivorOk(c: Crypto, k: Confirmed, k1: Confirmed, before: seq<PoolRow>, kept: seq<PoolRow>, row: PoolRow)
    requires RowOk(c, k, before, row) && Within(kept, before) && SameValues(k, before, k1)
    requires RowsOk(c, k1, kept) && ConfirmedOk(c, k1) && Survives(k1, kept, row.tx)
    ensures RowOk(c, k1, kept, row)
  {
    hide RegularFee, RowsOk, ConfirmedOk, SameValues, PoolView, InputOk, Stands, EncodedSize, WithinBudget, UsageWithin,
      PoolIds, PoolInputs, PoolOutputs, UsageOf, Storable, MinimumRelayFee;
    forall i | 0 <= i < |row.tx.inputs|
      ensures AgreeAt(PoolView(k.coins, before), PoolView(k1.coins, kept), Spends(row.tx.inputs[i]))
           && InputOk(k1, kept, Spends(row.tx.inputs[i])) {
      RowInputs(c, k, before, row, i);
      SameWorth(c, k, k1, before, kept, Spends(row.tx.inputs[i]));
    }
    FeeDependsOnInputs(c, row.tx, PoolView(k.coins, before), PoolView(k1.coins, kept));
    SurvivorFits(UsageOf(before), UsageOf(kept), row.size, |row.tx.inputs|);
  }

  lemma SameValuesPrefix(k: Confirmed, rows: seq<PoolRow>, k1: Confirmed, n: nat)
    requires SameValues(k, rows, k1) && n <= |rows|
    ensures SameValues(k, rows[..n], k1)
  {
  }

  lemma NoRowsOk(c: Crypto, k: Confirmed)
    ensures RowsOk(c, k, [])
  {
  }

  lemma {:induction false} SurvivorsOk(c: Crypto, k: Confirmed, k1: Confirmed, rows: seq<PoolRow>)
    requires RowsOk(c, k, rows) && ConfirmedOk(c, k1) && SameValues(k, rows, k1)
    ensures RowsOk(c, k1, Survivors(k1, rows))
    decreases |rows|
  {
    hide RowsOk, RowOk, ConfirmedOk, SameValues, Survives, Within;
    if |rows| == 0 {
      NoRowsOk(c, k1);
    } else {
      var before, row := rows[..|rows| - 1], rows[|rows| - 1];
      RowsOkLast(c, k, rows);
      SameValuesPrefix(k, rows, k1, |rows| - 1);
      SurvivorsOk(c, k, k1, before);
      SurvivorsWithin(c, k, k1, before);
      var kept := Survivors(k1, before);
      if Survives(k1, kept, row.tx) {
        SurvivorOk(c, k, k1, before, kept, row);
        RowsOkSnoc(c, k1, kept, row);
      }
    }
  }

  // ---------------------------------------------------------------- the rebuild keeps exactly the survivors

  /** A row that does not survive is refused, never a fault. */
  lemma OthersRefused(c: Crypto, k: Confirmed, pool: Pool, kept: seq<PoolRow>, item: Pending)
    requires PoolOk(c, k, pool) && ConfirmedOk(c, k) && SameRows(pool.rows, kept) && !Survives(k, kept, item.tx)
    ensures Admit(c, k, pool, item).Refused?
  {
    hide PoolOk, ConfirmedOk, RegularFee, LookupSpendable, LookupFailure, SameRows, WithinBudget, PoolIds, PoolOutputs,
      PoolInputs, UsageOf, MinimumRelayFee, Storable, PoolKeysFree, EncodedSize;
    AdmitKeepsPool(c, k, pool, item);
    SameRowsSameIndex(pool.rows, kept);
    if InputsFound(k, pool, item.tx.inputs) {
      forall i | 0 <= i < |item.tx.inputs| ensures Stands(k, kept, Spends(item.tx.inputs[i])) {
        LookupMeaning(c, k, pool, Spends(item.tx.inputs[i]));
      }
    } else {
      FailureIsRefusal(c, k, pool, item.tx.inputs);
    }
  }

  lemma SameRowsSnoc(a: seq<PoolRow>, b: seq<PoolRow>, pool: Pool, row: PoolRow, firstSeen: int64)
    requires SameRows(pool.rows, b) && row.size == EncodedSize(row.tx)
    ensures SameRows(Append(pool, row.tx, firstSeen, row.fee).rows, b + [row])
  {
    hide EncodedSize, InputRows, OutputsOf;
  }

  lemma KeepsOne(c: Crypto, k: Confirmed, k1: Confirmed, pool: Pool, rows: seq<PoolRow>, n: nat, item: Pending)
    requires PoolOk(c, k1, pool) && ConfirmedOk(c, k1) && RowsOk(c, k, rows) && SameValues(k, rows, k1)
    requires n < |rows| && SameRows(pool.rows, Survivors(k1, rows[..n])) && item.tx == rows[n].tx
    requires Survives(k1, Survivors(k1, rows[..n]), rows[n].tx)
    ensures Admit(c, k1, pool, item).Admitted? && PoolOk(c, k1, Admit(c, k1, pool, item).pool)
    ensures SameRows(Admit(c, k1, pool, item).pool.rows, Survivors(k1, rows[..n]) + [rows[n]])
  {
    hide PoolOk, ConfirmedOk, RowOk, RowsOk, Admit, SameRows, SameValues, Survives, Within, Survivors, Append;
    var before, row := rows[..n], rows[n];
    var kept := Survivors(k1, before);
    RowAt(c, k, rows, n);
    RowsOkPrefix(c, k, rows, n);
    SameValuesPrefix(k, rows, k1, n);
    SurvivorsWithin(c, k, k1, before);
    SurvivorsOk(c, k, k1, before);
    SurvivorOk(c, k, k1, before, kept, row);
    RowIsAdmitted(c, k1, pool, kept, row, item);
    AdmitKeepsPool(c, k1, pool, item);
    RowSize(c, k, before, row);
    SameRowsSnoc(kept, kept, pool, row, item.firstSeen);
  }

  lemma {:induction false} RepopulateKeepsSurvivors(c: Crypto, k: Confirmed, k1: Confirmed, pool: Pool,
                                                    rows: seq<PoolRow>, n: nat)
    requires PoolOk(c, k1, pool) && ConfirmedOk(c, k1) && RowsOk(c, k, rows) && SameValues(k, rows, k1)
    requires n <= |rows| && SameRows(pool.rows, Survivors(k1, rows[..n]))
    ensures Repopulate(c, k1, pool, PendingOf(rows)[n..]).Some?
    ensures SameRows(Repopulate(c, k1, pool, PendingOf(rows)[n..]).value.rows, Survivors(k1, rows))
    decreases |rows| - n
  {
    hide PoolOk, ConfirmedOk, RowOk, RowsOk, Admit, SameRows, SameValues, Survives, Within;
    var items := PendingOf(rows)[n..];
    if n == |rows| {
      assert rows[..n] == rows;
    } else {
      var before, row := rows[..n], rows[n];
      var kept := Survivors(k1, before);
      assert rows[..n + 1][..n] == before && items[1..] == PendingOf(rows)[n + 1..];
      if Survives(k1, kept, row.tx) {
        KeepsOne(c, k, k1, pool, rows, n, items[0]);
        RepopulateKeepsSurvivors(c, k, k1, Admit(c, k1, pool, items[0]).pool, rows, n + 1);
      } else {
        OthersRefused(c, k1, pool, kept, items[0]);
        RepopulateKeepsSurvivors(c, k, k1, pool, rows, n + 1);
      }
    }
  }

  /** Rebuilding on any confirmed state that gives outpoints their old values keeps exactly the survivors. */
  lemma RebuildKeepsSurvivors(c: Crypto, k: Confirmed, k1: Confirmed, pool: Pool, now: int64)
    requires PoolOk(c, k, pool) && ConfirmedOk(c, k1) && SameValues(k, pool.rows, k1)
    ensures Rebuild(c, k1, pool, [], now).Some?
    ensures SameRows(Rebuild(c, k1, pool, [], now).value.rows, Survivors(k1, pool.rows))
  {
    hide ConfirmedOk, Repopulate, RowsOk, SameValues;
    EmptyPoolOk(c, k1, pool.nextSequence);
    assert Fresh([], now) + PendingOf(pool.rows) == PendingOf(pool.rows)[0..];
    RepopulateKeepsSurvivors(c, k, k1, EmptyPool(pool.nextSequence), pool.rows, 0);
  }

  // ---------------------------------------------------------------- one block

  /** An unspent output that a transaction of the list created. */
  predicate FromList(txs: seq<Transaction>, o: Outpoint, output: TxOutput) {
    exists n :: 0 <= n < |txs| && o in Created(txs[n]) && txs[n].outputs[o.index] == output
  }

  predicate UtxoExplained(after: Utxo, before: Utxo, txs: seq<Transaction>) {
    forall o | o in after :: (o in before && after[o] == before[o]) || FromList(txs, o, after[o])
  }

  lemma FromLonger(first: Transaction, txs: seq<Transaction>, o: Outpoint, output: TxOutput)
    ensures FromList(txs, o, output) ==> FromList([first] + txs, o, output)
    ensures o in Created(first) && first.outputs[o.index] == output ==> FromList([first] + txs, o, output)
  {
    hide Created;
    if FromList(txs, o, output) {
      var n :| 0 <= n < |txs| && o in Created(txs[n]) && txs[n].outputs[o.index] == output;
      assert ([first] + txs)[n + 1] == txs[n];
    }
    assert ([first] + txs)[0] == first;
  }

  function IdSet(txs: seq<Transaction>): set<Text> {
    set i | 0 <= i < |txs| :: txs[i].id
  }

  lemma IdSetCons(first: Transaction, txs: seq<Transaction>)
    ensures IdSet([first] + txs) == {first.id} + IdSet(txs)
  {
    forall id | id in IdSet(txs) ensures id in IdSet([first] + txs) {
      var i :| 0 <= i < |txs| && txs[i].id == id;
      assert ([first] + txs)[i + 1].id == id;
    }
    assert ([first] + txs)[0] == first;
  }

  lemma StepEffect(c: Crypto, v: View, fees: uint64, tx: Transaction, height: nat)
    requires ReplayRegular(c, v, fees, tx, height).Some?
    ensures var v1 := ReplayRegular(c, v, fees, tx, height).value.0;
      && v1.seen == v.seen + {tx.id} && tx.id !in v.seen
      && (forall o | o in v1.utxo :: (o in v.utxo && v1.utxo[o] == v.utxo[o]) || (o in Created(tx) && tx.outputs[o.index] == v1.utxo[o]))
  {
    hide RegularFee, Created, Spent;
  }

  /** What replaying a list adds to the view: unspent outputs of its own, and its identifiers, all new. */
  lemma {:induction false} ListEffect(c: Crypto, v: View, fees: uint64, txs: seq<Transaction>, height: nat)
    requires ReplayRegulars(c, v, fees, txs, height).Some?
    ensures var v' := ReplayRegulars(c, v, fees, txs, height).value.0;
      UtxoExplained(v'.utxo, v.utxo, txs) && v'.seen == v.seen + IdSet(txs) && v.seen !! IdSet(txs)
    decreases |txs|
  {
    hide ReplayRegular, FromList, Created;
    if |txs| > 0 {
      var (v1, fees1) := ReplayRegular(c, v, fees, txs[0], height).value;
      var rest := txs[1..];
      assert [txs[0]] + rest == txs;
      StepEffect(c, v, fees, txs[0], height);
      ListEffect(c, v1, fees1, rest, height);
      IdSetCons(txs[0], rest);
      var v' := ReplayRegulars(c, v, fees, txs, height).value.0;
      forall o | o in v'.utxo ensures (o in v.utxo && v'.utxo[o] == v.utxo[o]) || FromList(txs, o, v'.utxo[o]) {
        FromLonger(txs[0], rest, o, v'.utxo[o]);
      }
    }
  }

  lemma ListedId(txs: seq<Transaction>, o: Outpoint, output: TxOutput)
    ensures FromList(txs, o, output) ==> o.txid in IdSet(txs)
  {
  }

  /** The same for a block, whose coinbase comes first in the list and last in the view. */
  lemma BlockEffect(c: Crypto, v: View, b: Block)
    requires ReplayBlock(c, v, b).Some?
    ensures var v' := ReplayBlock(c, v, b).value;
      && UtxoExplained(v'.utxo, v.utxo, b.txs) && v'.seen == v.seen + IdSet(b.txs) && v.seen !! IdSet(b.txs)
    ensures forall i | 0 <= i < |b.txs| :: b.txs[i].id == ComputeId(b.txs[i]) && InMemory(b.txs[i])
  {
    hide ReplayRegulars, CoinbaseOk, FromList, Created, ComputeId, InMemory, EncodedSize, OutputsFresh, Spent;
    var height, rest, first := b.header.height, b.txs[1..], b.txs[0];
    var (v1, fees) := ReplayRegulars(c, v, 0, rest, height).value;
    ListEffect(c, v, 0, rest, height);
    ReplayedBodies(c, v, 0, rest, height);
    CoinbaseLimits(c, first, Subsidy(height) + fees);
    ValidatedInMemory(first);
    assert [first] + rest == b.txs;
    IdSetCons(first, rest);
    var v' := ReplayBlock(c, v, b).value;
    forall o | o in v'.utxo ensures (o in v.utxo && v'.utxo[o] == v.utxo[o]) || FromList(b.txs, o, v'.utxo[o]) {
      FromLonger(first, rest, o, v'.utxo[o]);
    }
    forall i | 0 <= i < |b.txs| ensures b.txs[i].id == ComputeId(b.txs[i]) && InMemory(b.txs[i]) {
      assert i > 0 ==> b.txs[i] == rest[i - 1];
    }
  }

  /** The replayed view before and after the tip of a chain. */
  lemma TipEffect(c: Crypto, chain: seq<Block>, b: Block)
    requires Build(c, chain + [b]).Some? && Build(c, chain).Some?
    ensures var k, k1 := ConfirmedAt(c, chain), ConfirmedAt(c, chain + [b]);
      && UtxoExplained(Outputs(k1.coins), Outputs(k.coins), b.txs)
      && k1.ids == k.ids + IdSet(b.txs) && k.ids !! IdSet(b.txs)
    ensures forall i | 0 <= i < |b.txs| :: b.txs[i].id == ComputeId(b.txs[i]) && InMemory(b.txs[i])
  {
    hide Build, ReplayChain, ReplayBlock, UtxoExplained, ComputeId, InMemory, BlockRules;
    BuildAgreesWithReplay(c, chain);
    BuildAgreesWithReplay(c, chain + [b]);
    ReplaySnoc(c, chain, b);
    BlockEffect(c, ReplayChain(c, chain).value, b);
  }

  lemma PendingComputed(c: Crypto, k: Confirmed, before: seq<PoolRow>, row: PoolRow)
    requires RowOk(c, k, before, row)
    ensures row.tx.id == ComputeId(row.tx) && InMemory(row.tx)
  {
    hide RegularFee, PoolView, EncodedSize, ComputeId, InMemory;
    RegularLimits(c, row.tx, PoolView(k.coins, before));
    ValidatedInMemory(row.tx);
  }

  /** Connecting a block changes the value of no outpoint that is confirmed or pending. */
  lemma BlockKeepsValues(c: Crypto, chain: seq<Block>, b: Block, rows: seq<PoolRow>)
    requires Build(c, chain + [b]).Some? && Build(c, chain).Some?
    requires RowsOk(c, ConfirmedAt(c, chain), rows)
    ensures SameValues(ConfirmedAt(c, chain), rows, ConfirmedAt(c, chain + [b]))
  {
    hide Build, RowsOk, ConfirmedAt, SoundCoins, ComputeId, InMemory, RowOk, IdSet;
    var k, k1 := ConfirmedAt(c, chain), ConfirmedAt(c, chain + [b]);
    ConfirmedIsSound(c, chain);
    TipEffect(c, chain, b);
    forall o | o in k1.coins && o in k.coins ensures k1.coins[o].output == k.coins[o].output {
      ListedId(b.txs, o, Outputs(k1.coins)[o]);
    }
    forall j, o | 0 <= j < |rows| && o in k1.coins && o in Created(rows[j].tx)
      ensures k1.coins[o].output == rows[j].tx.outputs[o.index] {
      RowAt(c, k, rows, j);
      RowIsNew(c, k, rows[..j], rows[j]);
      PendingComputed(c, k, rows[..j], rows[j]);
      var n :| 0 <= n < |b.txs| && o in Created(b.txs[n]) && b.txs[n].outputs[o.index] == k1.coins[o].output;
      IdBindsTransaction(b.txs[n], rows[j].tx);
    }
  }

  /**
    The mempool after a block: the pending transactions that the block did not confirm and whose inputs still stand, in
    their old order, and nothing else.
   */
  lemma PendingAfterBlock(c: Crypto, w: World, b: Block, now: int64, seen: int64)
    requires WorldOk(c, w) && ExecConnect(c, w, b, now, seen).1.Committed?
    ensures Build(c, w.chain + [b]).Some?
    ensures SameRows(ExecConnect(c, w, b, now, seen).0.pool.rows, Survivors(ConfirmedAt(c, w.chain + [b]), w.pool.rows))
  {
    hide Build, ConfirmedAt, ConfirmedOk, Rebuild, SameValues, RowsOk, SameRows, Survivors;
    var k, k1 := ConfirmedAt(c, w.chain), ConfirmedAt(c, w.chain + [b]);
    ConfirmedIsSound(c, w.chain + [b]);
    BlockKeepsValues(c, w.chain, b, w.pool.rows);
    RebuildKeepsSurvivors(c, k, k1, w.pool, seen);
  }

  /** A pending transaction counts as confirmed after a block exactly when the block contains it. */
  lemma ConfirmedByBlock(c: Crypto, w: World, b: Block, j: nat)
    requires WorldOk(c, w) && Build(c, w.chain + [b]).Some? && j < |w.pool.rows|
    ensures w.pool.rows[j].tx.id in ConfirmedAt(c, w.chain + [b]).ids <==> w.pool.rows[j].tx in b.txs
  {
    hide Build, ConfirmedAt, RowsOk, ComputeId, InMemory, UtxoExplained;
    var k, row := ConfirmedAt(c, w.chain), w.pool.rows[j];
    TipEffect(c, w.chain, b);
    RowAt(c, k, w.pool.rows, j);
    RowIsNew(c, k, w.pool.rows[..j], row);
    PendingComputed(c, k, w.pool.rows[..j], row);
    if row.tx.id in IdSet(b.txs) {
      var n :| 0 <= n < |b.txs| && b.txs[n].id == row.tx.id;
      IdBindsTransaction(b.txs[n], row.tx);
    }
  }
}
