/**
  What a mempool holds after it is filled again (internal/ledger/mempool.go, rebuildMempool and repopulateMempool):
  after a reorganisation the orphaned transactions and then the old pending ones, after an import the imported list.
 */
module Refills {
  import opened Common
  import opened Amounts
  import opened Transactions
  import opened Merkle
  import opened Totals
  import opened Replay
  import opened Tables
  import opened Refinement
  import opened ChainTables
  import opened Undo
  import opened Horizon
  import opened Mempool
  import opened MempoolRules
  import opened Collectors
  import opened Worlds
  import opened Reorgs
  import opened Authenticity

  // ---------------------------------------------------------------- any list

  /** The row of a transaction with this fee; its place and time are left open. */
  function RowFor(tx: Transaction, fee: uint64): PoolRow {
    PoolRow(0, 0, fee, EncodedSize(tx), tx)
  }

  /** The fee of a transaction on top of these rows, if it is valid there. */
  ghost function FeeOn(c: Crypto, k: Confirmed, rows: seq<PoolRow>, tx: Transaction): Option<uint64> {
    RegularFee(c, tx, PoolView(k.coins, rows))
  }

  /** A transaction that could stand on top of these rows. */
  ghost predicate Admissible(c: Crypto, k: Confirmed, rows: seq<PoolRow>, tx: Transaction) {
    FeeOn(c, k, rows, tx).Some? && RowOk(c, k, rows, RowFor(tx, FeeOn(c, k, rows, tx).value))
  }

  /** The rows, and on top of them every transaction of the list, in order, that is admissible when its turn comes. */
  ghost function AdmissibleOf(c: Crypto, k: Confirmed, rows: seq<PoolRow>, txs: seq<Transaction>): seq<PoolRow>
    decreases |txs|
  {
    if |txs| == 0 then rows
    else if Admissible(c, k, rows, txs[0]) then
      AdmissibleOf(c, k, rows + [RowFor(txs[0], FeeOn(c, k, rows, txs[0]).value)], txs[1..])
    else AdmissibleOf(c, k, rows, txs[1..])
  }

  function Items(pending: seq<Pending>): (r: seq<Transaction>)
    ensures |r| == |pending|
  {
    seq(|pending|, i requires 0 <= i < |pending| => pending[i].tx)
  }

  lemma SameRowOk(c: Crypto, k: Confirmed, a: seq<PoolRow>, b: seq<PoolRow>, row: PoolRow)
    requires SameRows(a, b) && RowOk(c, k, a, row)
    ensures RowOk(c, k, b, RowFor(row.tx, row.fee)) && FeeOn(c, k, b, row.tx) == Some(row.fee)
  {
    hide RegularFee, EncodedSize, PoolIds, PoolInputs, PoolOutputs, UsageOf;
    SameRowsSameIndex(a, b);
  }

  lemma AdmittedIsOk(c: Crypto, k: Confirmed, pool: Pool, rows: seq<PoolRow>, item: Pending)
    requires PoolOk(c, k, pool) && ConfirmedOk(c, k) && SameRows(pool.rows, rows) && Admit(c, k, pool, item).Admitted?
    ensures Admissible(c, k, rows, item.tx)
  {
    hide ConfirmedOk, RowOk, IndexOk, Admit, EncodedSize, PoolView;
    AdmitKeepsPool(c, k, pool, item);
    var p := Admit(c, k, pool, item).pool;
    RowAt(c, k, p.rows, |pool.rows|);
    SameRowOk(c, k, pool.rows, rows, p.rows[|pool.rows|]);
  }

  /** Admission is admissibility: what it takes is admissible, and what it refuses is not. */
  lemma AdmitsAdmissible(c: Crypto, k: Confirmed, pool: Pool, rows: seq<PoolRow>, item: Pending)
    requires PoolOk(c, k, pool) && ConfirmedOk(c, k) && SameRows(pool.rows, rows)
    ensures Admit(c, k, pool, item).Admitted? <==> Admissible(c, k, rows, item.tx)
    ensures Admissible(c, k, rows, item.tx) ==>
      Admit(c, k, pool, item) == Admitted(Append(pool, item.tx, item.firstSeen, FeeOn(c, k, rows, item.tx).value))
  {
    hide PoolOk, ConfirmedOk, Admit, RowOk, SameRows, Append, FeeOn;
    if Admissible(c, k, rows, item.tx) {
      RowIsAdmitted(c, k, pool, rows, RowFor(item.tx, FeeOn(c, k, rows, item.tx).value), item);
    } else if Admit(c, k, pool, item).Admitted? {
      AdmittedIsOk(c, k, pool, rows, item);
    }
  }

  lemma OneMoreRow(pool: Pool, rows: seq<PoolRow>, item: Pending, fee: uint64)
    requires SameRows(pool.rows, rows)
    ensures SameRows(Append(pool, item.tx, item.firstSeen, fee).rows, rows + [RowFor(item.tx, fee)])
  {
    hide EncodedSize, InputRows, OutputsOf;
  }

  /** Filling a sound pool from a list keeps its rows and adds exactly the admissible transactions, in order. */
  lemma {:induction false} RepopulateExactly(c: Crypto, k: Confirmed, pool: Pool, rows: seq<PoolRow>,
                                             items: seq<Pending>)
    requires PoolOk(c, k, pool) && ConfirmedOk(c, k) && SameRows(pool.rows, rows)
    ensures Repopulate(c, k, pool, items).Some?
    ensures SameRows(Repopulate(c, k, pool, items).value.rows, AdmissibleOf(c, k, rows, Items(items)))
    decreases |items|
  {
    hide PoolOk, ConfirmedOk, Admit, RowOk, SameRows, RowFor, FeeOn, Append;
    if |items| > 0 {
      AdmitKeepsPool(c, k, pool, items[0]);
      AdmitsAdmissible(c, k, pool, rows, items[0]);
      assert Items(items)[1..] == Items(items[1..]);
      if Admissible(c, k, rows, items[0].tx) {
        var fee := FeeOn(c, k, rows, items[0].tx).value;
        OneMoreRow(pool, rows, items[0], fee);
        RepopulateExactly(c, k, Admit(c, k, pool, items[0]).pool, rows + [RowFor(items[0].tx, fee)], items[1..]);
      } else {
        RepopulateExactly(c, k, pool, rows, items[1..]);
      }
    }
  }

  lemma NoRows()
    ensures SameRows([], [])
  {
  }

  /** An imported mempool holds the admissible part of the imported list, in order. */
  lemma ImportKeepsPending(c: Crypto, w: World, state: seq<Block>, pending: seq<Transaction>, checked: nat -> int64,
                           clock: nat -> int64, seen: int64)
    requires WorldOk(c, w) && Exec(c, w, ImportState(state, pending, checked, clock, seen)).1.Committed?
    ensures Build(c, state).Some?
    ensures SameRows(Exec(c, w, ImportState(state, pending, checked, clock, seen)).0.pool.rows,
                     AdmissibleOf(c, ConfirmedAt(c, state), [], pending))
  {
    hide Build, PoolOk, ConfirmedAt, ConfirmedOk, Repopulate, OnTime, ReplayChain, GenesisBlock, SameRows, AdmissibleOf;
    PoolContinues(c, ConfirmedAt(c, w.chain), w.pool);
    ConfirmedIsSound(c, state);
    EmptyPoolOk(c, ConfirmedAt(c, state), w.pool.nextSequence);
    NoRows();
    assert Items(Fresh(pending, seen)) == pending;
    RepopulateExactly(c, ConfirmedAt(c, state), EmptyPool(w.pool.nextSequence), [], Fresh(pending, seen));
  }

  // ---------------------------------------------------------------- transactions that were valid before

  function TxsOf(rows: seq<PoolRow>): (r: seq<Transaction>)
    ensures |r| == |rows|
  {
    seq(|rows|, i requires 0 <= i < |rows| => rows[i].tx)
  }

  function OutputsIn(txs: seq<Transaction>): Utxo {
    if |txs| == 0 then map[] else OutputsIn(txs[..|txs| - 1]) + OutputsOf(txs[|txs| - 1])
  }

  function InputCount(txs: seq<Transaction>): nat {
    if |txs| == 0 then 0 else InputCount(txs[..|txs| - 1]) + |txs[|txs| - 1].inputs|
  }

  /** Outputs a transaction on top of these may come to: confirmed ones and those of the transactions that stayed. */
  function Sources(k: Confirmed, kept: seq<Transaction>): Utxo {
    Outputs(k.coins) + OutputsIn(kept)
  }

  /** Confirmed and, if a coinbase made it, a hundred blocks old; or created by a transaction that stayed. */
  predicate Available(k: Confirmed, kept: seq<Transaction>, o: Outpoint) {
    if o in k.coins then k.coins[o].coinbase ==> k.coins[o].createdHeight + 100 <= k.height else o in OutputsIn(kept)
  }

  /** The three budgets of the mempool. */
  ghost predicate Room(kept: seq<Transaction>, tx: Transaction) {
    && |kept| < 5_000
    && Bytes(kept) + EncodedSize(tx) <= 33_554_432
    && InputCount(kept) + |tx.inputs| <= 20_000
  }

  /** A transaction stays: unconfirmed, its inputs available, its relay minimum paid, and room left for it. */
  ghost predicate Stays(k: Confirmed, kept: seq<Transaction>, tx: Transaction) {
    && tx.id !in k.ids
    && (forall i | 0 <= i < |tx.inputs| :: Available(k, kept, Spends(tx.inputs[i])))
    && OutputSum(tx.outputs) + MinimumRelayFee(EncodedSize(tx)) <= InputSum(tx.inputs, Sources(k, kept))
    && Room(kept, tx)
  }

  /** What stays of a list, each judged on top of those that stayed before it. */
  ghost function Refilled(k: Confirmed, kept: seq<Transaction>, txs: seq<Transaction>): seq<Transaction>
    decreases |txs|
  {
    if |txs| == 0 then kept
    else Refilled(k, if Stays(k, kept, txs[0]) then kept + [txs[0]] else kept, txs[1..])
  }

  /** The rows of a sound pool say the same as the list of their transactions. */
  lemma {:induction false} RowsAsTxs(c: Crypto, k: Confirmed, rows: seq<PoolRow>)
    requires RowsOk(c, k, rows)
    ensures PoolOutputs(rows) == OutputsIn(TxsOf(rows))
    ensures UsageOf(rows) == Usage(|rows|, Bytes(TxsOf(rows)), InputCount(TxsOf(rows)))
    decreases |rows|
  {
    hide RowsOk, RowOk, OutputsOf, EncodedSize;
    if |rows| > 0 {
      var before, row := rows[..|rows| - 1], rows[|rows| - 1];
      RowsOkLast(c, k, rows);
      RowsAsTxs(c, k, before);
      RowSize(c, k, before, row);
      assert TxsOf(rows)[..|rows| - 1] == TxsOf(before);
    }
  }

  lemma MoreOutputs(base: Utxo, outs: Utxo, tx: Transaction)
    requires Authentic(base + outs) && Computed(tx)
    ensures Authentic(base + (outs + OutputsOf(tx)))
  {
    hide Authentic, Computed, OutputsOf;
    AuthenticUpdate(base + outs, {}, tx);
    assert base + outs - {} + OutputsOf(tx) == base + (outs + OutputsOf(tx));
  }

  lemma PendingIsComputed(c: Crypto, k: Confirmed, before: seq<PoolRow>, row: PoolRow)
    requires RowOk(c, k, before, row)
    ensures Computed(row.tx)
  {
    hide RegularFee, PoolView, EncodedSize, ComputeId, InMemory;
    RegularLimits(c, row.tx, PoolView(k.coins, before));
    ValidatedInMemory(row.tx);
  }

  lemma {:induction false} SourcesAuthentic(c: Crypto, k: Confirmed, rows: seq<PoolRow>)
    requires RowsOk(c, k, rows) && Authentic(Outputs(k.coins))
    ensures Authentic(Outputs(k.coins) + PoolOutputs(rows))
    decreases |rows|
  {
    hide RowsOk, RowOk, Authentic, Outputs, Computed, OutputsOf;
    if |rows| == 0 {
      assert Outputs(k.coins) + PoolOutputs(rows) == Outputs(k.coins);
    } else {
      var before, row := rows[..|rows| - 1], rows[|rows| - 1];
      RowsOkLast(c, k, rows);
      SourcesAuthentic(c, k, before);
      PendingIsComputed(c, k, before, row);
      MoreOutputs(Outputs(k.coins), PoolOutputs(before), row.tx);
    }
  }

  lemma AuthenticPart(u: Utxo, spent: set<Outpoint>)
    requires Authentic(u)
    ensures Authentic(u - spent)
  {
    hide OutputOf;
  }

  lemma PendingAuthentic(c: Crypto, k: Confirmed, rows: seq<PoolRow>)
    requires RowsOk(c, k, rows) && Authentic(Outputs(k.coins))
    ensures Authentic(PoolView(k.coins, rows))
  {
    hide RowsOk, Authentic, PoolInputs, PoolOutputs;
    SourcesAuthentic(c, k, rows);
    AuthenticPart(Outputs(k.coins) + PoolOutputs(rows), PoolInputs(rows).Keys);
  }

  /** The inputs of pending rows are all spends of their transactions. */
  lemma {:induction false} PoolInputsOf(rows: seq<PoolRow>, o: Outpoint)
    requires o in PoolInputs(rows)
    ensures exists j :: 0 <= j < |rows| && o in Spent(rows[j].tx.inputs)
    decreases |rows|
  {
    var before, last := rows[..|rows| - 1], |rows| - 1;
    if o !in InputRows(rows[last].tx) {
      PoolInputsOf(before, o);
      var j :| 0 <= j < |before| && o in Spent(before[j].tx.inputs);
      assert rows[j] == before[j];
    }
  }

  /** A transaction that shares nothing with the rows. */
  predicate Clear(rows: seq<PoolRow>, tx: Transaction) {
    forall j | 0 <= j < |rows| :: rows[j].tx.id != tx.id && Spent(rows[j].tx.inputs) !! Spent(tx.inputs)
  }

  lemma ClearInputs(rows: seq<PoolRow>, tx: Transaction)
    requires Clear(rows, tx)
    ensures tx.id !in PoolIds(rows)
    ensures forall i | 0 <= i < |tx.inputs| :: Spends(tx.inputs[i]) !in PoolInputs(rows)
  {
    forall i | 0 <= i < |tx.inputs| ensures Spends(tx.inputs[i]) !in PoolInputs(rows) {
      if Spends(tx.inputs[i]) in PoolInputs(rows) {
        PoolInputsOf(rows, Spends(tx.inputs[i]));
      }
    }
  }

  lemma AvailableIsOk(k: Confirmed, rows: seq<PoolRow>, kept: seq<Transaction>, o: Outpoint)
    requires PoolOutputs(rows) == OutputsIn(kept) && o !in PoolInputs(rows) && k.height > 0
    requires o in k.coins ==> k.coins[o].createdHeight < k.height
    ensures InputOk(k, rows, o) <==> Available(k, kept, o)
    ensures AgreeAt(PoolView(k.coins, rows), Sources(k, kept), o)
    ensures Available(k, kept, o) ==> o in Sources(k, kept)
  {
  }

  /** For a transaction that was valid before and shares nothing with the rows, staying is being admissible. */
  lemma StaysIsAdmissible(c: Crypto, k: Confirmed, rows: seq<PoolRow>, tx: Transaction)
    requires RowsOk(c, k, rows) && ConfirmedOk(c, k) && k.height > 0 && Authentic(Outputs(k.coins))
    requires Payable(c, tx) && Clear(rows, tx)
    ensures Stays(k, TxsOf(rows), tx) <==> Admissible(c, k, rows, tx)
  {
    hide RowsOk, RegularFee, Payable, Authentic, Clear, InputOk, Available, PoolView, Sources, EncodedSize, Storable,
      PoolIds, PoolInputs, PoolOutputs, OutputsIn, UsageOf, Bytes, InputCount, MinimumRelayFee, SoundCoins, OutputSum,
      InputSum;
    var kept := TxsOf(rows);
    RowsAsTxs(c, k, rows);
    PendingAuthentic(c, k, rows);
    ClearInputs(rows, tx);
    forall i | 0 <= i < |tx.inputs|
      ensures InputOk(k, rows, Spends(tx.inputs[i])) <==> Available(k, kept, Spends(tx.inputs[i]))
      ensures AgreeAt(PoolView(k.coins, rows), Sources(k, kept), Spends(tx.inputs[i]))
      ensures Available(k, kept, Spends(tx.inputs[i])) ==> Spends(tx.inputs[i]) in Sources(k, kept) {
      AvailableIsOk(k, rows, kept, Spends(tx.inputs[i]));
    }
    if InputsKnown(tx.inputs, PoolView(k.coins, rows)) {
      PayableFits(c, tx, PoolView(k.coins, rows));
      InputSumAgrees(tx.inputs, PoolView(k.coins, rows), Sources(k, kept));
    }
  }

  // ---------------------------------------------------------------- the refill

  /** The list shares nothing with the rows, its transactions share nothing with each other, and all were valid before. */
  ghost predicate Returning(c: Crypto, rows: seq<PoolRow>, txs: seq<Transaction>) {
    && Apart(txs) && (forall i | 0 <= i < |txs| :: Clear(rows, txs[i]) && Payable(c, txs[i]))
  }

  lemma ReturningRest(c: Crypto, rows: seq<PoolRow>, txs: seq<Transaction>, row: PoolRow)
    requires Returning(c, rows, txs) && |txs| > 0 && row.tx == txs[0]
    ensures Returning(c, rows, txs[1..]) && Returning(c, rows + [row], txs[1..])
  {
    hide Payable, Spent;
    forall i | 0 <= i < |txs| - 1 ensures Clear(rows, txs[1..][i]) && Clear(rows + [row], txs[1..][i]) && Payable(c, txs[1..][i]) {
      assert txs[1..][i] == txs[i + 1];
    }
  }

  lemma ReturningFirst(c: Crypto, rows: seq<PoolRow>, txs: seq<Transaction>)
    requires Returning(c, rows, txs) && |txs| > 0
    ensures Clear(rows, txs[0]) && Payable(c, txs[0])
  {
  }

  lemma {:induction false} RefillIsAdmissible(c: Crypto, k: Confirmed, rows: seq<PoolRow>, txs: seq<Transaction>)
    requires RowsOk(c, k, rows) && ConfirmedOk(c, k) && k.height > 0 && Authentic(Outputs(k.coins))
    requires Returning(c, rows, txs)
    ensures TxsOf(AdmissibleOf(c, k, rows, txs)) == Refilled(k, TxsOf(rows), txs)
    decreases |txs|
  {
    hide RowsOk, RowOk, ConfirmedOk, Authentic, Returning, Stays, FeeOn;
    if |txs| > 0 {
      ReturningFirst(c, rows, txs);
      StaysIsAdmissible(c, k, rows, txs[0]);
      var row := if Admissible(c, k, rows, txs[0]) then RowFor(txs[0], FeeOn(c, k, rows, txs[0]).value) else RowFor(txs[0], 0);
      ReturningRest(c, rows, txs, row);
      if Admissible(c, k, rows, txs[0]) {
        RowsOkSnoc(c, k, rows, row);
        assert TxsOf(rows + [row]) == TxsOf(rows) + [txs[0]];
        RefillIsAdmissible(c, k, rows + [row], txs[1..]);
      } else {
        RefillIsAdmissible(c, k, rows, txs[1..]);
      }
    }
  }

  // ---------------------------------------------------------------- what returns when a chain is cut back

  lemma SameTxs(a: seq<PoolRow>, b: seq<PoolRow>)
    requires SameRows(a, b)
    ensures TxsOf(a) == TxsOf(b)
  {
  }

  /** What is pending was valid on the confirmed view and the pending rows before it. */
  lemma PendingPayable(c: Crypto, k: Confirmed, rows: seq<PoolRow>, j: nat)
    requires RowsOk(c, k, rows) && CoinsIndexed(k.coins, k.ids) && j < |rows|
    requires Authentic(Outputs(k.coins)) && Total(Outputs(k.coins)) <= MAX_SUPPLY
    ensures Payable(c, rows[j].tx)
  {
    hide RowsOk, RegularFee, Authentic, PoolView, PoolFees, Payable, CoinsIndexed, Total;
    RowAt(c, k, rows, j);
    RowsOkPrefix(c, k, rows, j);
    PendingAuthentic(c, k, rows[..j]);
    PoolConserves(c, k, rows[..j]);
    IsPayable(c, rows[j].tx, PoolView(k.coins, rows[..j]));
  }

  lemma SpentIndex(inputs: seq<TxInput>, o: Outpoint)
    requires o in Spent(inputs)
    ensures exists i :: 0 <= i < |inputs| && Spends(inputs[i]) == o
  {
  }

  /** Orphans were confirmed and spent confirmed outputs; pending rows were not and spend unspent ones. */
  lemma OrphansClear(c: Crypto, k: Confirmed, rows: seq<PoolRow>, v: View, orphans: seq<Transaction>, n: nat, j: nat)
    requires RowsOk(c, k, rows) && CoinsIndexed(k.coins, k.ids) && v.utxo == Outputs(k.coins) && v.seen == k.ids
    requires Applied(c, orphans, v) && n < |orphans| && j < |rows|
    ensures orphans[n].id != rows[j].tx.id && Spent(orphans[n].inputs) !! Spent(rows[j].tx.inputs)
  {
    hide RowsOk, RegularFee, Apart, Authentic, Payable, InOrder, PoolView, PoolIds, EncodedSize, WithinBudget, Spent;
    IdsSeen(orphans, v.seen);
    OutputsUnconfirmed(c, k, rows);
    RowAt(c, k, rows, j);
    RowsOkPrefix(c, k, rows, j);
    OutputsUnconfirmed(c, k, rows[..j]);
    OutputsIndexed(rows[..j]);
    forall o | o in Spent(rows[j].tx.inputs) ensures o in v.utxo || o.txid !in v.seen {
      SpentIndex(rows[j].tx.inputs, o);
      var i :| 0 <= i < |rows[j].tx.inputs| && Spends(rows[j].tx.inputs[i]) == o;
      assert InputOk(k, rows[..j], o);
    }
  }

  lemma PendingApart(c: Crypto, k: Confirmed, rows: seq<PoolRow>)
    requires RowsOk(c, k, rows)
    ensures Apart(TxsOf(rows))
  {
    hide RowsOk, Spent;
    forall i, j | 0 <= i < j < |rows| ensures rows[i].tx.id != rows[j].tx.id && Spent(rows[i].tx.inputs) !! Spent(rows[j].tx.inputs) {
      NoSharedInputs(c, k, rows, i, j);
    }
  }

  lemma AllReturning(c: Crypto, k: Confirmed, rows: seq<PoolRow>, v: View, orphans: seq<Transaction>,
                     kept: seq<Transaction>)
    requires RowsOk(c, k, rows) && CoinsIndexed(k.coins, k.ids) && v.utxo == Outputs(k.coins) && v.seen == k.ids
    requires Applied(c, orphans, v) && kept <= orphans && Total(Outputs(k.coins)) <= MAX_SUPPLY
    ensures Returning(c, [], kept + TxsOf(rows))
  {
    hide RowsOk, Authentic, Payable, InOrder, Spent, CoinsIndexed, Total, Outputs;
    var all := kept + TxsOf(rows);
    PendingApart(c, k, rows);
    forall i, j | 0 <= i < j < |all| ensures all[i].id != all[j].id && Spent(all[i].inputs) !! Spent(all[j].inputs) {
      if i < |kept| <= j {
        OrphansClear(c, k, rows, v, orphans, i, j - |kept|);
      } else if j < |kept| {
        assert all[i] == orphans[i] && all[j] == orphans[j];
      } else {
        assert all[i] == TxsOf(rows)[i - |kept|] && all[j] == TxsOf(rows)[j - |kept|];
      }
    }
    forall i | 0 <= i < |all| ensures Payable(c, all[i]) {
      if i < |kept| {
        assert all[i] == orphans[i];
      } else {
        PendingPayable(c, k, rows, i - |kept|);
      }
    }
  }

  lemma NoRowsAtAll(c: Crypto, k: Confirmed)
    ensures RowsOk(c, k, [])
  {
  }

  lemma RefilledPool(c: Crypto, k: Confirmed, pool: Pool, orphaned: seq<Transaction>, seen: int64)
    requires ConfirmedOk(c, k) && pool.nextSequence > 0
    ensures Rebuild(c, k, pool, orphaned, seen).Some?
    ensures SameRows(Rebuild(c, k, pool, orphaned, seen).value.rows, AdmissibleOf(c, k, [], orphaned + TxsOf(pool.rows)))
  {
    hide ConfirmedOk, Repopulate, AdmissibleOf, SameRows;
    EmptyPoolOk(c, k, pool.nextSequence);
    NoRows();
    var items := Fresh(orphaned, seen) + PendingOf(pool.rows);
    assert Items(items) == orphaned + TxsOf(pool.rows);
    RepopulateExactly(c, k, EmptyPool(pool.nextSequence), [], items);
  }

  /** The confirmed side of a chain, as the replayed view that its transactions were applied to. */
  lemma OldSide(c: Crypto, chain: seq<Block>, ancestor: nat)
    requires Build(c, chain).Some? && ancestor < |chain|
    ensures ReplayChain(c, chain).Some?
    ensures var k, v := ConfirmedAt(c, chain), ReplayChain(c, chain).value;
      && v.utxo == Outputs(k.coins) && v.seen == k.ids && Applied(c, Tails(chain[ancestor + 1..]), v)
      && Authentic(Outputs(k.coins)) && Total(Outputs(k.coins)) <= MAX_SUPPLY
      && ConfirmedOk(c, k) && CoinsIndexed(k.coins, k.ids) && k.height > 0
    ensures Orphans(chain[ancestor + 1..]) == Tails(chain[ancestor + 1..])
  {
    hide Build, ReplayChain, Authentic, Apart, InOrder, Payable, SoundCoins, TablesOk;
    BuildAgreesWithReplay(c, chain);
    Conservation(c, chain);
    ConfirmedIsSound(c, chain);
    TailsApplied(c, chain, ancestor);
  }

  /** A rebuild on another valid chain holds what stays of the orphans, and after them of what was pending. */
  lemma InstallRefills(c: Crypto, w: World, chain: seq<Block>, ancestor: nat, orphaned: seq<Transaction>, seen: int64)
    requires WorldOk(c, w) && Build(c, chain).Some? && ancestor < |w.chain|
    requires orphaned <= Tails(w.chain[ancestor + 1..]) && Install(c, w, chain, orphaned, seen).1.Committed?
    ensures TxsOf(Install(c, w, chain, orphaned, seen).0.pool.rows)
         == Refilled(ConfirmedAt(c, chain), [], orphaned + TxsOf(w.pool.rows))
  {
    hide Build, ConfirmedOk, RowsOk, ReplayChain, Rebuild, Authentic, Refilled, Applied, Returning, TablesOk, AdmissibleOf,
      SameRows, IndexOk, Total;
    var k, k1 := ConfirmedAt(c, w.chain), ConfirmedAt(c, chain);
    var txs := orphaned + TxsOf(w.pool.rows);
    ConfirmedIsSound(c, chain);
    PoolContinues(c, k, w.pool);
    OldSide(c, w.chain, ancestor);
    OldSide(c, chain, |chain| - 1);
    AllReturning(c, k, w.pool.rows, ReplayChain(c, w.chain).value, Tails(w.chain[ancestor + 1..]), orphaned);
    RefilledPool(c, k1, w.pool, orphaned, seen);
    NoRowsAtAll(c, k1);
    RefillIsAdmissible(c, k1, [], txs);
    assert TxsOf([]) == [];
    SameTxs(Rebuild(c, k1, w.pool, orphaned, seen).value.rows, AdmissibleOf(c, k1, [], txs));
  }

  lemma ReplaceRefills(c: Crypto, w: World, ancestor: nat, blocks: seq<Block>, now: int64, seen: int64)
    requires WorldOk(c, w) && ExecReplace(c, w, ancestor, blocks, now, seen).1.Committed?
    ensures ancestor < |w.chain| && Build(c, w.chain[..ancestor + 1] + blocks).Some?
    ensures TxsOf(ExecReplace(c, w, ancestor, blocks, now, seen).0.pool.rows)
         == Refilled(ConfirmedAt(c, w.chain[..ancestor + 1] + blocks), [],
                     Kept(Tails(w.chain[ancestor + 1..]), 5_000, 67_108_864) + TxsOf(w.pool.rows))
  {
    hide WorldOk, Build, ConfirmedAt, Install, AllOnTime, Kept, Refilled;
    WorldHorizon(c, w);
    OldSide(c, w.chain, ancestor);
    InstallRefills(c, w, w.chain[..ancestor + 1] + blocks, ancestor, OrphanedBy(w.chain, ancestor), seen);
  }

  /**
    The mempool after a committed reorganisation: of the disconnected bodies without coinbases, oldest first and cut
    to 5000 transactions and 64 MiB, and after them of what was pending, exactly those that stay on the new chain.
   */
  lemma ReplacementRefills(c: Crypto, w: World, ancestor: nat, blocks: seq<Block>, now: int64, seen: int64)
    requires WorldOk(c, w) && Exec(c, w, ReplaceFrom(ancestor, blocks, now, seen)).1.Committed?
    ensures ancestor < |w.chain| && Build(c, w.chain[..ancestor + 1] + blocks).Some?
    ensures TxsOf(Exec(c, w, ReplaceFrom(ancestor, blocks, now, seen)).0.pool.rows)
         == Refilled(ConfirmedAt(c, w.chain[..ancestor + 1] + blocks), [],
                     Kept(Tails(w.chain[ancestor + 1..]), 5_000, 67_108_864) + TxsOf(w.pool.rows))
  {
    hide WorldOk, Build, ConfirmedAt, ExecReplace, Kept, Refilled, Tails, TxsOf;
    ReplaceRefills(c, w, ancestor, blocks, now, seen);
  }

  lemma TipTail(c: Crypto, chain: seq<Block>)
    requires Build(c, chain).Some? && |chain| > 1
    ensures var tip := chain[|chain| - 1];
      |tip.txs| > 0 && Regular(tip.txs) == tip.txs[1..] == Tails(chain[|chain| - 1..])
  {
    hide Build, ReplayBlock, BlockRules, Regular, GenesisBlock;
    BuildAgreesWithReplay(c, chain);
    var prior, tip := chain[..|chain| - 1], chain[|chain| - 1];
    RegularBodyTail(c, ReplayChain(c, prior).value, tip);
    assert chain[|chain| - 1..] == [] + [tip];
    TailsSnoc([], tip);
  }

  lemma DisconnectRefills(c: Crypto, w: World, seen: int64)
    requires WorldOk(c, w) && ExecDisconnect(c, w, seen).1.Committed?
    ensures |w.chain| > 1 && Build(c, w.chain[..|w.chain| - 1]).Some? && |w.chain[|w.chain| - 1].txs| > 0
    ensures TxsOf(ExecDisconnect(c, w, seen).0.pool.rows)
         == Refilled(ConfirmedAt(c, w.chain[..|w.chain| - 1]), [], w.chain[|w.chain| - 1].txs[1..] + TxsOf(w.pool.rows))
  {
    hide WorldOk, Build, ConfirmedAt, Install, Refilled, Regular;
    WorldHorizon(c, w);
    DisconnectIsBuildPrefix(c, w.chain);
    var chain, tip := w.chain[..|w.chain| - 1], w.chain[|w.chain| - 1];
    TipTail(c, w.chain);
    InstallRefills(c, w, chain, |chain| - 1, tip.txs[1..], seen);
  }

  /** The mempool after the tip is disconnected: its transactions first, then what was pending, those that stay. */
  lemma DisconnectionRefills(c: Crypto, w: World, seen: int64)
    requires WorldOk(c, w) && Exec(c, w, DisconnectTip(seen)).1.Committed?
    ensures |w.chain| > 1 && Build(c, w.chain[..|w.chain| - 1]).Some? && |w.chain[|w.chain| - 1].txs| > 0
    ensures TxsOf(Exec(c, w, DisconnectTip(seen)).0.pool.rows)
         == Refilled(ConfirmedAt(c, w.chain[..|w.chain| - 1]), [], w.chain[|w.chain| - 1].txs[1..] + TxsOf(w.pool.rows))
  {
    hide WorldOk, Build, ConfirmedAt, ExecDisconnect, Refilled, TxsOf;
    DisconnectRefills(c, w, seen);
  }

  lemma {:induction false} RefilledFrom(k: Confirmed, kept: seq<Transaction>, txs: seq<Transaction>, tx: Transaction)
    requires tx !in txs
    ensures kept <= Refilled(k, kept, txs) && (tx in Refilled(k, kept, txs) <==> tx in kept)
    decreases |txs|
  {
    hide Stays;
    if |txs| > 0 {
      RefilledFrom(k, if Stays(k, kept, txs[0]) then kept + [txs[0]] else kept, txs[1..], tx);
    }
  }

  /** One transaction of a refilled list is there exactly when it stays on top of what stayed before it. */
  lemma {:induction false} RefilledMember(k: Confirmed, kept: seq<Transaction>, txs: seq<Transaction>, n: nat)
    requires n < |txs| && Apart(txs) && (forall i | 0 <= i < |txs| :: txs[i] !in kept)
    ensures txs[n] in Refilled(k, kept, txs) <==> Stays(k, Refilled(k, kept, txs[..n]), txs[n])
    ensures kept <= Refilled(k, kept, txs)
    decreases |txs|
  {
    hide Stays;
    var next := if Stays(k, kept, txs[0]) then kept + [txs[0]] else kept;
    assert forall i | 0 <= i < |txs| - 1 :: txs[1..][i] == txs[i + 1];
    if n > 0 {
      assert txs[..n][1..] == txs[1..][..n - 1] && txs[..n][0] == txs[0];
      RefilledMember(k, next, txs[1..], n - 1);
    } else {
      RefilledFrom(k, next, txs[1..], txs[0]);
    }
  }
}
