/** What every reachable mempool satisfies: no double spends, parents first, budgets, conservation, sound rebuilds. */
module MempoolRules {
  import opened Common
  import opened Encoding
  import opened Transactions
  import opened Totals
  import opened Replay
  import opened Tables
  import opened Undo
  import opened Mempool

  // ---------------------------------------------------------------- indexes over the rows

  lemma IdsSnoc(rows: seq<PoolRow>, row: PoolRow)
    ensures PoolIds(rows + [row]) == PoolIds(rows) + {row.tx.id}
  {
    var next := rows + [row];
    forall id | id in PoolIds(rows) + {row.tx.id} ensures id in PoolIds(next) {
      if id in PoolIds(rows) {
        var i :| 0 <= i < |rows| && rows[i].tx.id == id;
        assert next[i].tx.id == id;
      } else {
        assert next[|rows|].tx.id == id;
      }
    }
  }

  lemma RowsSnoc(rows: seq<PoolRow>, row: PoolRow)
    ensures (rows + [row])[..|rows|] == rows
    ensures PoolIds(rows + [row]) == PoolIds(rows) + {row.tx.id}
    ensures PoolInputs(rows + [row]) == PoolInputs(rows) + InputRows(row.tx)
    ensures PoolOutputs(rows + [row]) == PoolOutputs(rows) + OutputsOf(row.tx)
    ensures PoolFees(rows + [row]) == PoolFees(rows) + row.fee
    ensures UsageOf(rows + [row]) == Usage(UsageOf(rows).count + 1, UsageOf(rows).bytes + row.size, UsageOf(rows).inputs + |row.tx.inputs|)
  {
    hide InputRows, OutputsOf, PoolIds;
    var next := rows + [row];
    assert next[..|rows|] == rows && next[|next| - 1] == row;
    IdsSnoc(rows, row);
  }

  lemma RowsOkPrefix(c: Crypto, k: Confirmed, rows: seq<PoolRow>, n: nat)
    requires RowsOk(c, k, rows) && n <= |rows|
    ensures RowsOk(c, k, rows[..n])
  {
    hide RowOk;
    assert forall i | 0 <= i < n :: rows[..n][..i] == rows[..i];
  }

  lemma RowsOkSnoc(c: Crypto, k: Confirmed, rows: seq<PoolRow>, row: PoolRow)
    requires RowsOk(c, k, rows) && RowOk(c, k, rows, row)
    ensures RowsOk(c, k, rows + [row])
  {
    hide RowOk;
    var next := rows + [row];
    assert next[..|rows|] == rows;
    assert forall i | 0 <= i < |rows| :: next[..i] == rows[..i];
  }

  /** Splits the last row off, with everything known about it. */
  lemma RowsOkLast(c: Crypto, k: Confirmed, rows: seq<PoolRow>)
    requires RowsOk(c, k, rows) && |rows| > 0
    ensures var before := rows[..|rows| - 1];
      before + [rows[|rows| - 1]] == rows && RowsOk(c, k, before) && RowOk(c, k, before, rows[|rows| - 1])
  {
    hide RowOk;
    RowsOkPrefix(c, k, rows, |rows| - 1);
  }

  lemma {:induction false} OutputsIndexed(rows: seq<PoolRow>)
    ensures forall o | o in PoolOutputs(rows) :: o.txid in PoolIds(rows)
  {
    if |rows| > 0 {
      var before := rows[..|rows| - 1];
      OutputsIndexed(before);
      assert before + [rows[|rows| - 1]] == rows;
      RowsSnoc(before, rows[|rows| - 1]);
    }
  }

  lemma {:induction false} OutputsPositive(c: Crypto, k: Confirmed, rows: seq<PoolRow>)
    requires RowsOk(c, k, rows)
    ensures forall o | o in PoolOutputs(rows) :: PoolOutputs(rows)[o].amount > 0
  {
    hide RegularFee, RowsOk, PoolView;
    if |rows| > 0 {
      var before := rows[..|rows| - 1];
      RowsOkLast(c, k, rows);
      OutputsPositive(c, k, before);
      RegularLimits(c, rows[|rows| - 1].tx, PoolView(k.coins, before));
    }
  }

  /** Whatever a row spends is confirmed or comes from a pending row before it. */
  lemma {:induction false} InputsIndexed(c: Crypto, k: Confirmed, rows: seq<PoolRow>)
    requires RowsOk(c, k, rows) && CoinsIndexed(k.coins, k.ids)
    ensures forall o | o in PoolInputs(rows) :: o.txid in k.ids || o.txid in PoolIds(rows)
  {
    hide RegularFee, RowsOk, PoolView, WithinBudget;
    if |rows| > 0 {
      var before := rows[..|rows| - 1];
      var row := rows[|rows| - 1];
      RowsOkLast(c, k, rows);
      InputsIndexed(c, k, before);
      OutputsIndexed(before);
      RowsSnoc(before, row);
      forall o | o in Spent(row.tx.inputs) ensures o.txid in k.ids || o.txid in PoolIds(before) {
        var i :| 0 <= i < |row.tx.inputs| && Spends(row.tx.inputs[i]) == o;
        assert InputOk(k, before, o);
      }
    }
  }

  // ---------------------------------------------------------------- the invariant, spelled out

  lemma {:induction false} EarlierInputs(rows: seq<PoolRow>, i: nat)
    requires i < |rows|
    ensures Spent(rows[i].tx.inputs) <= PoolInputs(rows).Keys
  {
    var before := rows[..|rows| - 1];
    if i < |before| {
      EarlierInputs(before, i);
    }
  }

  /** No two pending transactions share an input. */
  lemma NoSharedInputs(c: Crypto, k: Confirmed, rows: seq<PoolRow>, i: nat, j: nat)
    requires RowsOk(c, k, rows) && i < j < |rows|
    ensures Spent(rows[i].tx.inputs) !! Spent(rows[j].tx.inputs)
    ensures rows[i].tx.id != rows[j].tx.id
  {
    hide RegularFee, PoolView, WithinBudget;
    assert RowOk(c, k, rows[..j], rows[j]);
    EarlierInputs(rows[..j], i);
    assert rows[..j][i].tx.id in PoolIds(rows[..j]);
    forall o | o in Spent(rows[j].tx.inputs) ensures o !in Spent(rows[i].tx.inputs) {
      var n :| 0 <= n < |rows[j].tx.inputs| && Spends(rows[j].tx.inputs[n]) == o;
      assert InputOk(k, rows[..j], o);
    }
  }

  lemma {:induction false} OutputHasParent(rows: seq<PoolRow>, o: Outpoint)
    requires o in PoolOutputs(rows)
    ensures exists j :: 0 <= j < |rows| && rows[j].tx.id == o.txid && o.index < |rows[j].tx.outputs|
  {
    var before := rows[..|rows| - 1];
    if o in OutputsOf(rows[|rows| - 1].tx) {
      assert rows[|rows| - 1].tx.id == o.txid;
    } else {
      OutputHasParent(before, o);
      var j :| 0 <= j < |before| && before[j].tx.id == o.txid && o.index < |before[j].tx.outputs|;
      assert rows[j] == before[j];
    }
  }

  /** Every input is a mature confirmed output, or an output of a pending transaction with a smaller sequence. */
  lemma ParentsFirst(c: Crypto, k: Confirmed, pool: Pool, j: nat, n: nat)
    requires PoolOk(c, k, pool) && j < |pool.rows| && n < |pool.rows[j].tx.inputs|
    ensures var o := Spends(pool.rows[j].tx.inputs[n]);
      || (o in k.coins && (k.coins[o].coinbase ==> IsCoinbaseMature(k.coins[o].createdHeight, k.height)))
      || (exists i :: 0 <= i < j && pool.rows[i].sequence < pool.rows[j].sequence
            && pool.rows[i].tx.id == o.txid && o.index < |pool.rows[i].tx.outputs|)
  {
    hide RegularFee, PoolView, WithinBudget, PoolInputs, PoolOutputs, PoolIds, EncodedSize, Storable, UsageOf;
    var o := Spends(pool.rows[j].tx.inputs[n]);
    assert RowOk(c, k, pool.rows[..j], pool.rows[j]);
    assert InputOk(k, pool.rows[..j], o);
    if o !in k.coins {
      OutputHasParent(pool.rows[..j], o);
      var i :| 0 <= i < j && pool.rows[..j][i].tx.id == o.txid && o.index < |pool.rows[..j][i].tx.outputs|;
      assert pool.rows[i] == pool.rows[..j][i];
    }
  }

  lemma {:induction false} UsageCounts(rows: seq<PoolRow>)
    ensures UsageOf(rows).count == |rows|
  {
    if |rows| > 0 {
      UsageCounts(rows[..|rows| - 1]);
    }
  }

  /** All three resource budgets hold, and the count is the number of rows. */
  lemma BudgetsHold(c: Crypto, k: Confirmed, rows: seq<PoolRow>)
    requires RowsOk(c, k, rows)
    ensures UsageOf(rows).count == |rows| <= MAX_PENDING_TRANSACTIONS
    ensures UsageOf(rows).bytes <= MAX_MEMPOOL_BYTES && UsageOf(rows).inputs <= MAX_MEMPOOL_INPUTS
  {
    hide RegularFee, PoolView, RowsOk;
    UsageCounts(rows);
    if |rows| > 0 {
      RowsOkLast(c, k, rows);
      RowsSnoc(rows[..|rows| - 1], rows[|rows| - 1]);
    }
  }

  // ---------------------------------------------------------------- admission

  lemma ViewUpdate(base: Utxo, outs: Utxo, spent: map<Outpoint, Text>, tx: Transaction)
    requires forall o | o in Created(tx) :: o !in base && o !in outs && o !in spent && o !in Spent(tx.inputs)
    ensures base + (outs + OutputsOf(tx)) - (spent + InputRows(tx)).Keys == (base + outs - spent.Keys) - Spent(tx.inputs) + OutputsOf(tx)
    ensures Created(tx) !! ((base + outs - spent.Keys) - Spent(tx.inputs)).Keys
  {
    hide Created, Spent;
    var x := base + (outs + OutputsOf(tx)) - (spent + InputRows(tx)).Keys;
    var y := (base + outs - spent.Keys) - Spent(tx.inputs) + OutputsOf(tx);
    assert x.Keys == y.Keys;
  }

  lemma RowDoesNotSpendItself(c: Crypto, k: Confirmed, rows: seq<PoolRow>, row: PoolRow)
    requires RowOk(c, k, rows, row) && CoinsIndexed(k.coins, k.ids)
    ensures forall o | o in Spent(row.tx.inputs) :: o.txid != row.tx.id
  {
    hide RegularFee, WithinBudget, PoolView;
    OutputsIndexed(rows);
    forall o | o in Spent(row.tx.inputs) ensures o.txid != row.tx.id {
      var i :| 0 <= i < |row.tx.inputs| && Spends(row.tx.inputs[i]) == o;
      assert InputOk(k, rows, o);
    }
  }

  lemma ViewSnoc(c: Crypto, k: Confirmed, rows: seq<PoolRow>, row: PoolRow)
    requires RowsOk(c, k, rows) && RowOk(c, k, rows, row) && CoinsIndexed(k.coins, k.ids)
    ensures PoolView(k.coins, rows + [row]) == PoolView(k.coins, rows) - Spent(row.tx.inputs) + OutputsOf(row.tx)
    ensures Created(row.tx) !! (PoolView(k.coins, rows) - Spent(row.tx.inputs)).Keys
  {
    hide RegularFee, WithinBudget, RowsOk, PoolInputs, PoolOutputs, PoolIds, InputRows, Spent, OutputsOf, InputOk;
    RowsSnoc(rows, row);
    InputsIndexed(c, k, rows);
    OutputsIndexed(rows);
    RowDoesNotSpendItself(c, k, rows, row);
    ViewUpdate(Outputs(k.coins), PoolOutputs(rows), PoolInputs(rows), row.tx);
  }

  /**
    Nothing is lost in the mempool: unspent confirmed outputs, unspent pending outputs and pending fees add
    up to all confirmed outputs.
   */
  lemma {:induction false} PoolConserves(c: Crypto, k: Confirmed, rows: seq<PoolRow>)
    requires RowsOk(c, k, rows) && CoinsIndexed(k.coins, k.ids)
    ensures Total(PoolView(k.coins, rows)) + PoolFees(rows) == Total(Outputs(k.coins))
  {
    hide RegularFee, RowsOk, WithinBudget, InputOk, CoinsIndexed;
    if |rows| == 0 {
      assert PoolView(k.coins, rows) == Outputs(k.coins);
    } else {
      var before, row := rows[..|rows| - 1], rows[|rows| - 1];
      RowsOkLast(c, k, rows);
      PoolConserves(c, k, before);
      ViewSnoc(c, k, before, row);
      TotalApply(c, row.tx, PoolView(k.coins, before));
    }
  }

  lemma RowAt(c: Crypto, k: Confirmed, rows: seq<PoolRow>, i: nat)
    requires RowsOk(c, k, rows) && i < |rows|
    ensures RowOk(c, k, rows[..i], rows[i])
  {
  }

  lemma {:induction false} OutputsUnconfirmed(c: Crypto, k: Confirmed, rows: seq<PoolRow>)
    requires RowsOk(c, k, rows) && CoinsIndexed(k.coins, k.ids)
    ensures forall o | o in PoolOutputs(rows) :: o !in k.coins
    ensures PoolIds(rows) !! k.ids
  {
    hide RegularFee, RowsOk, WithinBudget, InputOk, PoolView;
    OutputsIndexed(rows);
    forall i | 0 <= i < |rows| ensures rows[i].tx.id !in k.ids {
      assert RowOk(c, k, rows[..i], rows[i]) by { RowAt(c, k, rows, i); }
    }
  }

  /** In a sound pool a lookup succeeds exactly on the outpoints a row could spend, and never finds corruption. */
  lemma LookupMeaning(c: Crypto, k: Confirmed, pool: Pool, o: Outpoint)
    requires PoolOk(c, k, pool) && ConfirmedOk(c, k)
    ensures LookupSpendable(k, pool, o).Found? <==> InputOk(k, pool.rows, o)
    ensures !LookupSpendable(k, pool, o).Corrupt?
    ensures InputOk(k, pool.rows, o) ==>
      o in PoolView(k.coins, pool.rows) && LookupSpendable(k, pool, o).output == PoolView(k.coins, pool.rows)[o]
  {
    hide RowsOk, ValidAddress;
    OutputsPositive(c, k, pool.rows);
    OutputsUnconfirmed(c, k, pool.rows);
  }

  lemma FoundFee(c: Crypto, k: Confirmed, pool: Pool, tx: Transaction)
    requires PoolOk(c, k, pool) && ConfirmedOk(c, k) && InputsFound(k, pool, tx.inputs)
    ensures RegularFee(c, tx, FoundView(k, pool, tx.inputs)) == RegularFee(c, tx, PoolView(k.coins, pool.rows))
    ensures forall i | 0 <= i < |tx.inputs| :: InputOk(k, pool.rows, Spends(tx.inputs[i]))
  {
    hide RegularFee, PoolOk, ConfirmedOk, LookupSpendable, InputOk, PoolView;
    var a, b := FoundView(k, pool, tx.inputs), PoolView(k.coins, pool.rows);
    forall i | 0 <= i < |tx.inputs|
      ensures AgreeAt(a, b, Spends(tx.inputs[i])) && InputOk(k, pool.rows, Spends(tx.inputs[i])) {
      LookupMeaning(c, k, pool, Spends(tx.inputs[i]));
      assert Spends(tx.inputs[i]) in Spent(tx.inputs);
    }
    FeeDependsOnInputs(c, tx, a, b);
  }

  lemma {:induction false} FailureIsRefusal(c: Crypto, k: Confirmed, pool: Pool, inputs: seq<TxInput>)
    requires PoolOk(c, k, pool) && ConfirmedOk(c, k) && !InputsFound(k, pool, inputs)
    ensures LookupFailure(k, pool, inputs) == Refused(Rejected)
    decreases |inputs|
  {
    hide PoolOk, ConfirmedOk, LookupSpendable, InputOk, PoolView;
    LookupMeaning(c, k, pool, Spends(inputs[0]));
    if LookupSpendable(k, pool, Spends(inputs[0])).Found? {
      assert forall i | 0 < i < |inputs| :: inputs[i] == inputs[1..][i - 1];
      FailureIsRefusal(c, k, pool, inputs[1..]);
    }
  }

  lemma KeysFree(c: Crypto, k: Confirmed, pool: Pool, tx: Transaction)
    requires PoolOk(c, k, pool) && tx.id !in PoolIds(pool.rows)
    requires forall i | 0 <= i < |tx.inputs| :: InputOk(k, pool.rows, Spends(tx.inputs[i]))
    ensures PoolKeysFree(pool, tx)
  {
    hide RowsOk;
    OutputsIndexed(pool.rows);
  }

  lemma AppendIndex(pool: Pool, tx: Transaction, firstSeen: int64, fee: uint64)
    requires IndexOk(pool)
    ensures IndexOk(Append(pool, tx, firstSeen, fee))
  {
    hide EncodedSize, OutputsOf, InputRows;
    RowsSnoc(pool.rows, PoolRow(pool.nextSequence, firstSeen, fee, EncodedSize(tx), tx));
  }

  /**
    Admission on a sound pool never meets a storage fault; what it admits is one row on top of an otherwise
    unchanged pool that is still sound, and a refusal leaves no pool to write.
   */
  lemma AdmitKeepsPool(c: Crypto, k: Confirmed, pool: Pool, item: Pending)
    requires PoolOk(c, k, pool) && ConfirmedOk(c, k)
    ensures !Admit(c, k, pool, item).Faulted?
    ensures Admit(c, k, pool, item).Admitted? ==>
      var p := Admit(c, k, pool, item).pool;
      && PoolOk(c, k, p) && p.nextSequence == pool.nextSequence + 1
      && |p.rows| == |pool.rows| + 1 && p.rows[..|pool.rows|] == pool.rows && p.rows[|pool.rows|].tx == item.tx
  {
    hide RegularFee, ConfirmedOk, LookupSpendable, InputOk, PoolView, IndexOk, RowsOk, EncodedSize, PoolKeysFree,
      WithinBudget, Storable, MinimumRelayFee;
    var tx := item.tx;
    if !tx.coinbase && tx.id !in k.ids && tx.id !in PoolIds(pool.rows) {
      if InputsFound(k, pool, tx.inputs) {
        FoundFee(c, k, pool, tx);
        KeysFree(c, k, pool, tx);
        if Admit(c, k, pool, item).Admitted? {
          var fee := RegularFee(c, tx, PoolView(k.coins, pool.rows)).value;
          AppendIndex(pool, tx, item.firstSeen, fee);
          RowsOkSnoc(c, k, pool.rows, PoolRow(pool.nextSequence, item.firstSeen, fee, EncodedSize(tx), tx));
        }
      } else {
        FailureIsRefusal(c, k, pool, tx.inputs);
      }
    }
  }

  /** The relay minimum is the least whole number of thousands that pays a thousand for every 1024 bytes. */
  lemma RelayFeeIsLeast(size: int)
    requires size > 0
    ensures var fee := MinimumRelayFee(size);
      fee % 1_000 == 0 && 1_024 * fee >= 1_000 * size > 1_024 * (fee - 1_000)
  {
  }

  // ---------------------------------------------------------------- rebuild

  /** repopulateMempool: every item in order, refusals skipped, a storage fault aborts. */
  ghost function Repopulate(c: Crypto, k: Confirmed, pool: Pool, items: seq<Pending>): Option<Pool>
    decreases |items|
  {
    if |items| == 0 then Some(pool)
    else match Admit(c, k, pool, items[0])
         case Faulted => None
         case Refused(_) => Repopulate(c, k, pool, items[1..])
         case Admitted(next) => Repopulate(c, k, next, items[1..])
  }

  function PendingOf(rows: seq<PoolRow>): (r: seq<Pending>)
    ensures |r| == |rows|
  {
    seq(|rows|, i requires 0 <= i < |rows| => Pending(rows[i].tx, rows[i].firstSeen))
  }

  function Fresh(txs: seq<Transaction>, now: int64): (r: seq<Pending>)
    ensures |r| == |txs|
  {
    seq(|txs|, i requires 0 <= i < |txs| => Pending(txs[i], now))
  }

  /** rebuildMempool: orphaned transactions first, then what was pending, against the new tip. */
  ghost function Rebuild(c: Crypto, k: Confirmed, pool: Pool, orphaned: seq<Transaction>, now: int64): Option<Pool> {
    Repopulate(c, k, EmptyPool(pool.nextSequence), Fresh(orphaned, now) + PendingOf(pool.rows))
  }

  lemma EmptyPoolOk(c: Crypto, k: Confirmed, nextSequence: nat)
    requires nextSequence > 0
    ensures PoolOk(c, k, EmptyPool(nextSequence))
  {
  }

  lemma {:induction false} RepopulateKeepsPool(c: Crypto, k: Confirmed, pool: Pool, items: seq<Pending>)
    requires PoolOk(c, k, pool) && ConfirmedOk(c, k)
    ensures Repopulate(c, k, pool, items).Some? && PoolOk(c, k, Repopulate(c, k, pool, items).value)
    decreases |items|
  {
    hide Admit, PoolOk, ConfirmedOk;
    if |items| > 0 {
      AdmitKeepsPool(c, k, pool, items[0]);
      if Admit(c, k, pool, items[0]).Admitted? {
        RepopulateKeepsPool(c, k, Admit(c, k, pool, items[0]).pool, items[1..]);
      } else {
        RepopulateKeepsPool(c, k, pool, items[1..]);
      }
    }
  }

  /** A rebuild never fails on a sound ledger, whatever the old pool held, and leaves a sound pool. */
  lemma RebuildIsSound(c: Crypto, k: Confirmed, pool: Pool, orphaned: seq<Transaction>, now: int64)
    requires ConfirmedOk(c, k) && pool.nextSequence > 0
    ensures Rebuild(c, k, pool, orphaned, now).Some? && PoolOk(c, k, Rebuild(c, k, pool, orphaned, now).value)
  {
    hide PoolOk, ConfirmedOk, Repopulate;
    EmptyPoolOk(c, k, pool.nextSequence);
    RepopulateKeepsPool(c, k, EmptyPool(pool.nextSequence), Fresh(orphaned, now) + PendingOf(pool.rows));
  }

  // ---------------------------------------------------------------- a rebuild at an unchanged tip

  /** Rows that differ at most in sequence numbers and first-seen times. */
  predicate SameRows(a: seq<PoolRow>, b: seq<PoolRow>) {
    |a| == |b| && (forall i | 0 <= i < |a| :: a[i].tx == b[i].tx && a[i].fee == b[i].fee && a[i].size == b[i].size)
  }

  lemma {:induction false} SameRowsSameIndex(a: seq<PoolRow>, b: seq<PoolRow>)
    requires SameRows(a, b)
    ensures PoolIds(a) == PoolIds(b) && PoolInputs(a) == PoolInputs(b) && PoolOutputs(a) == PoolOutputs(b)
    ensures UsageOf(a) == UsageOf(b)
  {
    hide PoolIds, InputRows, OutputsOf;
    if |a| > 0 {
      var x, y := a[..|a| - 1], b[..|b| - 1];
      SameRowsSameIndex(x, y);
      assert x + [a[|a| - 1]] == a && y + [b[|b| - 1]] == b;
      IdsSnoc(x, a[|a| - 1]);
      IdsSnoc(y, b[|b| - 1]);
    }
  }

  /** A row admissible on some rows is admitted by any pool with the same content. */
  lemma RowIsAdmitted(c: Crypto, k: Confirmed, pool: Pool, before: seq<PoolRow>, row: PoolRow, item: Pending)
    requires PoolOk(c, k, pool) && ConfirmedOk(c, k) && SameRows(pool.rows, before)
    requires RowOk(c, k, before, row) && item.tx == row.tx
    ensures Admit(c, k, pool, item) == Admitted(Append(pool, row.tx, item.firstSeen, row.fee))
  {
    hide RegularFee, ConfirmedOk, LookupSpendable, IndexOk, RowsOk, EncodedSize, PoolKeysFree, WithinBudget, Storable,
      MinimumRelayFee, PoolInputs, PoolOutputs, PoolIds, UsageOf, SameRows, Append;
    SameRowsSameIndex(pool.rows, before);
    RegularLimits(c, row.tx, PoolView(k.coins, before));
    forall i | 0 <= i < |row.tx.inputs| ensures LookupSpendable(k, pool, Spends(row.tx.inputs[i])).Found? {
      assert InputOk(k, before, Spends(row.tx.inputs[i]));
      LookupMeaning(c, k, pool, Spends(row.tx.inputs[i]));
    }
    FoundFee(c, k, pool, row.tx);
    KeysFree(c, k, pool, row.tx);
  }

  lemma RowSize(c: Crypto, k: Confirmed, before: seq<PoolRow>, row: PoolRow)
    requires RowOk(c, k, before, row)
    ensures row.size == EncodedSize(row.tx)
  {
    hide EncodedSize, RegularFee;
  }

  lemma {:induction false} RepopulateReplaysRows(c: Crypto, k: Confirmed, pool: Pool, rows: seq<PoolRow>, n: nat)
    requires PoolOk(c, k, pool) && ConfirmedOk(c, k) && RowsOk(c, k, rows)
    requires n <= |rows| && SameRows(pool.rows, rows[..n])
    ensures Repopulate(c, k, pool, PendingOf(rows)[n..]).Some?
    ensures SameRows(Repopulate(c, k, pool, PendingOf(rows)[n..]).value.rows, rows)
    decreases |rows| - n
  {
    hide PoolOk, ConfirmedOk, RowOk, Admit, EncodedSize, InputRows, OutputsOf;
    var items := PendingOf(rows)[n..];
    if n == |rows| {
      assert rows[..n] == rows;
    } else {
      RowAt(c, k, rows, n);
      RowIsAdmitted(c, k, pool, rows[..n], rows[n], items[0]);
      AdmitKeepsPool(c, k, pool, items[0]);
      RowSize(c, k, rows[..n], rows[n]);
      var next := Append(pool, rows[n].tx, items[0].firstSeen, rows[n].fee);
      assert rows[..n + 1] == rows[..n] + [rows[n]];
      assert items[1..] == PendingOf(rows)[n + 1..];
      RepopulateReplaysRows(c, k, next, rows, n + 1);
    }
  }

  /** Rebuilding at an unchanged tip with nothing orphaned keeps every pending transaction, in order. */
  lemma RebuildLosesNothing(c: Crypto, k: Confirmed, pool: Pool, now: int64)
    requires PoolOk(c, k, pool) && ConfirmedOk(c, k)
    ensures Rebuild(c, k, pool, [], now).Some? && SameRows(Rebuild(c, k, pool, [], now).value.rows, pool.rows)
  {
    hide ConfirmedOk, Repopulate, RowsOk;
    EmptyPoolOk(c, k, pool.nextSequence);
    assert Fresh([], now) + PendingOf(pool.rows) == PendingOf(pool.rows)[0..];
    RepopulateReplaysRows(c, k, EmptyPool(pool.nextSequence), pool.rows, 0);
  }

  // ---------------------------------------------------------------- spendable outputs of an address

  /** The SQL of spendableUTXO: confirmed outputs by height cutoff, and pending outputs, none of them spent. */
  function SpendableUtxo(k: Confirmed, pool: Pool, address: Text): Utxo {
    var enforce := k.height >= COINBASE_MATURITY_ACTIVATION_HEIGHT;
    var matureThrough := if enforce && k.height >= COINBASE_MATURITY then k.height - COINBASE_MATURITY else 0;
    var confirmed := map o | o in k.coins && k.coins[o].output.address == address && k.coins[o].createdHeight <= k.height
                             && (!enforce || !k.coins[o].coinbase || k.coins[o].createdHeight <= matureThrough)
                             && o !in pool.inputs :: k.coins[o].output;
    var pending := map o | o in pool.outputs && pool.outputs[o].address == address && o !in pool.inputs :: pool.outputs[o];
    confirmed + pending
  }

  /** The wallet query and the admission lookup agree: an output is offered exactly when it can be spent next. */
  lemma SpendableAgreesWithLookup(c: Crypto, k: Confirmed, pool: Pool, address: Text, o: Outpoint)
    requires PoolOk(c, k, pool) && ConfirmedOk(c, k)
    ensures o in SpendableUtxo(k, pool, address) <==>
      LookupSpendable(k, pool, o).Found? && LookupSpendable(k, pool, o).output.address == address
    ensures o in SpendableUtxo(k, pool, address) ==> SpendableUtxo(k, pool, address)[o] == LookupSpendable(k, pool, o).output
  {
    hide RowsOk, ValidAddress, PoolInputs, PoolOutputs;
    OutputsPositive(c, k, pool.rows);
    OutputsUnconfirmed(c, k, pool.rows);
  }
}
