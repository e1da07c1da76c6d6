/**
  What a candidate leaves out and why: only transactions that do not fit, or that wait for one left out; and
  the one way a mined candidate can still be refused (internal/ledger/mining.go).
 */
module MiningChoice {
  import opened Common
  import opened Amounts
  import opened Transactions
  import opened Totals
  import opened Replay
  import opened Tables
  import opened Refinement
  import opened Undo
  import opened Mempool
  import opened MempoolRules
  import opened Priority
  import opened MiningOrder
  import opened Mining
  import opened MiningRules

  // ---------------------------------------------------------------- children need their parents

  lemma OneReplayed(c: Crypto, v: View, fees: uint64, tx: Transaction, height: nat)
    requires ReplayRegular(c, v, fees, tx, height).Some?
    ensures forall i | 0 <= i < |tx.inputs| :: Spends(tx.inputs[i]) in v.utxo
    ensures forall o | o in ReplayRegular(c, v, fees, tx, height).value.0.utxo :: o in v.utxo || o.txid == tx.id
  {
    hide InputsMature, OutputsFresh, RegularFee, Spent;
    RegularLimits(c, tx, v.utxo);
  }

  /** Every input of a replayed list was unspent before, or comes from an earlier transaction of the list. */
  lemma {:induction false} ReplayedInputs(c: Crypto, v: View, fees: uint64, txs: seq<Transaction>, height: nat,
                                          n: nat, i: nat)
    requires ReplayRegulars(c, v, fees, txs, height).Some? && n < |txs| && i < |txs[n].inputs|
    ensures Spends(txs[n].inputs[i]) in v.utxo || exists j :: 0 <= j < n && txs[j].id == txs[n].inputs[i].txid
    decreases |txs|
  {
    hide ReplayRegular;
    var o := Spends(txs[n].inputs[i]);
    OneReplayed(c, v, fees, txs[0], height);
    if n > 0 {
      var (v1, fees1) := ReplayRegular(c, v, fees, txs[0], height).value;
      ReplayedInputs(c, v1, fees1, txs[1..], height, n - 1, i);
      if o !in v1.utxo {
        var j :| 0 <= j < n - 1 && txs[1..][j].id == o.txid;
        assert txs[j + 1].id == o.txid;
      } else if o !in v.utxo {
        assert txs[0].id == o.txid;
      }
    }
  }

  /**
    A transaction passed over is never a parent of one selected: an input that is not a confirmed output comes
    from a transaction selected before.
   */
  lemma SelectedParents(c: Crypto, k: Confirmed, s: Selection, n: nat, i: nat)
    requires SelectionOk(c, k, s) && n < |s.selected| && i < |s.selected[n].inputs|
    ensures var o := Spends(s.selected[n].inputs[i]);
      o in k.coins || exists j :: 0 <= j < n && s.selected[j].id == o.txid
  {
    hide ReplayRegulars, SelectedView;
    ReplayedInputs(c, ViewOf(k.coins, k.ids), 0, s.selected, k.height, n, i);
  }

  // ---------------------------------------------------------------- what is passed over

  predicate OutputsKept(s: Selection, tx: Transaction) {
    forall o | o in Created(tx) && o !in s.spent :: o in s.created && s.created[o] == tx.outputs[o.index]
  }

  /** The selection's maps follow from its list. */
  ghost predicate SelectionShape(s: Selection) {
    && (forall o | o in s.spent :: exists i :: 0 <= i < |s.selected| && o in Spent(s.selected[i].inputs))
    && (forall i | 0 <= i < |s.selected| :: OutputsKept(s, s.selected[i]))
    && (forall o | o in s.created :: exists i :: 0 <= i < |s.selected| && s.selected[i].id == o.txid)
  }

  lemma TakeShape(s: Selection, tx: Transaction, fee: uint64)
    requires SelectionShape(s) && s.fees + fee <= MAX_UINT64
    requires forall i | 0 <= i < |s.selected| :: s.selected[i].id != tx.id
    ensures SelectionShape(Take(s, tx, fee))
  {
    hide EncodedSize, Spent;
    var next := Take(s, tx, fee);
    var n := |s.selected|;
    forall o | o in next.spent ensures exists i :: 0 <= i < |next.selected| && o in Spent(next.selected[i].inputs) {
      if o in s.spent {
        var i :| 0 <= i < n && o in Spent(s.selected[i].inputs);
        assert o in Spent(next.selected[i].inputs);
      } else {
        assert o in Spent(next.selected[n].inputs);
      }
    }
    forall i | 0 <= i < |next.selected| ensures OutputsKept(next, next.selected[i]) {
      if i < n {
        assert OutputsKept(s, s.selected[i]);
      }
    }
    forall o | o in next.created ensures exists i :: 0 <= i < |next.selected| && next.selected[i].id == o.txid {
      if o in s.created && o !in Created(tx) {
        var i :| 0 <= i < n && s.selected[i].id == o.txid;
        assert next.selected[i].id == o.txid;
      } else {
        assert next.selected[n].id == o.txid;
      }
    }
  }

  /** The selection holds rows of the pool other than row `r`, among them every pending parent of row `r`. */
  ghost predicate ParentsSelected(pool: Pool, s: Selection, r: nat)
    requires r < |pool.rows|
  {
    && (forall i | 0 <= i < |s.selected| :: exists j :: 0 <= j < |pool.rows| && j != r && s.selected[i] == pool.rows[j].tx)
    && (forall j | 0 <= j < |pool.rows| && CountFrom(pool.rows[r].tx.inputs, pool.rows[j].tx.id) > 0 ::
          pool.rows[j].tx in s.selected)
  }

  lemma {:induction false} CountsInput(inputs: seq<TxInput>, n: nat)
    requires n < |inputs|
    ensures CountFrom(inputs, inputs[n].txid) > 0
  {
    if n < |inputs| - 1 {
      CountsInput(inputs[..|inputs| - 1], n);
    }
  }

  /** No selected transaction spends what row `r` spends. */
  lemma InputUnspent(c: Crypto, k: Confirmed, pool: Pool, s: Selection, r: nat, o: Outpoint)
    requires RowsOk(c, k, pool.rows) && r < |pool.rows| && ParentsSelected(pool, s, r) && SelectionShape(s)
    requires o in Spent(pool.rows[r].tx.inputs)
    ensures o !in s.spent
  {
    hide RowsOk, Spent, OutputsKept;
    if o in s.spent {
      var i :| 0 <= i < |s.selected| && o in Spent(s.selected[i].inputs);
      var j :| 0 <= j < |pool.rows| && j != r && s.selected[i] == pool.rows[j].tx;
      NoSharedInputs(c, k, pool.rows, if j < r then j else r, if j < r then r else j);
    }
  }

  lemma {:induction false} OutputOfRow(rows: seq<PoolRow>, j: nat, o: Outpoint)
    requires j < |rows| && o in Created(rows[j].tx)
    requires forall x, y | 0 <= x < y < |rows| :: rows[x].tx.id != rows[y].tx.id
    ensures o in PoolOutputs(rows) && PoolOutputs(rows)[o] == rows[j].tx.outputs[o.index]
  {
    var last := |rows| - 1;
    if j < last {
      OutputOfRow(rows[..last], j, o);
      assert rows[j].tx.id != rows[last].tx.id;
    }
  }

  lemma SelectedInPool(pool: Pool, s: Selection, r: nat, i: nat)
    requires r < |pool.rows| && ParentsSelected(pool, s, r) && i < |s.selected|
    ensures s.selected[i].id in PoolIds(pool.rows)
  {
  }

  lemma ConfirmedInput(c: Crypto, k: Confirmed, pool: Pool, s: Selection, r: nat, o: Outpoint)
    requires PoolOk(c, k, pool) && ConfirmedOk(c, k) && r < |pool.rows| && ParentsSelected(pool, s, r)
    requires SelectionShape(s)
    requires o in k.coins
    ensures o !in s.created
  {
    hide RowsOk, SoundCoins, OutputsKept, IndexOk;
    if o in s.created {
      var i :| 0 <= i < |s.selected| && s.selected[i].id == o.txid;
      OutputsUnconfirmed(c, k, pool.rows);
      SelectedInPool(pool, s, r, i);
    }
  }

  lemma PrefixUnconfirmed(c: Crypto, k: Confirmed, rows: seq<PoolRow>, r: nat, o: Outpoint)
    requires RowsOk(c, k, rows) && ConfirmedOk(c, k) && r <= |rows| && o in k.coins
    ensures o !in PoolOutputs(rows[..r]) && k.coins[o].output.amount > 0
  {
    hide RowsOk, ValidAddress;
    RowsOkPrefix(c, k, rows, r);
    OutputsUnconfirmed(c, k, rows[..r]);
  }

  lemma DistinctRows(c: Crypto, k: Confirmed, rows: seq<PoolRow>, r: nat)
    requires RowsOk(c, k, rows) && r <= |rows|
    ensures forall x, y | 0 <= x < y < r :: rows[..r][x].tx.id != rows[..r][y].tx.id
  {
    hide RowsOk;
    forall x, y | 0 <= x < y < r ensures rows[..r][x].tx.id != rows[..r][y].tx.id {
      NoSharedInputs(c, k, rows, x, y);
    }
  }

  lemma PendingInput(c: Crypto, k: Confirmed, pool: Pool, s: Selection, r: nat, n: nat)
    requires PoolOk(c, k, pool) && r < |pool.rows| && n < |pool.rows[r].tx.inputs|
    requires ParentsSelected(pool, s, r) && SelectionShape(s)
    requires var o := Spends(pool.rows[r].tx.inputs[n]); o in PoolOutputs(pool.rows[..r]) && o !in s.spent
    ensures var o := Spends(pool.rows[r].tx.inputs[n]);
      o in s.created && s.created[o] == PoolOutputs(pool.rows[..r])[o]
  {
    hide RowsOk, IndexOk, PoolOutputs, CountFrom;
    var o := Spends(pool.rows[r].tx.inputs[n]);
    var before := pool.rows[..r];
    OutputHasParent(before, o);
    var j :| 0 <= j < |before| && before[j].tx.id == o.txid && o.index < |before[j].tx.outputs|;
    CountsInput(pool.rows[r].tx.inputs, n);
    var i :| 0 <= i < |s.selected| && s.selected[i] == pool.rows[j].tx;
    assert OutputsKept(s, s.selected[i]);
    DistinctRows(c, k, pool.rows, r);
    OutputOfRow(before, j, o);
  }

  /** An input of a pool row whose pending parents are selected is worth to the miner what it is worth to the pool. */
  lemma RowInputFound(c: Crypto, k: Confirmed, pool: Pool, s: Selection, r: nat, n: nat)
    requires PoolOk(c, k, pool) && ConfirmedOk(c, k) && r < |pool.rows| && n < |pool.rows[r].tx.inputs|
    requires ParentsSelected(pool, s, r) && SelectionShape(s)
    ensures var o := Spends(pool.rows[r].tx.inputs[n]);
      && MiningLookup(k, s.created, s.spent, o).Some? && o in PoolView(k.coins, pool.rows[..r])
      && MiningLookup(k, s.created, s.spent, o).value == PoolView(k.coins, pool.rows[..r])[o]
  {
    hide RowsOk, ConfirmedOk, RegularFee, IndexOk, ParentsSelected, SelectionShape, CountFrom, EncodedSize,
      WithinBudget, MinimumRelayFee;
    var o := Spends(pool.rows[r].tx.inputs[n]);
    var before := pool.rows[..r];
    RowAt(c, k, pool.rows, r);
    assert InputOk(k, before, o);
    assert o in Spent(pool.rows[r].tx.inputs);
    InputUnspent(c, k, pool, s, r, o);
    if o in k.coins {
      ConfirmedInput(c, k, pool, s, r, o);
      PrefixUnconfirmed(c, k, pool.rows, r, o);
    } else {
      PendingInput(c, k, pool, s, r, n);
    }
  }

  predicate Full(s: Selection, tx: Transaction) {
    |s.selected| >= MAX_BLOCK_TRANSACTIONS - 1 || s.size + EncodedSize(tx) > MAX_BLOCK_BYTES
  }

  lemma RowFee(c: Crypto, k: Confirmed, pool: Pool, r: nat)
    requires PoolOk(c, k, pool) && r < |pool.rows|
    ensures RegularFee(c, pool.rows[r].tx, PoolView(k.coins, pool.rows[..r])) == Some(pool.rows[r].fee)
  {
    hide RowsOk, RegularFee, EncodedSize, PoolView, IndexOk;
    RowAt(c, k, pool.rows, r);
  }

  /** With all pending parents selected, a pool row is passed over only for lack of room. */
  lemma PassedOverForRoom(c: Crypto, k: Confirmed, pool: Pool, s: Selection, r: nat)
    requires PoolOk(c, k, pool) && ConfirmedOk(c, k) && r < |pool.rows|
    requires ParentsSelected(pool, s, r) && SelectionShape(s)
    ensures var tx := pool.rows[r].tx;
      Consider(c, k, s, tx) ==
        if Full(s, tx) then Some(s)
        else if s.fees + pool.rows[r].fee > MAX_UINT64 then None
        else Some(Take(s, tx, pool.rows[r].fee))
  {
    hide PoolOk, ConfirmedOk, RegularFee, ParentsSelected, SelectionShape, EncodedSize, MiningLookup, PoolView, Take;
    var tx := pool.rows[r].tx;
    var view := PoolView(k.coins, pool.rows[..r]);
    RowFee(c, k, pool, r);
    forall n | 0 <= n < |tx.inputs|
      ensures MiningLookup(k, s.created, s.spent, Spends(tx.inputs[n])).Some?
      ensures AgreeAt(MiningInputs(k, s.created, s.spent, tx.inputs), view, Spends(tx.inputs[n]))
    {
      RowInputFound(c, k, pool, s, r, n);
      assert Spends(tx.inputs[n]) in Spent(tx.inputs);
    }
    FeeDependsOnInputs(c, tx, MiningInputs(k, s.created, s.spent, tx.inputs), view);
  }

  // ---------------------------------------------------------------- the selection is maximal

  predicate IsRow(pool: Pool, tx: Transaction) {
    exists j :: 0 <= j < |pool.rows| && pool.rows[j].tx == tx
  }

  predicate AnyOf(txs: seq<Transaction>, n: nat, tx: Transaction)
    requires n <= |txs|
  {
    exists i :: 0 <= i < n && txs[i] == tx
  }

  /** A list of pool rows in which every pending parent comes before its children. */
  ghost predicate Topological(pool: Pool, txs: seq<Transaction>) {
    && DistinctIds(txs) && (forall n | 0 <= n < |txs| :: IsRow(pool, txs[n]))
    && (forall n, j | 0 <= n < |txs| && 0 <= j < |pool.rows| && CountFrom(txs[n].inputs, pool.rows[j].tx.id) > 0 ::
          AnyOf(txs, n, pool.rows[j].tx))
  }

  /** Taken, waiting for a parent that was left out, or too large for what room is left. */
  ghost predicate Justified(pool: Pool, s: Selection, tx: Transaction) {
    || tx in s.selected
    || (exists j :: 0 <= j < |pool.rows| && CountFrom(tx.inputs, pool.rows[j].tx.id) > 0 && pool.rows[j].tx !in s.selected)
    || Full(s, tx)
  }

  lemma ConsiderGrows(c: Crypto, k: Confirmed, s: Selection, tx: Transaction)
    requires Consider(c, k, s, tx).Some?
    ensures var n := Consider(c, k, s, tx).value;
      s.size <= n.size && (n == s || n.selected == s.selected + [tx])
  {
  }

  lemma {:induction false} SelectAllGrows(c: Crypto, k: Confirmed, s: Selection, pending: seq<Transaction>)
    requires SelectAll(c, k, s, pending).Some?
    ensures var final := SelectAll(c, k, s, pending).value;
      && s.size <= final.size && s.selected <= final.selected
      && (forall i | |s.selected| <= i < |final.selected| :: final.selected[i] in pending)
    decreases |pending|
  {
    hide Consider;
    if |pending| > 0 {
      ConsiderGrows(c, k, s, pending[0]);
      SelectAllGrows(c, k, Consider(c, k, s, pending[0]).value, pending[1..]);
    }
  }

  lemma FullStays(s: Selection, final: Selection, tx: Transaction)
    requires Full(s, tx) && s.size <= final.size && s.selected <= final.selected
    ensures Full(final, tx)
  {
  }

  /** A transaction of the passed part that was not selected never is. */
  lemma NeverSelectedLater(s: Selection, final: Selection, txs: seq<Transaction>, n: nat, i: nat)
    requires i < n <= |txs| && DistinctIds(txs) && txs[i] !in s.selected && s.selected <= final.selected
    requires forall x | |s.selected| <= x < |final.selected| :: final.selected[x] in txs[n..]
    ensures txs[i] !in final.selected
  {
  }

  lemma RowsSelected(pool: Pool, s: Selection, txs: seq<Transaction>, n: nat, r: nat)
    requires Topological(pool, txs) && n < |txs| && r < |pool.rows| && txs[n] == pool.rows[r].tx
    requires SelectedFrom(s, txs[..n])
    requires forall j | 0 <= j < |pool.rows| && CountFrom(txs[n].inputs, pool.rows[j].tx.id) > 0 :: pool.rows[j].tx in s.selected
    ensures ParentsSelected(pool, s, r)
  {
  }

  /** What the selection keeps at every step, when run on a pool in topological order. */
  ghost predicate Selecting(c: Crypto, k: Confirmed, s: Selection, txs: seq<Transaction>, n: nat)
    requires n <= |txs|
  {
    SelectionOk(c, k, s) && SelectionShape(s) && SelectedFrom(s, txs[..n])
  }

  lemma NotYetSelected(s: Selection, txs: seq<Transaction>, n: nat)
    requires n < |txs| && DistinctIds(txs) && SelectedFrom(s, txs[..n])
    ensures forall i | 0 <= i < |s.selected| :: s.selected[i].id != txs[n].id
  {
  }

  lemma SelectingStep(c: Crypto, k: Confirmed, s: Selection, txs: seq<Transaction>, n: nat)
    requires n < |txs| && Selecting(c, k, s, txs, n) && Unconfirmed(k, txs)
    requires ConfirmedOk(c, k) && k.height > 0 && Total(Outputs(k.coins)) <= MAX_SUPPLY
    ensures Consider(c, k, s, txs[n]).Some? && Selecting(c, k, Consider(c, k, s, txs[n]).value, txs, n + 1)
  {
    hide SelectionOk, SelectionShape, ConfirmedOk, RegularFee, EncodedSize, MiningInputs, MiningInputsFound, Take;
    var tx := txs[n];
    NotYetSelected(s, txs, n);
    assert tx.id in IdsOf(txs);
    assert tx.id !in IdsOf(s.selected);
    ConsiderReplays(c, k, s, tx);
    SelectedLater(s, txs, n);
    var next := Consider(c, k, s, tx).value;
    if next != s {
      var fee := RegularFee(c, tx, MiningInputs(k, s.created, s.spent, tx.inputs)).value;
      TakeShape(s, tx, fee);
      TakeFields(s, tx, fee);
      assert txs[..n + 1][n] == tx;
    }
  }

  lemma JustifiedByParent(c: Crypto, k: Confirmed, pool: Pool, s: Selection, txs: seq<Transaction>, n: nat, j: nat)
    requires Topological(pool, txs) && n < |txs| && j < |pool.rows| && SelectAll(c, k, s, txs[n..]).Some?
    requires CountFrom(txs[n].inputs, pool.rows[j].tx.id) > 0 && pool.rows[j].tx !in s.selected
    ensures Justified(pool, SelectAll(c, k, s, txs[n..]).value, txs[n])
  {
    hide CountFrom, EncodedSize, Consider, Full, SelectAll, IsRow;
    SelectAllGrows(c, k, s, txs[n..]);
    assert AnyOf(txs, n, pool.rows[j].tx);
    var i :| 0 <= i < n && txs[i] == pool.rows[j].tx;
    NeverSelectedLater(s, SelectAll(c, k, s, txs[n..]).value, txs, n, i);
  }

  lemma JustifiedByRoom(c: Crypto, k: Confirmed, pool: Pool, s: Selection, txs: seq<Transaction>, n: nat, r: nat)
    requires n < |txs| && r < |pool.rows| && SelectAll(c, k, s, txs[n..]).Some? && txs[n] == pool.rows[r].tx
    requires Consider(c, k, s, txs[n]).Some?
    requires Consider(c, k, s, txs[n]) == if Full(s, txs[n]) then Some(s)
      else if s.fees + pool.rows[r].fee > MAX_UINT64 then None else Some(Take(s, txs[n], pool.rows[r].fee))
    ensures txs[n] in SelectAll(c, k, s, txs[n..]).value.selected || Full(SelectAll(c, k, s, txs[n..]).value, txs[n])
  {
    hide EncodedSize, Consider, Full, Take;
    var final := SelectAll(c, k, s, txs[n..]).value;
    SelectAllGrows(c, k, s, txs[n..]);
    if Full(s, txs[n]) {
      FullStays(s, final, txs[n]);
    } else {
      var next := Consider(c, k, s, txs[n]).value;
      TakeFields(s, txs[n], pool.rows[r].fee);
      assert txs[n..][0] == txs[n];
      SelectAllGrows(c, k, next, txs[n..][1..]);
      assert final.selected[|s.selected|] == txs[n];
    }
  }

  lemma JustifiedHere(c: Crypto, k: Confirmed, pool: Pool, s: Selection, txs: seq<Transaction>, n: nat)
    requires PoolOk(c, k, pool) && ConfirmedOk(c, k) && Topological(pool, txs) && n < |txs|
    requires Selecting(c, k, s, txs, n) && SelectAll(c, k, s, txs[n..]).Some? && Consider(c, k, s, txs[n]).Some?
    ensures Justified(pool, SelectAll(c, k, s, txs[n..]).value, txs[n])
  {
    hide PoolOk, ConfirmedOk, SelectionOk, SelectionShape, SelectedFrom, CountFrom, EncodedSize, Consider, Take,
      ParentsSelected, Full, DistinctIds, SelectAll, AnyOf;
    var tx := txs[n];
    if j :| 0 <= j < |pool.rows| && CountFrom(tx.inputs, pool.rows[j].tx.id) > 0 && pool.rows[j].tx !in s.selected {
      JustifiedByParent(c, k, pool, s, txs, n, j);
    } else {
      assert IsRow(pool, tx);
      var r :| 0 <= r < |pool.rows| && pool.rows[r].tx == tx;
      RowsSelected(pool, s, txs, n, r);
      PassedOverForRoom(c, k, pool, s, r);
      JustifiedByRoom(c, k, pool, s, txs, n, r);
    }
  }

  lemma {:induction false} RestEnds(c: Crypto, k: Confirmed, s: Selection, txs: seq<Transaction>, n: nat)
    requires n <= |txs| && Selecting(c, k, s, txs, n) && Unconfirmed(k, txs)
    requires ConfirmedOk(c, k) && k.height > 0 && Total(Outputs(k.coins)) <= MAX_SUPPLY
    ensures SelectAll(c, k, s, txs[n..]).Some?
    decreases |txs| - n
  {
    hide ConfirmedOk, Unconfirmed, Selecting, Consider;
    if n < |txs| {
      assert txs[n..][0] == txs[n] && txs[n..][1..] == txs[n + 1..];
      SelectingStep(c, k, s, txs, n);
      RestEnds(c, k, Consider(c, k, s, txs[n]).value, txs, n + 1);
    }
  }

  /**
    The candidate is maximal: every pending transaction is in it, or waits for a pending parent that is not, or
    does not fit in the room that is left.
   */
  lemma {:induction false} CandidateIsMaximal(c: Crypto, k: Confirmed, pool: Pool, s: Selection,
                                              txs: seq<Transaction>, n: nat, m: nat)
    requires PoolOk(c, k, pool) && ConfirmedOk(c, k) && Topological(pool, txs) && Unconfirmed(k, txs)
    requires k.height > 0 && Total(Outputs(k.coins)) <= MAX_SUPPLY
    requires n <= m < |txs| && Selecting(c, k, s, txs, n)
    ensures SelectAll(c, k, s, txs[n..]).Some? && Justified(pool, SelectAll(c, k, s, txs[n..]).value, txs[m])
    decreases m - n
  {
    hide PoolOk, ConfirmedOk, Topological, Unconfirmed, Selecting, Consider, Justified;
    assert txs[n..][0] == txs[n] && txs[n..][1..] == txs[n + 1..];
    SelectingStep(c, k, s, txs, n);
    var next := Consider(c, k, s, txs[n]).value;
    if n < m {
      CandidateIsMaximal(c, k, pool, next, txs, n + 1, m);
    } else {
      RestEnds(c, k, next, txs, n + 1);
      JustifiedHere(c, k, pool, s, txs, n);
    }
  }

  /** The greedy order of the pool is topological, so all of the above applies to it. */
  lemma GreedyOrderServes(c: Crypto, k: Confirmed, pool: Pool, items: seq<MiningItem>, order: seq<nat>)
    requires PoolOk(c, k, pool) && ConfirmedOk(c, k) && |items| == |pool.rows| == |order|
    requires forall i | 0 <= i < |items| :: items[i].tx == pool.rows[i].tx
    requires Greedy(items, order) && OrderInRange(items, order)
    ensures Topological(pool, Picked(items, order)) && Unconfirmed(k, Picked(items, order))
  {
    hide PoolOk, ConfirmedOk, Greedy, CountFrom;
    PickedIsSound(c, k, pool, items, order);
    var txs := Picked(items, order);
    forall n | 0 <= n < |txs| ensures IsRow(pool, txs[n]) {
      assert pool.rows[order[n]].tx == txs[n];
    }
    forall n, j | 0 <= n < |txs| && 0 <= j < |pool.rows| && CountFrom(txs[n].inputs, pool.rows[j].tx.id) > 0
      ensures AnyOf(txs, n, pool.rows[j].tx)
    {
      CompleteIsPermutation(items, order, j);
      var m: nat :| m < |order| && order[m] == j;
      assert IsParent(items, order[m], order[n]);
      GreedyIsTopological(items, order, m, n);
      assert txs[m] == pool.rows[j].tx;
    }
  }
}
