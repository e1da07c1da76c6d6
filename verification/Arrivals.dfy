/**
  When a pending transaction was first seen (internal/ledger/mempool.go): the time stays with it through every
  operation, and a transaction that was not pending before gets the time of the operation that brought it.
 */
module Arrivals {
  import opened Common
  import opened Transactions
  import opened Headers
  import opened Horizon
  import opened Merkle
  import opened Totals
  import opened Replay
  import opened Tables
  import opened Collectors
  import opened Mempool
  import opened MempoolRules
  import opened Worlds
  import opened Authenticity
  import opened Refills

  /** Every row has the transaction and the time of one of the items. */
  predicate TakenFrom(rows: seq<PoolRow>, items: seq<Pending>) {
    forall i | 0 <= i < |rows| :: Pending(rows[i].tx, rows[i].firstSeen) in items
  }

  lemma {:induction false} LookupAdmitsNothing(k: Confirmed, pool: Pool, inputs: seq<TxInput>)
    requires !InputsFound(k, pool, inputs)
    ensures !LookupFailure(k, pool, inputs).Admitted?
    decreases |inputs|
  {
    hide LookupSpendable;
    if LookupSpendable(k, pool, Spends(inputs[0])).Found? {
      LookupAdmitsNothing(k, pool, inputs[1..]);
    }
  }

  lemma AdmittedFrom(c: Crypto, k: Confirmed, pool: Pool, item: Pending, all: seq<Pending>)
    requires TakenFrom(pool.rows, all) && item in all
    ensures Admit(c, k, pool, item).Admitted? ==> TakenFrom(Admit(c, k, pool, item).pool.rows, all)
  {
    hide RegularFee, WithinBudget, UsageOf, InputsFound, FoundView, LookupFailure, EncodedSize;
    if !InputsFound(k, pool, item.tx.inputs) {
      LookupAdmitsNothing(k, pool, item.tx.inputs);
    }
  }

  lemma {:induction false} RepopulatedFrom(c: Crypto, k: Confirmed, pool: Pool, items: seq<Pending>, all: seq<Pending>)
    requires Repopulate(c, k, pool, items).Some? && TakenFrom(pool.rows, all)
    requires (forall i | 0 <= i < |items| :: items[i] in all)
    ensures TakenFrom(Repopulate(c, k, pool, items).value.rows, all)
    decreases |items|
  {
    hide Admit, TakenFrom;
    if |items| > 0 {
      AdmittedFrom(c, k, pool, items[0], all);
      var next := if Admit(c, k, pool, items[0]).Admitted? then Admit(c, k, pool, items[0]).pool else pool;
      RepopulatedFrom(c, k, next, items[1..], all);
    }
  }

  /** A transaction that was pending before keeps its time; any other has this one. */
  predicate KeepsTimes(before: seq<PoolRow>, after: seq<PoolRow>, seen: int64) {
    forall i | 0 <= i < |after| ::
      if after[i].tx in TxsOf(before)
      then exists j :: 0 <= j < |before| && before[j].tx == after[i].tx && before[j].firstSeen == after[i].firstSeen
      else after[i].firstSeen == seen
  }

  lemma NotOnBoth(a: seq<Transaction>, b: seq<Transaction>, n: nat)
    requires Apart(a + b) && n < |a|
    ensures a[n] !in b
  {
    hide Spent;
    forall j | 0 <= j < |b| ensures b[j] != a[n] {
      assert (a + b)[n].id != (a + b)[|a| + j].id;
    }
  }

  lemma TakenKeepsTimes(before: seq<PoolRow>, after: seq<PoolRow>, orphaned: seq<Transaction>, seen: int64)
    requires Apart(orphaned + TxsOf(before)) && TakenFrom(after, Fresh(orphaned, seen) + PendingOf(before))
    ensures KeepsTimes(before, after, seen)
  {
    hide Spent;
    forall i | 0 <= i < |after|
      ensures if after[i].tx in TxsOf(before)
              then exists j :: 0 <= j < |before| && before[j].tx == after[i].tx && before[j].firstSeen == after[i].firstSeen
              else after[i].firstSeen == seen {
      var item := Pending(after[i].tx, after[i].firstSeen);
      if item in PendingOf(before) {
        var j :| 0 <= j < |before| && PendingOf(before)[j] == item;
        assert TxsOf(before)[j] == before[j].tx;
      } else {
        var n :| 0 <= n < |orphaned| && Fresh(orphaned, seen)[n] == item;
        NotOnBoth(orphaned, TxsOf(before), n);
      }
    }
  }

  lemma NothingTaken(items: seq<Pending>)
    ensures TakenFrom([], items)
  {
  }

  lemma InstallKeepsTimes(c: Crypto, w: World, chain: seq<Block>, ancestor: nat, orphaned: seq<Transaction>,
                          seen: int64)
    requires WorldOk(c, w) && Build(c, chain).Some? && ancestor < |w.chain|
    requires orphaned <= Tails(w.chain[ancestor + 1..]) && Install(c, w, chain, orphaned, seen).1.Committed?
    ensures KeepsTimes(w.pool.rows, Install(c, w, chain, orphaned, seen).0.pool.rows, seen)
  {
    hide Build, ConfirmedOk, RowsOk, ReplayChain, Repopulate, Authentic, Applied, IndexOk, Total, KeepsTimes, TakenFrom,
      Apart, Clear, Payable;
    var k, k1 := ConfirmedAt(c, w.chain), ConfirmedAt(c, chain);
    PoolContinues(c, k, w.pool);
    OldSide(c, w.chain, ancestor);
    AllReturning(c, k, w.pool.rows, ReplayChain(c, w.chain).value, Tails(w.chain[ancestor + 1..]), orphaned);
    var items := Fresh(orphaned, seen) + PendingOf(w.pool.rows);
    NothingTaken(items);
    RepopulatedFrom(c, k1, EmptyPool(w.pool.nextSequence), items, items);
    TakenKeepsTimes(w.pool.rows, Rebuild(c, k1, w.pool, orphaned, seen).value.rows, orphaned, seen);
  }

  lemma ReplaceKeepsTimes(c: Crypto, w: World, ancestor: nat, blocks: seq<Block>, now: int64, seen: int64)
    requires WorldOk(c, w) && ExecReplace(c, w, ancestor, blocks, now, seen).1.Committed?
    ensures KeepsTimes(w.pool.rows, ExecReplace(c, w, ancestor, blocks, now, seen).0.pool.rows, seen)
  {
    hide WorldOk, Build, ConfirmedAt, Install, AllOnTime, Kept, KeepsTimes, ChainWork;
    WorldHorizon(c, w);
    OldSide(c, w.chain, ancestor);
    InstallKeepsTimes(c, w, w.chain[..ancestor + 1] + blocks, ancestor, OrphanedBy(w.chain, ancestor), seen);
  }

  lemma DisconnectKeepsTimes(c: Crypto, w: World, seen: int64)
    requires WorldOk(c, w) && ExecDisconnect(c, w, seen).1.Committed?
    ensures KeepsTimes(w.pool.rows, ExecDisconnect(c, w, seen).0.pool.rows, seen)
  {
    hide WorldOk, Build, ConfirmedAt, Install, Regular, KeepsTimes;
    WorldHorizon(c, w);
    DisconnectIsBuildPrefix(c, w.chain);
    var chain, tip := w.chain[..|w.chain| - 1], w.chain[|w.chain| - 1];
    TipTail(c, w.chain);
    InstallKeepsTimes(c, w, chain, |chain| - 1, tip.txs[1..], seen);
  }

  lemma ConnectKeepsTimes(c: Crypto, w: World, b: Block, now: int64, seen: int64)
    requires WorldOk(c, w) && ExecConnect(c, w, b, now, seen).1.Committed?
    ensures KeepsTimes(w.pool.rows, ExecConnect(c, w, b, now, seen).0.pool.rows, seen)
  {
    hide WorldOk, Build, ConfirmedAt, Install, Tails, KeepsTimes;
    WorldHorizon(c, w);
    InstallKeepsTimes(c, w, w.chain + [b], |w.chain| - 1, [], seen);
  }

  lemma AppendsLast(c: Crypto, k: Confirmed, pool: Pool, item: Pending)
    requires Admit(c, k, pool, item).Admitted?
    ensures var rows := Admit(c, k, pool, item).pool.rows;
      && |rows| == |pool.rows| + 1 && rows[..|pool.rows|] == pool.rows
      && rows[|pool.rows|].tx == item.tx && rows[|pool.rows|].firstSeen == item.firstSeen
    ensures item.tx !in TxsOf(pool.rows)
  {
    hide RegularFee, WithinBudget, UsageOf, InputsFound, FoundView, LookupFailure, EncodedSize;
    if !InputsFound(k, pool, item.tx.inputs) {
      LookupAdmitsNothing(k, pool, item.tx.inputs);
    }
    assert forall i | 0 <= i < |pool.rows| :: pool.rows[i].tx.id in PoolIds(pool.rows);
  }

  lemma AddKeepsTimes(c: Crypto, w: World, tx: Transaction, seen: int64)
    requires WorldOk(c, w) && ExecAdd(c, w, tx, seen).1.Committed?
    ensures KeepsTimes(w.pool.rows, ExecAdd(c, w, tx, seen).0.pool.rows, seen)
  {
    hide Build, PoolOk, ConfirmedAt, ConfirmedOk, Admit, RowOk;
    var before := w.pool.rows;
    AppendsLast(c, ConfirmedAt(c, w.chain), w.pool, Pending(tx, seen));
    forall i | 0 <= i < |before| ensures before[i].tx in TxsOf(before) {
      assert TxsOf(before)[i] == before[i].tx;
    }
  }

  /** Whatever the operation, pending transactions keep the time they were first seen; new ones have its time. */
  lemma TimesStay(c: Crypto, w: World, op: Op)
    requires WorldOk(c, w) && Exec(c, w, op).1.Committed? && !op.PruneBodies? && !op.ImportState?
    ensures KeepsTimes(w.pool.rows, Exec(c, w, op).0.pool.rows, op.seen)
  {
    hide WorldOk, ExecConnect, ExecReplace, ExecDisconnect, ExecAdd, ExecImport, KeepsTimes;
    match op {
      case ConnectBlock(b, now, seen) => ConnectKeepsTimes(c, w, b, now, seen);
      case CommitMinedBlock(b, _, _, now, seen) => ConnectKeepsTimes(c, w, b, now, seen);
      case ReplaceFrom(ancestor, blocks, now, seen) => ReplaceKeepsTimes(c, w, ancestor, blocks, now, seen);
      case DisconnectTip(seen) => DisconnectKeepsTimes(c, w, seen);
      case AddTransaction(tx, seen) => AddKeepsTimes(c, w, tx, seen);
      case _ =>
    }
  }

  /** An import gives every transaction the time of the import. */
  lemma ImportTimes(c: Crypto, w: World, state: seq<Block>, pending: seq<Transaction>, checked: nat -> int64,
                    clock: nat -> int64, seen: int64)
    requires WorldOk(c, w)
    ensures var (w1, r) := Exec(c, w, ImportState(state, pending, checked, clock, seen));
      r.Committed? ==> forall i | 0 <= i < |w1.pool.rows| :: w1.pool.rows[i].firstSeen == seen
  {
    hide WorldOk, Build, ConfirmedAt, Repopulate, OnTime, ReplayChain, GenesisBlock;
    var (w1, r) := Exec(c, w, ImportState(state, pending, checked, clock, seen));
    if r.Committed? {
      NothingTaken(Fresh(pending, seen));
      RepopulatedFrom(c, ConfirmedAt(c, state), EmptyPool(w.pool.nextSequence), Fresh(pending, seen), Fresh(pending, seen));
    }
  }
}
