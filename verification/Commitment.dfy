/**
  When the operations of the ledger commit (internal/ledger): exactly when the full replay accepts the chain they would
  leave, the clock and the horizon allow it, and work grows where it has to.
 */
module Commitment {
  import opened Common
  import opened Encoding
  import opened Transactions
  import opened Headers
  import opened Merkle
  import opened Replay
  import opened Tables
  import opened ChainTables
  import opened Mempool
  import opened MempoolRules
  import opened Worlds
  import opened Refills

  /** A chain the ledger can hold: the replay accepts it and a next height is left. */
  ghost predicate Holds(c: Crypto, chain: seq<Block>) {
    ReplayChain(c, chain).Some? && |chain| < 0x8000_0000_0000_0000
  }

  lemma HoldsBuilds(c: Crypto, chain: seq<Block>)
    ensures Holds(c, chain) <==> Build(c, chain).Some? && |chain| <= MAX_INT64
  {
    hide ReplayChain, Build;
    BuildAgreesWithReplay(c, chain);
  }

  lemma InstallOutcome(c: Crypto, w: World, chain: seq<Block>, orphaned: seq<Transaction>, seen: int64)
    requires WorldOk(c, w) && Build(c, chain).Some? && w.horizon < |chain|
    ensures Install(c, w, chain, orphaned, seen).1 == if |chain| <= MAX_INT64 then Committed else Failed(Invalid)
  {
    hide WorldOk, Build;
    InstallKeepsWorld(c, w, chain, orphaned, seen);
  }

  /** A block is connected exactly when the replay accepts the longer chain and it is dated at most 120 seconds ahead. */
  lemma ConnectCommits(c: Crypto, w: World, b: Block, now: int64, seen: int64)
    requires WorldOk(c, w)
    ensures Exec(c, w, ConnectBlock(b, now, seen)).1 ==
      if Holds(c, w.chain + [b]) && b.header.timestamp <= now + 120 then Committed else Failed(Invalid)
  {
    hide WorldOk, Build, Install, Holds;
    WorldHorizon(c, w);
    HoldsBuilds(c, w.chain + [b]);
    if Build(c, w.chain + [b]).Some? {
      InstallOutcome(c, w, w.chain + [b], [], seen);
    }
  }

  /** A mined block is committed exactly when it would be connected and the tip it was mined on is still the tip. */
  lemma MinedCommits(c: Crypto, w: World, b: Block, tipHeight: nat, tipHash: Text, now: int64, seen: int64)
    requires WorldOk(c, w)
    ensures |w.chain| > 0
    ensures var r := Exec(c, w, CommitMinedBlock(b, tipHeight, tipHash, now, seen)).1;
      if tipHeight != |w.chain| - 1 || tipHash != w.chain[|w.chain| - 1].header.hash then r == Failed(StaleTip)
      else if Holds(c, w.chain + [b]) && b.header.timestamp <= now + 120 then r == Committed
      else r == Failed(Invalid)
  {
    hide WorldOk, ExecConnect, Holds;
    WorldHorizon(c, w);
    ConnectCommits(c, w, b, now, seen);
  }

  lemma OnTimeMeans(blocks: seq<Block>, now: int64)
    ensures AllOnTime(blocks, now) <==> !(exists i :: 0 <= i < |blocks| && blocks[i].header.timestamp > now + 120)
  {
  }

  /** Why a replacement is refused: each reason exactly when those before it do not apply. */
  lemma ReplaceCommits(c: Crypto, w: World, ancestor: nat, blocks: seq<Block>, now: int64, seen: int64)
    requires WorldOk(c, w)
    ensures var r := Exec(c, w, ReplaceFrom(ancestor, blocks, now, seen)).1;
      if |blocks| == 0 then r == Failed(InsufficientWork)
      else if ancestor >= |w.chain| then r == Failed(Invalid)
      else if ancestor < w.horizon then r == Failed(BeyondPrune)
      else
        var chain := w.chain[..ancestor + 1] + blocks;
        if ReplayChain(c, chain).None? || |chain| > 0x8000_0000_0000_0000
           || (exists i :: 0 <= i < |blocks| && blocks[i].header.timestamp > now + 120) then r == Failed(Invalid)
        else if ChainWork(HeadersOf(chain)) <= ChainWork(HeadersOf(w.chain)) then r == Failed(InsufficientWork)
        else if |chain| == 0x8000_0000_0000_0000 then r == Failed(Invalid)
        else r == Committed
  {
    hide WorldOk, Build, ChainWork, ReplayChain, ExecConnect;
    WorldHorizon(c, w);
    if ancestor < |w.chain| && |blocks| > 0 && w.horizon <= ancestor {
      var chain := w.chain[..ancestor + 1] + blocks;
      BuildAgreesWithReplay(c, chain);
      OnTimeMeans(blocks, now);
      if Build(c, chain).Some? {
        InstallOutcome(c, w, chain, OrphanedBy(w.chain, ancestor), seen);
      }
    }
  }

  /** The tip is disconnected exactly when it is above genesis and the horizon. */
  lemma DisconnectCommits(c: Crypto, w: World, seen: int64)
    requires WorldOk(c, w)
    ensures var r := Exec(c, w, DisconnectTip(seen)).1;
      if |w.chain| == 1 then r == Failed(GenesisTip)
      else if |w.chain| - 1 <= w.horizon then r == Failed(BeyondPrune)
      else r == Committed
  {
    hide WorldOk, Build, Install, Regular;
    WorldHorizon(c, w);
    DisconnectKeepsWorld(c, w, seen);
  }

  lemma KnownIsRefused(c: Crypto, k: Confirmed, pool: Pool, item: Pending)
    requires PoolOk(c, k, pool) && ConfirmedOk(c, k)
    ensures Admit(c, k, pool, item) == Refused(AlreadyKnown) <==>
      !item.tx.coinbase && (item.tx.id in k.ids || exists i :: 0 <= i < |pool.rows| && pool.rows[i].tx.id == item.tx.id)
  {
    hide PoolOk, ConfirmedOk, RegularFee, WithinBudget, UsageOf, InputsFound, FoundView, LookupFailure, EncodedSize,
      Append;
    if !InputsFound(k, pool, item.tx.inputs) {
      FailureIsRefusal(c, k, pool, item.tx.inputs);
    }
  }

  lemma OnTimeMeaning(blocks: seq<Block>, clock: nat -> int64)
    ensures OnTime(blocks, clock) <==> forall i | 0 < i < |blocks| :: blocks[i].header.timestamp <= clock(i) + 120
  {
  }

  lemma ImportKeepsRows(c: Crypto, w: World, state: seq<Block>, pending: seq<Transaction>, seen: int64)
    requires WorldOk(c, w) && Build(c, state).Some?
    ensures Repopulate(c, ConfirmedAt(c, state), EmptyPool(w.pool.nextSequence), Fresh(pending, seen)).Some?
  {
    hide Build, PoolOk, ConfirmedAt, ConfirmedOk, Repopulate;
    PoolContinues(c, ConfirmedAt(c, w.chain), w.pool);
    ConfirmedIsSound(c, state);
    EmptyPoolOk(c, ConfirmedAt(c, state), w.pool.nextSequence);
    RepopulateKeepsPool(c, ConfirmedAt(c, state), EmptyPool(w.pool.nextSequence), Fresh(pending, seen));
  }

  /**
    A legacy state is imported exactly into a fresh ledger, when the ledger can hold its blocks, none was more than 120
    seconds ahead at either of its two checks, and it brings at most 5000 pending transactions.
   */
  lemma ImportCommits(c: Crypto, w: World, state: seq<Block>, pending: seq<Transaction>, checked: nat -> int64,
                      clock: nat -> int64, seen: int64)
    requires WorldOk(c, w)
    ensures Exec(c, w, ImportState(state, pending, checked, clock, seen)).1 ==
      if w.chain == [GenesisBlock()] && Holds(c, state) && |pending| <= 5_000
         && (forall i | 0 < i < |state| ::
               state[i].header.timestamp <= checked(i) + 120 && state[i].header.timestamp <= clock(i) + 120)
      then Committed else Failed(Invalid)
  {
    hide WorldOk, Build, ReplayChain, GenesisBlock, ConfirmedAt, Repopulate, PoolOk, ConfirmedOk;
    HoldsBuilds(c, state);
    OnTimeMeaning(state, checked);
    OnTimeMeaning(state, clock);
    if Build(c, state).Some? {
      ImportKeepsRows(c, w, state, pending, seen);
    }
  }

  /**
    A transaction is added exactly when it is admissible on top of what is pending, and then it comes last; one that
    is confirmed or pending already is refused as known.
   */
  lemma AddCommits(c: Crypto, w: World, tx: Transaction, seen: int64)
    requires WorldOk(c, w)
    ensures Build(c, w.chain).Some?
    ensures var (w1, r) := Exec(c, w, AddTransaction(tx, seen));
      var k := ConfirmedAt(c, w.chain);
      && (r.Committed? <==> |w.chain| <= MAX_INT64 && Admissible(c, k, w.pool.rows, tx))
      && (r == Failed(AlreadyKnownTransaction) <==>
            |w.chain| <= MAX_INT64 && !tx.coinbase
            && (tx.id in k.ids || exists i :: 0 <= i < |w.pool.rows| && w.pool.rows[i].tx.id == tx.id))
      && (r.Failed? && r.error != AlreadyKnownTransaction ==> r == Failed(Invalid))
      && (r.Committed? ==>
            && w1 == w.(pool := w1.pool) && |w1.pool.rows| == |w.pool.rows| + 1 && w1.pool.rows[..|w.pool.rows|] == w.pool.rows
            && w1.pool.rows[|w.pool.rows|] ==
               PoolRow(w.pool.nextSequence, seen, FeeOn(c, k, w.pool.rows, tx).value, EncodedSize(tx), tx))
  {
    hide Build, PoolOk, ConfirmedAt, ConfirmedOk, Admit, RowOk, FeeOn, EncodedSize, InputRows;
    var k := ConfirmedAt(c, w.chain);
    ConfirmedIsSound(c, w.chain);
    AdmitsAdmissible(c, k, w.pool, w.pool.rows, Pending(tx, seen));
    KnownIsRefused(c, k, w.pool, Pending(tx, seen));
  }
}
