/**
  The public operations of internal/ledger on a database. Each works on a copy of the database and installs it
  only when everything succeeded, which is what its SQL transaction does; each is proved to do exactly what the
  state machine of module Worlds says.
 */
module Ledgers {
  import opened Common
  import opened Encoding
  import opened Transactions
  import opened Headers
  import opened Merkle
  import opened Replay
  import opened Tables
  import opened Refinement
  import opened Undo
  import opened Horizon
  import opened Mempool
  import opened MempoolRules
  import opened ChainState
  import opened Collectors
  import opened Worlds
  import opened Databases
  import opened MiningRules
  import opened Candidate

  // ---------------------------------------------------------------- facts about a database in transaction

  lemma HeldFacts(c: Crypto, t: Tables, chain: seq<Block>, horizon: nat)
    requires Represents(c, t, chain, horizon)
    ensures |t.blocks| == |chain| > 0 && |chain| <= MAX_INT64 + 1 && horizon < |chain|
    ensures WindowShape(Window(HeaderRows(t.blocks))) && Build(c, chain).Some?
    ensures Tip(t).work == ChainWork(HeadersOf(chain)) && Tip(t).header == chain[|chain| - 1].header
    ensures ConfirmedOf(t) == ConfirmedAt(c, chain) && ConfirmedOk(c, ConfirmedOf(t))
  {
    hide WindowShape, HeaderChain, ReplayChain, TablesOk, SoundCoins, Build, ConfirmedOk, ChainWork;
    RepresentedFacts(c, t, chain, horizon);
    RepresentedTipShape(c, t, chain, horizon);
    RepresentedConfirmed(c, t, chain, horizon);
    PruneKeepsCoins(Build(c, chain).value, horizon, 0);
  }

  /** One connection on a held chain. */
  lemma HeldConnect(c: Crypto, t: Tables, chain: seq<Block>, horizon: nat, b: Block)
    requires Represents(c, t, chain, horizon)
    ensures Connects(c, t, b) <==> Build(c, chain + [b]).Some?
    ensures Connects(c, t, b) ==> Represents(c, Connect(c, t, b), chain + [b], horizon)
  {
    hide Represents, Connects, Build, Connect;
    ConnectRepresents(c, t, chain, horizon, b);
  }

  lemma {:induction false} BuildPrefix(c: Crypto, chain: seq<Block>, n: nat)
    requires Build(c, chain).Some? && 0 < n <= |chain|
    ensures Build(c, chain[..n]).Some?
  {
    hide Connects, Connect, Genesis, GenesisBlock;
    if n == |chain| {
      assert chain[..n] == chain;
    } else {
      var prior := chain[..|chain| - 1];
      assert prior[..n] == chain[..n];
      BuildPrefix(c, prior, n);
    }
  }

  lemma {:induction false} OrphansCons(b: Block, rest: seq<Block>)
    ensures Orphans([b] + rest) == Regular(b.txs) + Orphans(rest)
  {
    hide Regular;
    var all := [b] + rest;
    if |rest| == 0 {
      assert all[..0] == [];
    } else {
      assert all[..|rest|] == [b] + rest[..|rest| - 1];
      OrphansCons(b, rest[..|rest| - 1]);
      assert Regular(b.txs) + Orphans(rest[..|rest| - 1]) + Regular(rest[|rest| - 1].txs)
          == Regular(b.txs) + (Orphans(rest[..|rest| - 1]) + Regular(rest[|rest| - 1].txs));
    }
  }

  // ---------------------------------------------------------------- steps inside a transaction

  /** connectBlockAtTime on a held chain. */
  method ConnectOn(c: Crypto, tx: Database, ghost chain: seq<Block>, b: Block, now: int64) returns (ok: bool)
    requires Represents(c, tx.State(), chain, tx.prunedThrough)
    modifies tx`blocks, tx`txs, tx`addresses, tx`coins, tx`undo
    ensures ok <==> NotTooFarAhead(b.header.timestamp, now) && Build(c, chain + [b]).Some?
    ensures ok ==> Represents(c, tx.State(), chain + [b], tx.prunedThrough)
  {
    hide Represents, Connects, Connect, Build, WindowShape, NotTooFarAhead, ChainWork, ConfirmedOk;
    HeldFacts(c, tx.State(), chain, tx.prunedThrough);
    HeldConnect(c, tx.State(), chain, tx.prunedThrough, b);
    ok := tx.ConnectBlockAtTime(c, b, now);
  }

  /** The rebuild that ends every operation that moves the tip. */
  method RebuildOn(c: Crypto, tx: Database, ghost w: World, ghost chain: seq<Block>, orphaned: seq<Transaction>,
                   seen: int64) returns (ok: bool)
    requires Represents(c, tx.State(), chain, tx.prunedThrough) && WorldOk(c, w)
    requires tx.prunedThrough == w.horizon && tx.Mempool() == w.pool
    modifies tx`rows, tx`inputs, tx`outputs, tx`nextSequence
    ensures Build(c, chain).Some?
    ensures ok <==> Install(c, w, chain, orphaned, seen).1.Committed?
    ensures ok ==> Install(c, w, chain, orphaned, seen).0 == World(chain, tx.prunedThrough, tx.Mempool())
    ensures !ok ==> Install(c, w, chain, orphaned, seen) == (w, Failed(Invalid))
  {
    hide Represents, Build, WindowShape, ChainWork, ConfirmedOk, Rebuild, PoolOk, ConfirmedAt;
    HeldFacts(c, tx.State(), chain, tx.prunedThrough);
    PoolContinues(c, ConfirmedAt(c, w.chain), w.pool);
    ok := tx.RebuildMempool(c, orphaned, seen);
  }

  method DisconnectAndCollect(c: Crypto, tx: Database, ghost chain: seq<Block>, ghost height: nat, orphaned: Collector)
    requires tx.prunedThrough < height < |chain| && orphaned.Valid()
    requires orphaned.received == Orphans(chain[height + 1..])
    requires Represents(c, tx.State(), chain[..height + 1], tx.prunedThrough)
    modifies tx`blocks, tx`txs, tx`addresses, tx`coins, tx`undo, orphaned
    ensures Represents(c, tx.State(), chain[..height], tx.prunedThrough)
    ensures orphaned.Valid() && orphaned.received == Orphans(chain[height..])
  {
    hide Represents, Regular, Collector.Valid;
    assert chain[..height + 1][..height] == chain[..height];
    var r, block, transactions := tx.DisconnectTip(c, chain[..height + 1]);
    orphaned.Add(transactions);
    OrphansCons(chain[height], chain[height + 1..]);
    assert [chain[height]] + chain[height + 1..] == chain[height..];
  }

  /** The disconnecting loop of a replacement: down to the ancestor, newest block first. */
  method DisconnectTo(c: Crypto, tx: Database, ghost chain: seq<Block>, ancestor: nat, orphaned: Collector)
    requires Represents(c, tx.State(), chain, tx.prunedThrough) && tx.prunedThrough <= ancestor < |chain|
    requires orphaned.Valid() && orphaned.received == []
    modifies tx`blocks, tx`txs, tx`addresses, tx`coins, tx`undo, orphaned
    ensures Represents(c, tx.State(), chain[..ancestor + 1], tx.prunedThrough)
    ensures orphaned.Valid() && orphaned.received == Orphans(chain[ancestor + 1..])
  {
    hide Represents, Build, WindowShape, ChainWork, ConfirmedOk, Regular, ConfirmedAt, Collector.Valid, HeaderRows,
      Window;
    HeldFacts(c, tx.State(), chain, tx.prunedThrough);
    var height := |tx.blocks| - 1;
    assert chain[..height + 1] == chain && chain[height + 1..] == [];
    while height > ancestor
      invariant ancestor <= height < |chain|
      invariant Represents(c, tx.State(), chain[..height + 1], tx.prunedThrough) && tx.prunedThrough == old(tx.prunedThrough)
      invariant orphaned.Valid() && orphaned.received == Orphans(chain[height + 1..])
    {
      DisconnectAndCollect(c, tx, chain, height, orphaned);
      height := height - 1;
    }
  }

  lemma HeldBuild(c: Crypto, t: Tables, chain: seq<Block>, horizon: nat)
    requires Represents(c, t, chain, horizon)
    ensures Build(c, chain).Some?
  {
    hide Build;
  }

  /** The connecting loop of a replacement. */
  method ConnectAll(c: Crypto, tx: Database, ghost base: seq<Block>, blocks: seq<Block>, now: int64) returns (ok: bool)
    requires Represents(c, tx.State(), base, tx.prunedThrough)
    modifies tx`blocks, tx`txs, tx`addresses, tx`coins, tx`undo
    ensures ok <==> AllOnTime(blocks, now) && Build(c, base + blocks).Some?
    ensures ok ==> Represents(c, tx.State(), base + blocks, tx.prunedThrough)
  {
    hide Represents, Build, NotTooFarAhead;
    assert base + blocks[..0] == base;
    for index := 0 to |blocks|
      invariant Represents(c, tx.State(), base + blocks[..index], tx.prunedThrough)
      invariant AllOnTime(blocks[..index], now)
    {
      assert base + blocks[..index] + [blocks[index]] == base + blocks[..index + 1];
      var connected := ConnectOn(c, tx, base + blocks[..index], blocks[index], now);
      if !connected {
        if Build(c, base + blocks).Some? {
          assert (base + blocks)[..|base| + index + 1] == base + blocks[..index + 1];
          BuildPrefix(c, base + blocks, |base| + index + 1);
        }
        return false;
      }
    }
    assert blocks[..|blocks|] == blocks;
    assert Build(c, base + blocks).Some? by { HeldBuild(c, tx.State(), base + blocks, tx.prunedThrough); }
    ok := true;
  }

  /** The tip moves from the chain to its replacement, unless a block is refused or the work is not enough. */
  method SwitchTo(c: Crypto, tx: Database, ghost chain: seq<Block>, ancestor: nat, blocks: seq<Block>, now: int64,
                  oldWork: nat)
    returns (error: Option<Error>, returning: seq<Transaction>)
    requires Represents(c, tx.State(), chain, tx.prunedThrough) && tx.prunedThrough <= ancestor < |chain|
    modifies tx`blocks, tx`txs, tx`addresses, tx`coins, tx`undo
    ensures error == if !AllOnTime(blocks, now) || Build(c, Replaced(chain, ancestor, blocks)).None? then Some(Invalid)
                     else if ChainWork(HeadersOf(Replaced(chain, ancestor, blocks))) <= oldWork then Some(InsufficientWork) else None
    ensures error.None? ==>
      Represents(c, tx.State(), Replaced(chain, ancestor, blocks), tx.prunedThrough) && returning == OrphanedBy(chain, ancestor)
  {
    hide Represents, Build, AllOnTime, Kept, Orphans, ChainWork, WindowShape, ConfirmedOk, Collector.Valid,
      HeaderRows, Window;
    returning := [];
    var orphaned := new Collector(MAX_PENDING_TRANSACTIONS, MAX_ORPHANED_BYTES);
    DisconnectTo(c, tx, chain, ancestor, orphaned);
    var connected := ConnectAll(c, tx, chain[..ancestor + 1], blocks, now);
    if !connected {
      return Some(Invalid), returning;
    }
    HeldFacts(c, tx.State(), Replaced(chain, ancestor, blocks), tx.prunedThrough);
    if tx.blocks[|tx.blocks| - 1].work <= oldWork {
      return Some(InsufficientWork), returning;
    }
    returning := orphaned.Transactions();
    error := None;
  }

  // ---------------------------------------------------------------- the ledger

  lemma FreshStore(c: Crypto)
    ensures WorldOk(c, GenesisWorld()) && TablesOf(c, GenesisWorld()) == Genesis()
  {
    hide Connects, Connect, PoolOk, ConfirmedAt, Genesis, Prune;
    EmptyPoolOk(c, ConfirmedAt(c, [GenesisBlock()]), 1);
    PruneNothing(Genesis(), [GenesisBlock()]);
  }

  lemma StoreRepresents(c: Crypto, w: World)
    requires WorldOk(c, w)
    ensures Represents(c, TablesOf(c, w), w.chain, w.horizon)
  {
    hide Represents, Build, PoolOk, ConfirmedAt, TablesOf;
    TablesRepresent(c, w);
  }

  /** What is installed is again a sound world with its own tables. */
  lemma Installed(c: Crypto, w: World, chain: seq<Block>, orphaned: seq<Transaction>, seen: int64, t: Tables)
    requires WorldOk(c, w) && Represents(c, t, chain, w.horizon)
    requires Install(c, w, chain, orphaned, seen).1.Committed?
    ensures var w1 := Install(c, w, chain, orphaned, seen).0; WorldOk(c, w1) && t == TablesOf(c, w1)
  {
    hide WorldOk, Install, Build, Prune;
    InstallKeepsWorld(c, w, chain, orphaned, seen);
  }

  lemma RepresentsStore(c: Crypto, w: World, t: Tables)
    requires Represents(c, t, w.chain, w.horizon)
    ensures Build(c, w.chain).Some? && t == TablesOf(c, w)
  {
    hide Build, Prune;
  }

  lemma StorePool(c: Crypto, w: World)
    requires WorldOk(c, w)
    ensures Build(c, w.chain).Some? && PoolOk(c, ConfirmedAt(c, w.chain), w.pool)
  {
    hide Build, PoolOk, ConfirmedAt;
  }

  lemma PoolOnly(c: Crypto, w: World, pool: Pool)
    requires WorldOk(c, w)
    ensures TablesOf(c, w.(pool := pool)) == TablesOf(c, w)
  {
    hide Build, PoolOk, ConfirmedAt, Prune;
  }

  /** A chain of one block is genesis alone. */
  lemma OnlyGenesis(c: Crypto, chain: seq<Block>)
    requires Build(c, chain).Some?
    ensures |chain| == 1 <==> chain == [GenesisBlock()]
  {
    hide Connects, Connect, Genesis, GenesisBlock;
  }

  lemma ReplayStarts(c: Crypto, state: seq<Block>)
    requires ReplayChain(c, state).Some?
    ensures |state| > 0 && state[0] == GenesisBlock()
  {
    hide BlockRules, ReplayBlock, GenesisBlock;
  }

  /** The pending list of an import replaces whatever the pool held. */
  method RefillOn(c: Crypto, tx: Database, ghost w: World, ghost state: seq<Block>, pending: seq<Transaction>,
                  seen: int64) returns (ok: bool)
    requires Represents(c, tx.State(), state, tx.prunedThrough) && WorldOk(c, w) && tx.Mempool() == w.pool
    modifies tx`rows, tx`inputs, tx`outputs, tx`nextSequence
    ensures Build(c, state).Some?
    ensures var r := Repopulate(c, ConfirmedAt(c, state), EmptyPool(w.pool.nextSequence), Fresh(pending, seen));
      (ok <==> r.Some?) && (ok ==> tx.Mempool() == r.value)
  {
    hide WorldOk, Represents, Build, PoolOk, ConfirmedAt, ConfirmedOk, Repopulate, WindowShape, ChainWork;
    HeldFacts(c, tx.State(), state, tx.prunedThrough);
    StorePool(c, w);
    PoolContinues(c, ConfirmedAt(c, w.chain), w.pool);
    tx.rows, tx.inputs, tx.outputs := [], map[], map[];
    EmptyPoolOk(c, ConfirmedAt(c, state), tx.nextSequence);
    ok := tx.RepopulateMempool(c, Fresh(pending, seen), |tx.blocks|);
  }

  /** The loop of ImportState over the blocks after genesis. */
  method ImportBlocks(c: Crypto, tx: Database, state: seq<Block>, clock: nat -> int64) returns (ok: bool)
    requires |state| > 0 && Represents(c, tx.State(), state[..1], tx.prunedThrough)
    modifies tx`blocks, tx`txs, tx`addresses, tx`coins, tx`undo
    ensures ok <==> OnTime(state, clock) && Build(c, state).Some?
    ensures ok ==> Represents(c, tx.State(), state, tx.prunedThrough)
  {
    hide Represents, Build, NotTooFarAhead;
    for index := 1 to |state|
      invariant Represents(c, tx.State(), state[..index], tx.prunedThrough)
      invariant OnTime(state[..index], clock)
    {
      assert state[..index] + [state[index]] == state[..index + 1];
      var connected := ConnectOn(c, tx, state[..index], state[index], clock(index));
      if !connected {
        if Build(c, state).Some? {
          BuildPrefix(c, state, index + 1);
        }
        return false;
      }
    }
    assert state[..|state|] == state;
    HeldBuild(c, tx.State(), state, tx.prunedThrough);
    ok := true;
  }

  class Ledger {
    const crypto: Crypto
    var db: Database
    ghost var chain: seq<Block>

    ghost function Store(): World
      reads this, db
    {
      World(chain, db.prunedThrough, db.Mempool())
    }

    /** The committed rows are those of the chain above the horizon, with a sound mempool on top. */
    ghost predicate Valid()
      reads this, db
    {
      WorldOk(crypto, Store()) && db.State() == TablesOf(crypto, Store())
    }

    constructor (crypto: Crypto)
      ensures Valid() && this.crypto == crypto && Store() == GenesisWorld() && fresh(db)
    {
      this.crypto := crypto;
      chain := [GenesisBlock()];
      db := new Database();
      new;
      FreshStore(crypto);
    }

    /** Begin: a transaction sees the committed rows. */
    method Begin() returns (tx: Database)
      requires Valid()
      ensures fresh(tx) && Represents(crypto, tx.State(), chain, tx.prunedThrough)
      ensures World(chain, tx.prunedThrough, tx.Mempool()) == Store() && tx.State() == db.State()
    {
      hide WorldOk, TablesOf, Represents;
      tx := new Database.CopyOf(db);
      StoreRepresents(crypto, Store());
    }

    method ConnectBlock(block: Block, now: int64, seen: int64) returns (r: Outcome)
      requires Valid()
      modifies this
      ensures Valid() && (db == old(db) || fresh(db))
      ensures (Store(), r) == Exec(crypto, old(Store()), Op.ConnectBlock(block, now, seen))
    {
      hide WorldOk, TablesOf, Represents, Install, Build, NotTooFarAhead;
      ghost var w := Store();
      var tx := Begin();
      var connected := ConnectOn(crypto, tx, chain, block, now);
      if !connected {
        return Failed(Invalid);
      }
      var rebuilt := RebuildOn(crypto, tx, w, chain + [block], [], seen);
      if !rebuilt {
        return Failed(Invalid);
      }
      Installed(crypto, w, chain + [block], [], seen, tx.State());
      db, chain := tx, chain + [block];
      r := Committed;
    }

    method CommitMinedBlock(block: Block, tipHeight: nat, tipHash: Text, now: int64, seen: int64) returns (r: Outcome)
      requires Valid()
      modifies this
      ensures Valid() && (db == old(db) || fresh(db))
      ensures (Store(), r) == Exec(crypto, old(Store()), Op.CommitMinedBlock(block, tipHeight, tipHash, now, seen))
    {
      hide WorldOk, TablesOf, Represents, ExecConnect, HeaderChain, WindowShape, ConfirmedOk, Build;
      StoreRepresents(crypto, Store());
      HeldFacts(crypto, db.State(), chain, db.prunedThrough);
      var tip := db.blocks[|db.blocks| - 1].header;
      if tipHeight != |db.blocks| - 1 || tipHash != tip.hash {
        return Failed(StaleTip);
      }
      r := ConnectBlock(block, now, seen);
    }

    method ReplaceFrom(ancestor: nat, blocks: seq<Block>, now: int64, seen: int64) returns (r: Outcome)
      requires Valid()
      modifies this
      ensures Valid() && (db == old(db) || fresh(db))
      ensures (Store(), r) == Exec(crypto, old(Store()), Op.ReplaceFrom(ancestor, blocks, now, seen))
    {
      hide WorldOk, TablesOf, Represents, Install, Build, AllOnTime, OrphanedBy, ChainWork, WindowShape, ConfirmedOk;
      if |blocks| == 0 {
        return Failed(InsufficientWork);
      }
      ghost var w := Store();
      var tx := Begin();
      HeldFacts(crypto, tx.State(), chain, tx.prunedThrough);
      var oldWork := tx.blocks[|tx.blocks| - 1].work;
      if ancestor >= |tx.blocks| {
        return Failed(Invalid);
      }
      if ancestor < tx.prunedThrough {
        return Failed(BeyondPrune);
      }
      var error, returning := SwitchTo(crypto, tx, chain, ancestor, blocks, now, oldWork);
      if error.Some? {
        return Failed(error.value);
      }
      ghost var next := Replaced(chain, ancestor, blocks);
      var rebuilt := RebuildOn(crypto, tx, w, next, returning, seen);
      if !rebuilt {
        return Failed(Invalid);
      }
      Installed(crypto, w, next, returning, seen, tx.State());
      db, chain := tx, next;
      r := Committed;
    }

    method DisconnectTip(seen: int64) returns (r: Outcome)
      requires Valid()
      modifies this
      ensures Valid() && (db == old(db) || fresh(db))
      ensures (Store(), r) == Exec(crypto, old(Store()), Op.DisconnectTip(seen))
    {
      hide WorldOk, TablesOf, Represents, Install, Build, Regular, PoolOk, ConfirmedAt;
      ghost var w := Store();
      var tx := Begin();
      WorldHorizon(crypto, w);
      var disconnected, block, orphaned := tx.DisconnectTip(crypto, chain);
      if disconnected.Failed? {
        return disconnected;
      }
      ghost var next := chain[..|chain| - 1];
      var rebuilt := RebuildOn(crypto, tx, w, next, orphaned, seen);
      if !rebuilt {
        return Failed(Invalid);
      }
      Installed(crypto, w, next, orphaned, seen, tx.State());
      db, chain := tx, next;
      r := Committed;
    }

    method AddTransaction(transaction: Transaction, seen: int64) returns (r: Outcome)
      requires Valid()
      modifies this
      ensures Valid() && (db == old(db) || fresh(db))
      ensures (Store(), r) == Exec(crypto, old(Store()), Op.AddTransaction(transaction, seen))
    {
      hide HeaderRows, UsageOf, Install, ExecConnect, ExecReplace, ExecDisconnect, ExecImport, PrunedHorizon, WorldOk, TablesOf,
        Represents, Build, PoolOk, ConfirmedAt, ConfirmedOk, Admit, WindowShape, ChainWork;
      ghost var w := Store();
      var tx := Begin();
      HeldFacts(crypto, tx.State(), chain, tx.prunedThrough);
      AddKeepsWorld(crypto, w, transaction, seen);
      if |tx.blocks| - 1 >= MAX_INT64 {
        return Failed(Invalid);
      }
      StorePool(crypto, w);
      var usage := tx.ReadUsage(crypto, ConfirmedOf(tx.State()));
      var added, after := tx.AddMempoolTransaction(crypto, Pending(transaction, seen), |tx.blocks|, usage);
      match added {
        case Rejection(AlreadyKnown) => return Failed(AlreadyKnownTransaction);
        case Rejection(Rejected) => return Failed(Invalid);
        case StorageFault => return Failed(Invalid);
        case Added =>
      }
      PoolOnly(crypto, w, tx.Mempool());
      db := tx;
      r := Committed;
    }

    method Prune(retainRecent: nat) returns (r: Outcome, through: nat)
      requires Valid()
      modifies this
      ensures Valid() && (db == old(db) || fresh(db))
      ensures (Store(), r) == Exec(crypto, old(Store()), PruneBodies(retainRecent))
      ensures r.Committed? ==> through == Store().horizon == Max(old(Store().horizon), old(|chain|) - 1 - retainRecent)
    {
      hide WorldOk, TablesOf, Represents, Build, PoolOk, ConfirmedAt, ConfirmedOk, WindowShape, ChainWork;
      if retainRecent == 0 {
        return Failed(Invalid), 0;
      }
      ghost var w := Store();
      var tx := Begin();
      HeldFacts(crypto, tx.State(), chain, tx.prunedThrough);
      var height := |tx.blocks| - 1;
      if height <= retainRecent || height - retainRecent <= tx.prunedThrough {
        return Committed, tx.prunedThrough;
      }
      PruneKeepsWorld(crypto, w, retainRecent);
      PruneRepresents(crypto, tx.State(), chain, tx.prunedThrough, height - retainRecent);
      tx.PruneThrough(height - retainRecent);
      RepresentsStore(crypto, w.(horizon := height - retainRecent), tx.State());
      db := tx;
      return Committed, height - retainRecent;
    }

    /** ImportState: a legacy state that replays is connected block by block into a fresh ledger. */
    method ImportState(state: seq<Block>, pending: seq<Transaction>, checked: nat -> int64, clock: nat -> int64,
                       seen: int64) returns (r: Outcome)
      requires Valid()
      modifies this
      ensures Valid() && (db == old(db) || fresh(db))
      ensures (Store(), r) == Exec(crypto, old(Store()), Op.ImportState(state, pending, checked, clock, seen))
    {
      hide WorldOk, TablesOf, Represents, Build, PoolOk, ConfirmedAt, ConfirmedOk, Repopulate, WindowShape, ChainWork,
        ReplayChain, OnTime, GenesisBlock, GenesisHeader, NotTooFarAhead, Fresh, HeaderRows, Window, HeadersOf;
      ghost var w := Store();
      var replayed := ReplayState(crypto, state, checked);
      if replayed.None? || |pending| > MAX_PENDING_TRANSACTIONS {
        return Failed(Invalid);
      }
      var tx := Begin();
      HeldFacts(crypto, tx.State(), chain, tx.prunedThrough);
      OnlyGenesis(crypto, chain);
      if |tx.blocks| != 1 {
        return Failed(Invalid);
      }
      ReplayStarts(crypto, state);
      assert state[..1] == [state[0]] == chain;
      var connected := ImportBlocks(crypto, tx, state, clock);
      if !connected {
        return Failed(Invalid);
      }
      HeldFacts(crypto, tx.State(), state, tx.prunedThrough);
      if |tx.blocks| - 1 >= MAX_INT64 {
        return Failed(Invalid);
      }
      var repopulated := RefillOn(crypto, tx, w, state, pending, seen);
      if !repopulated {
        return Failed(Invalid);
      }
      ImportKeepsWorld(crypto, w, state, pending, checked, clock, seen);
      RepresentsStore(crypto, World(state, tx.prunedThrough, tx.Mempool()), tx.State());
      db, chain := tx, state;
      r := Committed;
    }

    /** The candidate a miner works on; nothing is written. */
    method BuildMiningCandidate(address: Text, draws: (uint64, uint64), now: int64)
      returns (r: Option<Block>, ghost order: seq<nat>, ghost pending: seq<Transaction>)
      requires Valid()
      ensures MiningOrderOf(db.Mempool(), order, pending) && TipShape(db.State())
      ensures r == CandidateOf(crypto, db.State(), pending, address, draws, now)
      ensures r.Some? <==> ValidAddress(crypto, address) && |chain| <= MAX_INT64
    {
      hide WorldOk, TablesOf, Represents, Build, PoolOk, ConfirmedAt, ConfirmedOk, CandidateOf, TipShape,
        MiningOrderOf, WindowShape, ChainWork;
      StoreRepresents(crypto, Store());
      HeldFacts(crypto, db.State(), chain, db.prunedThrough);
      StorePool(crypto, Store());
      r, order, pending := BuildCandidate(crypto, db.State(), chain, db.prunedThrough, db.Mempool(), address, draws, now);
    }
  }
}
