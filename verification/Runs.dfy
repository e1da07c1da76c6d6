/**
  What every run of the ledger keeps: sound tables and mempool, exact supply, growing work, a horizon that never
  moves back and a history below it that never changes (internal/ledger).
 */
module Runs {
  import opened Common
  import opened Amounts
  import opened Transactions
  import opened Headers
  import opened Merkle
  import opened Totals
  import opened Replay
  import opened Tables
  import opened Refinement
  import opened ChainTables
  import opened Undo
  import opened Horizon
  import opened Mempool
  import opened MempoolRules
  import opened Worlds

  /** The world after a list of operations, failed ones included. */
  ghost function Run(c: Crypto, w: World, ops: seq<Op>): World
    requires WorldOk(c, w)
    decreases |ops|
  {
    if |ops| == 0 then w
    else
      ExecKeepsWorld(c, w, ops[0]);
      Run(c, Exec(c, w, ops[0]).0, ops[1..])
  }

  lemma {:induction false} RunKeepsWorld(c: Crypto, w: World, ops: seq<Op>)
    requires WorldOk(c, w)
    ensures WorldOk(c, Run(c, w, ops))
    decreases |ops|
  {
    hide WorldOk, Exec;
    if |ops| > 0 {
      ExecKeepsWorld(c, w, ops[0]);
      RunKeepsWorld(c, Exec(c, w, ops[0]).0, ops[1..]);
    }
  }

  lemma GenesisWorldOk(c: Crypto)
    ensures WorldOk(c, GenesisWorld())
  {
  }

  // ---------------------------------------------------------------- supply

  lemma PoolRows(c: Crypto, k: Confirmed, pool: Pool)
    requires PoolOk(c, k, pool) && ConfirmedOk(c, k)
    ensures RowsOk(c, k, pool.rows) && CoinsIndexed(k.coins, k.ids)
  {
  }

  /**
    In a sound world all confirmed outputs add up to the emission schedule, and so do unspent confirmed outputs,
    unspent pending outputs and pending fees together.
   */
  lemma SupplyIsExact(c: Crypto, w: World)
    requires WorldOk(c, w)
    ensures 0 < |w.chain| <= MAX_INT64 + 1
    ensures Total(Outputs(TablesOf(c, w).coins)) == MintedThrough(|w.chain| - 1) == SubsidySum(|w.chain| - 1) <= MAX_SUPPLY
    ensures Total(PoolView(TablesOf(c, w).coins, w.pool.rows)) + PoolFees(w.pool.rows) == MintedThrough(|w.chain| - 1)
  {
    hide Build, PoolOk, ConfirmedAt, Represents, MintedThrough, SubsidySum, ConfirmedOk, TablesOf, PoolView, PoolFees,
      Total;
    BuiltLength(c, w.chain);
    TablesRepresent(c, w);
    RepresentedSupply(c, TablesOf(c, w), w.chain, w.horizon);
    ConfirmedIsSound(c, w.chain);
    ConfirmedIgnoresHorizon(c, w);
    PoolRows(c, ConfirmedAt(c, w.chain), w.pool);
    PoolConserves(c, ConfirmedAt(c, w.chain), w.pool.rows);
  }

  /** The supply law holds after any run from genesis, reorganisations and pruning included. */
  lemma ReachableSupply(c: Crypto, ops: seq<Op>)
    ensures WorldOk(c, GenesisWorld())
    ensures var w := Run(c, GenesisWorld(), ops);
      && Build(c, w.chain).Some? && 0 < |w.chain| <= MAX_INT64 + 1
      && Total(Outputs(TablesOf(c, w).coins)) == MintedThrough(|w.chain| - 1)
      && Total(PoolView(TablesOf(c, w).coins, w.pool.rows)) + PoolFees(w.pool.rows) == MintedThrough(|w.chain| - 1)
  {
    hide WorldOk, Run, MintedThrough, SubsidySum, Total, PoolView, PoolFees, TablesOf, Build;
    GenesisWorldOk(c);
    RunKeepsWorld(c, GenesisWorld(), ops);
    WorldHorizon(c, Run(c, GenesisWorld(), ops));
    SupplyIsExact(c, Run(c, GenesisWorld(), ops));
  }

  // ---------------------------------------------------------------- work

  /** Operations that may only move the tip to more work. */
  predicate Advances(op: Op) {
    op.ConnectBlock? || op.CommitMinedBlock? || op.ReplaceFrom?
  }

  lemma WorkOfExtension(chain: seq<Block>, b: Block)
    requires |chain| > 0
    ensures ChainWork(HeadersOf(chain + [b])) == ChainWork(HeadersOf(chain)) + Pow2(b.header.difficulty) > ChainWork(HeadersOf(chain))
  {
    var hs := HeadersOf(chain + [b]);
    assert hs[..|chain|] == HeadersOf(chain);
    Pow2Positive(b.header.difficulty);
  }

  lemma LongerChainMoreWork(w: World, w1: World, b: Block)
    requires |w.chain| > 0 && w1.chain == w.chain + [b]
    ensures Work(w1) > Work(w)
  {
    hide ChainWork, HeadersOf, Pow2;
    WorkOfExtension(w.chain, b);
  }

  lemma ConnectAddsWork(c: Crypto, w: World, b: Block, now: int64, seen: int64)
    requires WorldOk(c, w)
    ensures var (w1, r) := ExecConnect(c, w, b, now, seen);
      if r.Committed? then Work(w1) > Work(w) else w1 == w
  {
    hide *;
    WorldHorizon(c, w);
    ConnectKeepsWorld(c, w, b, now, seen);
    var (w1, r) := ExecConnect(c, w, b, now, seen);
    if r.Committed? {
      LongerChainMoreWork(w, w1, b);
    }
  }

  /** Connecting, committing a mined block and replacing strictly increase the tip's work whenever they commit. */
  lemma CommitAddsWork(c: Crypto, w: World, op: Op)
    requires WorldOk(c, w) && Advances(op)
    ensures var (w1, r) := Exec(c, w, op);
      if r.Committed? then Work(w1) > Work(w) else w1 == w
  {
    hide WorldOk, ExecConnect, ExecReplace, Work, ExecAdd, ExecImport, ExecDisconnect, PrunedHorizon;
    match op {
      case ConnectBlock(b, now, seen) => ConnectAddsWork(c, w, b, now, seen);
      case CommitMinedBlock(b, height, hash, now, seen) => ConnectAddsWork(c, w, b, now, seen);
      case ReplaceFrom(ancestor, blocks, now, seen) =>
        ReplaceKeepsWorld(c, w, ancestor, blocks, now, seen);
        var outcome := ExecReplace(c, w, ancestor, blocks, now, seen).1;
        assert outcome.Committed? || outcome.Failed?;
    }
  }

  /** How many operations of a run moved the tip. */
  ghost function Commits(c: Crypto, w: World, ops: seq<Op>): nat
    requires WorldOk(c, w)
    decreases |ops|
  {
    if |ops| == 0 then 0
    else
      ExecKeepsWorld(c, w, ops[0]);
      var (w1, r) := Exec(c, w, ops[0]);
      Commits(c, w1, ops[1..]) + if r.Committed? && Advances(ops[0]) then 1 else 0
  }

  lemma GenesisWork()
    ensures ChainWork(HeadersOf([GenesisBlock()])) == 0
  {
  }

  lemma IdleKeepsWork(c: Crypto, w: World, op: Op)
    requires WorldOk(c, w) && !Advances(op) && !op.DisconnectTip?
    ensures Work(Exec(c, w, op).0) >= Work(w)
  {
    hide WorldOk, ExecAdd, ExecImport, ChainWork, PrunedHorizon;
    match op {
      case AddTransaction(tx, seen) => AddKeepsWorld(c, w, tx, seen);
      case PruneBodies(retain) =>
      case ImportState(state, pending, checked, clock, seen) =>
        ImportKeepsWorld(c, w, state, pending, checked, clock, seen);
        GenesisWork();
    }
  }

  /** Along any run in which nobody disconnects the tip by hand, work grows at least by one per commit. */
  lemma {:induction false} WorkGrows(c: Crypto, w: World, ops: seq<Op>)
    requires WorldOk(c, w) && (forall i | 0 <= i < |ops| :: !ops[i].DisconnectTip?)
    ensures Work(Run(c, w, ops)) >= Work(w) + Commits(c, w, ops)
    decreases |ops|
  {
    hide WorldOk, Exec, Work;
    if |ops| > 0 {
      ExecKeepsWorld(c, w, ops[0]);
      if Advances(ops[0]) {
        CommitAddsWork(c, w, ops[0]);
      } else {
        IdleKeepsWork(c, w, ops[0]);
      }
      WorkGrows(c, Exec(c, w, ops[0]).0, ops[1..]);
    }
  }

  // ---------------------------------------------------------------- finality

  /** Both chains have the same blocks up to and including `height`. */
  predicate SameThrough(a: seq<Block>, b: seq<Block>, height: nat) {
    height < |a| && height < |b| && a[..height + 1] == b[..height + 1]
  }

  /** One operation never moves the horizon back, and never touches a block at or below it. */
  lemma ExecKeepsHistory(c: Crypto, w: World, op: Op)
    requires WorldOk(c, w)
    ensures var w1 := Exec(c, w, op).0;
      w.horizon <= w1.horizon && SameThrough(w.chain, w1.chain, w.horizon)
  {
    hide WorldOk, ExecConnect, ExecReplace, ExecDisconnect, ExecAdd, ExecImport, Build, GenesisBlock;
    WorldHorizon(c, w);
    match op {
      case ConnectBlock(b, now, seen) => ConnectKeepsWorld(c, w, b, now, seen);
      case CommitMinedBlock(b, height, hash, now, seen) => ConnectKeepsWorld(c, w, b, now, seen);
      case ReplaceFrom(ancestor, blocks, now, seen) => ReplaceKeepsWorld(c, w, ancestor, blocks, now, seen);
      case DisconnectTip(seen) => DisconnectKeepsWorld(c, w, seen);
      case AddTransaction(tx, seen) => AddKeepsWorld(c, w, tx, seen);
      case PruneBodies(retain) => if retain > 0 { PruneKeepsWorld(c, w, retain); }
      case ImportState(state, pending, checked, clock, seen) =>
        ImportKeepsWorld(c, w, state, pending, checked, clock, seen);
    }
  }

  lemma SameAsItself(a: seq<Block>, height: nat)
    requires height < |a|
    ensures SameThrough(a, a, height)
  {
  }

  lemma SamePrefix(a: seq<Block>, b: seq<Block>, d: seq<Block>, low: nat, high: nat)
    requires SameThrough(a, b, low) && SameThrough(b, d, high) && low <= high
    ensures SameThrough(a, d, low)
  {
  }

  /** Over any run the horizon stays below the tip, never moves back, and what lies at or below it is final. */
  lemma {:induction false} HistoryIsFinal(c: Crypto, w: World, ops: seq<Op>)
    requires WorldOk(c, w)
    ensures w.horizon <= Run(c, w, ops).horizon < |Run(c, w, ops).chain|
    ensures SameThrough(w.chain, Run(c, w, ops).chain, w.horizon)
    decreases |ops|
  {
    hide WorldOk, Exec, SameThrough;
    WorldHorizon(c, w);
    if |ops| == 0 {
      SameAsItself(w.chain, w.horizon);
    } else {
      ExecKeepsHistory(c, w, ops[0]);
      ExecKeepsWorld(c, w, ops[0]);
      var w1 := Exec(c, w, ops[0]).0;
      HistoryIsFinal(c, w1, ops[1..]);
      SamePrefix(w.chain, w1.chain, Run(c, w, ops).chain, w.horizon, w1.horizon);
    }
  }

  /** Prune safety on every reachable world: above the horizon every body and undo record is there. */
  lemma NothingMissing(c: Crypto, w: World, height: nat)
    requires WorldOk(c, w) && w.horizon < height < |w.chain|
    ensures Retained(TablesOf(c, w), w.chain, height)
  {
    hide WorldOk, TablesOf, Build, Represents, Retained;
    WorldHorizon(c, w);
    TablesRepresent(c, w);
    RetainedAboveHorizon(c, TablesOf(c, w), w.chain, w.horizon, height);
  }

  /** The body of a block and its undo record are gone, and so are the bodies of its transactions. */
  predicate Dropped(t: Tables, height: nat) {
    && height < |t.blocks| && t.blocks[height].data.None? && height !in t.undo
    && (forall id | id in t.txs && t.txs[id].height == height :: t.txs[id].data.None?)
  }

  lemma DroppedByPrune(t: Tables, cutoff: nat, height: nat)
    requires 1 <= height <= cutoff && height < |t.blocks|
    ensures Dropped(Prune(t, cutoff), height)
  {
  }

  lemma BuiltRows(c: Crypto, chain: seq<Block>)
    requires Build(c, chain).Some?
    ensures |Build(c, chain).value.blocks| == |chain|
  {
    hide Build, ReplayChain, TablesOk;
    BuildAgreesWithReplay(c, chain);
    RowCount(Build(c, chain).value, chain);
  }

  /**
    Pruning to `retain` recent blocks drops exactly the bodies and undo records of the blocks from 1 to that many below
    the tip, or nothing that was not dropped before: the recent blocks can still be read and undone, and headers,
    coins and indexes stay.
   */
  lemma PruneKeepsRecent(c: Crypto, w: World, retain: nat)
    requires WorldOk(c, w) && retain > 0
    ensures var (w1, r) := Exec(c, w, PruneBodies(retain));
      && r.Committed? && w1 == w.(horizon := w1.horizon) && w1.horizon == Max(w.horizon, |w.chain| - 1 - retain)
      && WorldOk(c, w1)
      && (forall h: nat | w.horizon < h && |w.chain| - 1 - retain < h < |w.chain| :: Retained(TablesOf(c, w1), w.chain, h))
      && (forall h: nat | 1 <= h <= |w.chain| - 1 - retain :: Dropped(TablesOf(c, w1), h))
      && TablesOf(c, w1).coins == TablesOf(c, w).coins && TablesOf(c, w1).addresses == TablesOf(c, w).addresses
      && TablesOf(c, w1).txs.Keys == TablesOf(c, w).txs.Keys
      && HeaderRows(TablesOf(c, w1).blocks) == HeaderRows(TablesOf(c, w).blocks)
  {
    hide WorldOk, Build, Retained, Dropped;
    WorldHorizon(c, w);
    PruneKeepsWorld(c, w, retain);
    BuiltRows(c, w.chain);
    var w1 := w.(horizon := PrunedHorizon(w, retain));
    forall h: nat | w.horizon < h && |w.chain| - 1 - retain < h < |w.chain|
      ensures Retained(TablesOf(c, w1), w.chain, h) {
      NothingMissing(c, w1, h);
    }
    forall h: nat | 1 <= h <= |w.chain| - 1 - retain ensures Dropped(TablesOf(c, w1), h) {
      DroppedByPrune(Build(c, w.chain).value, w1.horizon, h);
    }
  }

  // ---------------------------------------------------------------- pruning commutes

  /** An operation other than pruning does the same at a lower horizon, unless it is refused for the horizon. */
  lemma SameAtLowerHorizon(c: Crypto, w: World, lower: nat, op: Op)
    requires WorldOk(c, w) && lower <= w.horizon && !op.PruneBodies?
    ensures WorldOk(c, w.(horizon := lower))
    ensures var (a, r) := Exec(c, w, op);
      var (b, s) := Exec(c, w.(horizon := lower), op);
      r != Failed(BeyondPrune) ==> s == r && b == a.(horizon := lower)
  {
    hide Build, PoolOk, ConfirmedAt, Rebuild, Admit, Repopulate, ChainWork, AllOnTime, OnTime, ReplayChain,
      OrphanedBy, Regular, GenesisBlock;
  }

  /** A run in which nothing is refused because its blocks were pruned. */
  ghost predicate NeverBeyondPrune(c: Crypto, w: World, ops: seq<Op>)
    requires WorldOk(c, w)
    decreases |ops|
  {
    |ops| > 0 ==>
      Exec(c, w, ops[0]).1 != Failed(BeyondPrune)
      && (ExecKeepsWorld(c, w, ops[0]); NeverBeyondPrune(c, Exec(c, w, ops[0]).0, ops[1..]))
  }

  function WithoutPruning(ops: seq<Op>): seq<Op> {
    if |ops| == 0 then []
    else if ops[0].PruneBodies? then WithoutPruning(ops[1..])
    else [ops[0]] + WithoutPruning(ops[1..])
  }

  lemma FirstStep(c: Crypto, w: World, op: Op, ops: seq<Op>)
    requires WorldOk(c, w)
    ensures WorldOk(c, Exec(c, w, op).0) && Run(c, w, [op] + ops) == Run(c, Exec(c, w, op).0, ops)
  {
    hide WorldOk, Exec;
    ExecKeepsWorld(c, w, op);
    assert ([op] + ops)[1..] == ops;
  }

  lemma PruneStep(c: Crypto, w: World, op: Op)
    requires WorldOk(c, w) && op.PruneBodies?
    ensures var w1 := Exec(c, w, op).0; w1 == w.(horizon := w1.horizon)
  {
    hide WorldOk, PrunedHorizon;
  }

  lemma LowerIsOk(c: Crypto, w: World, lower: nat)
    requires WorldOk(c, w) && lower <= w.horizon
    ensures WorldOk(c, w.(horizon := lower))
  {
    hide Build, PoolOk, ConfirmedAt;
  }

  /**
    Pruning is invisible: a ledger that prunes as it goes ends every run with the same chain and the same mempool as a
    ledger that never prunes, as long as no operation reaches below its horizon and is refused for that.
   */
  lemma {:induction false} PruningIsInvisible(c: Crypto, w: World, lower: nat, ops: seq<Op>)
    requires WorldOk(c, w) && lower <= w.horizon && NeverBeyondPrune(c, w, ops)
    ensures WorldOk(c, w.(horizon := lower))
    ensures Run(c, w.(horizon := lower), WithoutPruning(ops)) == Run(c, w, ops).(horizon := lower)
    decreases |ops|
  {
    hide WorldOk, Exec, SameThrough;
    LowerIsOk(c, w, lower);
    if |ops| > 0 {
      var w1 := Exec(c, w, ops[0]).0;
      ExecKeepsWorld(c, w, ops[0]);
      ExecKeepsHistory(c, w, ops[0]);
      PruningIsInvisible(c, w1, lower, ops[1..]);
      if ops[0].PruneBodies? {
        PruneStep(c, w, ops[0]);
      } else {
        SameAtLowerHorizon(c, w, lower, ops[0]);
        FirstStep(c, w.(horizon := lower), ops[0], WithoutPruning(ops[1..]));
      }
    }
  }

  // ---------------------------------------------------------------- import

  /** A chain checked at one clock is still on time at a later one. */
  lemma LaterIsOnTime(blocks: seq<Block>, early: nat -> int64, late: nat -> int64)
    requires OnTime(blocks, early) && (forall i | 0 < i < |blocks| :: early(i) <= late(i))
    ensures OnTime(blocks, late)
  {
  }

  /**
    Where replay and the incremental ledger meet: a fresh ledger imports a legacy state exactly when the state
    replays, its pending list is within the limit and heights are not exhausted, given a clock that does not go back.
   */
  lemma ImportIsComplete(c: Crypto, w: World, state: seq<Block>, pending: seq<Transaction>, checked: nat -> int64,
                         clock: nat -> int64, seen: int64)
    requires WorldOk(c, w) && w.chain == [GenesisBlock()]
    requires forall i | 0 < i < |state| :: checked(i) <= clock(i)
    ensures var (w1, r) := Exec(c, w, ImportState(state, pending, checked, clock, seen));
      && (r.Committed? <==>
            ReplayChain(c, state).Some? && OnTime(state, checked) && |pending| <= MAX_PENDING_TRANSACTIONS && |state| <= MAX_INT64)
      && (r.Committed? ==> w1.chain == state)
  {
    hide Build, PoolOk, ConfirmedAt, ConfirmedOk, Repopulate, OnTime, ReplayChain, GenesisBlock;
    BuildAgreesWithReplay(c, state);
    if OnTime(state, checked) {
      LaterIsOnTime(state, checked, clock);
    }
    if Build(c, state).Some? {
      ConfirmedIsSound(c, state);
      PoolContinues(c, ConfirmedAt(c, w.chain), w.pool);
      EmptyPoolOk(c, ConfirmedAt(c, state), w.pool.nextSequence);
      RepopulateKeepsPool(c, ConfirmedAt(c, state), EmptyPool(w.pool.nextSequence), Fresh(pending, seen));
    }
  }

  // ---------------------------------------------------------------- every reachable chain replays

  /** No clock an operation reads is past `now`. */
  ghost predicate ClocksUntil(op: Op, now: int64) {
    match op
    case ConnectBlock(_, clock, _) => clock <= now
    case CommitMinedBlock(_, _, _, clock, _) => clock <= now
    case ReplaceFrom(_, _, clock, _) => clock <= now
    case ImportState(_, _, checked, clock, _) => forall i :: checked(i) <= now && clock(i) <= now
    case _ => true
  }

  ghost predicate OnTimeBy(chain: seq<Block>, now: int64) {
    OnTime(chain, _ => now)
  }

  lemma ExtendOnTime(chain: seq<Block>, blocks: seq<Block>, clock: int64, now: int64)
    requires OnTimeBy(chain, now) && AllOnTime(blocks, clock) && clock <= now
    ensures OnTimeBy(chain + blocks, now)
  {
  }

  lemma PrefixOnTime(chain: seq<Block>, n: nat, now: int64)
    requires OnTimeBy(chain, now) && n <= |chain|
    ensures OnTimeBy(chain[..n], now)
  {
  }

  lemma ConnectOnTime(c: Crypto, w: World, b: Block, clock: int64, seen: int64, now: int64)
    requires WorldOk(c, w) && OnTimeBy(w.chain, now) && clock <= now
    ensures OnTimeBy(ExecConnect(c, w, b, clock, seen).0.chain, now)
  {
    hide WorldOk, Install, Build, OnTimeBy;
    ConnectKeepsWorld(c, w, b, clock, seen);
    if NotTooFarAhead(b.header.timestamp, clock) {
      ExtendOnTime(w.chain, [b], clock, now);
    }
  }

  lemma ReplaceOnTime(c: Crypto, w: World, ancestor: nat, blocks: seq<Block>, clock: int64, seen: int64, now: int64)
    requires WorldOk(c, w) && OnTimeBy(w.chain, now) && clock <= now
    ensures OnTimeBy(ExecReplace(c, w, ancestor, blocks, clock, seen).0.chain, now)
  {
    hide WorldOk, Install, Build, OnTimeBy, OrphanedBy, Work, AllOnTime;
    ReplaceKeepsWorld(c, w, ancestor, blocks, clock, seen);
    if ancestor < |w.chain| && AllOnTime(blocks, clock) {
      PrefixOnTime(w.chain, ancestor + 1, now);
      ExtendOnTime(w.chain[..ancestor + 1], blocks, clock, now);
    }
  }

  lemma DisconnectOnTime(c: Crypto, w: World, seen: int64, now: int64)
    requires WorldOk(c, w) && OnTimeBy(w.chain, now)
    ensures OnTimeBy(ExecDisconnect(c, w, seen).0.chain, now)
  {
    hide *;
    DisconnectKeepsWorld(c, w, seen);
    WorldHorizon(c, w);
    PrefixOnTime(w.chain, |w.chain| - 1, now);
    var (w1, r) := ExecDisconnect(c, w, seen);
    assert r.Committed? || r.Failed?;
  }

  lemma ImportOnTime(c: Crypto, w: World, op: Op, now: int64)
    requires WorldOk(c, w) && OnTimeBy(w.chain, now) && op.ImportState? && ClocksUntil(op, now)
    ensures OnTimeBy(ExecImport(c, w, op.state, op.pending, op.checked, op.clock, op.seen).0.chain, now)
  {
    hide WorldOk, Build, OnTime, ReplayChain, Repopulate, ConfirmedAt;
    ImportKeepsWorld(c, w, op.state, op.pending, op.checked, op.clock, op.seen);
    if OnTime(op.state, op.clock) {
      LaterIsOnTime(op.state, op.clock, _ => now);
    }
  }

  lemma ExecOnTime(c: Crypto, w: World, op: Op, now: int64)
    requires WorldOk(c, w) && OnTimeBy(w.chain, now) && ClocksUntil(op, now)
    ensures OnTimeBy(Exec(c, w, op).0.chain, now)
  {
    hide WorldOk, OnTimeBy, ExecConnect, ExecReplace, ExecDisconnect, ExecAdd, ExecImport, PrunedHorizon, Build;
    match op {
      case ConnectBlock(b, clock, seen) => ConnectOnTime(c, w, b, clock, seen, now);
      case CommitMinedBlock(b, height, hash, clock, seen) => ConnectOnTime(c, w, b, clock, seen, now);
      case ReplaceFrom(ancestor, blocks, clock, seen) => ReplaceOnTime(c, w, ancestor, blocks, clock, seen, now);
      case DisconnectTip(seen) => DisconnectOnTime(c, w, seen, now);
      case AddTransaction(tx, seen) => AddKeepsWorld(c, w, tx, seen);
      case PruneBodies(retain) =>
      case ImportState(_, _, _, _, _) => ImportOnTime(c, w, op, now);
    }
  }

  lemma {:induction false} RunOnTime(c: Crypto, w: World, ops: seq<Op>, now: int64)
    requires WorldOk(c, w) && OnTimeBy(w.chain, now) && (forall i | 0 <= i < |ops| :: ClocksUntil(ops[i], now))
    ensures OnTimeBy(Run(c, w, ops).chain, now)
    decreases |ops|
  {
    hide WorldOk, Exec, OnTimeBy, ClocksUntil;
    if |ops| > 0 {
      ExecKeepsWorld(c, w, ops[0]);
      ExecOnTime(c, w, ops[0], now);
      RunOnTime(c, Exec(c, w, ops[0]).0, ops[1..], now);
    }
  }

  /** The full replay accepts this chain at this clock, with the coins, origins and identifiers of the tables. */
  ghost predicate ReplaysAt(c: Crypto, chain: seq<Block>, now: int64) {
    && Build(c, chain).Some? && ReplayChain(c, chain) == Some(TablesView(Build(c, chain).value))
    && OnTime(chain, _ => now)
  }

  /**
    The other half of the agreement, over runs: whatever chain the ledger has reached by connecting, mining, replacing,
    disconnecting, pruning and importing, the full replay accepts it at any clock that has not gone back since.
   */
  lemma ReachableReplays(c: Crypto, ops: seq<Op>, now: int64)
    requires forall i | 0 <= i < |ops| :: ClocksUntil(ops[i], now)
    ensures WorldOk(c, GenesisWorld()) && ReplaysAt(c, Run(c, GenesisWorld(), ops).chain, now)
  {
    hide WorldOk, Run, Build, ReplayChain, ClocksUntil;
    GenesisWorldOk(c);
    RunKeepsWorld(c, GenesisWorld(), ops);
    RunOnTime(c, GenesisWorld(), ops, now);
    var w := Run(c, GenesisWorld(), ops);
    WorldHorizon(c, w);
    BuildAgreesWithReplay(c, w.chain);
  }
}
