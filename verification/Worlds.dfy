/**
  The ledger as a state machine over whole chains. A world is a chain, a prune horizon and a mempool; the tables
  are those built from the chain. Operations follow internal/ledger: apply.go, reorg.go, mempool.go, mining.go,
  prune.go and import.go.
 */
module Worlds {
  import opened Common
  import opened Encoding
  import opened Transactions
  import opened Headers
  import opened Merkle
  import opened Replay
  import opened Tables
  import opened ChainTables
  import opened Horizon
  import opened Mempool
  import opened MempoolRules
  import opened ChainState
  import opened Collectors

  const MAX_ORPHANED_BYTES: int := 0x400_0000

  datatype World = World(chain: seq<Block>, horizon: nat, pool: Pool)

  datatype Error = StaleTip | InsufficientWork | BeyondPrune | GenesisTip | AlreadyKnownTransaction | Invalid

  datatype Outcome = Committed | Failed(error: Error)

  /** `now` is the clock headers are checked against, `seen` the clock a rebuild stamps on what it brings back. */
  datatype Op =
    | ConnectBlock(block: Block, now: int64, seen: int64)
    | CommitMinedBlock(block: Block, tipHeight: nat, tipHash: Text, now: int64, seen: int64)
    | ReplaceFrom(ancestor: nat, blocks: seq<Block>, now: int64, seen: int64)
    | DisconnectTip(seen: int64)
    | AddTransaction(tx: Transaction, seen: int64)
    | PruneBodies(retain: nat)
    | ImportState(state: seq<Block>, pending: seq<Transaction>, checked: nat -> int64, clock: nat -> int64, seen: int64)

  ghost function ConfirmedAt(c: Crypto, chain: seq<Block>): Confirmed
    requires Build(c, chain).Some?
  {
    ConfirmedOf(Build(c, chain).value)
  }

  ghost function TablesOf(c: Crypto, w: World): Tables
    requires Build(c, w.chain).Some?
  {
    Prune(Build(c, w.chain).value, w.horizon)
  }

  ghost predicate WorldOk(c: Crypto, w: World) {
    && Build(c, w.chain).Some? && w.horizon < |w.chain|
    && PoolOk(c, ConfirmedAt(c, w.chain), w.pool)
  }

  function GenesisWorld(): World {
    World([GenesisBlock()], 0, EmptyPool(1))
  }

  function Work(w: World): nat {
    ChainWork(HeadersOf(w.chain))
  }

  /** Nothing in the list is dated too far ahead of one clock reading. */
  predicate AllOnTime(blocks: seq<Block>, now: int64) {
    forall i | 0 <= i < |blocks| :: NotTooFarAhead(blocks[i].header.timestamp, now)
  }

  /** The transactions of a body that are not coinbases. */
  function Regular(txs: seq<Transaction>): seq<Transaction> {
    if |txs| == 0 then []
    else Regular(txs[..|txs| - 1]) + if txs[|txs| - 1].coinbase then [] else [txs[|txs| - 1]]
  }

  /** The regular transactions of a stretch of blocks, oldest first. */
  function Orphans(blocks: seq<Block>): seq<Transaction> {
    if |blocks| == 0 then [] else Orphans(blocks[..|blocks| - 1]) + Regular(blocks[|blocks| - 1].txs)
  }

  /** A new chain with the mempool rebuilt on it, unless heights are exhausted. */
  ghost function Install(c: Crypto, w: World, chain: seq<Block>, orphaned: seq<Transaction>, seen: int64): (World, Outcome)
    requires Build(c, chain).Some?
  {
    if |chain| > MAX_INT64 then (w, Failed(Invalid))
    else match Rebuild(c, ConfirmedAt(c, chain), w.pool, orphaned, seen)
         case None => (w, Failed(Invalid))
         case Some(pool) => (World(chain, w.horizon, pool), Committed)
  }

  ghost function ExecConnect(c: Crypto, w: World, b: Block, now: int64, seen: int64): (World, Outcome) {
    if NotTooFarAhead(b.header.timestamp, now) && Build(c, w.chain + [b]).Some?
    then Install(c, w, w.chain + [b], [], seen) else (w, Failed(Invalid))
  }

  /** The chain a replacement would leave, and the transactions it would orphan. */
  function Replaced(chain: seq<Block>, ancestor: nat, blocks: seq<Block>): seq<Block>
    requires ancestor < |chain|
  {
    chain[..ancestor + 1] + blocks
  }

  function OrphanedBy(chain: seq<Block>, ancestor: nat): seq<Transaction>
    requires ancestor < |chain|
  {
    Kept(Orphans(chain[ancestor + 1..]), MAX_PENDING_TRANSACTIONS, MAX_ORPHANED_BYTES)
  }

  ghost function ExecReplace(c: Crypto, w: World, ancestor: nat, blocks: seq<Block>, now: int64, seen: int64): (World, Outcome) {
    if |blocks| == 0 then (w, Failed(InsufficientWork))
    else if ancestor >= |w.chain| then (w, Failed(Invalid))
    else if ancestor < w.horizon then (w, Failed(BeyondPrune))
    else
      var chain := Replaced(w.chain, ancestor, blocks);
      if !AllOnTime(blocks, now) || Build(c, chain).None? then (w, Failed(Invalid))
      else if ChainWork(HeadersOf(chain)) <= Work(w) then (w, Failed(InsufficientWork))
      else Install(c, w, chain, OrphanedBy(w.chain, ancestor), seen)
  }

  ghost function ExecDisconnect(c: Crypto, w: World, seen: int64): (World, Outcome)
    requires WorldOk(c, w)
  {
    var height := |w.chain| - 1;
    if height == 0 then (w, Failed(GenesisTip))
    else if height <= w.horizon then (w, Failed(BeyondPrune))
    else
      DisconnectIsBuildPrefix(c, w.chain);
      Install(c, w, w.chain[..height], Regular(w.chain[height].txs), seen)
  }

  ghost function ExecAdd(c: Crypto, w: World, tx: Transaction, seen: int64): (World, Outcome)
    requires WorldOk(c, w)
  {
    if |w.chain| > MAX_INT64 then (w, Failed(Invalid))
    else match Admit(c, ConfirmedAt(c, w.chain), w.pool, Pending(tx, seen))
         case Admitted(pool) => (w.(pool := pool), Committed)
         case Refused(AlreadyKnown) => (w, Failed(AlreadyKnownTransaction))
         case Refused(Rejected) => (w, Failed(Invalid))
         case Faulted => (w, Failed(Invalid))
  }

  /** The horizon after pruning to `retain` recent blocks: it never moves back. */
  function PrunedHorizon(w: World, retain: nat): nat {
    var height := |w.chain| - 1;
    if height <= retain || height - retain <= w.horizon then w.horizon else height - retain
  }

  ghost function ExecImport(c: Crypto, w: World, state: seq<Block>, pending: seq<Transaction>, checked: nat -> int64,
                            clock: nat -> int64, seen: int64): (World, Outcome)
  {
    if ReplayChain(c, state).None? || !OnTime(state, checked) || |pending| > MAX_PENDING_TRANSACTIONS then (w, Failed(Invalid))
    else if w.chain != [GenesisBlock()] || !OnTime(state, clock) || Build(c, state).None? || |state| > MAX_INT64
    then (w, Failed(Invalid))
    else match Repopulate(c, ConfirmedAt(c, state), EmptyPool(w.pool.nextSequence), Fresh(pending, seen))
         case None => (w, Failed(Invalid))
         case Some(pool) => (World(state, w.horizon, pool), Committed)
  }

  ghost function Exec(c: Crypto, w: World, op: Op): (World, Outcome)
    requires WorldOk(c, w)
  {
    match op
    case ConnectBlock(b, now, seen) => ExecConnect(c, w, b, now, seen)
    case CommitMinedBlock(b, height, hash, now, seen) =>
      if height != |w.chain| - 1 || hash != w.chain[|w.chain| - 1].header.hash then (w, Failed(StaleTip))
      else ExecConnect(c, w, b, now, seen)
    case ReplaceFrom(ancestor, blocks, now, seen) => ExecReplace(c, w, ancestor, blocks, now, seen)
    case DisconnectTip(seen) => ExecDisconnect(c, w, seen)
    case AddTransaction(tx, seen) => ExecAdd(c, w, tx, seen)
    case PruneBodies(retain) =>
      if retain == 0 then (w, Failed(Invalid)) else (w.(horizon := PrunedHorizon(w, retain)), Committed)
    case ImportState(state, pending, checked, clock, seen) => ExecImport(c, w, state, pending, checked, clock, seen)
  }

  // ---------------------------------------------------------------- one operation

  lemma NotEmpty(c: Crypto, chain: seq<Block>)
    requires Build(c, chain).Some?
    ensures |chain| > 0
  {
  }

  lemma ConfirmedIsSound(c: Crypto, chain: seq<Block>)
    requires Build(c, chain).Some?
    ensures |chain| > 0 && ConfirmedOk(c, ConfirmedAt(c, chain)) && ConfirmedAt(c, chain).height == |chain|
  {
    hide Build, ConfirmedOk;
    PruneNothing(Build(c, chain).value, chain);
    NotEmpty(c, chain);
    RepresentedConfirmed(c, Build(c, chain).value, chain, 0);
  }

  /** The confirmed side does not depend on the horizon. */
  lemma ConfirmedIgnoresHorizon(c: Crypto, w: World)
    requires Build(c, w.chain).Some?
    ensures ConfirmedOf(TablesOf(c, w)) == ConfirmedAt(c, w.chain)
  {
    hide Build;
    PruneKeepsCoins(Build(c, w.chain).value, w.horizon, 0);
  }

  lemma TablesRepresent(c: Crypto, w: World)
    requires Build(c, w.chain).Some? && w.horizon < |w.chain|
    ensures Represents(c, TablesOf(c, w), w.chain, w.horizon)
  {
    hide Build, Prune;
  }

  lemma PoolContinues(c: Crypto, k: Confirmed, pool: Pool)
    requires PoolOk(c, k, pool)
    ensures pool.nextSequence > 0
  {
  }

  lemma InstallKeepsWorld(c: Crypto, w: World, chain: seq<Block>, orphaned: seq<Transaction>, seen: int64)
    requires WorldOk(c, w) && Build(c, chain).Some? && w.horizon < |chain|
    ensures WorldOk(c, Install(c, w, chain, orphaned, seen).0)
    ensures Install(c, w, chain, orphaned, seen).1.Committed? <==> |chain| <= MAX_INT64
    ensures Install(c, w, chain, orphaned, seen).1.Committed? ==>
      Install(c, w, chain, orphaned, seen).0.chain == chain && Install(c, w, chain, orphaned, seen).0.horizon == w.horizon
  {
    hide Build, PoolOk, ConfirmedAt, ConfirmedOk, Rebuild;
    ConfirmedIsSound(c, chain);
    PoolContinues(c, ConfirmedAt(c, w.chain), w.pool);
    RebuildIsSound(c, ConfirmedAt(c, chain), w.pool, orphaned, seen);
  }

  lemma InstallFails(c: Crypto, w: World, chain: seq<Block>, orphaned: seq<Transaction>, seen: int64)
    requires Build(c, chain).Some?
    ensures Install(c, w, chain, orphaned, seen).1.Failed? ==> Install(c, w, chain, orphaned, seen).0 == w
  {
    hide Build, Rebuild, ConfirmedAt;
  }

  lemma WorldHorizon(c: Crypto, w: World)
    requires WorldOk(c, w)
    ensures Build(c, w.chain).Some? && w.horizon < |w.chain|
  {
    hide Build, PoolOk, ConfirmedAt;
  }

  lemma ConnectKeepsWorld(c: Crypto, w: World, b: Block, now: int64, seen: int64)
    requires WorldOk(c, w)
    ensures var (w1, r) := ExecConnect(c, w, b, now, seen);
      WorldOk(c, w1) && w1.horizon == w.horizon && (r.Failed? ==> w1 == w) && (r.Committed? ==> w1.chain == w.chain + [b])
  {
    hide WorldOk, Install, Build;
    WorldHorizon(c, w);
    if Build(c, w.chain + [b]).Some? {
      InstallKeepsWorld(c, w, w.chain + [b], [], seen);
      InstallFails(c, w, w.chain + [b], [], seen);
    }
  }

  lemma ReplaceKeepsWorld(c: Crypto, w: World, ancestor: nat, blocks: seq<Block>, now: int64, seen: int64)
    requires WorldOk(c, w)
    ensures var (w1, r) := ExecReplace(c, w, ancestor, blocks, now, seen);
      && WorldOk(c, w1) && w1.horizon == w.horizon && (r.Failed? ==> w1 == w)
      && (r.Committed? ==>
            && w.horizon <= ancestor < |w.chain| && w1.chain == w.chain[..ancestor + 1] + blocks
            && Work(w1) > Work(w))
  {
    hide WorldOk, Install, Build, ChainWork, AllOnTime, OrphanedBy;
    WorldHorizon(c, w);
    if ancestor < |w.chain| && Build(c, Replaced(w.chain, ancestor, blocks)).Some? && w.horizon <= ancestor {
      InstallKeepsWorld(c, w, Replaced(w.chain, ancestor, blocks), OrphanedBy(w.chain, ancestor), seen);
      InstallFails(c, w, Replaced(w.chain, ancestor, blocks), OrphanedBy(w.chain, ancestor), seen);
    }
  }

  lemma BuiltLength(c: Crypto, chain: seq<Block>)
    requires Build(c, chain).Some?
    ensures |chain| <= MAX_INT64 + 1
  {
    hide Build, ReplayChain;
    BuildAgreesWithReplay(c, chain);
  }

  lemma DisconnectKeepsWorld(c: Crypto, w: World, seen: int64)
    requires WorldOk(c, w)
    ensures var (w1, r) := ExecDisconnect(c, w, seen);
      && WorldOk(c, w1) && w1.horizon == w.horizon && (r.Failed? ==> w1 == w)
      && (r.Committed? <==> w.horizon < |w.chain| - 1)
      && (r.Committed? ==> w1.chain == w.chain[..|w.chain| - 1])
  {
    hide WorldOk, Install, Build, Regular;
    WorldHorizon(c, w);
    if |w.chain| - 1 > w.horizon {
      DisconnectIsBuildPrefix(c, w.chain);
      var chain, orphaned := w.chain[..|w.chain| - 1], Regular(w.chain[|w.chain| - 1].txs);
      InstallKeepsWorld(c, w, chain, orphaned, seen);
      InstallFails(c, w, chain, orphaned, seen);
      BuiltLength(c, w.chain);
    }
  }

  lemma AddKeepsWorld(c: Crypto, w: World, tx: Transaction, seen: int64)
    requires WorldOk(c, w)
    ensures var (w1, r) := ExecAdd(c, w, tx, seen);
      WorldOk(c, w1) && w1.horizon == w.horizon && w1.chain == w.chain && (r.Failed? ==> w1 == w)
  {
    hide Build, PoolOk, ConfirmedAt, ConfirmedOk, Admit;
    ConfirmedIsSound(c, w.chain);
    AdmitKeepsPool(c, ConfirmedAt(c, w.chain), w.pool, Pending(tx, seen));
  }

  lemma ImportKeepsWorld(c: Crypto, w: World, state: seq<Block>, pending: seq<Transaction>, checked: nat -> int64,
                         clock: nat -> int64, seen: int64)
    requires WorldOk(c, w)
    ensures var (w1, r) := ExecImport(c, w, state, pending, checked, clock, seen);
      && WorldOk(c, w1) && w1.horizon == w.horizon && (r.Failed? ==> w1 == w)
      && (r.Committed? ==> w.chain == [GenesisBlock()] && w1.chain == state && |state| > 0 && state[0] == GenesisBlock())
  {
    hide PoolOk, ConfirmedAt, ConfirmedOk, Repopulate, OnTime, Connects, Connect, Genesis, GenesisBlock, ReplayChain;
    PoolContinues(c, ConfirmedAt(c, w.chain), w.pool);
    if Build(c, state).Some? {
      ConfirmedIsSound(c, state);
      EmptyPoolOk(c, ConfirmedAt(c, state), w.pool.nextSequence);
      RepopulateKeepsPool(c, ConfirmedAt(c, state), EmptyPool(w.pool.nextSequence), Fresh(pending, seen));
    }
  }

  lemma PruneKeepsWorld(c: Crypto, w: World, retain: nat)
    requires WorldOk(c, w) && retain > 0
    ensures WorldOk(c, w.(horizon := PrunedHorizon(w, retain))) && w.horizon <= PrunedHorizon(w, retain) < |w.chain|
  {
    hide Build, PoolOk, ConfirmedAt;
  }

  /** Whatever is asked of the ledger, a sound world stays sound, and a failure changes nothing at all. */
  lemma ExecKeepsWorld(c: Crypto, w: World, op: Op)
    requires WorldOk(c, w)
    ensures WorldOk(c, Exec(c, w, op).0)
    ensures Exec(c, w, op).1.Failed? ==> Exec(c, w, op).0 == w
  {
    hide WorldOk, ExecConnect, ExecReplace, ExecDisconnect, ExecAdd, ExecImport, PrunedHorizon, Build, Work, Replaced;
    match op {
      case ConnectBlock(b, now, seen) => ConnectKeepsWorld(c, w, b, now, seen);
      case CommitMinedBlock(b, height, hash, now, seen) => WorldHorizon(c, w); ConnectKeepsWorld(c, w, b, now, seen);
      case ReplaceFrom(ancestor, blocks, now, seen) => ReplaceKeepsWorld(c, w, ancestor, blocks, now, seen);
      case DisconnectTip(seen) => DisconnectKeepsWorld(c, w, seen);
      case AddTransaction(tx, seen) => AddKeepsWorld(c, w, tx, seen);
      case PruneBodies(retain) => if retain > 0 { PruneKeepsWorld(c, w, retain); }
      case ImportState(state, pending, checked, clock, seen) =>
        ImportKeepsWorld(c, w, state, pending, checked, clock, seen);
    }
  }
}
