/**
  internal/ledger/mempool.go: admission of pending transactions, the rules every stored pending transaction
  obeys, and the rebuild after the tip moves.
 */
module Mempool {
  import opened Common
  import opened Encoding
  import opened Transactions
  import opened Totals
  import opened Replay
  import opened Tables
  import opened Undo

  const MAX_MEMPOOL_BYTES: int := 0x200_0000
  const MAX_MEMPOOL_INPUTS: int := 20_000
  const MINIMUM_RELAY_FEE_PER_KIBIBYTE: int := 1_000

  /** A row of mempool. */
  datatype PoolRow = PoolRow(sequence: nat, firstSeen: int64, fee: uint64, size: nat, tx: Transaction)

  /** The mempool tables. Rows are in sequence order, and a sequence number is never given twice. */
  datatype Pool = Pool(rows: seq<PoolRow>, inputs: map<Outpoint, Text>, outputs: Utxo, nextSequence: nat)

  function EmptyPool(nextSequence: nat): Pool {
    Pool([], map[], map[], nextSequence)
  }

  /** The confirmed side a pending transaction is checked against: coins, confirmed identifiers, spending height. */
  datatype Confirmed = Confirmed(coins: Coins, ids: set<Text>, height: nat)

  /** What the tables say to a transaction that would enter the next block. */
  function ConfirmedOf(t: Tables): Confirmed {
    Confirmed(t.coins, t.txs.Keys, |t.blocks|)
  }

  datatype Pending = Pending(tx: Transaction, firstSeen: int64)

  function MinimumRelayFee(size: int): nat {
    if size <= 0 then 0 else (size + 1023) / 1024 * MINIMUM_RELAY_FEE_PER_KIBIBYTE
  }

  // ---------------------------------------------------------------- resource usage

  datatype Usage = Usage(count: nat, bytes: nat, inputs: nat)

  function UsageOf(rows: seq<PoolRow>): Usage {
    if |rows| == 0 then Usage(0, 0, 0)
    else
      var before := UsageOf(rows[..|rows| - 1]);
      var row := rows[|rows| - 1];
      Usage(before.count + 1, before.bytes + row.size, before.inputs + |row.tx.inputs|)
  }

  predicate WithinBudget(usage: Usage, size: nat, inputs: nat) {
    && size > 0 && inputs > 0
    && usage.count < MAX_PENDING_TRANSACTIONS
    && size <= MAX_MEMPOOL_BYTES - usage.bytes
    && inputs <= MAX_MEMPOOL_INPUTS - usage.inputs
  }

  // ---------------------------------------------------------------- what the rows say

  function PoolIds(rows: seq<PoolRow>): set<Text> {
    set i | 0 <= i < |rows| :: rows[i].tx.id
  }

  function InputRows(tx: Transaction): (r: map<Outpoint, Text>)
    ensures r.Keys == Spent(tx.inputs)
  {
    map o | o in Spent(tx.inputs) :: tx.id
  }

  function PoolInputs(rows: seq<PoolRow>): map<Outpoint, Text> {
    if |rows| == 0 then map[] else PoolInputs(rows[..|rows| - 1]) + InputRows(rows[|rows| - 1].tx)
  }

  function PoolOutputs(rows: seq<PoolRow>): Utxo {
    if |rows| == 0 then map[] else PoolOutputs(rows[..|rows| - 1]) + OutputsOf(rows[|rows| - 1].tx)
  }

  ghost function PoolFees(rows: seq<PoolRow>): nat {
    if |rows| == 0 then 0 else PoolFees(rows[..|rows| - 1]) + rows[|rows| - 1].fee
  }

  /** Unspent confirmed and unspent pending outputs, maturity apart. */
  function PoolView(coins: Coins, rows: seq<PoolRow>): Utxo {
    Outputs(coins) + PoolOutputs(rows) - PoolInputs(rows).Keys
  }

  // ---------------------------------------------------------------- lookup

  datatype Lookup = Found(output: TxOutput) | Unavailable | Corrupt

  /** lookupMempoolSpendable: what an outpoint is worth to a new pending transaction. */
  function LookupSpendable(k: Confirmed, pool: Pool, o: Outpoint): Lookup {
    if o in pool.inputs then Unavailable
    else if o in k.coins then
      if k.coins[o].output.amount == 0 then Corrupt
      else if k.coins[o].coinbase && !IsCoinbaseMature(k.coins[o].createdHeight, k.height) then Unavailable
      else Found(k.coins[o].output)
    else if o in pool.outputs then
      if pool.outputs[o].amount == 0 then Corrupt else Found(pool.outputs[o])
    else Unavailable
  }

  predicate InputsFound(k: Confirmed, pool: Pool, inputs: seq<TxInput>) {
    forall i | 0 <= i < |inputs| :: LookupSpendable(k, pool, Spends(inputs[i])).Found?
  }

  function FoundView(k: Confirmed, pool: Pool, inputs: seq<TxInput>): Utxo
    requires InputsFound(k, pool, inputs)
  {
    map o | o in Spent(inputs) && LookupSpendable(k, pool, o).Found? :: LookupSpendable(k, pool, o).output
  }

  // ---------------------------------------------------------------- admission

  datatype Refusal = AlreadyKnown | Rejected

  datatype Admission = Admitted(pool: Pool) | Refused(reason: Refusal) | Faulted

  /** The first input whose lookup fails decides between a rejection and a storage fault. */
  function LookupFailure(k: Confirmed, pool: Pool, inputs: seq<TxInput>): Admission
    requires !InputsFound(k, pool, inputs)
    decreases |inputs|
  {
    match LookupSpendable(k, pool, Spends(inputs[0]))
    case Unavailable => Refused(Rejected)
    case Corrupt => Faulted
    case Found(_) => LookupFailure(k, pool, inputs[1..])
  }

  predicate PoolKeysFree(pool: Pool, tx: Transaction) {
    && tx.id !in PoolIds(pool.rows)
    && Spent(tx.inputs) !! pool.inputs.Keys
    && Created(tx) !! pool.outputs.Keys
  }

  function Append(pool: Pool, tx: Transaction, firstSeen: int64, fee: uint64): Pool {
    Pool(pool.rows + [PoolRow(pool.nextSequence, firstSeen, fee, EncodedSize(tx), tx)],
         pool.inputs + InputRows(tx), pool.outputs + OutputsOf(tx), pool.nextSequence + 1)
  }

  /** addMempoolTransactionWithUsage. */
  ghost function Admit(c: Crypto, k: Confirmed, pool: Pool, item: Pending): Admission {
    var tx := item.tx;
    if tx.coinbase then Refused(Rejected)
    else if tx.id in k.ids || tx.id in PoolIds(pool.rows) then Refused(AlreadyKnown)
    else if !WithinBudget(UsageOf(pool.rows), EncodedSize(tx), |tx.inputs|) then Refused(Rejected)
    else if !InputsFound(k, pool, tx.inputs) then LookupFailure(k, pool, tx.inputs)
    else match RegularFee(c, tx, FoundView(k, pool, tx.inputs))
         case None => Refused(Rejected)
         case Some(fee) =>
           if fee < MinimumRelayFee(EncodedSize(tx)) || fee > MAX_INT64 || !Storable(tx) then Refused(Rejected)
           else if !PoolKeysFree(pool, tx) then Faulted
           else Admitted(Append(pool, tx, item.firstSeen, fee))
  }

  // ---------------------------------------------------------------- the invariant

  /** Not spent by an earlier row, and either a mature confirmed output or an output of an earlier row. */
  predicate InputOk(k: Confirmed, before: seq<PoolRow>, o: Outpoint) {
    && o !in PoolInputs(before)
    && if o in k.coins then k.coins[o].coinbase ==> IsCoinbaseMature(k.coins[o].createdHeight, k.height)
       else o in PoolOutputs(before)
  }

  /** A pending row is admissible on top of the rows with smaller sequence numbers. */
  ghost predicate RowOk(c: Crypto, k: Confirmed, before: seq<PoolRow>, row: PoolRow) {
    && row.tx.id !in k.ids && row.tx.id !in PoolIds(before)
    && (forall i | 0 <= i < |row.tx.inputs| :: InputOk(k, before, Spends(row.tx.inputs[i])))
    && RegularFee(c, row.tx, PoolView(k.coins, before)) == Some(row.fee)
    && row.size == EncodedSize(row.tx)
    && MinimumRelayFee(row.size) <= row.fee <= MAX_INT64
    && Storable(row.tx)
    && WithinBudget(UsageOf(before), row.size, |row.tx.inputs|)
  }

  ghost predicate RowsOk(c: Crypto, k: Confirmed, rows: seq<PoolRow>) {
    forall i | 0 <= i < |rows| :: RowOk(c, k, rows[..i], rows[i])
  }

  predicate SequencesOk(rows: seq<PoolRow>, nextSequence: nat) {
    && nextSequence > 0
    && (forall i | 0 <= i < |rows| :: 0 < rows[i].sequence < nextSequence)
    && (forall i, j | 0 <= i < j < |rows| :: rows[i].sequence < rows[j].sequence)
  }

  /** The index tables agree with the rows. */
  predicate IndexOk(pool: Pool) {
    && pool.inputs == PoolInputs(pool.rows) && pool.outputs == PoolOutputs(pool.rows)
    && SequencesOk(pool.rows, pool.nextSequence)
  }

  ghost predicate PoolOk(c: Crypto, k: Confirmed, pool: Pool) {
    IndexOk(pool) && RowsOk(c, k, pool.rows)
  }

  /** The confirmed side of every reachable ledger: coins of known transactions, created below the spending height. */
  predicate ConfirmedOk(c: Crypto, k: Confirmed) {
    && SoundCoins(c, k.coins) && CoinsIndexed(k.coins, k.ids)
    && (forall o | o in k.coins :: 0 < k.coins[o].createdHeight < k.height)
  }
}
