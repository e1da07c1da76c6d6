/**
  The tables of the incremental ledger as values (internal/ledger/schema.go), and what connecting, pruning
  and disconnecting a block does to them (internal/ledger/apply.go, internal/ledger/reorg.go,
  internal/ledger/prune.go). A key that SQLite would refuse makes the operation fail.
 */
module Tables {
  import opened Common
  import opened Encoding
  import opened Amounts
  import opened Transactions
  import opened Headers
  import opened Merkle
  import opened Totals
  import opened Replay

  /** A row of utxos. */
  datatype Coin = Coin(output: TxOutput, createdHeight: nat, coinbase: bool)

  /** A row of blocks; the height is the position of the row. `data` is NULL once the body is pruned. */
  datatype BlockRow = BlockRow(header: Header, work: nat, data: Option<Block>)

  datatype TxRow = TxRow(height: nat, index: nat, coinbase: bool, data: Option<Transaction>)

  datatype Direction = Sent | Received

  datatype AddressKey = AddressKey(txid: Text, ordinal: nat, address: Text, direction: Direction)

  datatype SpentCoin = SpentCoin(outpoint: Outpoint, coin: Coin)

  datatype UndoRow = UndoRow(hash: Text, spent: seq<SpentCoin>, created: seq<Outpoint>)

  type Coins = map<Outpoint, Coin>
  type TxTable = map<Text, TxRow>
  type AddressTable = map<AddressKey, uint64>
  type UndoTable = map<nat, UndoRow>

  datatype Tables = Tables(blocks: seq<BlockRow>, txs: TxTable, addresses: AddressTable, coins: Coins, undo: UndoTable)

  function Outputs(coins: Coins): (u: Utxo)
    ensures u.Keys == coins.Keys
  {
    map o | o in coins :: coins[o].output
  }

  function HeaderRows(rows: seq<BlockRow>): (hs: seq<Header>)
    ensures |hs| == |rows|
  {
    seq(|rows|, i requires 0 <= i < |rows| => rows[i].header)
  }

  predicate KnownHash(rows: seq<BlockRow>, hash: Text) {
    exists i :: 0 <= i < |rows| && rows[i].header.hash == hash
  }

  function Tip(t: Tables): BlockRow
    requires |t.blocks| > 0
  {
    t.blocks[|t.blocks| - 1]
  }

  function Genesis(): Tables {
    Tables([BlockRow(GenesisHeader(), 0, Some(GenesisBlock()))], map[], map[], map[], map[])
  }

  // ---------------------------------------------------------------- connecting

  /** What a block connection has written so far: three tables, the undo record, identifiers seen and fees. */
  datatype Progress = Progress(txs: TxTable, addresses: AddressTable, coins: Coins,
                               spent: seq<SpentCoin>, created: seq<Outpoint>, seen: set<Text>, fees: uint64)

  /** loadTransactionInputs: the coin behind every input, as long as each is present and well stored. */
  predicate InputsLoad(inputs: seq<TxInput>, coins: Coins) {
    forall i | 0 <= i < |inputs| :: Spends(inputs[i]) in coins && coins[Spends(inputs[i])].output.amount > 0
  }

  function LoadInputs(inputs: seq<TxInput>, coins: Coins): (r: seq<SpentCoin>)
    requires InputsLoad(inputs, coins)
    ensures |r| == |inputs|
  {
    seq(|inputs|, i requires 0 <= i < |inputs| => SpentCoin(Spends(inputs[i]), coins[Spends(inputs[i])]))
  }

  /** The part of the unspent outputs a transaction is validated against. */
  function InputView(inputs: seq<TxInput>, coins: Coins): Utxo {
    map o | o in Spent(inputs) && o in coins :: coins[o].output
  }

  /** validateInputMaturity. */
  predicate CoinsMature(spent: seq<SpentCoin>, height: nat) {
    forall i | 0 <= i < |spent| :: spent[i].coin.coinbase ==> IsCoinbaseMature(spent[i].coin.createdHeight, height)
  }

  predicate Storable(tx: Transaction) {
    forall i | 0 <= i < |tx.outputs| :: tx.outputs[i].amount <= MAX_INT64
  }

  function CoinsOf(tx: Transaction, height: nat, coinbase: bool): (r: Coins)
    ensures r.Keys == Created(tx)
  {
    map o | o in Created(tx) :: Coin(tx.outputs[o.index], height, coinbase)
  }

  function CreatedList(tx: Transaction): (r: seq<Outpoint>)
    requires |tx.outputs| <= 0xFFFF_FFFF
    ensures |r| == |tx.outputs|
  {
    seq(|tx.outputs|, i requires 0 <= i < |tx.outputs| => Outpoint(tx.id, i))
  }

  /** transaction_addresses rows of one transaction. */
  function AddressRowsOf(tx: Transaction, spent: seq<SpentCoin>): AddressTable {
    var sent := set i: nat | i < |spent| :: AddressKey(tx.id, i, spent[i].coin.output.address, Sent);
    var received := set i: nat | i < |tx.outputs| :: AddressKey(tx.id, i, tx.outputs[i].address, Received);
    map k | k in sent + received ::
      if k.direction == Sent then spent[k.ordinal].coin.output.amount else tx.outputs[k.ordinal].amount
  }

  /** insertOutputs and insertTransaction, with the constraints of the tables they write. */
  predicate RowsInsertable(w: Progress, tx: Transaction, spent: seq<SpentCoin>) {
    && Storable(tx)
    && Created(tx) !! w.coins.Keys
    && tx.id !in w.txs
    && AddressRowsOf(tx, spent).Keys !! w.addresses.Keys
  }

  function InsertRows(w: Progress, tx: Transaction, spent: seq<SpentCoin>, height: nat, position: nat): Progress
    requires |tx.outputs| <= 0xFFFF_FFFF
  {
    w.(txs := w.txs[tx.id := TxRow(height, position, tx.coinbase, Some(tx))],
       addresses := w.addresses + AddressRowsOf(tx, spent),
       coins := w.coins + CoinsOf(tx, height, tx.coinbase),
       spent := w.spent + spent,
       created := w.created + CreatedList(tx),
       seen := w.seen + {tx.id})
  }

  function WithoutInputs(w: Progress, tx: Transaction): Progress {
    w.(coins := w.coins - Spent(tx.inputs))
  }

  /** One regular transaction of a block being connected. */
  ghost function ConnectRegular(c: Crypto, w: Progress, tx: Transaction, height: nat, position: nat): Option<Progress> {
    if tx.coinbase || tx.id in w.seen || tx.id in w.txs || !InputsLoad(tx.inputs, w.coins) then None
    else
      var spent := LoadInputs(tx.inputs, w.coins);
      match RegularFee(c, tx, InputView(tx.inputs, w.coins))
      case None => None
      case Some(fee) =>
        if !CoinsMature(spent, height) || w.fees + fee > MAX_UINT64 || |tx.outputs| > 0xFFFF_FFFF
           || !RowsInsertable(WithoutInputs(w, tx), tx, spent) then None
        else Some(InsertRows(WithoutInputs(w, tx), tx, spent, height, position).(fees := w.fees + fee))
  }

  ghost function ConnectRegulars(c: Crypto, w: Progress, txs: seq<Transaction>, height: nat, position: nat): Option<Progress>
    decreases |txs|
  {
    if |txs| == 0 then Some(w)
    else match ConnectRegular(c, w, txs[0], height, position)
         case None => None
         case Some(next) => ConnectRegulars(c, next, txs[1..], height, position + 1)
  }

  ghost function ConnectCoinbase(c: Crypto, w: Progress, tx: Transaction, height: uint64): Option<Progress> {
    if tx.id in w.seen || tx.id in w.txs || Subsidy(height) + w.fees > MAX_UINT64
       || !CoinbaseOk(c, tx, Subsidy(height) + w.fees) || !RowsInsertable(w, tx, []) then None
    else Some(InsertRows(w, tx, [], height, 0))
  }

  function Start(t: Tables): Progress {
    Progress(t.txs, t.addresses, t.coins, [], [], {}, 0)
  }

  ghost function ConnectBody(c: Crypto, t: Tables, b: Block): Option<Progress> {
    if |b.txs| == 0 || !b.txs[0].coinbase then None
    else match ConnectRegulars(c, Start(t), b.txs[1..], b.header.height, 1)
         case None => None
         case Some(w) => ConnectCoinbase(c, w, b.txs[0], b.header.height)
  }

  function BlockRowOf(t: Tables, b: Block): BlockRow
    requires |t.blocks| > 0
  {
    BlockRow(b.header, Tip(t).work + Pow2(b.header.difficulty), Some(b))
  }

  function Finish(t: Tables, b: Block, w: Progress): Tables
    requires |t.blocks| > 0
  {
    Tables(t.blocks + [BlockRowOf(t, b)], w.txs, w.addresses, w.coins,
           t.undo[b.header.height := UndoRow(b.header.hash, w.spent, w.created)])
  }

  /** A block the ledger accepts on these tables, clock apart: header window, body, unique keys. */
  ghost predicate Connects(c: Crypto, t: Tables, b: Block) {
    && |t.blocks| > 0 && WindowShape(Window(HeaderRows(t.blocks)))
    && b.header.height <= MAX_INT64
    && BlockRules(c, b, Window(HeaderRows(t.blocks)))
    && !KnownHash(t.blocks, b.header.hash)
    && ConnectBody(c, t, b).Some?
    && b.header.height !in t.undo
    && (forall h | h in t.undo :: t.undo[h].hash != b.header.hash)
  }

  ghost function Connect(c: Crypto, t: Tables, b: Block): (r: Tables)
    requires Connects(c, t, b)
  {
    Finish(t, b, ConnectBody(c, t, b).value)
  }

  // ---------------------------------------------------------------- disconnecting

  function SpentSet(spent: seq<SpentCoin>): set<Outpoint> {
    set i | 0 <= i < |spent| :: spent[i].outpoint
  }

  function CreatedSet(created: seq<Outpoint>): set<Outpoint> {
    set i | 0 <= i < |created| :: created[i]
  }

  /** Puts spent coins back, skipping those the block itself created; None when a key already exists. */
  function RestoreCoins(c: Crypto, coins: Coins, spent: seq<SpentCoin>, created: set<Outpoint>): Option<Coins>
    decreases |spent|
  {
    if |spent| == 0 then Some(coins)
    else if spent[0].outpoint in created then RestoreCoins(c, coins, spent[1..], created)
    else if spent[0].coin.output.amount == 0 || spent[0].coin.output.amount > MAX_INT64 then None
    else if !ValidAddress(c, spent[0].coin.output.address) || spent[0].outpoint in coins then None
    else RestoreCoins(c, coins[spent[0].outpoint := spent[0].coin], spent[1..], created)
  }

  /** The coins after an undo record is played back, or None when it cannot be. */
  function UndoCoins(c: Crypto, coins: Coins, undo: UndoRow): Option<Coins> {
    if !Distinct(undo.created) then None
    else RestoreCoins(c, coins - CreatedSet(undo.created), undo.spent, CreatedSet(undo.created))
  }

  /** Rows that survive the deletion of the block at `height`: the foreign keys cascade. */
  function SurvivingTxs(txs: TxTable, height: nat): TxTable {
    map id | id in txs && txs[id].height != height :: txs[id]
  }

  function SurvivingAddresses(addresses: AddressTable, txs: TxTable, height: nat): AddressTable {
    map k | k in addresses && !(k.txid in txs && txs[k.txid].height == height) :: addresses[k]
  }

  /** The tables without their tip, or None when the undo record is missing or does not fit. */
  function Disconnect(c: Crypto, t: Tables): Option<Tables> {
    if |t.blocks| < 2 then None
    else
      var height := |t.blocks| - 1;
      if height !in t.undo || t.undo[height].hash != Tip(t).header.hash then None
      else match UndoCoins(c, t.coins, t.undo[height])
           case None => None
           case Some(coins) =>
             Some(Tables(t.blocks[..height], SurvivingTxs(t.txs, height),
                         SurvivingAddresses(t.addresses, t.txs, height), coins, t.undo - {height}))
  }

  // ---------------------------------------------------------------- pruning

  function PruneBlocks(rows: seq<BlockRow>, cutoff: nat): (r: seq<BlockRow>)
    ensures |r| == |rows|
  {
    seq(|rows|, i requires 0 <= i < |rows| => if 1 <= i <= cutoff then rows[i].(data := None) else rows[i])
  }

  function PruneTxs(txs: TxTable, cutoff: nat): (r: TxTable)
    ensures r.Keys == txs.Keys
  {
    map id | id in txs :: if 1 <= txs[id].height <= cutoff then txs[id].(data := None) else txs[id]
  }

  function PruneUndo(undo: UndoTable, cutoff: nat): UndoTable {
    map h | h in undo && !(1 <= h <= cutoff) :: undo[h]
  }

  /** Bodies and undo records of blocks 1 to `cutoff` are dropped; headers, indexes and coins stay. */
  function Prune(t: Tables, cutoff: nat): Tables {
    t.(blocks := PruneBlocks(t.blocks, cutoff), txs := PruneTxs(t.txs, cutoff), undo := PruneUndo(t.undo, cutoff))
  }

  // ---------------------------------------------------------------- the tables of a chain

  /** The tables obtained by connecting a chain block by block from genesis, or None when a block is refused. */
  ghost function Build(c: Crypto, chain: seq<Block>): Option<Tables> {
    if |chain| == 0 || chain[0] != GenesisBlock() then None
    else if |chain| == 1 then Some(Genesis())
    else match Build(c, chain[..|chain| - 1])
         case None => None
         case Some(t) => if Connects(c, t, chain[|chain| - 1]) then Some(Connect(c, t, chain[|chain| - 1])) else None
  }
}
