/**
  internal/ledger/apply.go and internal/ledger/reorg.go on tables that are changed row by row. Each method is
  proved against the table functions of module Tables; a method that fails may leave the tables part way, because
  the transaction around it is rolled back.
 */
module Databases {
  import opened Common
  import opened Encoding
  import opened Amounts
  import opened Transactions
  import opened Headers
  import opened Merkle
  import opened Totals
  import opened Replay
  import opened Tables
  import opened Refinement
  import opened Undo
  import opened Horizon
  import opened Mempool
  import opened MempoolRules
  import opened Worlds

  /** How an admission ended; a rejection is the transaction's fault, a fault is the store's. */
  datatype AddResult = Added | Rejection(reason: Refusal) | StorageFault

  // ---------------------------------------------------------------- loops

  lemma SpendFails(inputs: seq<TxInput>, i: nat, known: set<Outpoint>)
    requires i < |inputs| && Spends(inputs[i]) !in known - Spent(inputs[..i])
    ensures !(DistinctInputs(inputs) && Spent(inputs) <= known)
  {
  }

  lemma NoAddressRows(tx: Transaction)
    ensures AddressRowsOf(tx.(outputs := []), []) == map[]
  {
  }

  /** The transaction with only its first n outputs. */
  function FirstOutputs(tx: Transaction, n: nat): Transaction
    requires n <= |tx.outputs|
  {
    tx.(outputs := tx.outputs[..n])
  }

  lemma NoOutputRows(tx: Transaction, height: nat)
    ensures CoinsOf(FirstOutputs(tx, 0), height, tx.coinbase) == map[] && Created(FirstOutputs(tx, 0)) == {}
  {
  }

  predicate HasRow(tx: Transaction, spent: seq<SpentCoin>, k: AddressKey) {
    k.txid == tx.id &&
    if k.direction == Sent then k.ordinal < |spent| && k.address == spent[k.ordinal].coin.output.address
    else k.ordinal < |tx.outputs| && k.address == tx.outputs[k.ordinal].address
  }

  function RowAmount(tx: Transaction, spent: seq<SpentCoin>, k: AddressKey): uint64
    requires HasRow(tx, spent, k)
  {
    if k.direction == Sent then spent[k.ordinal].coin.output.amount else tx.outputs[k.ordinal].amount
  }

  lemma RowsMeaning(tx: Transaction, spent: seq<SpentCoin>)
    ensures forall k :: k in AddressRowsOf(tx, spent) <==> HasRow(tx, spent, k)
    ensures forall k | k in AddressRowsOf(tx, spent) :: AddressRowsOf(tx, spent)[k] == RowAmount(tx, spent, k)
  {
  }

  lemma SentRow(tx: Transaction, spent: seq<SpentCoin>, i: nat)
    requires i < |spent|
    ensures var key := AddressKey(tx.id, i, spent[i].coin.output.address, Sent);
      var bare := tx.(outputs := []);
      && key !in AddressRowsOf(bare, spent[..i]) && key in AddressRowsOf(tx, spent)
      && AddressRowsOf(bare, spent[..i + 1]) == AddressRowsOf(bare, spent[..i])[key := spent[i].coin.output.amount]
  {
    hide AddressRowsOf;
    var bare := tx.(outputs := []);
    RowsMeaning(tx, spent);
    RowsMeaning(bare, spent[..i]);
    RowsMeaning(bare, spent[..i + 1]);
  }

  lemma ReceivedRow(tx: Transaction, spent: seq<SpentCoin>, i: nat)
    requires i < |tx.outputs|
    ensures var key := AddressKey(tx.id, i, tx.outputs[i].address, Received);
      var before, after := tx.(outputs := tx.outputs[..i]), tx.(outputs := tx.outputs[..i + 1]);
      && key !in AddressRowsOf(before, spent) && key in AddressRowsOf(tx, spent)
      && AddressRowsOf(after, spent) == AddressRowsOf(before, spent)[key := tx.outputs[i].amount]
  {
    hide AddressRowsOf;
    RowsMeaning(tx, spent);
    RowsMeaning(tx.(outputs := tx.outputs[..i]), spent);
    RowsMeaning(tx.(outputs := tx.outputs[..i + 1]), spent);
  }

  lemma OutputRow(tx: Transaction, height: nat, i: nat)
    requires i < |tx.outputs| <= 0xFFFF_FFFF
    ensures var o := Outpoint(tx.id, i);
      && o in Created(tx) && o !in CoinsOf(FirstOutputs(tx, i), height, tx.coinbase)
      && CoinsOf(FirstOutputs(tx, i + 1), height, tx.coinbase)
         == CoinsOf(FirstOutputs(tx, i), height, tx.coinbase)[o := Coin(tx.outputs[i], height, tx.coinbase)]
    ensures Created(FirstOutputs(tx, i)) + {Outpoint(tx.id, i)} == Created(FirstOutputs(tx, i + 1))
  {
  }

  /** Connecting a body does not look at the block rows. */
  lemma BodySame(c: Crypto, t: Tables, t1: Tables, b: Block)
    requires t1.txs == t.txs && t1.addresses == t.addresses && t1.coins == t.coins
    ensures ConnectBody(c, t, b) == ConnectBody(c, t1, b)
  {
  }

  // ---------------------------------------------------------------- listing a block

  /** The rows of a height are exactly this body, in order. */
  ghost predicate IsListing(txs: TxTable, height: nat, body: seq<Transaction>) {
    && (forall i | 0 <= i < |body| :: RowIs(txs, body[i], height, i))
    && (forall id | id in txs && txs[id].height == height :: txs[id].index < |body| && body[txs[id].index].id == id)
  }

  lemma RetainedListing(t: Tables, chain: seq<Block>, height: nat)
    requires Retained(t, chain, height) && 0 < height
    ensures IsListing(t.txs, height, chain[height].txs)
  {
  }

  lemma {:induction false} LeastIndex(txs: TxTable, ids: set<Text>)
    requires ids != {} && ids <= txs.Keys
    ensures exists id :: id in ids && forall other | other in ids :: txs[id].index <= txs[other].index
  {
    var x :| x in ids;
    var rest := ids - {x};
    if rest == {} {
      assert ids == {x};
    } else {
      LeastIndex(txs, rest);
      var y :| y in rest && forall other | other in rest :: txs[y].index <= txs[other].index;
      var least := if txs[x].index <= txs[y].index then x else y;
      assert forall other | other in ids :: txs[least].index <= txs[other].index by {
        assert forall other | other in ids :: other == x || other in rest;
      }
    }
  }

  ghost predicate Filled(txs: TxTable, height: nat, left: set<Text>, i: int) {
    exists id :: id in txs && txs[id].height == height && id !in left && txs[id].index == i
  }

  /** The rows of a height, apart from some, are one for each position of the list, and carry its bodies. */
  ghost predicate ListsExcept(txs: TxTable, height: nat, left: set<Text>, list: seq<Transaction>) {
    && (forall id | id in txs && txs[id].height == height && id !in left ::
          txs[id].index < |list| && txs[id].data == Some(list[txs[id].index]))
    && (forall i | 0 <= i < |list| :: Filled(txs, height, left, i))
    && (forall id, other | id in txs && other in txs && txs[id].height == height == txs[other].height
                           && id !in left && other !in left && txs[id].index == txs[other].index :: id == other)
  }

  ghost predicate Lists(txs: TxTable, height: nat, list: seq<Transaction>) {
    ListsExcept(txs, height, {}, list)
  }

  /** The rows still to read come at or after the last one read. */
  predicate LeftOver(txs: TxTable, height: nat, left: set<Text>, n: nat) {
    forall id | id in left :: id in txs && txs[id].height == height && txs[id].index + 1 >= n
  }

  lemma NothingRead(txs: TxTable, height: nat)
    ensures ListsExcept(txs, height, set id | id in txs && txs[id].height == height, [])
  {
  }

  lemma ListedOneMore(txs: TxTable, height: nat, left: set<Text>, list: seq<Transaction>, id: Text)
    requires ListsExcept(txs, height, left, list) && LeftOver(txs, height, left, |list|)
    requires id in left && txs[id].index == |list| && txs[id].data.Some?
    requires forall other | other in left :: txs[id].index <= txs[other].index
    ensures ListsExcept(txs, height, left - {id}, list + [txs[id].data.value])
    ensures LeftOver(txs, height, left - {id}, |list| + 1)
  {
    var rest := left - {id};
    forall i | 0 <= i < |list| + 1 ensures Filled(txs, height, rest, i) {
      if i < |list| {
        assert Filled(txs, height, left, i);
      } else {
        assert id !in rest;
      }
    }
  }

  lemma PositionFilled(txs: TxTable, height: nat, list: seq<Transaction>, i: nat)
    ensures Lists(txs, height, list) && i < |list| ==> Filled(txs, height, {}, i)
  {
  }

  /** A gap, a repeated position or a missing body: no list fits. */
  lemma NotListed(txs: TxTable, height: nat, left: set<Text>, list: seq<Transaction>, id: Text, all: seq<Transaction>)
    requires ListsExcept(txs, height, left, list) && LeftOver(txs, height, left, |list|)
    requires id in left && (txs[id].index != |list| || txs[id].data.None?)
    requires forall other | other in left :: txs[id].index <= txs[other].index
    ensures !Lists(txs, height, all)
  {
    if txs[id].index < |list| {
      assert Filled(txs, height, left, txs[id].index);
    } else {
      PositionFilled(txs, height, all, |list|);
    }
  }

  lemma ListsOne(txs: TxTable, height: nat, a: seq<Transaction>, b: seq<Transaction>)
    requires Lists(txs, height, a) && Lists(txs, height, b)
    ensures a == b
  {
    PositionFilled(txs, height, a, |b|);
    PositionFilled(txs, height, b, |a|);
    assert |a| == |b|;
    forall i | 0 <= i < |a| ensures b[i] == a[i] {
      PositionFilled(txs, height, a, i);
    }
  }

  lemma ListingLists(txs: TxTable, height: nat, body: seq<Transaction>)
    requires IsListing(txs, height, body)
    ensures Lists(txs, height, body)
  {
    forall i | 0 <= i < |body| ensures Filled(txs, height, {}, i) {
      assert RowIs(txs, body[i], height, i);
    }
    forall id | id in txs && txs[id].height == height ensures txs[id].data == Some(body[txs[id].index]) {
      assert RowIs(txs, body[txs[id].index], height, txs[id].index);
    }
  }

  lemma RepeatedCreation(created: seq<Outpoint>, i: nat)
    requires i < |created| && created[i] in CreatedSet(created[..i])
    ensures !Distinct(created)
  {
  }

  // ---------------------------------------------------------------- pending rows

  function FailureOf(r: AddResult): Admission
    requires !r.Added?
  {
    if r.StorageFault? then Faulted else Refused(r.reason)
  }

  /** The outcome of looking up a list is that of the inputs before i and then of the rest. */
  predicate LookedTo(k: Confirmed, pool: Pool, inputs: seq<TxInput>, i: nat, utxo: Utxo)
    requires i <= |inputs|
  {
    && InputsFound(k, pool, inputs[..i]) && utxo == FoundView(k, pool, inputs[..i])
    && (!InputsFound(k, pool, inputs) ==>
          && !InputsFound(k, pool, inputs[i..])
          && LookupFailure(k, pool, inputs[i..]) == LookupFailure(k, pool, inputs))
  }

  lemma LookupStarts(k: Confirmed, pool: Pool, inputs: seq<TxInput>)
    ensures LookedTo(k, pool, inputs, 0, map[])
  {
    hide LookupSpendable;
    assert inputs[0..] == inputs;
  }

  lemma LookupAdds(k: Confirmed, pool: Pool, inputs: seq<TxInput>, i: nat)
    requires i < |inputs| && InputsFound(k, pool, inputs[..i]) && LookupSpendable(k, pool, Spends(inputs[i])).Found?
    ensures InputsFound(k, pool, inputs[..i + 1])
    ensures FoundView(k, pool, inputs[..i + 1])
         == FoundView(k, pool, inputs[..i])[Spends(inputs[i]) := LookupSpendable(k, pool, Spends(inputs[i])).output]
  {
    hide LookupSpendable;
    assert inputs[..i + 1] == inputs[..i] + [inputs[i]];
    assert Spent(inputs[..i + 1]) == Spent(inputs[..i]) + {Spends(inputs[i])};
  }

  lemma LookupSkips(k: Confirmed, pool: Pool, inputs: seq<TxInput>, i: nat)
    requires i < |inputs| && LookupSpendable(k, pool, Spends(inputs[i])).Found?
    ensures InputsFound(k, pool, inputs[i..]) <==> InputsFound(k, pool, inputs[i + 1..])
    ensures !InputsFound(k, pool, inputs[i..]) ==>
      LookupFailure(k, pool, inputs[i..]) == LookupFailure(k, pool, inputs[i + 1..])
  {
    hide LookupSpendable;
    assert inputs[i..][0] == inputs[i] && inputs[i..][1..] == inputs[i + 1..];
    assert forall j | 0 < j < |inputs[i..]| :: inputs[i..][j] == inputs[i + 1..][j - 1];
  }

  lemma LookupContinues(k: Confirmed, pool: Pool, inputs: seq<TxInput>, i: nat, utxo: Utxo)
    requires i < |inputs| && LookedTo(k, pool, inputs, i, utxo) && LookupSpendable(k, pool, Spends(inputs[i])).Found?
    ensures LookedTo(k, pool, inputs, i + 1, utxo[Spends(inputs[i]) := LookupSpendable(k, pool, Spends(inputs[i])).output])
  {
    hide LookupSpendable, FoundView, LookupFailure, InputsFound;
    LookupSkips(k, pool, inputs, i);
    LookupAdds(k, pool, inputs, i);
  }

  lemma LookupStops(k: Confirmed, pool: Pool, inputs: seq<TxInput>, i: nat, utxo: Utxo)
    requires i < |inputs| && LookedTo(k, pool, inputs, i, utxo) && !LookupSpendable(k, pool, Spends(inputs[i])).Found?
    ensures !InputsFound(k, pool, inputs)
    ensures LookupFailure(k, pool, inputs)
         == if LookupSpendable(k, pool, Spends(inputs[i])).Corrupt? then Faulted else Refused(Rejected)
  {
    hide LookupSpendable;
    assert inputs[i..][0] == inputs[i];
  }

  lemma LookupEnds(k: Confirmed, pool: Pool, inputs: seq<TxInput>, utxo: Utxo)
    requires LookedTo(k, pool, inputs, |inputs|, utxo)
    ensures InputsFound(k, pool, inputs) && utxo == FoundView(k, pool, inputs)
  {
    hide LookupSpendable, LookupFailure;
    assert inputs[..|inputs|] == inputs;
  }

  lemma InputIsNew(inputs: seq<TxInput>, i: nat)
    requires i < |inputs| && DistinctInputs(inputs)
    ensures Spends(inputs[i]) !in Spent(inputs[..i]) && Spends(inputs[i]) in Spent(inputs)
  {
  }

  function FirstInputs(tx: Transaction, n: nat): Transaction
    requires n <= |tx.inputs|
  {
    tx.(inputs := tx.inputs[..n])
  }

  lemma NoPendingInputs(tx: Transaction)
    ensures InputRows(FirstInputs(tx, 0)) == map[] && Spent(FirstInputs(tx, 0).inputs) == {}
  {
  }

  lemma PendingInput(tx: Transaction, i: nat)
    requires i < |tx.inputs| && DistinctInputs(tx.inputs)
    ensures var o := Spends(tx.inputs[i]);
      && o in Spent(tx.inputs) && o !in Spent(FirstInputs(tx, i).inputs)
      && Spent(FirstInputs(tx, i + 1).inputs) == Spent(FirstInputs(tx, i).inputs) + {o}
      && InputRows(FirstInputs(tx, i + 1)) == InputRows(FirstInputs(tx, i))[o := tx.id]
  {
  }

  lemma NoPendingOutputs(tx: Transaction)
    ensures OutputsOf(FirstOutputs(tx, 0)) == map[] && Created(FirstOutputs(tx, 0)) == {}
  {
  }

  lemma PendingOutput(tx: Transaction, i: nat)
    requires i < |tx.outputs| <= 0xFFFF_FFFF
    ensures var o := Outpoint(tx.id, i);
      && o in Created(tx) && o !in OutputsOf(FirstOutputs(tx, i))
      && OutputsOf(FirstOutputs(tx, i + 1)) == OutputsOf(FirstOutputs(tx, i))[o := tx.outputs[i]]
    ensures Created(FirstOutputs(tx, i)) + {Outpoint(tx.id, i)} == Created(FirstOutputs(tx, i + 1))
  {
  }

  lemma UsageAfter(pool: Pool, tx: Transaction, firstSeen: int64, fee: uint64)
    ensures var u := UsageOf(pool.rows);
      UsageOf(Append(pool, tx, firstSeen, fee).rows) == Usage(u.count + 1, u.bytes + EncodedSize(tx), u.inputs + |tx.inputs|)
  {
  }

  lemma RowInputsNew(c: Crypto, k: Confirmed, before: seq<PoolRow>, row: PoolRow)
    requires RowOk(c, k, before, row)
    ensures Spent(row.tx.inputs) !! PoolInputs(before).Keys && DistinctInputs(row.tx.inputs)
  {
  }

  lemma {:induction false} SpentCardinality(inputs: seq<TxInput>)
    requires DistinctInputs(inputs)
    ensures |Spent(inputs)| == |inputs|
  {
    if |inputs| > 0 {
      var front, last := inputs[..|inputs| - 1], inputs[|inputs| - 1];
      SpentCardinality(front);
      assert Spent(inputs) == Spent(front) + {Spends(last)};
      InputIsNew(inputs, |inputs| - 1);
    }
  }

  lemma {:induction false} InputsCardinality(c: Crypto, k: Confirmed, rows: seq<PoolRow>)
    requires RowsOk(c, k, rows)
    ensures |PoolInputs(rows).Keys| == UsageOf(rows).inputs
  {
    hide RowsOk, RowOk, RegularFee, WithinBudget, InputRows, Spent;
    if |rows| > 0 {
      var before, row := rows[..|rows| - 1], rows[|rows| - 1];
      RowsOkLast(c, k, rows);
      InputsCardinality(c, k, before);
      RowInputsNew(c, k, before, row);
      SpentCardinality(row.tx.inputs);
      assert PoolInputs(rows).Keys == PoolInputs(before).Keys + Spent(row.tx.inputs);
    }
  }

  /** The recomputed input total counts the rows of the input index: one per input, none shared. */
  lemma InputRowsCounted(c: Crypto, k: Confirmed, pool: Pool)
    requires PoolOk(c, k, pool)
    ensures |pool.inputs| == UsageOf(pool.rows).inputs
  {
    hide RowsOk;
    InputsCardinality(c, k, pool.rows);
    assert |pool.inputs| == |pool.inputs.Keys|;
  }

  // ---------------------------------------------------------------- the database

  class Database {
    var blocks: seq<BlockRow>
    var txs: TxTable
    var addresses: AddressTable
    var coins: Coins
    var undo: UndoTable
    var prunedThrough: nat
    var rows: seq<PoolRow>
    var inputs: map<Outpoint, Text>
    var outputs: Utxo
    var nextSequence: nat

    function State(): Tables
      reads this`blocks, this`txs, this`addresses, this`coins, this`undo
    {
      Tables(blocks, txs, addresses, coins, undo)
    }

    function Mempool(): Pool
      reads this`rows, this`inputs, this`outputs, this`nextSequence
    {
      Pool(rows, inputs, outputs, nextSequence)
    }

    function Spending(height: nat): Confirmed
      reads this`coins, this`txs
    {
      Confirmed(coins, txs.Keys, height)
    }

    /** The database of a new chain. */
    constructor ()
      ensures State() == Genesis() && prunedThrough == 0 && Mempool() == EmptyPool(1)
    {
      var genesis := Genesis();
      blocks, txs, addresses, coins, undo := genesis.blocks, genesis.txs, genesis.addresses, genesis.coins, genesis.undo;
      prunedThrough := 0;
      rows, inputs, outputs, nextSequence := [], map[], map[], 1;
    }

    /** What a transaction works on: the same rows, until it commits or is rolled back. */
    constructor CopyOf(other: Database)
      ensures State() == other.State() && prunedThrough == other.prunedThrough && Mempool() == other.Mempool()
    {
      blocks, txs, addresses, coins, undo := other.blocks, other.txs, other.addresses, other.coins, other.undo;
      prunedThrough := other.prunedThrough;
      rows, inputs, outputs, nextSequence := other.rows, other.inputs, other.outputs, other.nextSequence;
    }

    // ---------------------------------------------------------------- apply.go

    method HeaderWindow() returns (window: seq<Header>)
      ensures window == Window(HeaderRows(blocks))
    {
      var start := if |blocks| > FIRST_ADJUSTMENT then |blocks| - FIRST_ADJUSTMENT else 0;
      window := [];
      for height := start to |blocks|
        invariant window == HeaderRows(blocks)[start..height]
      {
        window := window + [blocks[height].header];
      }
      assert HeaderRows(blocks)[0..|blocks|] == HeaderRows(blocks);
    }

    method LoadTransactionInputs(tx: Transaction) returns (r: Option<seq<SpentCoin>>)
      ensures r.Some? <==> InputsLoad(tx.inputs, coins)
      ensures r.Some? ==> r.value == LoadInputs(tx.inputs, coins)
    {
      var records: seq<SpentCoin> := [];
      for i := 0 to |tx.inputs|
        invariant InputsLoad(tx.inputs[..i], coins) && records == LoadInputs(tx.inputs[..i], coins)
      {
        var outpoint := Spends(tx.inputs[i]);
        if outpoint !in coins || coins[outpoint].output.amount == 0 {
          assert !InputsLoad(tx.inputs, coins);
          return None;
        }
        records := records + [SpentCoin(outpoint, coins[outpoint])];
      }
      assert tx.inputs[..|tx.inputs|] == tx.inputs;
      return Some(records);
    }

    method SpendInputs(tx: Transaction) returns (ok: bool)
      modifies this`coins
      ensures ok <==> DistinctInputs(tx.inputs) && Spent(tx.inputs) <= old(coins).Keys
      ensures ok ==> coins == old(coins) - Spent(tx.inputs)
    {
      for i := 0 to |tx.inputs|
        invariant DistinctInputs(tx.inputs[..i]) && Spent(tx.inputs[..i]) <= old(coins).Keys
        invariant coins == old(coins) - Spent(tx.inputs[..i])
      {
        var outpoint := Spends(tx.inputs[i]);
        assert Spent(tx.inputs[..i + 1]) == Spent(tx.inputs[..i]) + {outpoint};
        if outpoint !in coins {
          SpendFails(tx.inputs, i, old(coins).Keys);
          return false;
        }
        coins := coins - {outpoint};
      }
      assert tx.inputs[..|tx.inputs|] == tx.inputs;
      ok := true;
    }

    method InsertOutputs(tx: Transaction, height: nat) returns (created: Option<seq<Outpoint>>)
      requires |tx.outputs| <= 0xFFFF_FFFF
      modifies this`coins
      ensures created.Some? <==> Storable(tx) && Created(tx) !! old(coins).Keys
      ensures created.Some? ==> coins == old(coins) + CoinsOf(tx, height, tx.coinbase) && created.value == CreatedList(tx)
    {
      hide CoinsOf, Created;
      var list: seq<Outpoint> := [];
      assert coins == old(coins) + CoinsOf(FirstOutputs(tx, 0), height, tx.coinbase) by { NoOutputRows(tx, height); }
      for index := 0 to |tx.outputs|
        invariant list == CreatedList(tx)[..index] && Storable(FirstOutputs(tx, index))
        invariant Created(FirstOutputs(tx, index)) !! old(coins).Keys
        invariant coins == old(coins) + CoinsOf(FirstOutputs(tx, index), height, tx.coinbase)
      {
        var outpoint := Outpoint(tx.id, index);
        OutputRow(tx, height, index);
        if tx.outputs[index].amount > MAX_INT64 || outpoint in coins {
          return None;
        }
        coins := coins[outpoint := Coin(tx.outputs[index], height, tx.coinbase)];
        list := list + [outpoint];
      }
      assert FirstOutputs(tx, |tx.outputs|) == tx;
      return Some(list);
    }

    method InsertTransaction(tx: Transaction, height: nat, position: nat, spent: seq<SpentCoin>) returns (ok: bool)
      requires Storable(tx)
      modifies this`txs, this`addresses
      ensures ok <==> tx.id !in old(txs) && AddressRowsOf(tx, spent).Keys !! old(addresses).Keys
      ensures ok ==> txs == old(txs)[tx.id := TxRow(height, position, tx.coinbase, Some(tx))]
      ensures ok ==> addresses == old(addresses) + AddressRowsOf(tx, spent)
    {
      hide AddressRowsOf;
      if tx.id in txs {
        return false;
      }
      txs := txs[tx.id := TxRow(height, position, tx.coinbase, Some(tx))];
      NoAddressRows(tx);
      for i := 0 to |spent|
        invariant txs == old(txs)[tx.id := TxRow(height, position, tx.coinbase, Some(tx))]
        invariant AddressRowsOf(tx.(outputs := []), spent[..i]).Keys !! old(addresses).Keys
        invariant addresses == old(addresses) + AddressRowsOf(tx.(outputs := []), spent[..i])
      {
        var key := AddressKey(tx.id, i, spent[i].coin.output.address, Sent);
        SentRow(tx, spent, i);
        if key in addresses {
          return false;
        }
        addresses := addresses[key := spent[i].coin.output.amount];
      }
      assert spent[..|spent|] == spent && tx.outputs[..0] == [];
      for i := 0 to |tx.outputs|
        invariant txs == old(txs)[tx.id := TxRow(height, position, tx.coinbase, Some(tx))]
        invariant AddressRowsOf(tx.(outputs := tx.outputs[..i]), spent).Keys !! old(addresses).Keys
        invariant addresses == old(addresses) + AddressRowsOf(tx.(outputs := tx.outputs[..i]), spent)
      {
        var key := AddressKey(tx.id, i, tx.outputs[i].address, Received);
        ReceivedRow(tx, spent, i);
        if key in addresses {
          return false;
        }
        addresses := addresses[key := tx.outputs[i].amount];
      }
      assert tx.(outputs := tx.outputs[..|tx.outputs|]) == tx;
      ok := true;
    }

    /** The body of the transaction loop of connectBlockAtTime. */
    method ConnectTransaction(c: Crypto, tx: Transaction, height: nat, position: nat, seen: set<Text>, fees: uint64,
                              ghost w: Progress)
      returns (r: Option<(seq<SpentCoin>, seq<Outpoint>, uint64)>)
      requires w == Progress(txs, addresses, coins, w.spent, w.created, seen, fees)
      modifies this`txs, this`addresses, this`coins
      ensures r.Some? <==> ConnectRegular(c, w, tx, height, position).Some?
      ensures r.Some? ==>
        ConnectRegular(c, w, tx, height, position).value
          == Progress(txs, addresses, coins, w.spent + r.value.0, w.created + r.value.1, seen + {tx.id}, r.value.2)
    {
      hide RegularFee, AddressRowsOf, CoinsOf, InputView, CoinsMature, Created, RowsInsertable, Spent, DistinctInputs,
        InputsLoad, LoadInputs, CreatedList;
      if tx.coinbase || tx.id in seen || tx.id in txs {
        return None;
      }
      var inputs := LoadTransactionInputs(tx);
      if inputs.None? {
        return None;
      }
      var fee := ValidateRegularTransaction(c, tx, InputView(tx.inputs, coins));
      if fee.None? || !CoinsMature(inputs.value, height) {
        return None;
      }
      var sum := SafeAdd(fees, fee.value);
      if sum.None? {
        return None;
      }
      RegularLimits(c, tx, InputView(tx.inputs, coins));
      LoadedSet(tx.inputs, coins);
      var created := ApplyRegularTransaction(tx, height, position, inputs.value, w);
      if created.None? {
        return None;
      }
      return Some((inputs.value, created.value, sum.value));
    }

    /** applyRegularTransaction, then insertTransaction. */
    method ApplyRegularTransaction(tx: Transaction, height: nat, position: nat, inputs: seq<SpentCoin>,
                                   ghost w: Progress)
      returns (created: Option<seq<Outpoint>>)
      requires |tx.outputs| <= 256 && DistinctInputs(tx.inputs) && Spent(tx.inputs) <= coins.Keys
      requires w.txs == txs && w.addresses == addresses && w.coins == coins
      modifies this`txs, this`addresses, this`coins
      ensures created.Some? <==> RowsInsertable(WithoutInputs(w, tx), tx, inputs)
      ensures created.Some? ==> created.value == CreatedList(tx)
      ensures created.Some? ==>
        var w1 := InsertRows(WithoutInputs(w, tx), tx, inputs, height, position);
        txs == w1.txs && addresses == w1.addresses && coins == w1.coins
    {
      hide AddressRowsOf, CoinsOf, Storable, Created, CreatedList, Spent, DistinctInputs;
      var spent := SpendInputs(tx);
      assert spent;
      created := InsertOutputs(tx, height);
      if created.None? {
        return None;
      }
      var inserted := InsertTransaction(tx, height, position, inputs);
      if !inserted {
        return None;
      }
    }

    method ConnectReward(c: Crypto, tx: Transaction, height: uint64, seen: set<Text>, fees: uint64, ghost w: Progress)
      returns (created: Option<seq<Outpoint>>)
      requires w == Progress(txs, addresses, coins, w.spent, w.created, seen, fees)
      modifies this`txs, this`addresses, this`coins
      ensures created.Some? <==> ConnectCoinbase(c, w, tx, height).Some?
      ensures created.Some? ==>
        ConnectCoinbase(c, w, tx, height).value
          == Progress(txs, addresses, coins, w.spent, w.created + created.value, seen + {tx.id}, fees)
    {
      hide CoinbaseOk, AddressRowsOf, CoinsOf, Storable, Created, Subsidy;
      if tx.id in seen || tx.id in txs {
        return None;
      }
      var maximum := SafeAdd(Subsidy(height), fees);
      if maximum.None? {
        return None;
      }
      var ok := ValidateCoinbase(c, tx, maximum.value);
      if !ok {
        return None;
      }
      CoinbaseLimits(c, tx, maximum.value);
      created := InsertOutputs(tx, height);
      if created.None? {
        return None;
      }
      var inserted := InsertTransaction(tx, height, 0, []);
      if !inserted {
        return None;
      }
      assert w.spent + [] == w.spent;
    }

    /** The transactions of a block, the coinbase last; the result is the undo record's two lists. */
    method ConnectTransactions(c: Crypto, b: Block) returns (r: Option<(seq<SpentCoin>, seq<Outpoint>)>)
      requires |b.txs| > 0
      modifies this`txs, this`addresses, this`coins
      ensures r.Some? <==> ConnectBody(c, old(State()), b).Some?
      ensures r.Some? ==>
        var w := ConnectBody(c, old(State()), b).value;
        txs == w.txs && addresses == w.addresses && coins == w.coins && r.value == (w.spent, w.created)
    {
      hide ConnectRegular, ConnectCoinbase;
      if !b.txs[0].coinbase {
        return None;
      }
      ghost var w := Start(State());
      var spent: seq<SpentCoin>, created: seq<Outpoint>, seen: set<Text>, fees: uint64 := [], [], {}, 0;
      var list := b.txs[1..];
      for index := 0 to |list|
        invariant w == Progress(txs, addresses, coins, spent, created, seen, fees)
        invariant ConnectRegulars(c, Start(old(State())), list, b.header.height, 1)
               == ConnectRegulars(c, w, list[index..], b.header.height, index + 1)
      {
        assert list[index..][0] == list[index] && list[index..][1..] == list[index + 1..];
        var next := ConnectTransaction(c, list[index], b.header.height, index + 1, seen, fees, w);
        if next.None? {
          return None;
        }
        w := ConnectRegular(c, w, list[index], b.header.height, index + 1).value;
        spent, created, fees := spent + next.value.0, created + next.value.1, next.value.2;
        seen := seen + {list[index].id};
      }
      assert list[|list|..] == [];
      var outputs := ConnectReward(c, b.txs[0], b.header.height, seen, fees, w);
      if outputs.None? {
        return None;
      }
      return Some((spent, created + outputs.value));
    }

    /** connectBlockAtTime. */
    method ConnectBlockAtTime(c: Crypto, b: Block, now: int64) returns (ok: bool)
      requires |blocks| > 0 && WindowShape(Window(HeaderRows(blocks)))
      modifies this`blocks, this`txs, this`addresses, this`coins, this`undo
      ensures ok <==> NotTooFarAhead(b.header.timestamp, now) && Connects(c, old(State()), b)
      ensures ok ==> State() == Connect(c, old(State()), b)
    {
      hide HeaderRules, BodyOk, ConnectBody, NotTooFarAhead, Window, WindowShape, KnownHash, Pow2;
      ghost var t := State();
      if b.header.height > MAX_INT64 {
        return false;
      }
      var prior := HeaderWindow();
      if !HeaderRules(c, b.header, prior) || !NotTooFarAhead(b.header.timestamp, now) {
        return false;
      }
      var bodyOk := ValidateBody(b);
      if !bodyOk || KnownHash(blocks, b.header.hash) {
        return false;
      }
      BodyNotEmpty(b);
      var work := blocks[|blocks| - 1].work + Pow2(b.header.difficulty);
      blocks := blocks + [BlockRow(b.header, work, Some(b))];
      BodySame(c, t, State(), b);
      var lists := ConnectTransactions(c, b);
      if lists.None? {
        return false;
      }
      if b.header.height in undo || exists h :: h in undo && undo[h].hash == b.header.hash {
        return false;
      }
      undo := undo[b.header.height := UndoRow(b.header.hash, lists.value.0, lists.value.1)];
      ok := true;
    }

    // ---------------------------------------------------------------- reorg.go

    /** transactionsAt: the rows of a height in index order; gaps, repeated positions and missing bodies are errors. */
    method TransactionsAt(height: nat) returns (r: Option<seq<Transaction>>)
      ensures r.Some? ==> Lists(txs, height, r.value)
      ensures r.None? ==> forall list :: !Lists(txs, height, list)
    {
      hide ListsExcept;
      NothingRead(txs, height);
      var left := set id | id in txs && txs[id].height == height;
      var transactions: seq<Transaction> := [];
      while left != {}
        invariant ListsExcept(txs, height, left, transactions) && LeftOver(txs, height, left, |transactions|)
        decreases left
      {
        LeastIndex(txs, left);
        var id :| id in left && forall other | other in left :: txs[id].index <= txs[other].index;
        if txs[id].index != |transactions| || txs[id].data.None? {
          forall list ensures !Lists(txs, height, list) {
            NotListed(txs, height, left, transactions, id, list);
          }
          return None;
        }
        ListedOneMore(txs, height, left, transactions, id);
        transactions := transactions + [txs[id].data.value];
        left := left - {id};
      }
      return Some(transactions);
    }

    method RegularTransactionsAt(height: nat, ghost body: seq<Transaction>) returns (r: Option<seq<Transaction>>)
      requires IsListing(txs, height, body)
      ensures r == Some(Regular(body))
    {
      ListingLists(txs, height, body);
      var all := TransactionsAt(height);
      if all.None? {
        return None;
      }
      ListsOne(txs, height, all.value, body);
      var regular: seq<Transaction> := [];
      for i := 0 to |all.value|
        invariant regular == Regular(all.value[..i])
      {
        assert all.value[..i + 1][..i] == all.value[..i];
        if !all.value[i].coinbase {
          regular := regular + [all.value[i]];
        }
      }
      assert all.value[..|all.value|] == all.value;
      return Some(regular);
    }

    /** The loops of disconnectTip over the undo record. */
    method PlayBack(c: Crypto, record: UndoRow) returns (ok: bool)
      modifies this`coins
      ensures ok <==> UndoCoins(c, old(coins), record).Some?
      ensures ok ==> coins == UndoCoins(c, old(coins), record).value
    {
      hide RestoreCoins, ValidAddress;
      var created: set<Outpoint> := {};
      for i := 0 to |record.created|
        invariant created == CreatedSet(record.created[..i]) && Distinct(record.created[..i])
        invariant coins == old(coins) - created
      {
        var outpoint := record.created[i];
        if outpoint in created {
          RepeatedCreation(record.created, i);
          return false;
        }
        assert CreatedSet(record.created[..i + 1]) == CreatedSet(record.created[..i]) + {outpoint};
        created := created + {outpoint};
        coins := coins - {outpoint};
      }
      assert record.created[..|record.created|] == record.created;
      ok := Restore(c, record.spent, created);
    }

    method Restore(c: Crypto, spent: seq<SpentCoin>, created: set<Outpoint>) returns (ok: bool)
      modifies this`coins
      ensures ok <==> RestoreCoins(c, old(coins), spent, created).Some?
      ensures ok ==> coins == RestoreCoins(c, old(coins), spent, created).value
    {
      hide ValidAddress;
      for i := 0 to |spent|
        invariant RestoreCoins(c, coins, spent[i..], created) == RestoreCoins(c, old(coins), spent, created)
      {
        assert spent[i..][0] == spent[i] && spent[i..][1..] == spent[i + 1..];
        var record := spent[i];
        if record.outpoint !in created {
          var output := record.coin.output;
          if output.amount == 0 || output.amount > MAX_INT64 || !ValidAddress(c, output.address) {
            return false;
          }
          if record.outpoint in coins {
            return false;
          }
          coins := coins[record.outpoint := record.coin];
        }
      }
      assert spent[|spent|..] == [];
      ok := true;
    }

    /** disconnectTip: the block it removed and its regular transactions. */
    method DisconnectTip(c: Crypto, ghost chain: seq<Block>)
      returns (r: Outcome, block: Block, orphaned: seq<Transaction>)
      requires Represents(c, State(), chain, prunedThrough)
      modifies this`blocks, this`txs, this`addresses, this`coins, this`undo
      ensures r == if |chain| == 1 then Failed(GenesisTip)
                   else if |chain| - 1 <= prunedThrough then Failed(BeyondPrune) else Committed
      ensures r.Committed? ==>
        && Represents(c, State(), chain[..|chain| - 1], prunedThrough)
        && block == chain[|chain| - 1] && orphaned == Regular(chain[|chain| - 1].txs)
    {
      hide Represents, RowIs, RowOf, Regular, WindowShape, HeaderChain, ReplayChain, TablesOk, SoundCoins, IsListing,
        Disconnect;
      RepresentedFacts(c, State(), chain, prunedThrough);
      block, orphaned := GenesisBlock(), [];
      var height := |blocks| - 1;
      if height == 0 {
        return Failed(GenesisTip), block, orphaned;
      }
      if height <= prunedThrough {
        return Failed(BeyondPrune), block, orphaned;
      }
      RetainedAboveHorizon(c, State(), chain, prunedThrough, height);
      RetainedListing(State(), chain, height);
      DisconnectRepresents(c, State(), chain, prunedThrough);
      block := blocks[height].data.value;
      var regular := RegularTransactionsAt(height, chain[height].txs);
      orphaned := regular.value;
      var removed := RemoveTip(c);
      r := if removed then Committed else Failed(Invalid);
    }

    /** The row changes of disconnectTip; deleting the block row cascades to its transactions, addresses and undo record. */
    method RemoveTip(c: Crypto) returns (ok: bool)
      requires |blocks| >= 2
      modifies this`blocks, this`txs, this`addresses, this`coins, this`undo
      ensures ok <==> Disconnect(c, old(State())).Some?
      ensures ok ==> State() == Disconnect(c, old(State())).value
    {
      hide UndoCoins, SurvivingTxs, SurvivingAddresses;
      var height := |blocks| - 1;
      if height !in undo || undo[height].hash != blocks[height].header.hash {
        return false;
      }
      ok := PlayBack(c, undo[height]);
      if ok {
        addresses := SurvivingAddresses(addresses, txs, height);
        txs := SurvivingTxs(txs, height);
        undo := undo - {height};
        blocks := blocks[..height];
      }
    }

    // ---------------------------------------------------------------- mempool.go

    /** readMempoolResourceUsage. */
    method ReadUsage(c: Crypto, ghost k: Confirmed) returns (usage: Usage)
      requires PoolOk(c, k, Mempool()) && ConfirmedOk(c, k)
      ensures usage == UsageOf(rows)
    {
      hide PoolOk, ConfirmedOk;
      var bytes := 0;
      for i := 0 to |rows|
        invariant bytes == UsageOf(rows[..i]).bytes
      {
        assert rows[..i + 1][..i] == rows[..i];
        bytes := bytes + rows[i].size;
      }
      assert rows[..|rows|] == rows;
      UsageCounts(rows);
      InputRowsCounted(c, k, Mempool());
      usage := Usage(|rows|, bytes, |inputs|);
    }

    /** The lookup loop of addMempoolTransactionWithUsage. */
    method LookupInputs(tx: Transaction, height: nat) returns (r: AddResult, utxo: Utxo)
      ensures r.Added? <==> InputsFound(Spending(height), Mempool(), tx.inputs)
      ensures r.Added? ==> utxo == FoundView(Spending(height), Mempool(), tx.inputs)
      ensures !r.Added? ==> LookupFailure(Spending(height), Mempool(), tx.inputs) == FailureOf(r)
    {
      hide LookupSpendable, InputsFound, FoundView, LookupFailure, LookedTo;
      utxo := map[];
      var k, pool := Spending(height), Mempool();
      LookupStarts(k, pool, tx.inputs);
      for i := 0 to |tx.inputs|
        invariant LookedTo(k, pool, tx.inputs, i, utxo)
      {
        var outpoint := Spends(tx.inputs[i]);
        var found := LookupSpendable(k, pool, outpoint);
        if !found.Found? {
          LookupStops(k, pool, tx.inputs, i, utxo);
          return if found.Unavailable? then Rejection(Rejected) else StorageFault, utxo;
        }
        LookupContinues(k, pool, tx.inputs, i, utxo);
        utxo := utxo[outpoint := found.output];
      }
      LookupEnds(k, pool, tx.inputs, utxo);
      r := Added;
    }

    method IndexInputs(tx: Transaction) returns (ok: bool)
      requires DistinctInputs(tx.inputs)
      modifies this`inputs
      ensures ok <==> Spent(tx.inputs) !! old(inputs).Keys
      ensures ok ==> inputs == old(inputs) + InputRows(tx)
    {
      hide InputRows, Spent, DistinctInputs;
      NoPendingInputs(tx);
      for i := 0 to |tx.inputs|
        invariant Spent(FirstInputs(tx, i).inputs) !! old(inputs).Keys
        invariant inputs == old(inputs) + InputRows(FirstInputs(tx, i))
      {
        var outpoint := Spends(tx.inputs[i]);
        PendingInput(tx, i);
        if outpoint in inputs {
          return false;
        }
        inputs := inputs[outpoint := tx.id];
      }
      assert FirstInputs(tx, |tx.inputs|) == tx;
      ok := true;
    }

    method IndexOutputs(tx: Transaction) returns (ok: bool)
      requires |tx.outputs| <= 0xFFFF_FFFF
      modifies this`outputs
      ensures ok <==> Created(tx) !! old(outputs).Keys
      ensures ok ==> outputs == old(outputs) + OutputsOf(tx)
    {
      hide OutputsOf, Created;
      NoPendingOutputs(tx);
      for index := 0 to |tx.outputs|
        invariant Created(FirstOutputs(tx, index)) !! old(outputs).Keys
        invariant outputs == old(outputs) + OutputsOf(FirstOutputs(tx, index))
      {
        var outpoint := Outpoint(tx.id, index);
        PendingOutput(tx, index);
        if outpoint in outputs {
          return false;
        }
        outputs := outputs[outpoint := tx.outputs[index]];
      }
      assert FirstOutputs(tx, |tx.outputs|) == tx;
      ok := true;
    }

    /** The three INSERTs of an admission. */
    method InsertPending(item: Pending, fee: uint64, size: nat) returns (ok: bool)
      requires DistinctInputs(item.tx.inputs) && |item.tx.outputs| <= 0xFFFF_FFFF && size == EncodedSize(item.tx)
      modifies this`rows, this`inputs, this`outputs, this`nextSequence
      ensures ok <==> PoolKeysFree(old(Mempool()), item.tx)
      ensures ok ==> Mempool() == Append(old(Mempool()), item.tx, item.firstSeen, fee)
    {
      hide EncodedSize, DistinctInputs, Created, Spent, InputRows, OutputsOf;
      if exists i :: 0 <= i < |rows| && rows[i].tx.id == item.tx.id {
        return false;
      }
      rows, nextSequence := rows + [PoolRow(nextSequence, item.firstSeen, fee, size, item.tx)], nextSequence + 1;
      ok := IndexInputs(item.tx);
      if ok {
        ok := IndexOutputs(item.tx);
      }
    }

    /** addMempoolTransactionWithUsage; what is refused leaves every row as it was. */
    method AddMempoolTransaction(c: Crypto, item: Pending, height: nat, usage: Usage)
      returns (r: AddResult, after: Usage)
      requires usage == UsageOf(rows)
      modifies this`rows, this`inputs, this`outputs, this`nextSequence
      ensures match Admit(c, Spending(height), old(Mempool()), item)
        case Admitted(pool) => r == Added && Mempool() == pool && after == UsageOf(rows)
        case Refused(reason) => r == Rejection(reason) && Mempool() == old(Mempool()) && after == usage
        case Faulted => r == StorageFault
    {
      hide RegularFee, EncodedSize, WithinBudget, MinimumRelayFee, Storable, InputsFound, FoundView, LookupFailure,
        PoolKeysFree, Append, UsageOf;
      after := usage;
      var tx := item.tx;
      if tx.coinbase {
        return Rejection(Rejected), after;
      }
      if tx.id in txs || exists i :: 0 <= i < |rows| && rows[i].tx.id == tx.id {
        return Rejection(AlreadyKnown), after;
      }
      var size := EncodedSize(tx);
      if !WithinBudget(usage, size, |tx.inputs|) {
        return Rejection(Rejected), after;
      }
      var found, utxo := LookupInputs(tx, height);
      if !found.Added? {
        return found, after;
      }
      var fee := ValidateRegularTransaction(c, tx, utxo);
      if fee.None? || fee.value < MinimumRelayFee(size) || fee.value > MAX_INT64 || !Storable(tx) {
        return Rejection(Rejected), after;
      }
      RegularLimits(c, tx, utxo);
      var inserted := InsertPending(item, fee.value, size);
      if !inserted {
        return StorageFault, after;
      }
      UsageAfter(old(Mempool()), tx, item.firstSeen, fee.value);
      return Added, Usage(usage.count + 1, usage.bytes + size, usage.inputs + |tx.inputs|);
    }

    /** repopulateMempool: refusals are skipped, a fault aborts. The usage counter runs along. */
    method RepopulateMempool(c: Crypto, pending: seq<Pending>, height: nat) returns (ok: bool)
      requires PoolOk(c, Spending(height), Mempool()) && ConfirmedOk(c, Spending(height))
      modifies this`rows, this`inputs, this`outputs, this`nextSequence
      ensures ok <==> Repopulate(c, Spending(height), old(Mempool()), pending).Some?
      ensures ok ==> Mempool() == Repopulate(c, Spending(height), old(Mempool()), pending).value
    {
      hide Admit, PoolOk, ConfirmedOk, UsageOf;
      var usage := ReadUsage(c, Spending(height));
      ghost var k := Spending(height);
      for n := 0 to |pending|
        invariant usage == UsageOf(rows)
        invariant Repopulate(c, k, Mempool(), pending[n..]) == Repopulate(c, k, old(Mempool()), pending)
      {
        assert pending[n..][0] == pending[n] && pending[n..][1..] == pending[n + 1..];
        var r, after := AddMempoolTransaction(c, pending[n], height, usage);
        if r.StorageFault? {
          return false;
        }
        usage := after;
      }
      assert pending[|pending|..] == [];
      ok := true;
    }

    /** rebuildMempool on the current tip. */
    method RebuildMempool(c: Crypto, extra: seq<Transaction>, now: int64) returns (ok: bool)
      requires |blocks| > 0 && nextSequence > 0 && ConfirmedOk(c, Spending(|blocks|))
      modifies this`rows, this`inputs, this`outputs, this`nextSequence
      ensures ok <==> |blocks| <= MAX_INT64 && Rebuild(c, Spending(|blocks|), old(Mempool()), extra, now).Some?
      ensures ok ==> Mempool() == Rebuild(c, Spending(|blocks|), old(Mempool()), extra, now).value
    {
      hide Repopulate, ConfirmedOk, PoolOk;
      var pendingTransactions := PendingOf(rows);
      if |blocks| - 1 >= MAX_INT64 {
        return false;
      }
      rows, inputs, outputs := [], map[], map[];
      EmptyPoolOk(c, Spending(|blocks|), nextSequence);
      ok := RepopulateMempool(c, Fresh(extra, now) + pendingTransactions, |blocks|);
    }

    // ---------------------------------------------------------------- prune.go

    /** The statements of Prune below the cutoff. */
    method PruneThrough(cutoff: nat)
      modifies this`blocks, this`txs, this`undo, this`prunedThrough
      ensures State() == Prune(old(State()), cutoff) && prunedThrough == cutoff
    {
      blocks := PruneBlocks(blocks, cutoff);
      txs := PruneTxs(txs, cutoff);
      undo := PruneUndo(undo, cutoff);
      prunedThrough := cutoff;
    }
  }
}
