/**
  internal/ledger/mining.go: the unspent outputs a candidate may spend, the selection of pending transactions
  that fit, and the block candidate.
 */
module Mining {
  import opened Common
  import opened Encoding
  import opened Transactions
  import opened Totals
  import opened Replay
  import opened Mempool
  import opened Priority

  const BLOCK_OVERHEAD: int := 256

  /** mempoolTransactionsFromQuery: the pending rows as the ordering sees them. */
  function MiningItems(rows: seq<PoolRow>): (items: seq<MiningItem>)
    requires forall i | 0 <= i < |rows| :: rows[i].size <= MAX_TRANSACTION_BYTES
    ensures |items| == |rows|
  {
    seq(|rows|, i requires 0 <= i < |rows| => MiningItem(rows[i].tx, rows[i].fee, rows[i].size, rows[i].sequence))
  }

  /** What a candidate has taken so far: outputs created and spent, transactions in order, bytes and fees. */
  datatype Selection = Selection(created: Utxo, spent: set<Outpoint>, selected: seq<Transaction>, size: nat, fees: uint64)

  /** What an outpoint is worth to the next selected transaction. */
  function MiningLookup(k: Confirmed, created: Utxo, spent: set<Outpoint>, o: Outpoint): Option<TxOutput> {
    if o in spent then None
    else if o in created then Some(created[o])
    else if o !in k.coins || k.coins[o].output.amount == 0 then None
    else if k.coins[o].coinbase && !IsCoinbaseMature(k.coins[o].createdHeight, k.height) then None
    else Some(k.coins[o].output)
  }

  predicate MiningInputsFound(k: Confirmed, created: Utxo, spent: set<Outpoint>, inputs: seq<TxInput>) {
    forall i | 0 <= i < |inputs| :: MiningLookup(k, created, spent, Spends(inputs[i])).Some?
  }

  function MiningInputs(k: Confirmed, created: Utxo, spent: set<Outpoint>, inputs: seq<TxInput>): Utxo {
    map o | o in Spent(inputs) && MiningLookup(k, created, spent, o).Some? :: MiningLookup(k, created, spent, o).value
  }

  lemma SpentTwice(inputs: seq<TxInput>, i: nat)
    requires i < |inputs|
    ensures Spends(inputs[i]) in Spent(inputs)
    ensures Spends(inputs[i]) in Spent(inputs[..i]) ==> !DistinctInputs(inputs)
  {
  }

  /** How many leading inputs are neither taken already nor repeated. */
  function FreeInputs(inputs: seq<TxInput>, taken: set<Outpoint>): (n: nat)
    ensures n <= |inputs|
  {
    if |inputs| == 0 then 0
    else
      var front := inputs[..|inputs| - 1];
      var n := FreeInputs(front, taken);
      if n < |front| || Spends(inputs[|inputs| - 1]) in taken + Spent(front) then n else |inputs|
  }

  lemma {:induction false} FirstTaken(inputs: seq<TxInput>, i: nat, taken: set<Outpoint>)
    requires i < |inputs| && FreeInputs(inputs[..i], taken) == i && Spends(inputs[i]) in taken + Spent(inputs[..i])
    ensures FreeInputs(inputs, taken) == i
    decreases |inputs|
  {
    var front := inputs[..|inputs| - 1];
    if i < |front| {
      assert front[..i] == inputs[..i];
      FirstTaken(front, i, taken);
    }
  }

  lemma NoInput(inputs: seq<TxInput>, taken: set<Outpoint>)
    ensures inputs[..0] == [] && Spent(inputs[..0]) == {} && DistinctInputs(inputs[..0])
    ensures FreeInputs(inputs[..0], taken) == 0
  {
  }

  lemma NextInput(inputs: seq<TxInput>, i: nat, taken: set<Outpoint>)
    requires i < |inputs| && DistinctInputs(inputs[..i]) && FreeInputs(inputs[..i], taken) == i
    requires Spends(inputs[i]) !in taken + Spent(inputs[..i])
    ensures Spent(inputs[..i + 1]) == Spent(inputs[..i]) + {Spends(inputs[i])}
    ensures DistinctInputs(inputs[..i + 1]) && FreeInputs(inputs[..i + 1], taken) == i + 1
  {
    var some, more := inputs[..i], inputs[..i + 1];
    assert more[..i] == some && more[i] == inputs[i];
    forall j, n | 0 <= j < n < i + 1 ensures Spends(more[j]) != Spends(more[n]) {
      assert Spends(some[j]) in Spent(some);
    }
  }

  /** The transaction with its first n outputs. */
  function Part(tx: Transaction, n: nat): Transaction
    requires n <= |tx.outputs|
  {
    tx.(outputs := tx.outputs[..n])
  }

  lemma NoPart(tx: Transaction)
    ensures OutputsOf(Part(tx, 0)) == map[]
  {
  }

  lemma NextPart(tx: Transaction, n: nat)
    requires n < |tx.outputs| <= 0xFFFF_FFFF
    ensures var o := Outpoint(tx.id, n);
      && OutputsOf(Part(tx, n + 1)) == OutputsOf(Part(tx, n))[o := tx.outputs[n]]
      && o !in OutputsOf(Part(tx, n)) && o in Created(tx)
  {
  }

  lemma WholePart(tx: Transaction, created: Utxo)
    ensures Part(tx, |tx.outputs|) == tx
    ensures (forall n: uint32 | n < |tx.outputs| :: Outpoint(tx.id, n) !in created) ==> Created(tx) !! created.Keys
  {
  }

  /** The transaction with its outputs up to the first, from `index` on, that exists. */
  function NewFrom(tx: Transaction, index: nat, created: Utxo): Transaction
    requires index <= |tx.outputs| <= 0xFFFF_FFFF
    decreases |tx.outputs| - index
  {
    if index == |tx.outputs| || Outpoint(tx.id, index) in created then Part(tx, index)
    else NewFrom(tx, index + 1, created)
  }

  function NewPart(tx: Transaction, created: Utxo): Transaction
    requires |tx.outputs| <= 0xFFFF_FFFF
  {
    NewFrom(tx, 0, created)
  }

  /** miningUTXOView: the confirmed coins under the outputs created and spent by the selection. */
  class MiningView {
    const confirmed: Confirmed
    var created: Utxo
    var spent: set<Outpoint>

    constructor (k: Confirmed)
      ensures confirmed == k && created == map[] && spent == {}
    {
      confirmed, created, spent := k, map[], {};
    }

    method Inputs(tx: Transaction) returns (r: Option<Utxo>)
      ensures r.Some? <==> MiningInputsFound(confirmed, created, spent, tx.inputs)
      ensures r.Some? ==> r.value == MiningInputs(confirmed, created, spent, tx.inputs)
    {
      var utxo: Utxo := map[];
      for i := 0 to |tx.inputs|
        invariant MiningInputsFound(confirmed, created, spent, tx.inputs[..i])
        invariant utxo == MiningInputs(confirmed, created, spent, tx.inputs[..i])
      {
        var outpoint := Spends(tx.inputs[i]);
        assert Spent(tx.inputs[..i + 1]) == Spent(tx.inputs[..i]) + {outpoint};
        var found := MiningLookup(confirmed, created, spent, outpoint);
        if found.None? {
          return None;
        }
        utxo := utxo[outpoint := found.value];
      }
      assert tx.inputs[..|tx.inputs|] == tx.inputs;
      return Some(utxo);
    }

    /**
      Spends the inputs and adds the outputs. A failure leaves the view part way: spent up to the first input that was
      taken, and with all inputs spent, added up to the first output that exists.
     */
    method Apply(tx: Transaction) returns (ok: bool)
      requires |tx.outputs| <= 0xFFFF_FFFF
      modifies this`created, this`spent
      ensures ok <==> old(DistinctInputs(tx.inputs) && Spent(tx.inputs) !! spent && Created(tx) !! (created - Spent(tx.inputs)).Keys)
      ensures var n := FreeInputs(tx.inputs, old(spent));
        var left := old(created) - Spent(tx.inputs[..n]);
        && spent == old(spent) + Spent(tx.inputs[..n])
        && created == if n < |tx.inputs| then left else left + OutputsOf(NewPart(tx, left))
      ensures ok ==> created == old(created) - Spent(tx.inputs) + OutputsOf(tx) && spent == old(spent) + Spent(tx.inputs)
    {
      hide FreeInputs, NewFrom, Spent, Created, OutputsOf, DistinctInputs;
      assert tx.inputs[..|tx.inputs|] == tx.inputs;
      ok := SpendInputs(tx.inputs);
      if ok {
        ok := AddOutputs(tx);
      }
    }

    method SpendInputs(inputs: seq<TxInput>) returns (ok: bool)
      modifies this`created, this`spent
      ensures var n := FreeInputs(inputs, old(spent));
        && spent == old(spent) + Spent(inputs[..n]) && created == old(created) - Spent(inputs[..n])
        && (ok <==> n == |inputs|)
      ensures ok <==> DistinctInputs(inputs) && Spent(inputs) !! old(spent)
    {
      hide Spent, DistinctInputs, FreeInputs;
      NoInput(inputs, spent);
      for i := 0 to |inputs|
        invariant DistinctInputs(inputs[..i]) && Spent(inputs[..i]) !! old(spent)
        invariant FreeInputs(inputs[..i], old(spent)) == i
        invariant spent == old(spent) + Spent(inputs[..i]) && created == old(created) - Spent(inputs[..i])
      {
        var outpoint := Spends(inputs[i]);
        if outpoint in spent {
          SpentTwice(inputs, i);
          FirstTaken(inputs, i, old(spent));
          return false;
        }
        NextInput(inputs, i, old(spent));
        created := created - {outpoint};
        spent := spent + {outpoint};
      }
      assert inputs[..|inputs|] == inputs;
      ok := true;
    }

    method AddOutputs(tx: Transaction) returns (ok: bool)
      requires |tx.outputs| <= 0xFFFF_FFFF
      modifies this`created
      ensures ok <==> Created(tx) !! old(created).Keys
      ensures created == old(created) + OutputsOf(NewPart(tx, old(created)))
      ensures ok ==> created == old(created) + OutputsOf(tx)
    {
      hide OutputsOf, Created;
      NoPart(tx);
      for index := 0 to |tx.outputs|
        invariant forall n: uint32 | n < index :: Outpoint(tx.id, n) !in old(created)
        invariant created == old(created) + OutputsOf(Part(tx, index))
        invariant NewPart(tx, old(created)) == NewFrom(tx, index, old(created))
      {
        var outpoint := Outpoint(tx.id, index);
        NextPart(tx, index);
        if outpoint in created {
          return false;
        }
        created := created[outpoint := tx.outputs[index]];
      }
      WholePart(tx, old(created));
      ok := true;
    }
  }

  // ---------------------------------------------------------------- selection

  ghost function Take(s: Selection, tx: Transaction, fee: uint64): Selection
    requires s.fees + fee <= MAX_UINT64
  {
    Selection(s.created - Spent(tx.inputs) + OutputsOf(tx), s.spent + Spent(tx.inputs), s.selected + [tx],
              s.size + EncodedSize(tx), s.fees + fee)
  }

  /** One pass of the selection loop; None when the running fee total overflows. */
  ghost function Consider(c: Crypto, k: Confirmed, s: Selection, tx: Transaction): Option<Selection> {
    if |s.selected| >= MAX_BLOCK_TRANSACTIONS - 1 || s.size + EncodedSize(tx) > MAX_BLOCK_BYTES then Some(s)
    else if !MiningInputsFound(k, s.created, s.spent, tx.inputs) then Some(s)
    else match RegularFee(c, tx, MiningInputs(k, s.created, s.spent, tx.inputs))
         case None => Some(s)
         case Some(fee) => if s.fees + fee > MAX_UINT64 then None else Some(Take(s, tx, fee))
  }

  ghost function SelectAll(c: Crypto, k: Confirmed, s: Selection, pending: seq<Transaction>): Option<Selection>
    decreases |pending|
  {
    if |pending| == 0 then Some(s)
    else match Consider(c, k, s, pending[0])
         case None => None
         case Some(next) => SelectAll(c, k, next, pending[1..])
  }

  /** Outputs created by the selection carry identifiers of selected transactions. */
  predicate CreatedBySelected(s: Selection) {
    forall o | o in s.created :: exists i :: 0 <= i < |s.selected| && s.selected[i].id == o.txid
  }

  predicate DistinctIds(txs: seq<Transaction>) {
    forall i, j | 0 <= i < j < |txs| :: txs[i].id != txs[j].id
  }

  /** Selected so far come from the part of the list already passed. */
  predicate SelectedFrom(s: Selection, passed: seq<Transaction>) {
    forall i | 0 <= i < |s.selected| :: s.selected[i] in passed
  }

  lemma FullSelects(c: Crypto, k: Confirmed, s: Selection, pending: seq<Transaction>)
    requires |s.selected| >= MAX_BLOCK_TRANSACTIONS - 1
    ensures SelectAll(c, k, s, pending) == Some(s)
    decreases |pending|
  {
  }

  lemma FoundUnspent(k: Confirmed, created: Utxo, spent: set<Outpoint>, inputs: seq<TxInput>)
    requires MiningInputsFound(k, created, spent, inputs)
    ensures Spent(inputs) !! spent
  {
  }

  lemma CreatedEarlier(s: Selection, pending: seq<Transaction>, n: nat, o: Outpoint)
    requires n < |pending| && DistinctIds(pending) && SelectedFrom(s, pending[..n]) && CreatedBySelected(s)
    requires o in s.created
    ensures o.txid != pending[n].id
  {
  }

  lemma TakeKeeps(s: Selection, tx: Transaction, fee: uint64, passed: seq<Transaction>)
    requires SelectedFrom(s, passed) && CreatedBySelected(s) && s.fees + fee <= MAX_UINT64
    ensures SelectedFrom(Take(s, tx, fee), passed + [tx]) && CreatedBySelected(Take(s, tx, fee))
  {
    hide EncodedSize;
    var next := Take(s, tx, fee);
    forall o | o in next.created ensures exists i :: 0 <= i < |next.selected| && next.selected[i].id == o.txid {
      if o in Created(tx) {
        assert next.selected[|s.selected|].id == o.txid;
      } else {
        var i :| 0 <= i < |s.selected| && s.selected[i].id == o.txid;
        assert next.selected[i].id == o.txid;
      }
    }
  }

  lemma TakeApplies(c: Crypto, k: Confirmed, s: Selection, pending: seq<Transaction>, n: nat, fee: uint64)
    requires n < |pending| && DistinctIds(pending) && SelectedFrom(s, pending[..n]) && CreatedBySelected(s)
    requires MiningInputsFound(k, s.created, s.spent, pending[n].inputs)
    requires RegularFee(c, pending[n], MiningInputs(k, s.created, s.spent, pending[n].inputs)) == Some(fee)
    ensures DistinctInputs(pending[n].inputs) && Spent(pending[n].inputs) !! s.spent
    ensures Created(pending[n]) !! s.created.Keys && |pending[n].outputs| <= 256
    ensures s.fees + fee <= MAX_UINT64 ==>
      SelectedFrom(Take(s, pending[n], fee), pending[..n + 1]) && CreatedBySelected(Take(s, pending[n], fee))
  {
    hide RegularFee, EncodedSize, MiningInputs, MiningInputsFound, SelectedFrom, CreatedBySelected, DistinctIds,
      OutputsOf, Spent, Take;
    var tx := pending[n];
    RegularLimits(c, tx, MiningInputs(k, s.created, s.spent, tx.inputs));
    forall o | o in s.created ensures o.txid != tx.id {
      CreatedEarlier(s, pending, n, o);
    }
    FoundUnspent(k, s.created, s.spent, tx.inputs);
    if s.fees + fee <= MAX_UINT64 {
      TakeKeeps(s, tx, fee, pending[..n]);
      assert pending[..n + 1] == pending[..n] + [tx];
    }
  }

  /** A coinbase paying `amount`; a zero amount has no output. */
  function NewCoinbase(address: Text, nonce: uint64, amount: uint64): Transaction {
    var tx := Transaction([], true, nonce, [], if amount > 0 then [TxOutput(amount, address)] else []);
    tx.(id := ComputeId(tx))
  }

  /** Room is reserved for a coinbase with one output, whatever it will pay. */
  function StartSelection(address: Text, nonce: uint64): Selection {
    Selection(map[], {}, [], BLOCK_OVERHEAD + EncodedSize(NewCoinbase(address, nonce, 1)), 0)
  }

  lemma EmptySelection(s: Selection)
    requires s.selected == [] && s.created == map[]
    ensures SelectedFrom(s, []) && CreatedBySelected(s)
  {
  }

  lemma SelectedLater(s: Selection, pending: seq<Transaction>, n: nat)
    requires n < |pending| && SelectedFrom(s, pending[..n])
    ensures SelectedFrom(s, pending[..n + 1])
  {
  }

  lemma StillDisjoint(tx: Transaction, created: Utxo)
    requires Created(tx) !! created.Keys
    ensures Created(tx) !! (created - Spent(tx.inputs)).Keys
  {
  }

  /** The selection loop of buildMiningCandidateAtTime. */
  method Select(c: Crypto, k: Confirmed, address: Text, nonce: uint64, pending: seq<Transaction>)
    returns (r: Option<Selection>)
    requires DistinctIds(pending)
    ensures r == SelectAll(c, k, StartSelection(address, nonce), pending)
  {
    hide RegularFee, EncodedSize, MiningInputsFound, MiningInputs, CreatedBySelected, SelectedFrom, DistinctIds,
      ComputeId;
    ghost var s := StartSelection(address, nonce);
    EmptySelection(s);
    var view := new MiningView(k);
    var selected: seq<Transaction> := [];
    var encodedSize := BLOCK_OVERHEAD + EncodedSize(NewCoinbase(address, nonce, 1));
    var fees: uint64 := 0;
    for n := 0 to |pending|
      invariant fresh(view) && view.confirmed == k && encodedSize >= 0
      invariant s == Selection(view.created, view.spent, selected, encodedSize, fees)
      invariant SelectAll(c, k, s, pending[n..]) == SelectAll(c, k, StartSelection(address, nonce), pending)
      invariant SelectedFrom(s, pending[..n]) && CreatedBySelected(s)
    {
      if |selected| >= MAX_BLOCK_TRANSACTIONS - 1 {
        FullSelects(c, k, s, pending[n..]);
        return Some(Selection(view.created, view.spent, selected, encodedSize, fees));
      }
      var tx := pending[n];
      assert pending[n..][0] == tx && pending[n..][1..] == pending[n + 1..];
      SelectedLater(s, pending, n);
      var transactionSize := EncodedSize(tx);
      if encodedSize + transactionSize <= MAX_BLOCK_BYTES {
        var inputs := view.Inputs(tx);
        if inputs.Some? {
          var fee := ValidateRegularTransaction(c, tx, inputs.value);
          if fee.Some? {
            TakeApplies(c, k, s, pending, n, fee.value);
            StillDisjoint(tx, view.created);
            var applied := view.Apply(tx);
            assert applied;
            var sum := SafeAdd(fees, fee.value);
            if sum.None? {
              return None;
            }
            s := Take(s, tx, fee.value);
            fees := sum.value;
            selected := selected + [tx];
            encodedSize := encodedSize + transactionSize;
          }
        }
      }
    }
    assert pending[|pending|..] == [];
    return Some(Selection(view.created, view.spent, selected, encodedSize, fees));
  }
}
