/** Sums of output amounts over finite maps, the measure every conservation statement is about. */
module Totals {
  import opened Common
  import opened Transactions

  ghost function Total(m: Utxo): nat
    decreases |m|
  {
    if m == map[] then 0 else var o :| o in m; m[o].amount + Total(m - {o})
  }

  lemma {:induction false} TotalRemove(m: Utxo, o: Outpoint)
    requires o in m
    ensures Total(m) == m[o].amount + Total(m - {o})
    decreases |m|
  {
    var p :| p in m && Total(m) == m[p].amount + Total(m - {p});
    if p != o {
      TotalRemove(m - {p}, o);
      TotalRemove(m - {o}, p);
      assert (m - {p}) - {o} == (m - {o}) - {p};
    }
  }

  lemma TotalAdd(m: Utxo, o: Outpoint, output: TxOutput)
    requires o !in m
    ensures Total(m[o := output]) == Total(m) + output.amount
  {
    var next := m[o := output];
    TotalRemove(next, o);
    assert next - {o} == m;
  }

  lemma UnionSplit(a: Utxo, b: Utxo, o: Outpoint)
    requires o in b && o !in a
    ensures o !in a + (b - {o}) && a + b == (a + (b - {o}))[o := b[o]]
  {
  }

  lemma {:induction false} TotalDisjoint(a: Utxo, b: Utxo)
    requires a.Keys !! b.Keys
    ensures Total(a + b) == Total(a) + Total(b)
    decreases |b|
  {
    if b == map[] {
      assert a + b == a;
    } else {
      var o :| o in b;
      var rest := b - {o};
      TotalDisjoint(a, rest);
      TotalRemove(b, o);
      UnionSplit(a, b, o);
      TotalAdd(a + rest, o, b[o]);
    }
  }

  /** Outpoints a list of inputs spends. */
  function Spent(inputs: seq<TxInput>): set<Outpoint> {
    set i | 0 <= i < |inputs| :: Spends(inputs[i])
  }

  /** Outpoints a transaction creates. */
  function Created(tx: Transaction): (r: set<Outpoint>)
    ensures forall o :: o in r <==> o.txid == tx.id && o.index < |tx.outputs|
  {
    var all := set i: uint32 | 0 <= i < Min(|tx.outputs|, 0x1_0000_0000) :: Outpoint(tx.id, i);
    assert forall o: Outpoint | o.txid == tx.id && o.index < |tx.outputs| :: o in all by {
      forall o: Outpoint | o.txid == tx.id && o.index < |tx.outputs| ensures o in all {
        assert o == Outpoint(tx.id, o.index);
      }
    }
    all
  }

  function OutputsOf(tx: Transaction): (r: Utxo)
    ensures r.Keys == Created(tx)
  {
    map o | o in Created(tx) :: tx.outputs[o.index]
  }

  lemma {:induction false} TotalInputs(inputs: seq<TxInput>, utxo: Utxo)
    requires InputsKnown(inputs, utxo) && DistinctInputs(inputs)
    ensures Total(utxo - Spent(inputs)) + InputSum(inputs, utxo) == Total(utxo)
  {
    if |inputs| == 0 {
      assert utxo - Spent(inputs) == utxo;
    } else {
      var front := inputs[..|inputs| - 1];
      var o := Spends(inputs[|inputs| - 1]);
      TotalInputs(front, utxo);
      assert Spent(inputs) == Spent(front) + {o};
      assert o !in Spent(front);
      TotalRemove(utxo - Spent(front), o);
      assert utxo - Spent(front) - {o} == utxo - Spent(inputs);
    }
  }

  lemma {:induction false} TotalOutputs(tx: Transaction)
    requires |tx.outputs| <= 0xFFFF_FFFF
    ensures Total(OutputsOf(tx)) == OutputSum(tx.outputs)
    decreases |tx.outputs|
  {
    if |tx.outputs| == 0 {
      assert OutputsOf(tx) == map[];
    } else {
      var n := |tx.outputs| - 1;
      var front := tx.(outputs := tx.outputs[..n]);
      TotalOutputs(front);
      var o := Outpoint(tx.id, n);
      assert OutputsOf(tx) == OutputsOf(front)[o := tx.outputs[n]];
      TotalAdd(OutputsOf(front), o, tx.outputs[n]);
    }
  }

  lemma RegularLimits(c: Crypto, tx: Transaction, utxo: Utxo)
    requires RegularFee(c, tx, utxo).Some?
    ensures 0 < |tx.inputs| <= 256 && 0 < |tx.outputs| <= 256 && !tx.coinbase
    ensures forall i | 0 <= i < |tx.outputs| :: tx.outputs[i].amount > 0
    ensures InputsKnown(tx.inputs, utxo) && DistinctInputs(tx.inputs)
    ensures EncodedSize(tx) <= MAX_TRANSACTION_BYTES && tx.id == ComputeId(tx)
    ensures OutputSum(tx.outputs) <= InputSum(tx.inputs, utxo)
  {
  }

  /** Spending inputs and creating outputs changes the total by exactly the fee. */
  lemma TotalApply(c: Crypto, tx: Transaction, utxo: Utxo)
    requires RegularFee(c, tx, utxo).Some?
    requires Created(tx) !! (utxo - Spent(tx.inputs)).Keys
    ensures Total(utxo - Spent(tx.inputs) + OutputsOf(tx)) + RegularFee(c, tx, utxo).value == Total(utxo)
  {
    hide RegularShape;
    RegularLimits(c, tx, utxo);
    TotalInputs(tx.inputs, utxo);
    TotalOutputs(tx);
    TotalDisjoint(utxo - Spent(tx.inputs), OutputsOf(tx));
  }
}
