/**
  internal/core/model.go and internal/core/transaction.go: transactions, their identifiers and the
  checks every transaction must pass.
 */
module Transactions {
  import opened Common
  import opened Encoding

  const MAX_BLOCK_BYTES: int := 0x10_0000
  const MAX_TRANSACTION_BYTES: int := 0x1_0000
  const MAX_BLOCK_TRANSACTIONS: int := 2_000
  const MAX_TRANSACTION_INPUTS: int := 256
  const MAX_TRANSACTION_OUTPUTS: int := 256
  const MAX_PENDING_TRANSACTIONS: int := 5_000
  const ADDRESS_BYTES: int := 52
  const PUBLIC_KEY_BYTES: int := 65
  const MAX_SIGNATURE_BYTES: int := 80

  datatype TxInput = TxInput(txid: Text, index: uint32, publicKey: Text, signature: Text)

  datatype TxOutput = TxOutput(amount: uint64, address: Text)

  datatype Transaction = Transaction(id: Text, coinbase: bool, nonce: uint64, inputs: seq<TxInput>, outputs: seq<TxOutput>)

  datatype Outpoint = Outpoint(txid: Text, index: uint32)

  type Utxo = map<Outpoint, TxOutput>

  /**
    The cryptographic library, as arbitrary functions. `authorised(tx, i, previous)` is the verdict on
    input `i`: its public key hashes to the owner of `previous` and its signature verifies. `checksum` is
    the verdict on an address text of the right length, and `zeroBits` counts the leading zero bits of a digest.
   */
  datatype Crypto = Crypto(authorised: (Transaction, nat, TxOutput) -> bool, checksum: Text -> bool, zeroBits: Hash -> nat)

  predicate ValidAddress(c: Crypto, address: Text) {
    Width(address) == ADDRESS_BYTES && c.checksum(address)
  }

  function NetworkId(): Text {
    [Network]
  }

  function Spends(input: TxInput): Outpoint {
    Outpoint(input.txid, input.index)
  }

  // ---------------------------------------------------------------- encoding

  function EncodeInput(input: TxInput, signatures: bool): seq<Atom> {
    EncodeText(input.txid) + EncodeUint32(input.index) + EncodeText(input.publicKey)
    + (if signatures then EncodeText(input.signature) else [])
  }

  function EncodeInputs(inputs: seq<TxInput>, signatures: bool): seq<Atom> {
    if |inputs| == 0 then [] else EncodeInput(inputs[0], signatures) + EncodeInputs(inputs[1..], signatures)
  }

  function EncodeOutput(output: TxOutput): seq<Atom> {
    EncodeUint64(output.amount) + EncodeText(output.address)
  }

  function EncodeOutputs(outputs: seq<TxOutput>): seq<Atom> {
    if |outputs| == 0 then [] else EncodeOutput(outputs[0]) + EncodeOutputs(outputs[1..])
  }

  function EncodeHead(tx: Transaction): seq<Atom> {
    EncodeText(NetworkId()) + (EncodeBool(tx.coinbase) + EncodeUint64(tx.nonce))
  }

  function EncodeInputList(tx: Transaction, signatures: bool): seq<Atom> {
    BigEndian(|tx.inputs|, 8) + EncodeInputs(tx.inputs, signatures)
  }

  function EncodeOutputList(tx: Transaction): seq<Atom> {
    BigEndian(|tx.outputs|, 8) + EncodeOutputs(tx.outputs)
  }

  function EncodeTransaction(tx: Transaction, signatures: bool): seq<Atom> {
    EncodeHead(tx) + (EncodeInputList(tx, signatures) + EncodeOutputList(tx))
  }

  function ComputeId(tx: Transaction): Text {
    HashHex(EncodeTransaction(tx, true))
  }

  function EncodedSize(tx: Transaction): nat {
    Width(EncodeTransaction(tx, true))
  }

  method WriteInput(e: Encoder, input: TxInput, signatures: bool)
    modifies e
    ensures e.buffer == old(e.buffer) + EncodeInput(input, signatures)
  {
    e.WriteText(input.txid);
    e.WriteUint32(input.index);
    e.WriteText(input.publicKey);
    if signatures {
      e.WriteText(input.signature);
    }
  }

  lemma InputsFrom(inputs: seq<TxInput>, i: nat, signatures: bool)
    requires i < |inputs|
    ensures EncodeInputs(inputs[i..], signatures) == EncodeInput(inputs[i], signatures) + EncodeInputs(inputs[i + 1..], signatures)
  {
  }

  lemma NoInputsLeft(buffer: seq<Atom>, signatures: bool)
    ensures buffer + EncodeInputs([], signatures) == buffer
  {
  }

  method WriteInputs(e: Encoder, inputs: seq<TxInput>, signatures: bool)
    modifies e
    ensures e.buffer == old(e.buffer) + EncodeInputs(inputs, signatures)
  {
    hide EncodeInputs, EncodeInput;
    assert inputs[0..] == inputs;
    for i := 0 to |inputs|
      invariant e.buffer + EncodeInputs(inputs[i..], signatures) == old(e.buffer) + EncodeInputs(inputs, signatures)
    {
      InputsFrom(inputs, i, signatures);
      Assoc(e.buffer, EncodeInput(inputs[i], signatures), EncodeInputs(inputs[i + 1..], signatures));
      WriteInput(e, inputs[i], signatures);
    }
    assert inputs[|inputs|..] == [];
    NoInputsLeft(e.buffer, signatures);
  }

  method WriteOutputs(e: Encoder, outputs: seq<TxOutput>)
    modifies e
    ensures e.buffer == old(e.buffer) + EncodeOutputs(outputs)
  {
    for i := 0 to |outputs|
      invariant e.buffer + EncodeOutputs(outputs[i..]) == old(e.buffer) + EncodeOutputs(outputs)
    {
      ghost var before := e.buffer;
      ghost var tail := EncodeOutputs(outputs[i + 1..]);
      e.WriteUint64(outputs[i].amount);
      e.WriteText(outputs[i].address);
      assert outputs[i..][1..] == outputs[i + 1..];
      assert e.buffer + tail == before + (EncodeOutput(outputs[i]) + tail);
    }
  }

  method WriteHead(e: Encoder, tx: Transaction)
    modifies e
    ensures e.buffer == old(e.buffer) + EncodeHead(tx)
  {
    e.WriteText(NetworkId());
    e.WriteBool(tx.coinbase);
    e.WriteUint64(tx.nonce);
    Assoc(old(e.buffer) + EncodeText(NetworkId()), EncodeBool(tx.coinbase), EncodeUint64(tx.nonce));
    Assoc(old(e.buffer), EncodeText(NetworkId()), EncodeBool(tx.coinbase) + EncodeUint64(tx.nonce));
  }

  method WriteTransaction(e: Encoder, tx: Transaction, signatures: bool)
    modifies e
    ensures e.buffer == old(e.buffer) + EncodeTransaction(tx, signatures)
  {
    WriteHead(e, tx);
    ghost var head := e.buffer;
    e.WriteNumber(|tx.inputs|, 8);
    WriteInputs(e, tx.inputs, signatures);
    Assoc(head, BigEndian(|tx.inputs|, 8), EncodeInputs(tx.inputs, signatures));
    ghost var middle := e.buffer;
    e.WriteNumber(|tx.outputs|, 8);
    WriteOutputs(e, tx.outputs);
    Assoc(middle, BigEndian(|tx.outputs|, 8), EncodeOutputs(tx.outputs));
    Assoc(head, EncodeInputList(tx, signatures), EncodeOutputList(tx));
    Assoc(old(e.buffer), EncodeHead(tx), EncodeInputList(tx, signatures) + EncodeOutputList(tx));
  }

  // ---------------------------------------------------------------- the decoder that inverts it

  function ParseInput(s: seq<Atom>): Parsed<TxInput> {
    match ParseText(s)
    case Malformed => Malformed
    case Parsed(txid, s1) =>
      match ParseNumber(s1, 4)
      case Malformed => Malformed
      case Parsed(index, s2) =>
        match ParseText(s2)
        case Malformed => Malformed
        case Parsed(key, s3) =>
          match ParseText(s3)
          case Malformed => Malformed
          case Parsed(signature, s4) => Parsed(TxInput(txid, index % 0x1_0000_0000, key, signature), s4)
  }

  function ParseInputs(count: nat, s: seq<Atom>): Parsed<seq<TxInput>> {
    if count == 0 then Parsed([], s)
    else match ParseInput(s)
         case Malformed => Malformed
         case Parsed(input, s1) =>
           match ParseInputs(count - 1, s1)
           case Malformed => Malformed
           case Parsed(inputs, s2) => Parsed([input] + inputs, s2)
  }

  function ParseOutput(s: seq<Atom>): Parsed<TxOutput> {
    match ParseNumber(s, 8)
    case Malformed => Malformed
    case Parsed(amount, s1) =>
      match ParseText(s1)
      case Malformed => Malformed
      case Parsed(address, s2) => Parsed(TxOutput(amount % 0x1_0000_0000_0000_0000, address), s2)
  }

  function ParseOutputs(count: nat, s: seq<Atom>): Parsed<seq<TxOutput>> {
    if count == 0 then Parsed([], s)
    else match ParseOutput(s)
         case Malformed => Malformed
         case Parsed(output, s1) =>
           match ParseOutputs(count - 1, s1)
           case Malformed => Malformed
           case Parsed(outputs, s2) => Parsed([output] + outputs, s2)
  }

  function ParseLists(coinbase: bool, nonce: uint64, s: seq<Atom>): Parsed<Transaction> {
    match ParseNumber(s, 8)
    case Malformed => Malformed
    case Parsed(inputCount, s1) =>
      match ParseInputs(inputCount, s1)
      case Malformed => Malformed
      case Parsed(inputs, s2) =>
        match ParseNumber(s2, 8)
        case Malformed => Malformed
        case Parsed(outputCount, s3) =>
          match ParseOutputs(outputCount, s3)
          case Malformed => Malformed
          case Parsed(outputs, s4) => Parsed(Transaction([], coinbase, nonce, inputs, outputs), s4)
  }

  function ParseFields(s: seq<Atom>): Parsed<Transaction> {
    match ParseBool(s)
    case Malformed => Malformed
    case Parsed(coinbase, s1) =>
      match ParseNumber(s1, 8)
      case Malformed => Malformed
      case Parsed(nonce, s2) => ParseLists(coinbase, nonce % 0x1_0000_0000_0000_0000, s2)
  }

  function ParseTransaction(s: seq<Atom>): Parsed<Transaction> {
    match ParseText(s)
    case Malformed => Malformed
    case Parsed(network, s1) => if network != NetworkId() then Malformed else ParseFields(s1)
  }

  predicate InputInMemory(input: TxInput) {
    Sliceable(Width(input.txid)) && Sliceable(Width(input.publicKey)) && Sliceable(Width(input.signature))
  }

  /** Every length in the transaction is one a Go slice can have. */
  predicate InMemory(tx: Transaction) {
    && Sliceable(|tx.inputs|) && Sliceable(|tx.outputs|)
    && (forall i | 0 <= i < |tx.inputs| :: InputInMemory(tx.inputs[i]))
    && (forall i | 0 <= i < |tx.outputs| :: Sliceable(Width(tx.outputs[i].address)))
  }

  lemma InputRoundTrip(input: TxInput, rest: seq<Atom>)
    requires InputInMemory(input)
    ensures ParseInput(EncodeInput(input, true) + rest) == Parsed(input, rest)
  {
    hide EncodeText, ParseText, ParseNumber, BigEndian, Width;
    Pow256Values();
    var s4 := EncodeText(input.signature) + rest;
    var s3 := EncodeText(input.publicKey) + s4;
    var s2 := EncodeUint32(input.index) + s3;
    assert EncodeInput(input, true) + rest == EncodeText(input.txid) + s2;
    TextRoundTrip(input.txid, s2);
    NumberRoundTrip(input.index, 4, s3);
    TextRoundTrip(input.publicKey, s4);
    TextRoundTrip(input.signature, rest);
  }

  lemma {:induction false} InputsRoundTrip(inputs: seq<TxInput>, rest: seq<Atom>)
    requires forall i | 0 <= i < |inputs| :: InputInMemory(inputs[i])
    ensures ParseInputs(|inputs|, EncodeInputs(inputs, true) + rest) == Parsed(inputs, rest)
  {
    if |inputs| == 0 {
      assert EncodeInputs(inputs, true) + rest == rest;
    } else {
      var s := EncodeInputs(inputs[1..], true) + rest;
      assert EncodeInputs(inputs, true) + rest == EncodeInput(inputs[0], true) + s;
      InputRoundTrip(inputs[0], s);
      InputsRoundTrip(inputs[1..], rest);
      assert [inputs[0]] + inputs[1..] == inputs;
    }
  }

  lemma OutputRoundTrip(output: TxOutput, rest: seq<Atom>)
    requires Sliceable(Width(output.address))
    ensures ParseOutput(EncodeOutput(output) + rest) == Parsed(output, rest)
  {
    Pow256Values();
    var s := EncodeText(output.address) + rest;
    assert EncodeOutput(output) + rest == EncodeUint64(output.amount) + s;
    NumberRoundTrip(output.amount, 8, s);
    TextRoundTrip(output.address, rest);
  }

  lemma {:induction false} OutputsRoundTrip(outputs: seq<TxOutput>, rest: seq<Atom>)
    requires forall i | 0 <= i < |outputs| :: Sliceable(Width(outputs[i].address))
    ensures ParseOutputs(|outputs|, EncodeOutputs(outputs) + rest) == Parsed(outputs, rest)
  {
    if |outputs| == 0 {
      assert EncodeOutputs(outputs) + rest == rest;
    } else {
      var s := EncodeOutputs(outputs[1..]) + rest;
      assert EncodeOutputs(outputs) + rest == EncodeOutput(outputs[0]) + s;
      OutputRoundTrip(outputs[0], s);
      OutputsRoundTrip(outputs[1..], rest);
      assert [outputs[0]] + outputs[1..] == outputs;
    }
  }

  lemma ListsRoundTrip(tx: Transaction, rest: seq<Atom>)
    requires InMemory(tx)
    ensures ParseLists(tx.coinbase, tx.nonce, EncodeInputList(tx, true) + (EncodeOutputList(tx) + rest))
         == Parsed(tx.(id := []), rest)
  {
    Pow256Values();
    var s3 := EncodeOutputs(tx.outputs) + rest;
    var s2 := EncodeOutputList(tx) + rest;
    var s1 := EncodeInputs(tx.inputs, true) + s2;
    Assoc(BigEndian(|tx.inputs|, 8), EncodeInputs(tx.inputs, true), s2);
    Assoc(BigEndian(|tx.outputs|, 8), EncodeOutputs(tx.outputs), rest);
    NumberRoundTrip(|tx.inputs|, 8, s1);
    InputsRoundTrip(tx.inputs, s2);
    NumberRoundTrip(|tx.outputs|, 8, s3);
    OutputsRoundTrip(tx.outputs, rest);
  }

  lemma FieldsRoundTrip(coinbase: bool, nonce: uint64, lists: seq<Atom>)
    ensures ParseFields(EncodeBool(coinbase) + (EncodeUint64(nonce) + lists)) == ParseLists(coinbase, nonce, lists)
  {
    hide ParseLists, BigEndian, ReadBigEndian;
    var s1 := EncodeUint64(nonce) + lists;
    BoolRoundTrip(coinbase, s1);
    Pow256Values();
    NumberRoundTrip(nonce, 8, lists);
  }

  lemma TransactionShape(tx: Transaction, rest: seq<Atom>)
    ensures EncodeTransaction(tx, true) + rest
         == EncodeText(NetworkId()) + (EncodeBool(tx.coinbase) + (EncodeUint64(tx.nonce)
            + (EncodeInputList(tx, true) + (EncodeOutputList(tx) + rest))))
  {
  }

  /** The decoder recovers everything the encoder wrote: the transaction without its identifier field. */
  lemma TransactionRoundTrip(tx: Transaction, rest: seq<Atom>)
    requires InMemory(tx)
    ensures ParseTransaction(EncodeTransaction(tx, true) + rest) == Parsed(tx.(id := []), rest)
  {
    var s1 := EncodeBool(tx.coinbase) + (EncodeUint64(tx.nonce)
              + (EncodeInputList(tx, true) + (EncodeOutputList(tx) + rest)));
    TransactionShape(tx, rest);
    TextRoundTrip(NetworkId(), s1);
    FieldsRoundTrip(tx.coinbase, tx.nonce, EncodeInputList(tx, true) + (EncodeOutputList(tx) + rest));
    ListsRoundTrip(tx, rest);
  }

  /** An identifier commits to the whole transaction. */
  lemma IdBindsTransaction(a: Transaction, b: Transaction)
    requires InMemory(a) && InMemory(b)
    requires a.id == ComputeId(a) && b.id == ComputeId(b)
    ensures a.id == b.id <==> a == b
  {
    if a.id == b.id {
      var x, y := EncodeTransaction(a, true), EncodeTransaction(b, true);
      assert HashHex(x)[0].digest.preimage == x && HashHex(y)[0].digest.preimage == y;
      assert x + [] == x && y + [] == y;
      TransactionRoundTrip(a, []);
      TransactionRoundTrip(b, []);
    }
  }

  // ---------------------------------------------------------------- sizes

  lemma {:induction false} EncodeInputsWidth(inputs: seq<TxInput>, limit: nat)
    requires forall i | 0 <= i < |inputs| :: Width(EncodeInput(inputs[i], true)) <= limit
    ensures Width(EncodeInputs(inputs, true)) <= |inputs| * limit
  {
    if |inputs| > 0 {
      EncodeInputsWidth(inputs[1..], limit);
      WidthConcat(EncodeInput(inputs[0], true), EncodeInputs(inputs[1..], true));
    }
  }

  lemma EncodeTextWidth(value: Text)
    ensures Width(EncodeText(value)) == 8 + Width(value)
  {
    BigEndianWidth(Width(value), 8);
    WidthConcat(BigEndian(Width(value), 8), value);
  }

  lemma EncodeInputWidth(input: TxInput)
    ensures Width(EncodeInput(input, true)) == 28 + Width(input.txid) + Width(input.publicKey) + Width(input.signature)
  {
    EncodeTextWidth(input.txid);
    EncodeTextWidth(input.publicKey);
    EncodeTextWidth(input.signature);
    BigEndianWidth(input.index, 4);
    WidthConcat(EncodeText(input.txid), EncodeUint32(input.index));
    WidthConcat(EncodeText(input.txid) + EncodeUint32(input.index), EncodeText(input.publicKey));
    WidthConcat(EncodeText(input.txid) + EncodeUint32(input.index) + EncodeText(input.publicKey), EncodeText(input.signature));
  }

  lemma EncodeOutputWidth(output: TxOutput)
    ensures Width(EncodeOutput(output)) == 16 + Width(output.address)
  {
    BigEndianWidth(output.amount, 8);
    EncodeTextWidth(output.address);
    WidthConcat(EncodeUint64(output.amount), EncodeText(output.address));
  }

  /** The encoded size, as fixed fields plus the two lists. */
  lemma EncodedSizeParts(tx: Transaction)
    ensures EncodedSize(tx) == 51 + Width(EncodeInputs(tx.inputs, true)) + Width(EncodeOutputs(tx.outputs))
  {
    EncodeTextWidth(NetworkId());
    assert Width(EncodeBool(tx.coinbase)) == 1 && Width(NetworkId()) == 18;
    BigEndianWidth(tx.nonce, 8);
    BigEndianWidth(|tx.inputs|, 8);
    BigEndianWidth(|tx.outputs|, 8);
    WidthConcat(EncodeBool(tx.coinbase), EncodeUint64(tx.nonce));
    WidthConcat(EncodeText(NetworkId()), EncodeBool(tx.coinbase) + EncodeUint64(tx.nonce));
    WidthConcat(BigEndian(|tx.inputs|, 8), EncodeInputs(tx.inputs, true));
    WidthConcat(BigEndian(|tx.outputs|, 8), EncodeOutputs(tx.outputs));
    WidthConcat(EncodeInputList(tx, true), EncodeOutputList(tx));
    WidthConcat(EncodeHead(tx), EncodeInputList(tx, true) + EncodeOutputList(tx));
  }

  /** A coinbase with one output to an address has the same size whatever it pays and whatever its nonce. */
  lemma CoinbaseSize(tx: Transaction)
    requires |tx.inputs| == 0 && |tx.outputs| <= 1
    requires forall i | 0 <= i < |tx.outputs| :: Width(tx.outputs[i].address) == ADDRESS_BYTES
    ensures EncodedSize(tx) == 51 + 68 * |tx.outputs|
  {
    EncodedSizeParts(tx);
    if |tx.outputs| == 1 {
      EncodeOutputWidth(tx.outputs[0]);
      assert EncodeOutputs(tx.outputs[1..]) == [];
      assert EncodeOutputs(tx.outputs) == EncodeOutput(tx.outputs[0]);
    }
  }

  // ---------------------------------------------------------------- validation

  ghost function OutputSum(outputs: seq<TxOutput>): nat {
    if |outputs| == 0 then 0 else OutputSum(outputs[..|outputs| - 1]) + outputs[|outputs| - 1].amount
  }

  /** What sumOutputs demands: positive amounts, valid addresses and a total that fits 64 bits. */
  ghost predicate OutputsOk(c: Crypto, outputs: seq<TxOutput>) {
    && (forall i | 0 <= i < |outputs| :: outputs[i].amount > 0 && ValidAddress(c, outputs[i].address))
    && OutputSum(outputs) <= MAX_UINT64
  }

  lemma {:induction false} OutputSumPrefix(outputs: seq<TxOutput>, n: nat)
    requires n <= |outputs|
    ensures OutputSum(outputs[..n]) <= OutputSum(outputs)
  {
    if n == |outputs| {
      assert outputs[..n] == outputs;
    } else {
      var front := outputs[..|outputs| - 1];
      assert front[..n] == outputs[..n];
      OutputSumPrefix(front, n);
    }
  }

  lemma OutputBelowSum(outputs: seq<TxOutput>, n: nat)
    requires n < |outputs|
    ensures outputs[n].amount <= OutputSum(outputs)
  {
  }

  method SumOutputs(c: Crypto, outputs: seq<TxOutput>) returns (r: Option<uint64>)
    ensures r.Some? <==> OutputsOk(c, outputs)
    ensures r.Some? ==> r.value == OutputSum(outputs)
  {
    var total: uint64 := 0;
    for i := 0 to |outputs|
      invariant total == OutputSum(outputs[..i])
      invariant OutputsOk(c, outputs[..i])
    {
      var output := outputs[i];
      OutputSumPrefix(outputs, i + 1);
      assert outputs[..i + 1][..i] == outputs[..i];
      if output.amount == 0 || !ValidAddress(c, output.address) {
        return None;
      }
      var next := SafeAdd(total, output.amount);
      if next.None? {
        return None;
      }
      total := next.value;
    }
    assert outputs[..|outputs|] == outputs;
    return Some(total);
  }

  predicate InputShape(input: TxInput) {
    && DecodeHash(input.txid).Some?
    && Width(input.publicKey) == PUBLIC_KEY_BYTES
    && 0 < Width(input.signature) <= MAX_SIGNATURE_BYTES
  }

  /** The checks on a regular transaction that need no ledger. */
  ghost predicate RegularShape(c: Crypto, tx: Transaction) {
    && !tx.coinbase
    && 0 < |tx.inputs| <= MAX_TRANSACTION_INPUTS
    && 0 < |tx.outputs| <= MAX_TRANSACTION_OUTPUTS
    && (forall i | 0 <= i < |tx.inputs| :: InputShape(tx.inputs[i]))
    && OutputsOk(c, tx.outputs)
    && EncodedSize(tx) <= MAX_TRANSACTION_BYTES
    && tx.id == ComputeId(tx)
  }

  /** No outpoint is spent twice by the transaction. */
  predicate DistinctInputs(inputs: seq<TxInput>) {
    forall i, j | 0 <= i < j < |inputs| :: Spends(inputs[i]) != Spends(inputs[j])
  }

  predicate InputsKnown(inputs: seq<TxInput>, utxo: Utxo) {
    forall i | 0 <= i < |inputs| :: Spends(inputs[i]) in utxo
  }

  ghost function InputSum(inputs: seq<TxInput>, utxo: Utxo): nat
    requires InputsKnown(inputs, utxo)
  {
    if |inputs| == 0 then 0
    else InputSum(inputs[..|inputs| - 1], utxo) + utxo[Spends(inputs[|inputs| - 1])].amount
  }

  ghost predicate InputsOk(c: Crypto, tx: Transaction, utxo: Utxo) {
    && DistinctInputs(tx.inputs)
    && InputsKnown(tx.inputs, utxo)
    && (forall i | 0 <= i < |tx.inputs| :: c.authorised(tx, i, utxo[Spends(tx.inputs[i])]))
  }

  /** The fee of an acceptable regular transaction, and None for one that must be rejected. */
  ghost function RegularFee(c: Crypto, tx: Transaction, utxo: Utxo): (r: Option<uint64>)
    ensures r.Some? ==> InputsKnown(tx.inputs, utxo) && r.value + OutputSum(tx.outputs) == InputSum(tx.inputs, utxo)
  {
    if RegularShape(c, tx) && InputsOk(c, tx, utxo)
       && OutputSum(tx.outputs) <= InputSum(tx.inputs, utxo) <= MAX_UINT64
    then Some(InputSum(tx.inputs, utxo) - OutputSum(tx.outputs)) else None
  }

  lemma {:induction false} InputSumPrefix(inputs: seq<TxInput>, utxo: Utxo, n: nat)
    requires n <= |inputs| && InputsKnown(inputs, utxo)
    ensures InputSum(inputs[..n], utxo) <= InputSum(inputs, utxo)
  {
    if n == |inputs| {
      assert inputs[..n] == inputs;
    } else {
      var front := inputs[..|inputs| - 1];
      assert front[..n] == inputs[..n];
      InputSumPrefix(front, utxo, n);
    }
  }

  /** The input loop of validateRegularTransaction: known, unspent, authorised, and a total that does not overflow. */
  method CheckInputs(c: Crypto, tx: Transaction, utxo: Utxo) returns (r: Option<uint64>)
    ensures r.Some? <==> InputsOk(c, tx, utxo) && InputSum(tx.inputs, utxo) <= MAX_UINT64
    ensures r.Some? ==> r.value == InputSum(tx.inputs, utxo)
  {
    var inputs := tx.inputs;
    var total: uint64 := 0;
    var seen: set<Outpoint> := {};
    for i := 0 to |inputs|
      invariant seen == set j | 0 <= j < i :: Spends(inputs[j])
      invariant DistinctInputs(inputs[..i]) && InputsKnown(inputs[..i], utxo)
      invariant forall j | 0 <= j < i :: c.authorised(tx, j, utxo[Spends(inputs[j])])
      invariant total == InputSum(inputs[..i], utxo)
    {
      var outpoint := Spends(inputs[i]);
      if outpoint in seen || outpoint !in utxo || !c.authorised(tx, i, utxo[outpoint]) {
        return None;
      }
      assert inputs[..i + 1][..i] == inputs[..i];
      assert InputSum(inputs[..i + 1], utxo) == total + utxo[outpoint].amount;
      var next := SafeAdd(total, utxo[outpoint].amount);
      if next.None? {
        if InputsKnown(inputs, utxo) {
          InputSumPrefix(inputs, utxo, i + 1);
        }
        return None;
      }
      total := next.value;
      seen := seen + {outpoint};
    }
    assert inputs[..|inputs|] == inputs;
    return Some(total);
  }

  /** The checks of validateRegularTransaction that come before the ledger is consulted. */
  method CheckShape(c: Crypto, tx: Transaction) returns (r: Option<uint64>)
    ensures r.Some? <==> RegularShape(c, tx)
    ensures r.Some? ==> r.value == OutputSum(tx.outputs)
  {
    if tx.coinbase || |tx.inputs| == 0 || |tx.outputs| == 0 {
      return None;
    }
    if |tx.inputs| > MAX_TRANSACTION_INPUTS || |tx.outputs| > MAX_TRANSACTION_OUTPUTS {
      return None;
    }
    for i := 0 to |tx.inputs|
      invariant forall j | 0 <= j < i :: InputShape(tx.inputs[j])
    {
      if !InputShape(tx.inputs[i]) {
        return None;
      }
    }
    r := SumOutputs(c, tx.outputs);
    if r.None? || EncodedSize(tx) > MAX_TRANSACTION_BYTES || tx.id != ComputeId(tx) {
      return None;
    }
  }

  method ValidateRegularTransaction(c: Crypto, tx: Transaction, utxo: Utxo) returns (r: Option<uint64>)
    ensures r == RegularFee(c, tx, utxo)
  {
    hide RegularShape, InputsOk, InputSum, OutputSum;
    var outputTotal := CheckShape(c, tx);
    if outputTotal.None? {
      return None;
    }
    var total := CheckInputs(c, tx, utxo);
    if total.None? || total.value < outputTotal.value {
      return None;
    }
    return Some(total.value - outputTotal.value);
  }

  /** A coinbase is acceptable when it pays exactly `maximum`, in at most one output. */
  ghost predicate CoinbaseOk(c: Crypto, tx: Transaction, maximum: nat) {
    && tx.coinbase && |tx.inputs| == 0
    && (|tx.outputs| == 0 ==> maximum == 0)
    && |tx.outputs| <= 1
    && EncodedSize(tx) <= MAX_TRANSACTION_BYTES
    && tx.id == ComputeId(tx)
    && OutputsOk(c, tx.outputs)
    && OutputSum(tx.outputs) == maximum
  }

  method ValidateCoinbase(c: Crypto, tx: Transaction, maximum: uint64) returns (ok: bool)
    ensures ok == CoinbaseOk(c, tx, maximum)
  {
    if !tx.coinbase || |tx.inputs| != 0 || (|tx.outputs| == 0 && maximum != 0) {
      return false;
    }
    if |tx.outputs| > 1 || EncodedSize(tx) > MAX_TRANSACTION_BYTES || tx.id != ComputeId(tx) {
      return false;
    }
    var total := SumOutputs(c, tx.outputs);
    return total.Some? && total.value == maximum;
  }

  predicate AgreeAt(a: Utxo, b: Utxo, o: Outpoint) {
    (o in a <==> o in b) && (o in a ==> a[o] == b[o])
  }

  lemma {:induction false} InputSumAgrees(inputs: seq<TxInput>, a: Utxo, b: Utxo)
    requires InputsKnown(inputs, a)
    requires forall i | 0 <= i < |inputs| :: AgreeAt(a, b, Spends(inputs[i]))
    ensures InputsKnown(inputs, b) && InputSum(inputs, a) == InputSum(inputs, b)
  {
    if |inputs| > 0 {
      InputSumAgrees(inputs[..|inputs| - 1], a, b);
    }
  }

  /** Validation looks at the ledger only at the outpoints the transaction spends. */
  lemma {:induction false} FeeDependsOnInputs(c: Crypto, tx: Transaction, a: Utxo, b: Utxo)
    requires forall i | 0 <= i < |tx.inputs| :: AgreeAt(a, b, Spends(tx.inputs[i]))
    ensures RegularFee(c, tx, a) == RegularFee(c, tx, b)
  {
    hide RegularShape, DistinctInputs, OutputSum, InputSum;
    if InputsKnown(tx.inputs, a) {
      InputSumAgrees(tx.inputs, a, b);
    }
    assert InputsKnown(tx.inputs, a) <==> InputsKnown(tx.inputs, b);
  }

  lemma {:induction false} InputWithinList(inputs: seq<TxInput>, i: nat)
    requires i < |inputs|
    ensures Width(EncodeInput(inputs[i], true)) <= Width(EncodeInputs(inputs, true))
  {
    WidthConcat(EncodeInput(inputs[0], true), EncodeInputs(inputs[1..], true));
    if i > 0 {
      InputWithinList(inputs[1..], i - 1);
    }
  }

  lemma {:induction false} OutputWithinList(outputs: seq<TxOutput>, i: nat)
    requires i < |outputs|
    ensures Width(EncodeOutput(outputs[i])) <= Width(EncodeOutputs(outputs))
  {
    WidthConcat(EncodeOutput(outputs[0]), EncodeOutputs(outputs[1..]));
    if i > 0 {
      OutputWithinList(outputs[1..], i - 1);
    }
  }

  /** A validated transaction is small enough to have been in memory, so its identifier commits to it. */
  lemma ValidatedInMemory(tx: Transaction)
    requires EncodedSize(tx) <= MAX_TRANSACTION_BYTES
    requires |tx.inputs| <= MAX_TRANSACTION_INPUTS && |tx.outputs| <= MAX_TRANSACTION_OUTPUTS
    ensures InMemory(tx)
  {
    EncodedSizeParts(tx);
    forall i | 0 <= i < |tx.inputs| ensures InputInMemory(tx.inputs[i]) {
      InputWithinList(tx.inputs, i);
      EncodeInputWidth(tx.inputs[i]);
    }
    forall i | 0 <= i < |tx.outputs| ensures Sliceable(Width(tx.outputs[i].address)) {
      OutputWithinList(tx.outputs, i);
      EncodeOutputWidth(tx.outputs[i]);
    }
  }
}
