/**
  Paying from a wallet: internal/core/transaction.go, BuildTransaction, and internal/node/payment.go, the automatic
  fee, the checks on a prepared payment and its fee ceiling.
 */
module Payments {
  import opened Common
  import opened Encoding
  import opened Transactions
  import opened Mempool

  const MAX_DER_SIGNATURE_BYTES: int := 72

  /**
    The wallet key: its address, its public key and the signing operation. Signing draws randomness, so the
    signature also depends on `draw`; a low-S DER signature on the curve takes at most 72 bytes.
   */
  datatype Wallet = Wallet(address: Text, publicKey: Text, sign: (nat, Transaction, nat, TxOutput) -> Text)

  function WithoutSignature(input: TxInput): TxInput {
    input.(signature := [])
  }

  /** What is signed: the transaction without identifier and signatures. */
  function Unsigned(tx: Transaction): Transaction {
    tx.(id := [], inputs := seq(|tx.inputs|, i requires 0 <= i < |tx.inputs| => WithoutSignature(tx.inputs[i])))
  }

  ghost predicate SignedBy(w: Wallet, draw: nat, tx: Transaction, i: nat, previous: TxOutput) {
    i < |tx.inputs| && tx.inputs[i].publicKey == w.publicKey && tx.inputs[i].signature == w.sign(draw, Unsigned(tx), i, previous)
  }

  /** A sound wallet: signatures have the sizes they have and authorise spending what the address owns. */
  ghost predicate WalletOk(c: Crypto, w: Wallet) {
    && ValidAddress(c, w.address) && Width(w.publicKey) == PUBLIC_KEY_BYTES
    && (forall draw: nat, tx, i: nat, previous :: 0 < Width(w.sign(draw, tx, i, previous)) <= MAX_DER_SIGNATURE_BYTES)
    && (forall draw: nat, tx, i: nat, previous | SignedBy(w, draw, tx, i, previous) && previous.address == w.address ::
          c.authorised(tx, i, previous))
  }

  // ---------------------------------------------------------------- coins

  ghost function CoinSum(utxo: Utxo, list: seq<Outpoint>): nat
    requires forall i | 0 <= i < |list| :: list[i] in utxo
  {
    if |list| == 0 then 0 else CoinSum(utxo, list[..|list| - 1]) + utxo[list[|list| - 1]].amount
  }

  lemma {:induction false} CoinSumPrefix(utxo: Utxo, list: seq<Outpoint>, n: nat)
    requires (forall i | 0 <= i < |list| :: list[i] in utxo) && n <= |list|
    ensures CoinSum(utxo, list[..n]) <= CoinSum(utxo, list)
  {
    if n == |list| {
      assert list[..n] == list;
    } else {
      assert list[..|list| - 1][..n] == list[..n];
      CoinSumPrefix(utxo, list[..|list| - 1], n);
    }
  }

  /** The wallet's outputs in the order the source sorts them: each once, and none of anyone else's. */
  ghost predicate Candidates(w: Wallet, utxo: Utxo, list: seq<Outpoint>) {
    && (forall i | 0 <= i < |list| :: list[i] in utxo && utxo[list[i]].address == w.address)
    && (forall i, j | 0 <= i < j < |list| :: list[i] != list[j])
    && (forall o | o in utxo && utxo[o].address == w.address :: o in list)
  }

  /** The most coins one payment may gather. */
  function Reach(list: seq<Outpoint>): nat {
    Min(|list|, MAX_TRANSACTION_INPUTS)
  }

  lemma NoCoins(utxo: Utxo, list: seq<Outpoint>)
    ensures CoinSum(utxo, list[..0]) == 0
  {
  }

  lemma OneMoreCoin(utxo: Utxo, list: seq<Outpoint>, n: nat)
    requires (forall i | 0 <= i < |list| :: list[i] in utxo) && n < Reach(list)
    ensures CoinSum(utxo, list[..n + 1]) == CoinSum(utxo, list[..n]) + utxo[list[n]].amount <= CoinSum(utxo, list[..Reach(list)])
  {
    assert list[..n + 1][..n] == list[..n];
    CoinSumPrefix(utxo, list[..Reach(list)], n + 1);
    assert list[..Reach(list)][..n + 1] == list[..n + 1];
  }

  /** The candidate loop: coins are taken in order until they cover `needed`, and not one more. */
  method GatherCoins(w: Wallet, utxo: Utxo, list: seq<Outpoint>, needed: uint64) returns (r: Option<(nat, uint64)>)
    requires Candidates(w, utxo, list) && needed > 0
    ensures r.Some? ==>
      var (n, total) := r.value;
      && 0 < n <= Reach(list) && total == CoinSum(utxo, list[..n]) >= needed && CoinSum(utxo, list[..n - 1]) < needed
    ensures CoinSum(utxo, list[..Reach(list)]) <= MAX_UINT64 ==>
      (r.Some? <==> CoinSum(utxo, list[..Reach(list)]) >= needed)
  {
    hide CoinSum;
    NoCoins(utxo, list);
    var total: uint64 := 0;
    for n := 0 to |list|
      invariant n <= Reach(list) && total == CoinSum(utxo, list[..n]) < needed
    {
      if n >= MAX_TRANSACTION_INPUTS {
        return None;
      }
      OneMoreCoin(utxo, list, n);
      var next := SafeAdd(total, utxo[list[n]].amount);
      if next.None? {
        return None;
      }
      total := next.value;
      if total >= needed {
        return Some((n + 1, total));
      }
    }
    return None;
  }

  // ---------------------------------------------------------------- the transaction

  function PaymentOutputs(w: Wallet, to: Text, amount: uint64, change: uint64): seq<TxOutput> {
    [TxOutput(amount, to)] + if change > 0 then [TxOutput(change, w.address)] else []
  }

  function UnsignedPayment(w: Wallet, coins: seq<Outpoint>, outputs: seq<TxOutput>, nonce: uint64): Transaction {
    Transaction([], false, nonce,
                seq(|coins|, i requires 0 <= i < |coins| => TxInput(coins[i].txid, coins[i].index, w.publicKey, [])), outputs)
  }

  function SignInput(w: Wallet, draw: nat, tx: Transaction, i: nat, previous: TxOutput): TxInput
    requires i < |tx.inputs|
  {
    tx.inputs[i].(signature := w.sign(draw, tx, i, previous))
  }

  /** A signed payment of `amount` to `to`: coins of the wallet go in, the amount and the change come out. */
  ghost predicate IsPayment(w: Wallet, to: Text, amount: uint64, fee: uint64, utxo: Utxo, coins: seq<Outpoint>,
                            change: uint64, draw: nat, tx: Transaction) {
    && 0 < |coins| <= MAX_TRANSACTION_INPUTS
    && (forall i | 0 <= i < |coins| :: coins[i] in utxo && utxo[coins[i]].address == w.address)
    && (forall i, j | 0 <= i < j < |coins| :: coins[i] != coins[j])
    && CoinSum(utxo, coins) == amount + fee + change <= MAX_UINT64
    && !tx.coinbase && tx.id == ComputeId(tx) && tx.outputs == PaymentOutputs(w, to, amount, change)
    && |tx.inputs| == |coins|
    && (forall i | 0 <= i < |coins| :: Spends(tx.inputs[i]) == coins[i] && SignedBy(w, draw, tx, i, utxo[coins[i]]))
  }

  /** The signing loop; every input is signed over the same unsigned transaction. */
  method SignAll(w: Wallet, draw: nat, unsigned: Transaction, utxo: Utxo, coins: seq<Outpoint>)
    returns (tx: Transaction)
    requires |coins| == |unsigned.inputs| && (forall i | 0 <= i < |coins| :: coins[i] in utxo)
    ensures |tx.inputs| == |coins| && tx == unsigned.(inputs := tx.inputs)
    ensures forall i | 0 <= i < |coins| :: tx.inputs[i] == SignInput(w, draw, unsigned, i, utxo[coins[i]])
  {
    var signed: seq<TxInput> := [];
    for i := 0 to |coins|
      invariant |signed| == i
      invariant forall j | 0 <= j < i :: signed[j] == SignInput(w, draw, unsigned, j, utxo[coins[j]])
    {
      signed := signed + [SignInput(w, draw, unsigned, i, utxo[coins[i]])];
    }
    tx := unsigned.(inputs := signed);
  }

  lemma ComputedId(tx: Transaction, id: Text)
    ensures ComputeId(tx.(id := id)) == ComputeId(tx)
  {
  }

  lemma PaymentBuilt(w: Wallet, to: Text, amount: uint64, fee: uint64, utxo: Utxo, coins: seq<Outpoint>,
                     change: uint64, draw: nat, unsigned: Transaction, tx: Transaction)
    requires 0 < |coins| <= MAX_TRANSACTION_INPUTS
    requires forall i | 0 <= i < |coins| :: coins[i] in utxo && utxo[coins[i]].address == w.address
    requires forall i, j | 0 <= i < j < |coins| :: coins[i] != coins[j]
    requires CoinSum(utxo, coins) == amount + fee + change <= MAX_UINT64
    requires exists nonce :: unsigned == UnsignedPayment(w, coins, PaymentOutputs(w, to, amount, change), nonce)
    requires |tx.inputs| == |coins|
    requires tx == unsigned.(inputs := tx.inputs, id := ComputeId(unsigned.(inputs := tx.inputs)))
    requires forall i | 0 <= i < |coins| :: tx.inputs[i] == SignInput(w, draw, unsigned, i, utxo[coins[i]])
    ensures IsPayment(w, to, amount, fee, utxo, coins, change, draw, tx)
  {
    hide ComputeId, CoinSum;
    ComputedId(unsigned.(inputs := tx.inputs), tx.id);
    assert Unsigned(tx) == unsigned;
  }

  /** `draw` and `nonce` are the randomness of this call. */
  method BuildTransaction(c: Crypto, w: Wallet, to: Text, amount: uint64, fee: uint64, utxo: Utxo,
                          list: seq<Outpoint>, draw: nat, nonce: uint64)
    returns (r: Option<Transaction>, ghost coins: seq<Outpoint>, ghost change: uint64)
    requires Candidates(w, utxo, list)
    ensures r.Some? ==> amount > 0 && ValidAddress(c, to) && IsPayment(w, to, amount, fee, utxo, coins, change, draw, r.value)
    ensures CoinSum(utxo, list[..Reach(list)]) <= MAX_UINT64 ==>
      (r.Some? <==> amount > 0 && ValidAddress(c, to) && amount + fee <= CoinSum(utxo, list[..Reach(list)]))
  {
    hide ValidAddress, CoinSum, ComputeId;
    coins, change := [], 0;
    if amount == 0 || !ValidAddress(c, to) {
      return None, coins, change;
    }
    var needed := SafeAdd(amount, fee);
    if needed.None? {
      return None, coins, change;
    }
    var gathered := GatherCoins(w, utxo, list, needed.value);
    if gathered.None? {
      return None, coins, change;
    }
    var (n, total) := gathered.value;
    var left := total - needed.value;
    var unsigned := UnsignedPayment(w, list[..n], PaymentOutputs(w, to, amount, left), nonce);
    var tx := SignAll(w, draw, unsigned, utxo, list[..n]);
    tx := tx.(id := ComputeId(tx));
    coins, change := list[..n], left;
    PaymentBuilt(w, to, amount, fee, utxo, coins, change, draw, unsigned, tx);
    return Some(tx), coins, change;
  }

  // ---------------------------------------------------------------- what a payment is worth

  /** Outpoints as ledgers store them: identifiers are full digests. */
  predicate KnownOutpoints(utxo: Utxo) {
    forall o | o in utxo :: DecodeHash(o.txid).Some?
  }

  lemma DigestWidth(id: Text)
    requires DecodeHash(id).Some?
    ensures Width(id) == 64
  {
  }

  lemma {:induction false} CoinsAreInputs(utxo: Utxo, coins: seq<Outpoint>, inputs: seq<TxInput>)
    requires |coins| == |inputs| && (forall i | 0 <= i < |coins| :: coins[i] in utxo && Spends(inputs[i]) == coins[i])
    ensures InputsKnown(inputs, utxo) && InputSum(inputs, utxo) == CoinSum(utxo, coins)
  {
    if |coins| > 0 {
      CoinsAreInputs(utxo, coins[..|coins| - 1], inputs[..|inputs| - 1]);
    }
  }

  lemma OutputsAddUp(c: Crypto, w: Wallet, to: Text, amount: uint64, change: uint64)
    requires amount > 0 && ValidAddress(c, to) && ValidAddress(c, w.address) && amount + change <= MAX_UINT64
    ensures var outputs := PaymentOutputs(w, to, amount, change);
      && 0 < |outputs| <= 2 && OutputSum(outputs) == amount + change && OutputsOk(c, outputs)
      && (forall i | 0 <= i < |outputs| :: Width(outputs[i].address) == ADDRESS_BYTES)
  {
    var outputs := PaymentOutputs(w, to, amount, change);
    var first := [TxOutput(amount, to)];
    assert first[..0] == [];
    assert OutputSum(first) == amount;
    if change > 0 {
      assert outputs[..1] == first;
      assert OutputSum(outputs) == OutputSum(first) + change;
    }
  }

  lemma {:induction false} EncodeOutputsWidth(outputs: seq<TxOutput>)
    requires forall i | 0 <= i < |outputs| :: Width(outputs[i].address) == ADDRESS_BYTES
    ensures Width(EncodeOutputs(outputs)) == 68 * |outputs|
  {
    if |outputs| > 0 {
      EncodeOutputsWidth(outputs[1..]);
      EncodeOutputWidth(outputs[0]);
      WidthConcat(EncodeOutput(outputs[0]), EncodeOutputs(outputs[1..]));
    }
  }

  /** A payment fits the transaction limit whatever it gathers: 256 inputs of at most 229 bytes and two outputs. */
  lemma PaymentSize(c: Crypto, w: Wallet, to: Text, amount: uint64, fee: uint64, utxo: Utxo, coins: seq<Outpoint>,
                    change: uint64, draw: nat, tx: Transaction)
    requires WalletOk(c, w) && KnownOutpoints(utxo) && amount > 0 && ValidAddress(c, to)
    requires IsPayment(w, to, amount, fee, utxo, coins, change, draw, tx)
    ensures 0 < EncodedSize(tx) <= 51 + 229 * |tx.inputs| + 68 * |tx.outputs| <= 58_811
    ensures |tx.outputs| <= 2
  {
    hide ComputeId, CoinSum, DecodeHash, EncodedSize, EncodeInput, ValidAddress;
    OutputsAddUp(c, w, to, amount, change);
    EncodeOutputsWidth(tx.outputs);
    forall i | 0 <= i < |tx.inputs| ensures Width(EncodeInput(tx.inputs[i], true)) <= 229 {
      assert SignedBy(w, draw, tx, i, utxo[coins[i]]);
      DigestWidth(coins[i].txid);
      EncodeInputWidth(tx.inputs[i]);
    }
    EncodeInputsWidth(tx.inputs, 229);
    EncodedSizeParts(tx);
  }

  lemma WalletAddress(c: Crypto, w: Wallet)
    requires WalletOk(c, w)
    ensures ValidAddress(c, w.address)
  {
  }

  lemma PaymentInput(c: Crypto, w: Wallet, utxo: Utxo, coins: seq<Outpoint>, draw: nat, tx: Transaction, i: nat)
    requires WalletOk(c, w) && KnownOutpoints(utxo) && i < |tx.inputs| == |coins| && coins[i] in utxo
    requires utxo[coins[i]].address == w.address && Spends(tx.inputs[i]) == coins[i]
    requires SignedBy(w, draw, tx, i, utxo[coins[i]])
    ensures InputShape(tx.inputs[i]) && c.authorised(tx, i, utxo[coins[i]])
  {
  }

  /** Inputs equal amount plus fee plus change: a built payment validates, and pays exactly the fee it was built for. */
  lemma PaymentIsValid(c: Crypto, w: Wallet, to: Text, amount: uint64, fee: uint64, utxo: Utxo, coins: seq<Outpoint>,
                       change: uint64, draw: nat, tx: Transaction)
    requires WalletOk(c, w) && KnownOutpoints(utxo) && amount > 0 && ValidAddress(c, to)
    requires IsPayment(w, to, amount, fee, utxo, coins, change, draw, tx)
    ensures RegularFee(c, tx, utxo) == Some(fee)
  {
    hide ComputeId, CoinSum, EncodedSize, ValidAddress, OutputsOk, WalletOk, KnownOutpoints;
    PaymentSize(c, w, to, amount, fee, utxo, coins, change, draw, tx);
    WalletAddress(c, w);
    OutputsAddUp(c, w, to, amount, change);
    CoinsAreInputs(utxo, coins, tx.inputs);
    forall i | 0 <= i < |tx.inputs| ensures InputShape(tx.inputs[i]) && c.authorised(tx, i, utxo[Spends(tx.inputs[i])]) {
      PaymentInput(c, w, utxo, coins, draw, tx, i);
    }
  }

  // ---------------------------------------------------------------- the automatic fee

  /** The relay fee of the largest payment. */
  const MAX_PAYMENT_FEE: int := 58_000

  datatype PaymentResult = Built(tx: Transaction, fee: uint64) | Refused | NotConverged

  lemma PaymentFeeBound(size: nat)
    requires 0 < size <= 58_811
    ensures 1_000 <= MinimumRelayFee(size) <= MAX_PAYMENT_FEE && MinimumRelayFee(size) % 1_000 == 0
  {
  }

  /** A fee the loop comes to: the first one, or the relay minimum of a payment built with a lower fee. */
  ghost predicate Tried(w: Wallet, to: Text, amount: uint64, utxo: Utxo, fee: uint64) {
    fee == 1_000
    || (exists tx, lower: uint64, coins, change: uint64, draw :: IsPayment(w, to, amount, lower, utxo, coins, change, draw, tx)
          && lower < fee == MinimumRelayFee(EncodedSize(tx)))
  }

  lemma FirstTried(w: Wallet, to: Text, amount: uint64, utxo: Utxo)
    ensures Tried(w, to, amount, utxo, MinimumRelayFee(1))
  {
  }

  lemma ClimbsTo(w: Wallet, to: Text, amount: uint64, utxo: Utxo, coins: seq<Outpoint>, change: uint64, draw: nat,
                 tx: Transaction, lower: uint64)
    requires IsPayment(w, to, amount, lower, utxo, coins, change, draw, tx)
    requires lower < MinimumRelayFee(EncodedSize(tx)) <= MAX_UINT64
    ensures Tried(w, to, amount, utxo, MinimumRelayFee(EncodedSize(tx)))
  {
    hide EncodedSize, IsPayment, MinimumRelayFee;
  }

  /**
    buildRecommendedPayment. The fee climbs from one relay unit until the payment covers its own relay minimum;
    `draws` is the randomness of the attempts. It never runs out of attempts, and a wallet whose first 256 coins
    cover the amount and the largest fee always gets a payment.
   */
  method BuildRecommendedPayment(c: Crypto, w: Wallet, to: Text, amount: uint64, utxo: Utxo, list: seq<Outpoint>,
                                 draws: nat -> (nat, uint64))
    returns (r: PaymentResult)
    requires WalletOk(c, w) && KnownOutpoints(utxo) && Candidates(w, utxo, list)
    ensures !r.NotConverged?
    ensures r.Built? ==>
      && RegularFee(c, r.tx, utxo) == Some(r.fee) && MinimumRelayFee(EncodedSize(r.tx)) <= r.fee <= MAX_PAYMENT_FEE
      && r.fee % 1_000 == 0
      && (exists coins, change, draw :: IsPayment(w, to, amount, r.fee, utxo, coins, change, draw, r.tx))
    ensures r.Built? ==> Tried(w, to, amount, utxo, r.fee)
    ensures CoinSum(utxo, list[..Reach(list)]) <= MAX_UINT64 && r.Refused? ==>
      amount == 0 || !ValidAddress(c, to)
      || (exists fee: uint64 :: Tried(w, to, amount, utxo, fee) && amount + fee > CoinSum(utxo, list[..Reach(list)]))
    ensures amount > 0 && ValidAddress(c, to) && amount + MAX_PAYMENT_FEE <= CoinSum(utxo, list[..Reach(list)]) <= MAX_UINT64 ==> r.Built?
    ensures r.Built? && CoinSum(utxo, list[..Reach(list)]) <= MAX_UINT64 ==> amount + 1_000 <= CoinSum(utxo, list[..Reach(list)])
  {
    hide RegularFee, EncodedSize, ValidAddress, CoinSum, IsPayment, WalletOk, KnownOutpoints, Tried;
    FirstTried(w, to, amount, utxo);
    var fee: uint64 := MinimumRelayFee(1);
    var attempt := 0;
    while true
      invariant 1_000 * (attempt + 1) <= fee <= MAX_PAYMENT_FEE && fee % 1_000 == 0
      invariant Tried(w, to, amount, utxo, fee)
      decreases MAX_PAYMENT_FEE - fee
    {
      var draw := draws(attempt);
      var tx, coins, change := BuildTransaction(c, w, to, amount, fee, utxo, list, draw.0, draw.1);
      if tx.None? {
        return PaymentResult.Refused;
      }
      PaymentSize(c, w, to, amount, fee, utxo, coins, change, draw.0, tx.value);
      PaymentFeeBound(EncodedSize(tx.value));
      var required := MinimumRelayFee(EncodedSize(tx.value));
      if fee >= required {
        PaymentIsValid(c, w, to, amount, fee, utxo, coins, change, draw.0, tx.value);
        return Built(tx.value, fee);
      }
      if attempt >= MAX_TRANSACTION_INPUTS {
        return NotConverged;
      }
      ClimbsTo(w, to, amount, utxo, coins, change, draw.0, tx.value, fee);
      fee := required;
      attempt := attempt + 1;
    }
  }

  // ---------------------------------------------------------------- review and commit

  function ConservativeFeeCeiling(tx: Transaction, estimated: uint64): nat {
    Max(estimated, MinimumRelayFee(EncodedSize(tx) + |tx.inputs| * 8 + 32))
  }

  /** Same shape, other randomness: what a second build of the same payment may look like. */
  predicate Resigned(a: Transaction, b: Transaction) {
    && |b.inputs| == |a.inputs| && b.outputs == a.outputs
    && (forall i | 0 <= i < |a.inputs| ::
          && b.inputs[i].txid == a.inputs[i].txid && b.inputs[i].publicKey == a.inputs[i].publicKey
          && Width(b.inputs[i].signature) <= Width(a.inputs[i].signature) + 8)
  }

  lemma {:induction false} ResignedWidth(a: seq<TxInput>, b: seq<TxInput>)
    requires |a| == |b|
    requires forall i | 0 <= i < |a| :: Width(EncodeInput(b[i], true)) <= Width(EncodeInput(a[i], true)) + 8
    ensures Width(EncodeInputs(b, true)) <= Width(EncodeInputs(a, true)) + 8 * |a|
  {
    hide EncodeInput, Width;
    if |a| > 0 {
      ResignedWidth(a[1..], b[1..]);
      WidthConcat(EncodeInput(a[0], true), EncodeInputs(a[1..], true));
      WidthConcat(EncodeInput(b[0], true), EncodeInputs(b[1..], true));
    } else {
      assert EncodeInputs(a, true) == EncodeInputs(b, true) == [];
    }
  }

  /** The reviewed ceiling covers the relay fee of every build whose signatures are at most eight bytes longer. */
  lemma CeilingCovers(a: Transaction, b: Transaction, estimated: uint64)
    requires Resigned(a, b)
    ensures MinimumRelayFee(EncodedSize(b)) <= ConservativeFeeCeiling(a, estimated)
    ensures estimated <= ConservativeFeeCeiling(a, estimated)
  {
    hide EncodedSize, EncodeInput, Width;
    forall i | 0 <= i < |a.inputs| ensures Width(EncodeInput(b.inputs[i], true)) <= Width(EncodeInput(a.inputs[i], true)) + 8 {
      EncodeInputWidth(a.inputs[i]);
      EncodeInputWidth(b.inputs[i]);
    }
    ResignedWidth(a.inputs, b.inputs);
    EncodedSizeParts(a);
    EncodedSizeParts(b);
  }

  /** The ceiling is no higher than it has to be: the estimate, or the relay fee of a build just so much longer. */
  lemma CeilingIsTight(a: Transaction, estimated: uint64)
    ensures var ceiling := ConservativeFeeCeiling(a, estimated);
      ceiling == estimated || 1_024 * (ceiling - 1_000) < 1_000 * (EncodedSize(a) + 8 * |a.inputs| + 32)
  {
    hide EncodedSize;
  }

  /** core.AddressesEqual on canonical addresses. */
  predicate SameAddress(c: Crypto, a: Text, b: Text) {
    ValidAddress(c, a) && ValidAddress(c, b) && a == b
  }

  function PaysInvoice(c: Crypto, output: TxOutput, to: Text, amount: uint64): bool {
    SameAddress(c, output.address, to) && output.amount == amount
  }

  function InvoiceOutputs(c: Crypto, outputs: seq<TxOutput>, to: Text, amount: uint64): nat {
    if |outputs| == 0 then 0
    else
      var last := if PaysInvoice(c, outputs[|outputs| - 1], to, amount) then 1 else 0;
      InvoiceOutputs(c, outputs[..|outputs| - 1], to, amount) + last
  }

  /** What a prepared payment must be: exactly one invoice output, otherwise change, and inputs of the wallet only. */
  predicate PreparedOk(c: Crypto, owner: Text -> Text, wallet: Text, to: Text, amount: uint64, tx: Transaction) {
    && !tx.coinbase && tx.id != [] && tx.id == ComputeId(tx) && |tx.inputs| > 0
    && (forall i | 0 <= i < |tx.outputs| ::
          PaysInvoice(c, tx.outputs[i], to, amount) || SameAddress(c, tx.outputs[i].address, wallet))
    && InvoiceOutputs(c, tx.outputs, to, amount) == 1
    && (forall i | 0 <= i < |tx.inputs| :: SameAddress(c, owner(tx.inputs[i].publicKey), wallet))
  }

  /** validatePreparedPayment. `owner` is the address of a public key. */
  method ValidatePreparedPayment(c: Crypto, owner: Text -> Text, wallet: Text, to: Text, amount: uint64,
                                 tx: Transaction) returns (ok: bool)
    ensures ok <==> PreparedOk(c, owner, wallet, to, amount, tx)
  {
    hide ComputeId, SameAddress;
    if tx.coinbase || tx.id == [] || tx.id != ComputeId(tx) || |tx.inputs| == 0 {
      return false;
    }
    var merchantOutputs := 0;
    for i := 0 to |tx.outputs|
      invariant merchantOutputs == InvoiceOutputs(c, tx.outputs[..i], to, amount)
      invariant forall j | 0 <= j < i ::
        PaysInvoice(c, tx.outputs[j], to, amount) || SameAddress(c, tx.outputs[j].address, wallet)
    {
      assert tx.outputs[..i + 1][..i] == tx.outputs[..i];
      if PaysInvoice(c, tx.outputs[i], to, amount) {
        merchantOutputs := merchantOutputs + 1;
      } else if !SameAddress(c, tx.outputs[i].address, wallet) {
        return false;
      }
    }
    assert tx.outputs[..|tx.outputs|] == tx.outputs;
    if merchantOutputs != 1 {
      return false;
    }
    for i := 0 to |tx.inputs|
      invariant forall j | 0 <= j < i :: SameAddress(c, owner(tx.inputs[j].publicKey), wallet)
    {
      if !SameAddress(c, owner(tx.inputs[i].publicKey), wallet) {
        return false;
      }
    }
    ok := true;
  }

  lemma IdNotNothing(tx: Transaction)
    requires tx.id == ComputeId(tx)
    ensures tx.id != []
  {
  }

  lemma OneInvoice(c: Crypto, a: TxOutput, to: Text, amount: uint64)
    ensures InvoiceOutputs(c, [a], to, amount) == if PaysInvoice(c, a, to, amount) then 1 else 0
  {
  }

  lemma TwoInvoices(c: Crypto, a: TxOutput, b: TxOutput, to: Text, amount: uint64)
    ensures InvoiceOutputs(c, [a, b], to, amount)
         == InvoiceOutputs(c, [a], to, amount) + if PaysInvoice(c, b, to, amount) then 1 else 0
  {
  }

  /**
    A built payment passes the check before it is committed, with one exception: paying oneself an amount that
    happens to equal the change makes two invoice outputs, and the prepared payment is refused.
   */
  lemma PreparedExactly(c: Crypto, owner: Text -> Text, w: Wallet, to: Text, amount: uint64, fee: uint64, utxo: Utxo, coins: seq<Outpoint>,
                        change: uint64, draw: nat, tx: Transaction)
    requires WalletOk(c, w) && owner(w.publicKey) == w.address && amount > 0 && ValidAddress(c, to)
    requires IsPayment(w, to, amount, fee, utxo, coins, change, draw, tx)
    ensures PreparedOk(c, owner, w.address, to, amount, tx) <==> !(to == w.address && change == amount)
  {
    hide ComputeId, CoinSum, ValidAddress;
    IdNotNothing(tx);
    var pay, rest := TxOutput(amount, to), TxOutput(change, w.address);
    OneInvoice(c, pay, to, amount);
    WalletAddress(c, w);
    assert PaysInvoice(c, pay, to, amount);
    forall i | 0 <= i < |tx.inputs| ensures tx.inputs[i].publicKey == w.publicKey {
      assert SignedBy(w, draw, tx, i, utxo[coins[i]]);
    }
    if change > 0 {
      TwoInvoices(c, pay, rest, to, amount);
      assert tx.outputs == [pay, rest];
      assert PaysInvoice(c, rest, to, amount) <==> to == w.address && change == amount;
    }
  }

  predicate NoneBut(c: Crypto, outputs: seq<TxOutput>, to: Text, amount: uint64, i: int) {
    forall j | 0 <= j < |outputs| && j != i :: !PaysInvoice(c, outputs[j], to, amount)
  }

  predicate OneAt(c: Crypto, outputs: seq<TxOutput>, to: Text, amount: uint64, i: nat) {
    i < |outputs| && PaysInvoice(c, outputs[i], to, amount) && NoneBut(c, outputs, to, amount, i)
  }

  lemma {:induction false} NoInvoiceOutput(c: Crypto, outputs: seq<TxOutput>, to: Text, amount: uint64)
    ensures InvoiceOutputs(c, outputs, to, amount) == 0 <==> NoneBut(c, outputs, to, amount, -1)
    decreases |outputs|
  {
    hide PaysInvoice;
    if |outputs| > 0 {
      var last := |outputs| - 1;
      NoInvoiceOutput(c, outputs[..last], to, amount);
      assert forall j | 0 <= j < last :: outputs[..last][j] == outputs[j];
    }
  }

  lemma {:induction false} OneInvoiceOutput(c: Crypto, outputs: seq<TxOutput>, to: Text, amount: uint64)
    ensures InvoiceOutputs(c, outputs, to, amount) == 1 <==> exists i :: OneAt(c, outputs, to, amount, i)
    decreases |outputs|
  {
    hide PaysInvoice;
    if |outputs| > 0 {
      var last := |outputs| - 1;
      var front := outputs[..last];
      OneInvoiceOutput(c, front, to, amount);
      NoInvoiceOutput(c, front, to, amount);
      assert forall j | 0 <= j < last :: front[j] == outputs[j];
      if PaysInvoice(c, outputs[last], to, amount) {
        assert NoneBut(c, front, to, amount, -1) <==> OneAt(c, outputs, to, amount, last);
      } else {
        assert forall i: nat | i < last :: OneAt(c, outputs, to, amount, i) <==> OneAt(c, front, to, amount, i);
      }
    }
  }

  /** What passes the review spends the wallet's coins, pays the invoice once, and gives all else back to the wallet. */
  lemma PreparedMeans(c: Crypto, owner: Text -> Text, wallet: Text, to: Text, amount: uint64, tx: Transaction)
    requires ValidAddress(c, wallet) && ValidAddress(c, to)
    ensures PreparedOk(c, owner, wallet, to, amount, tx) <==>
      && !tx.coinbase && tx.id == ComputeId(tx) && |tx.inputs| > 0
      && (forall i | 0 <= i < |tx.inputs| :: owner(tx.inputs[i].publicKey) == wallet)
      && (exists i :: 0 <= i < |tx.outputs| && tx.outputs[i] == TxOutput(amount, to)
            && forall j | 0 <= j < |tx.outputs| && j != i :: tx.outputs[j].address == wallet && tx.outputs[j] != tx.outputs[i])
  {
    hide ComputeId, ValidAddress, InvoiceOutputs;
    if tx.id == ComputeId(tx) {
      IdNotNothing(tx);
    }
    OneInvoiceOutput(c, tx.outputs, to, amount);
    forall i | 0 <= i < |tx.outputs|
      ensures PaysInvoice(c, tx.outputs[i], to, amount) <==> tx.outputs[i] == TxOutput(amount, to) {
    }
    if PreparedOk(c, owner, wallet, to, amount, tx) {
      var i: nat :| OneAt(c, tx.outputs, to, amount, i);
      assert tx.outputs[i] == TxOutput(amount, to);
    }
    forall i: nat | i < |tx.outputs| && tx.outputs[i] == TxOutput(amount, to)
        && forall j | 0 <= j < |tx.outputs| && j != i :: tx.outputs[j].address == wallet && tx.outputs[j] != tx.outputs[i]
      ensures OneAt(c, tx.outputs, to, amount, i) {
    }
  }
}
