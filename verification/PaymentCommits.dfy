/** internal/node/payment.go, CommitPreparedPayment: a reviewed payment enters the mempool for the reviewed fee or not at all. */
module PaymentCommits {
  import opened Common
  import opened Encoding
  import opened Transactions
  import opened Totals
  import opened Tables
  import opened Headers
  import opened Horizon
  import opened Mempool
  import opened MempoolRules
  import opened Worlds
  import opened Ledgers
  import opened Payments

  /** Signature checks compare the owner of the spent output with the address of the public key. */
  ghost predicate OwnersSign(c: Crypto, owner: Text -> Text) {
    forall tx: Transaction, i: nat, previous | i < |tx.inputs| && c.authorised(tx, i, previous) ::
      previous.address == owner(tx.inputs[i].publicKey)
  }

  lemma AuthorisedInputs(c: Crypto, tx: Transaction, utxo: Utxo)
    requires RegularFee(c, tx, utxo).Some?
    ensures InputsKnown(tx.inputs, utxo)
    ensures forall i | 0 <= i < |tx.inputs| :: c.authorised(tx, i, utxo[Spends(tx.inputs[i])])
  {
  }

  /** Whatever the mempool would admit is spendable by the wallet, and costs what the wallet's own view says. */
  lemma AdmittedFee(c: Crypto, k: Confirmed, pool: Pool, item: Pending, owner: Text -> Text, wallet: Text)
    requires PoolOk(c, k, pool) && ConfirmedOk(c, k) && OwnersSign(c, owner)
    requires forall i | 0 <= i < |item.tx.inputs| :: owner(item.tx.inputs[i].publicKey) == wallet
    requires Admit(c, k, pool, item).Admitted?
    ensures var rows := Admit(c, k, pool, item).pool.rows;
      |rows| > 0 && RegularFee(c, item.tx, SpendableUtxo(k, pool, wallet)) == Some(rows[|rows| - 1].fee)
  {
    hide PoolOk, ConfirmedOk, RegularFee, EncodedSize, LookupSpendable, SpendableUtxo, WithinBudget, PoolKeysFree,
      MinimumRelayFee, Storable;
    var tx := item.tx;
    if !InputsFound(k, pool, tx.inputs) {
      FailureIsRefusal(c, k, pool, tx.inputs);
      assert false;
    }
    var a, b := FoundView(k, pool, tx.inputs), SpendableUtxo(k, pool, wallet);
    AuthorisedInputs(c, tx, a);
    forall i | 0 <= i < |tx.inputs| ensures AgreeAt(a, b, Spends(tx.inputs[i])) {
      var o := Spends(tx.inputs[i]);
      assert o in Spent(tx.inputs);
      SpendableAgreesWithLookup(c, k, pool, wallet, o);
    }
    FeeDependsOnInputs(c, tx, a, b);
  }

  /** The transaction is confirmed or pending. */
  ghost predicate Known(c: Crypto, w: World, id: Text)
    requires Build(c, w.chain).Some?
  {
    id in ConfirmedAt(c, w.chain).ids || id in PoolIds(w.pool.rows)
  }

  /** One pending row for this transaction and this fee was added, and nothing else changed. */
  ghost predicate PaidInto(before: World, after: World, tx: Transaction, fee: uint64) {
    var n := |before.pool.rows|;
    && after == before.(pool := after.pool) && |after.pool.rows| == n + 1 && after.pool.rows[..n] == before.pool.rows
    && after.pool.rows[n].tx == tx && after.pool.rows[n].fee == fee
  }

  lemma LastIsPending(rows: seq<PoolRow>)
    requires |rows| > 0
    ensures rows[|rows| - 1].tx.id in PoolIds(rows)
  {
  }

  lemma AlreadyKnownMeans(c: Crypto, k: Confirmed, pool: Pool, item: Pending)
    requires PoolOk(c, k, pool) && ConfirmedOk(c, k)
    ensures Admit(c, k, pool, item) == Admission.Refused(AlreadyKnown) ==> item.tx.id in k.ids || item.tx.id in PoolIds(pool.rows)
  {
    hide PoolOk, ConfirmedOk, RegularFee, EncodedSize, PoolIds, WithinBudget, InputsFound, PoolKeysFree;
    if !InputsFound(k, pool, item.tx.inputs) {
      FailureIsRefusal(c, k, pool, item.tx.inputs);
    }
  }

  /** What AddTransaction does to a prepared payment, given the wallet's own verdict on its fee. */
  lemma PaymentAdmission(c: Crypto, w: World, tx: Transaction, seen: int64, owner: Text -> Text, wallet: Text,
                         fee: uint64)
    requires WorldOk(c, w) && OwnersSign(c, owner)
    requires forall i | 0 <= i < |tx.inputs| :: owner(tx.inputs[i].publicKey) == wallet
    requires var own := RegularFee(c, tx, SpendableUtxo(ConfirmedAt(c, w.chain), w.pool, wallet)); own.Some? ==> own.value == fee
    ensures var (w1, r) := Exec(c, w, AddTransaction(tx, seen));
      && (r.Committed? ==> Build(c, w1.chain).Some? && PaidInto(w, w1, tx, fee) && Known(c, w1, tx.id))
      && (r == Failed(AlreadyKnownTransaction) ==> w1 == w && Known(c, w1, tx.id))
      && (r.Failed? ==> w1 == w)
  {
    hide PoolOk, ConfirmedOk, ConfirmedAt, Build, Admit, RegularFee, SpendableUtxo, PoolIds;
    var k := ConfirmedAt(c, w.chain);
    ConfirmedIsSound(c, w.chain);
    AdmitKeepsPool(c, k, w.pool, Pending(tx, seen));
    AlreadyKnownMeans(c, k, w.pool, Pending(tx, seen));
    if Admit(c, k, w.pool, Pending(tx, seen)).Admitted? {
      var pool := Admit(c, k, w.pool, Pending(tx, seen)).pool;
      AdmittedFee(c, k, w.pool, Pending(tx, seen), owner, wallet);
      LastIsPending(pool.rows);
    }
  }

  lemma PreparedOwners(c: Crypto, owner: Text -> Text, wallet: Text, to: Text, amount: uint64, tx: Transaction)
    requires PreparedOk(c, owner, wallet, to, amount, tx)
    ensures forall i | 0 <= i < |tx.inputs| :: owner(tx.inputs[i].publicKey) == wallet
  {
  }

  /** What is asked of a payment before the ledger sees it; the wallet's own view must not contradict the fee. */
  ghost predicate Reviewed(c: Crypto, w: World, owner: Text -> Text, active: Text, needsBackup: bool, wallet: Text,
                           to: Text, amount: uint64, fee: uint64, maximumFee: uint64, tx: Transaction)
    requires WorldOk(c, w)
  {
    && ValidAddress(c, wallet) && ValidAddress(c, to) && amount > 0 && 0 < fee <= maximumFee
    && PreparedOk(c, owner, wallet, to, amount, tx) && SameAddress(c, wallet, active) && !needsBackup
    && (var own := RegularFee(c, tx, SpendableUtxo(ConfirmedAt(c, w.chain), w.pool, wallet)); own.Some? ==> own.value == fee)
  }

  /**
    `active` is the wallet in use and `needsBackup` whether it still has to be secured. A payment that newly
    enters the mempool pays exactly the reviewed fee, never more than the reviewed ceiling; and every reviewed payment
    that the ledger admits, or knows already, is committed.
   */
  method CommitPreparedPayment(l: Ledger, owner: Text -> Text, active: Text, needsBackup: bool, expectedWallet: Text, to: Text,
                               amount: uint64, fee: uint64, maximumFee: uint64, tx: Transaction, seen: int64) returns (ok: bool)
    requires l.Valid() && OwnersSign(l.crypto, owner)
    modifies l
    ensures l.Valid() && Build(l.crypto, l.chain).Some?
    ensures ok ==>
      && 0 < fee <= maximumFee && PreparedOk(l.crypto, owner, expectedWallet, to, amount, tx)
      && SameAddress(l.crypto, expectedWallet, active) && !needsBackup && Known(l.crypto, l.Store(), tx.id)
    ensures var r := Exec(l.crypto, old(l.Store()), AddTransaction(tx, seen)).1;
      ok <==>
        && Reviewed(l.crypto, old(l.Store()), owner, active, needsBackup, expectedWallet, to, amount, fee, maximumFee, tx)
        && (r.Committed? || r == Failed(AlreadyKnownTransaction))
    ensures l.Store() == old(l.Store()) || (ok && PaidInto(old(l.Store()), l.Store(), tx, fee))
  {
    hide WorldOk, TablesOf, Build, PreparedOk, ValidAddress, OwnersSign, RegularFee, SpendableUtxo, ExecAdd, PaidInto,
      ConfirmedOk, WindowShape, ChainWork, Represents, HeaderRows, Install, ExecConnect, ExecReplace, ExecDisconnect,
      ExecImport, PrunedHorizon, UsageOf;
    ghost var w := l.Store();
    StorePool(l.crypto, w);
    if !ValidAddress(l.crypto, expectedWallet) || !ValidAddress(l.crypto, to) || amount == 0 || fee == 0 || fee > maximumFee {
      return false;
    }
    var prepared := ValidatePreparedPayment(l.crypto, owner, expectedWallet, to, amount, tx);
    if !prepared || !SameAddress(l.crypto, expectedWallet, active) || needsBackup {
      return false;
    }
    StoreRepresents(l.crypto, w);
    HeldFacts(l.crypto, l.db.State(), l.chain, l.db.prunedThrough);
    var utxo := SpendableUtxo(l.db.Spending(|l.db.blocks|), l.db.Mempool(), expectedWallet);
    var actualFee := ValidateRegularTransaction(l.crypto, tx, utxo);
    if actualFee.Some? && (actualFee.value != fee || actualFee.value > maximumFee) {
      return false;
    }
    PreparedOwners(l.crypto, owner, expectedWallet, to, amount, tx);
    PaymentAdmission(l.crypto, w, tx, seen, owner, expectedWallet, fee);
    var added := l.AddTransaction(tx, seen);
    StorePool(l.crypto, l.Store());
    ok := added.Committed? || added.error == AlreadyKnownTransaction;
  }
}
