/**
  entpay/client_store.go: one payment session and the writes on it. Every write names the revision it was decided
  on and fails when the row has moved on; a payment is journaled once.
 */
module ClientStores {
  import opened Common
  import opened Encoding
  import opened Transactions

  datatype Stage =
    | Received | Inspecting | AwaitingApproval | PreparingPayment | Broadcast | Submitting | Confirming | Fulfilling
    | Verifying | Complete | Invalid | Expired | Rejected | FailedRetryable | FailedTerminal

  datatype ErrorCode = NoError | DeliveryInvalid | OtherError

  datatype Invoice = Invoice(id: nat, merchant: Text, amount: uint64, confirmations: nat, expiresAt: int)

  datatype Delivery = Delivery(receipt: nat, payload: nat, artifact: Option<nat>)

  datatype Trust = Unreviewed | First | Previous | Changed

  /** The columns of a session row that decide what may happen to it. */
  datatype Session = Session(revision: nat, stage: Stage, retryStage: Option<Stage>, error: ErrorCode, redeemed: bool,
                             invoice: Option<Invoice>, feeCeiling: uint64, trust: Trust,
                             transaction: Option<Transaction>, fee: uint64, confirmations: nat,
                             delivery: Option<Delivery>)

  function NewSession(): Session {
    Session(1, Received, None, NoError, false, None, 0, Unreviewed, None, 0, 0, None)
  }

  /** validClientTransition. */
  predicate ValidTransition(from: Stage, to: Stage) {
    match from
    case Received => to in {Inspecting, Invalid, Expired}
    case Inspecting => to in {AwaitingApproval, Invalid, Expired, FailedRetryable}
    case AwaitingApproval => to in {PreparingPayment, Rejected, Expired}
    case PreparingPayment => to in {Broadcast, AwaitingApproval, FailedTerminal}
    case Broadcast => to in {Submitting, FailedRetryable}
    case Submitting => to in {Confirming, Fulfilling, FailedRetryable, FailedTerminal}
    case Confirming => to in {Fulfilling, Verifying, FailedRetryable, FailedTerminal}
    case Fulfilling => to in {Verifying, FailedRetryable, FailedTerminal}
    case Verifying => to in {Complete, FailedRetryable, FailedTerminal}
    case FailedRetryable => to in {Inspecting, Submitting, Confirming, Fulfilling, Verifying}
    case _ => false
  }

  /** A row that exists at exactly this revision. */
  predicate At(row: Option<Session>, revision: nat) {
    row.Some? && row.value.revision == revision
  }

  function Next(s: Session): Session {
    s.(revision := s.revision + 1)
  }

  /** transition. */
  function Transition(row: Option<Session>, revision: nat, to: Stage, error: ErrorCode): (r: Option<Session>)
    ensures r.Some? ==> At(row, revision) && r.value.revision == revision + 1
    ensures r.Some? ==> r.value.invoice == row.value.invoice && r.value.transaction == row.value.transaction && r.value.stage == to
  {
    if revision == 0 || !At(row, revision) || !ValidTransition(row.value.stage, to) then None
    else
      var retry := if to == FailedRetryable then Some(row.value.stage) else None;
      Some(Next(row.value).(stage := to, retryStage := retry, error := error))
  }

  /** TerminateWithoutPayment: never once a payment is journaled. */
  function Terminate(row: Option<Session>, revision: nat, to: Stage, error: ErrorCode): (r: Option<Session>)
    ensures r.Some? ==> At(row, revision) && r.value.revision == revision + 1
    ensures r.Some? ==> r.value.invoice == row.value.invoice && r.value.transaction == row.value.transaction && r.value.stage == to
  {
    if to !in {Rejected, Invalid, Expired} || !At(row, revision) then None
    else if !ValidTransition(row.value.stage, to) || row.value.transaction.Some? then None
    else Some(Next(row.value).(stage := to, error := error))
  }

  /** SaveRedeemedCapsule. */
  function SaveRedeemed(row: Option<Session>, revision: nat): (r: Option<Session>)
    ensures r.Some? ==> At(row, revision) && r.value.revision == revision + 1
    ensures r.Some? ==> r.value.invoice == row.value.invoice && r.value.transaction == row.value.transaction
  {
    if revision == 0 || !At(row, revision) || row.value.stage != Inspecting then None else Some(Next(row.value).(redeemed := true))
  }

  /** SaveReview. */
  function SaveReview(row: Option<Session>, revision: nat, invoice: Invoice, ceiling: uint64, fee: uint64,
                      trust: Trust): (r: Option<Session>)
    ensures r.Some? ==> At(row, revision) && r.value.revision == revision + 1
    ensures r.Some? ==> r.value.transaction == row.value.transaction
  {
    if !At(row, revision) || row.value.stage != Inspecting then None
    else Some(Next(row.value).(stage := AwaitingApproval, error := NoError, invoice := Some(invoice),
                               feeCeiling := ceiling, fee := fee, trust := trust))
  }

  /** ReestablishMerchantTrust. */
  function TrustAgain(row: Option<Session>, revision: nat): (r: Option<Session>)
    ensures r.Some? ==> At(row, revision) && r.value.revision == revision + 1
    ensures r.Some? ==> r.value.invoice == row.value.invoice && r.value.transaction == row.value.transaction
  {
    if revision == 0 || !At(row, revision) || row.value.stage != AwaitingApproval || row.value.trust != Changed then None
    else Some(Next(row.value).(trust := Previous))
  }

  /** JournalPayment: only while preparing, and only once. */
  function Journal(row: Option<Session>, revision: nat, tx: Transaction, fee: uint64): (r: Option<Session>)
    ensures r.Some? ==> At(row, revision) && r.value.revision == revision + 1
    ensures r.Some? ==> r.value.invoice == row.value.invoice && r.value.transaction == Some(tx) && row.value.transaction.None?
  {
    if tx.id == [] || tx.id != ComputeId(tx) || fee == 0 then None
    else if !At(row, revision) || row.value.stage != PreparingPayment || row.value.transaction.Some? then None
    else Some(Next(row.value).(transaction := Some(tx), fee := fee))
  }

  /** SaveConfirmations: an unchanged count writes nothing. */
  function SaveCount(row: Option<Session>, revision: nat, count: nat): (r: Option<Session>)
    ensures r.Some? ==> At(row, revision) && (r == row || r.value.revision == revision + 1)
    ensures r.Some? ==> r.value.invoice == row.value.invoice && r.value.transaction == row.value.transaction
    ensures r.Some? ==> r.value.stage == row.value.stage && r.value.stage in {Confirming, Fulfilling}
  {
    if !At(row, revision) || row.value.stage !in {Confirming, Fulfilling} then None
    else if row.value.confirmations == count then row
    else Some(Next(row.value).(confirmations := count))
  }

  /** SaveDelivery. */
  function SaveDelivery(row: Option<Session>, revision: nat, delivery: Delivery): (r: Option<Session>)
    ensures r.Some? ==> At(row, revision) && r.value.revision == revision + 1
    ensures r.Some? ==> r.value.invoice == row.value.invoice && r.value.transaction == row.value.transaction
  {
    if !At(row, revision) || row.value.stage !in {Confirming, Fulfilling} then None
    else Some(Next(row.value).(stage := Verifying, error := NoError, delivery := Some(delivery)))
  }

  /** Complete. */
  function Completed(row: Option<Session>, revision: nat): (r: Option<Session>)
    ensures r.Some? ==> At(row, revision) && r.value.revision == revision + 1
    ensures r.Some? ==> r.value.invoice == row.value.invoice && r.value.transaction == row.value.transaction
  {
    if !At(row, revision) || row.value.stage != Verifying then None
    else Some(Next(row.value).(stage := Complete, error := NoError))
  }

  /** DeleteSession. */
  predicate Deletable(row: Option<Session>) {
    row.Some? &&
    (row.value.stage in {AwaitingApproval, Complete, Invalid, Expired, Rejected, FailedTerminal}
     || (row.value.stage == FailedRetryable && row.value.transaction.None?))
  }

  /** The sessions table seen by one session. Every method is one SQL statement or transaction. */
  class ClientStore {
    var row: Option<Session>

    constructor ()
      ensures row == Some(NewSession())
    {
      row := Some(NewSession());
    }

    method TransitionTo(revision: nat, to: Stage, error: ErrorCode) returns (r: Option<Session>)
      modifies this
      ensures r == Transition(old(row), revision, to, error) && row == if r.Some? then r else old(row)
    {
      if revision == 0 || row.None? || row.value.revision != revision || !ValidTransition(row.value.stage, to) {
        return None;
      }
      var retryStage: Option<Stage> := None;
      if to == FailedRetryable {
        retryStage := Some(row.value.stage);
      }
      row := Some(row.value.(stage := to, retryStage := retryStage, revision := row.value.revision + 1, error := error));
      return row;
    }

    method TerminateWithoutPayment(revision: nat, to: Stage, error: ErrorCode) returns (r: Option<Session>)
      modifies this
      ensures r == Terminate(old(row), revision, to, error) && row == if r.Some? then r else old(row)
      ensures r.Some? ==> r.value.transaction.None?
    {
      if to != Rejected && to != Invalid && to != Expired {
        return None;
      }
      if row.None? || row.value.revision != revision || !ValidTransition(row.value.stage, to) || row.value.transaction.Some? {
        return None;
      }
      row := Some(row.value.(stage := to, revision := row.value.revision + 1, error := error));
      return row;
    }

    method JournalPayment(revision: nat, tx: Transaction, fee: uint64) returns (r: Option<Session>)
      modifies this
      ensures r == Journal(old(row), revision, tx, fee) && row == if r.Some? then r else old(row)
      ensures old(row).Some? && old(row).value.transaction.Some? ==> row == old(row)
    {
      if tx.id == [] || tx.id != ComputeId(tx) || fee == 0 {
        return None;
      }
      if row.None? || row.value.revision != revision || row.value.stage != PreparingPayment || row.value.transaction.Some? {
        return None;
      }
      row := Some(row.value.(transaction := Some(tx), fee := fee, revision := row.value.revision + 1));
      return row;
    }

    method SaveConfirmations(revision: nat, confirmations: nat) returns (r: Option<Session>)
      modifies this
      ensures r == SaveCount(old(row), revision, confirmations) && row == if r.Some? then r else old(row)
    {
      if row.Some? && row.value.revision == revision && row.value.stage in {Confirming, Fulfilling}
         && row.value.confirmations != confirmations {
        row := Some(row.value.(confirmations := confirmations, revision := row.value.revision + 1));
        return row;
      }
      if row.None? || row.value.revision != revision || (row.value.stage != Confirming && row.value.stage != Fulfilling) {
        return None;
      }
      return row;
    }

    method SaveRedeemedCapsule(revision: nat) returns (r: Option<Session>)
      modifies this
      ensures r == SaveRedeemed(old(row), revision) && row == if r.Some? then r else old(row)
    {
      if revision == 0 || row.None? || row.value.revision != revision || row.value.stage != Inspecting {
        return None;
      }
      row := Some(row.value.(redeemed := true, revision := row.value.revision + 1));
      return row;
    }

    method ReestablishMerchantTrust(revision: nat) returns (r: Option<Session>)
      modifies this
      ensures r == TrustAgain(old(row), revision) && row == if r.Some? then r else old(row)
    {
      if revision == 0 || row.None? || row.value.revision != revision || row.value.stage != AwaitingApproval
         || row.value.trust != Changed {
        return None;
      }
      row := Some(row.value.(trust := Previous, revision := row.value.revision + 1));
      return row;
    }

    method SaveReviewed(revision: nat, invoice: Invoice, ceiling: uint64, fee: uint64, trust: Trust)
      returns (r: Option<Session>)
      modifies this
      ensures r == SaveReview(old(row), revision, invoice, ceiling, fee, trust) && row == if r.Some? then r else old(row)
    {
      if row.None? || row.value.revision != revision || row.value.stage != Inspecting {
        return None;
      }
      row := Some(row.value.(stage := AwaitingApproval, error := NoError, invoice := Some(invoice),
                             feeCeiling := ceiling, fee := fee, trust := trust, revision := row.value.revision + 1));
      return row;
    }

    method SaveDelivered(revision: nat, delivery: Delivery) returns (r: Option<Session>)
      modifies this
      ensures r == SaveDelivery(old(row), revision, delivery) && row == if r.Some? then r else old(row)
    {
      if row.None? || row.value.revision != revision || (row.value.stage != Confirming && row.value.stage != Fulfilling) {
        return None;
      }
      row := Some(row.value.(stage := Verifying, error := NoError, delivery := Some(delivery), revision := row.value.revision + 1));
      return row;
    }

    method CompleteSession(revision: nat) returns (r: Option<Session>)
      modifies this
      ensures r == Completed(old(row), revision) && row == if r.Some? then r else old(row)
    {
      if row.None? || row.value.revision != revision || row.value.stage != Verifying {
        return None;
      }
      row := Some(row.value.(stage := Complete, error := NoError, revision := row.value.revision + 1));
      return row;
    }

    method DeleteSession() returns (ok: bool)
      modifies this
      ensures ok == Deletable(old(row)) && row == if ok then None else old(row)
    {
      ok := Deletable(row);
      if ok {
        row := None;
      }
    }
  }
}
