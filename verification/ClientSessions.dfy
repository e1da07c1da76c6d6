/**
  entpay/client_manager.go: the operations on one payment session as interleaved steps. Every store write is one
  step, every call to the wallet is one step, a crash may come between any two, and what the merchant and the
  wallet answer is arbitrary. A read of the row that a write then checks by revision is part of that write's step.
 */
module ClientSessions {
  import opened Common
  import opened Encoding
  import opened Transactions
  import opened ClientStores

  datatype MerchantStatus = StillConfirming | Processing | Unknown

  /** Where an operation stands. */
  datatype Step =
    | Preparing
    | Sending(tx: Transaction, fee: uint64)
    | Sent
    | NotSent
    | Continuing
    | Counted(status: MerchantStatus)
    | Checking(delivery: Delivery)
    | Reviewing
    | Recovering

  /** An operation in flight: the session as it last read it, and whether it holds the session's slot. */
  datatype Task = Task(step: Step, session: Session, holds: bool)

  /** `verify` is validateDelivery on the invoice, the transaction identifier and a delivery. */
  datatype Machine = Machine(row: Option<Session>, active: bool, tasks: map<nat, Task>, calls: seq<Transaction>,
                             journal: Option<Transaction>, paid: bool, verify: (Invoice, Text, Delivery) -> bool)

  /** What the world answers to one step. */
  datatype Answer =
    | Success
    | Failure
    | Prepared(tx: Transaction, fee: uint64)
    | Delivered(delivery: Delivery)
    | Status(count: nat, status: MerchantStatus)
    | BadReply
    | Reviewed(invoice: Invoice, ceiling: uint64, fee: uint64, trust: Trust)
    | Unacceptable(stage: Stage)

  /** `Abort` ends one operation between two steps: its context is cancelled, or a read after a write fails. */
  datatype Event =
    | Approve(task: nat, revision: nat, expired: bool, ready: bool)
    | Continue(task: nat)
    | Retry(task: nat, revision: nat)
    | Recover(task: nat)
    | Reject(revision: nat)
    | ReestablishTrust(revision: nat)
    | DeleteSession
    | Abort(task: nat)
    | Crash
    | Proceed(task: nat, answer: Answer)

  function Start(verify: (Invoice, Text, Delivery) -> bool): Machine {
    Machine(Some(NewSession()), false, map[], [], None, false, verify)
  }

  // ---------------------------------------------------------------- steps

  function End(m: Machine, t: nat): (r: Machine)
    requires t in m.tasks
    ensures t !in r.tasks && r.row == m.row && r.verify == m.verify && r.journal == m.journal
  {
    m.(tasks := m.tasks - {t}, active := if m.tasks[t].holds then false else m.active)
  }

  /** A store write: the operation goes on with the row it wrote, or ends; a refused write ends it. */
  function Write(m: Machine, t: nat, r: Option<Session>, next: Option<Step>): (m1: Machine)
    requires t in m.tasks
    ensures m1.row == (if r.Some? then r else m.row) && m1.verify == m.verify && m1.calls == m.calls
    ensures m1.journal == m.journal
  {
    if r.None? then End(m, t)
    else if next.None? then End(m.(row := r), t)
    else m.(row := r, tasks := m.tasks[t := Task(next.value, r.value, m.tasks[t].holds)])
  }

  /** fail: without a payment an invalid or expired session is closed for good, otherwise it is an ordinary transition. */
  function Fail(row: Option<Session>, s: Session, to: Stage, error: ErrorCode): (r: Option<Session>)
    ensures r.Some? ==> At(row, s.revision) && r.value.revision == s.revision + 1
  {
    if to in {Invalid, Expired} && s.transaction.None? then Terminate(row, s.revision, to, error)
    else Transition(row, s.revision, to, error)
  }

  function StepPreparing(m: Machine, t: nat, answer: Answer): Machine
    requires t in m.tasks
  {
    var s := m.tasks[t].session;
    if s.transaction.None? then
      if answer.Prepared? then
        var r := Journal(m.row, s.revision, answer.tx, answer.fee);
        Write(if r.Some? then m.(journal := Some(answer.tx)) else m, t, r, Some(Sending(answer.tx, answer.fee)))
      else Write(m, t, Transition(m.row, s.revision, AwaitingApproval, OtherError), None)
    else if m.row.Some? && m.row.value.transaction.Some? then
      m.(tasks := m.tasks[t := m.tasks[t].(step := Sending(m.row.value.transaction.value, s.fee))])
    else End(m, t)
  }

  /** The one call to CommitPreparedPayment. */
  function StepSending(m: Machine, t: nat, answer: Answer): Machine
    requires t in m.tasks && m.tasks[t].step.Sending?
  {
    m.(calls := m.calls + [m.tasks[t].step.tx], paid := m.paid || answer.Success?,
       tasks := m.tasks[t := m.tasks[t].(step := if answer.Success? then Sent else NotSent)])
  }

  function StepContinuing(m: Machine, t: nat, answer: Answer): Machine
    requires t in m.tasks
  {
    var s := m.tasks[t].session;
    if s.stage == Broadcast then Write(m, t, Transition(m.row, s.revision, Submitting, NoError), Some(Continuing))
    else if s.stage == Submitting then
      if answer.Success? then Write(m, t, Transition(m.row, s.revision, Confirming, NoError), Some(Continuing))
      else Write(m, t, Fail(m.row, s, FailedRetryable, OtherError), None)
    else if s.stage in {Confirming, Fulfilling} then
      match answer
      case Delivered(d) => Write(m, t, SaveDelivery(m.row, s.revision, d), Some(Checking(d)))
      case Status(n, status) => Write(m, t, SaveCount(m.row, s.revision, n), Some(Counted(status)))
      case BadReply => Write(m, t, Fail(m.row, s, FailedTerminal, OtherError), None)
      case _ => Write(m, t, Fail(m.row, s, FailedRetryable, OtherError), None)
    else End(m, t)
  }

  function StepCounted(m: Machine, t: nat): Machine
    requires t in m.tasks && m.tasks[t].step.Counted?
  {
    var s, status := m.tasks[t].session, m.tasks[t].step.status;
    if status == Processing && s.stage == Confirming then
      Write(m, t, Transition(m.row, s.revision, Fulfilling, NoError), Some(Continuing))
    else if status == Unknown then Write(m, t, Fail(m.row, s, FailedTerminal, OtherError), None)
    else m.(tasks := m.tasks[t := m.tasks[t].(step := Continuing)])
  }

  function TransactionId(s: Session): Text {
    if s.transaction.Some? then s.transaction.value.id else []
  }

  /** verifyDelivery; `Failure` is an artifact that could not be saved. */
  function StepChecking(m: Machine, t: nat, answer: Answer): Machine
    requires t in m.tasks && m.tasks[t].step.Checking?
  {
    var s, d := m.tasks[t].session, m.tasks[t].step.delivery;
    if s.invoice.None? || !m.verify(s.invoice.value, TransactionId(s), d) then
      Write(m, t, Fail(m.row, s, FailedRetryable, DeliveryInvalid), None)
    else if d.artifact.Some? && answer.Failure? then
      Write(m, t, Fail(m.row, s, FailedRetryable, OtherError), None)
    else Write(m, t, Completed(m.row, s.revision), None)
  }

  /** inspect: redeem the handoff, then verify the signed invoice and preview the payment. */
  function StepReviewing(m: Machine, t: nat, answer: Answer): Machine
    requires t in m.tasks
  {
    var s := m.tasks[t].session;
    if m.row.None? then End(m, t)
    else if answer.Failure? then Write(m, t, Fail(m.row, s, FailedRetryable, OtherError), None)
    else if !m.row.value.redeemed then
      if answer.Success? then Write(m, t, SaveRedeemed(m.row, s.revision), Some(Reviewing))
      else Write(m, t, Fail(m.row, s, Invalid, OtherError), None)
    else
      match answer
      case Reviewed(invoice, ceiling, fee, trust) => Write(m, t, SaveReview(m.row, s.revision, invoice, ceiling, fee, trust), None)
      case Unacceptable(Expired) => Write(m, t, Fail(m.row, s, Expired, OtherError), None)
      case _ => Write(m, t, Fail(m.row, s, Invalid, OtherError), None)
  }

  function StartContinue(m: Machine, t: nat): Machine {
    if m.active || t in m.tasks || m.row.None? || m.row.value.transaction.None? || m.row.value.invoice.None? then m
    else m.(active := true, tasks := m.tasks[t := Task(Continuing, m.row.value, true)])
  }

  function RetryTarget(s: Session): Option<Stage> {
    if s.error == DeliveryInvalid then Some(Fulfilling) else s.retryStage
  }

  function StartRetry(m: Machine, t: nat, revision: nat): Machine {
    if t in m.tasks || !At(m.row, revision) || m.row.value.stage != FailedRetryable || RetryTarget(m.row.value).None? then m
    else
      var r := Transition(m.row, revision, RetryTarget(m.row.value).value, NoError);
      if r.None? then m
      else
        var s, m1 := r.value, m.(row := r);
        if s.stage == Inspecting then m1.(tasks := m1.tasks[t := Task(Reviewing, s, false)])
        else if s.stage in {Submitting, Confirming, Fulfilling} then StartContinue(m1, t)
        else if s.stage == Verifying && s.invoice.Some? && s.delivery.Some? then
          m1.(tasks := m1.tasks[t := Task(Checking(s.delivery.value), s, false)])
        else m1
  }

  /** One session in the loop of Recover, from the snapshot it read; Receive starts a session the same way. */
  function StepRecovering(m: Machine, t: nat): Machine
    requires t in m.tasks
  {
    var s := m.tasks[t].session;
    match s.stage
    case Received => Write(m, t, Transition(m.row, s.revision, Inspecting, NoError), Some(Reviewing))
    case Inspecting => m.(tasks := m.tasks[t := m.tasks[t].(step := Reviewing)])
    case PreparingPayment => Write(m, t, Transition(m.row, s.revision, AwaitingApproval, OtherError), None)
    case Broadcast => StartContinue(End(m, t), t)
    case Submitting => StartContinue(End(m, t), t)
    case Confirming => StartContinue(End(m, t), t)
    case Fulfilling => StartContinue(End(m, t), t)
    case Verifying =>
      if s.invoice.Some? && s.delivery.Some? then
        m.(tasks := m.tasks[t := m.tasks[t].(step := Checking(s.delivery.value))])
      else End(m, t)
    case FailedRetryable => if s.transaction.Some? then StartRetry(End(m, t), t, s.revision) else End(m, t)
    case _ => End(m, t)
  }

  function StartApprove(m: Machine, t: nat, revision: nat, expired: bool, ready: bool): Machine {
    if m.active || t in m.tasks || !At(m.row, revision) then m
    else
      var s := m.row.value;
      if s.stage != AwaitingApproval || s.invoice.None? || s.trust == Changed then m
      else if expired then
        var r := Transition(m.row, revision, Expired, OtherError);
        if r.Some? then m.(row := r) else m
      else if !ready then m
      else
        var r := Transition(m.row, revision, PreparingPayment, NoError);
        if r.Some? then m.(row := r, active := true, tasks := m.tasks[t := Task(Preparing, r.value, true)]) else m
  }

  function StepTask(m: Machine, t: nat, answer: Answer): Machine
    requires t in m.tasks
  {
    match m.tasks[t].step
    case Preparing => StepPreparing(m, t, answer)
    case Sending(_, _) => StepSending(m, t, answer)
    case Sent => Write(m, t, Transition(m.row, m.tasks[t].session.revision, Broadcast, NoError), None)
    case NotSent => Write(m, t, Transition(m.row, m.tasks[t].session.revision, AwaitingApproval, OtherError), None)
    case Continuing => StepContinuing(m, t, answer)
    case Counted(_) => StepCounted(m, t)
    case Checking(_) => StepChecking(m, t, answer)
    case Reviewing => StepReviewing(m, t, answer)
    case Recovering => StepRecovering(m, t)
  }

  function Apply(m: Machine, e: Event): Machine {
    match e
    case Approve(t, revision, expired, ready) => StartApprove(m, t, revision, expired, ready)
    case Continue(t) => StartContinue(m, t)
    case Retry(t, revision) => StartRetry(m, t, revision)
    case Recover(t) => if t in m.tasks || m.row.None? then m else m.(tasks := m.tasks[t := Task(Recovering, m.row.value, false)])
    case Reject(revision) =>
      var r := Terminate(m.row, revision, Rejected, OtherError);
      if r.Some? then m.(row := r) else m
    case ReestablishTrust(revision) =>
      var r := TrustAgain(m.row, revision);
      if r.Some? then m.(row := r) else m
    case DeleteSession => if Deletable(m.row) then m.(row := None) else m
    case Abort(t) => if t in m.tasks then End(m, t) else m
    case Crash => m.(tasks := map[], active := false)
    case Proceed(t, answer) => if t in m.tasks then StepTask(m, t, answer) else m
  }

  function Run(m: Machine, events: seq<Event>): Machine
    decreases |events|
  {
    if |events| == 0 then m else Run(Apply(m, events[0]), events[1..])
  }

  // ---------------------------------------------------------------- what every run keeps

  /** Stages that only a payment reaches. */
  predicate Paid(stage: Stage) {
    stage in {Broadcast, Submitting, Confirming, Fulfilling, Verifying, Complete, FailedTerminal}
  }

  predicate RetryOk(s: Session, paid: bool) {
    && s.retryStage.Some? && s.retryStage.value in {Inspecting, Submitting, Confirming, Fulfilling, Verifying}
    && (s.retryStage.value == Inspecting ==> s.transaction.None?)
    && (s.retryStage.value != Inspecting ==> s.transaction.Some? && s.invoice.Some? && paid)
    && (s.retryStage.value == Verifying ==> s.delivery.Some?)
    && (s.error == DeliveryInvalid ==> s.retryStage.value == Verifying)
  }

  predicate RowOk(s: Session, m: Machine) {
    && s.revision > 0 && s.transaction == m.journal
    && (s.stage in {Received, Inspecting, Invalid, Rejected} ==> s.transaction.None?)
    && (s.stage in {AwaitingApproval, PreparingPayment} ==> s.invoice.Some?)
    && (Paid(s.stage) ==> s.transaction.Some? && s.invoice.Some? && m.paid)
    && (s.stage == FailedRetryable ==> RetryOk(s, m.paid))
    && (s.stage == Verifying ==> s.delivery.Some?)
    && (s.stage == Complete ==> s.delivery.Some? && m.verify(s.invoice.value, TransactionId(s), s.delivery.value))
  }

  /** A task never knows more than the row, and at the row's revision it knows the row. */
  predicate SnapshotOk(s: Session, row: Option<Session>) {
    row.Some? ==> s.revision <= row.value.revision && (s.revision == row.value.revision ==> s == row.value)
  }

  predicate StepOk(task: Task, m: Machine) {
    match task.step
    case Preparing => task.session.stage == PreparingPayment
    case Sending(tx, _) => m.journal == Some(tx) && task.session.stage == PreparingPayment
    case Sent => m.paid && m.journal.Some? && task.session.stage == PreparingPayment
    case NotSent => task.session.stage == PreparingPayment
    case Counted(_) => task.session.stage in {Confirming, Fulfilling}
    case Checking(d) => task.session.stage == Verifying && task.session.delivery == Some(d) && task.session.invoice.Some?
    case Reviewing => task.session.stage == Inspecting
    case _ => true
  }

  ghost predicate TasksOk(m: Machine) {
    forall t | t in m.tasks :: SnapshotOk(m.tasks[t].session, m.row) && StepOk(m.tasks[t], m)
  }

  ghost predicate Inv(m: Machine) {
    && (m.row.Some? ==> RowOk(m.row.value, m))
    && TasksOk(m)
    && (forall i | 0 <= i < |m.calls| :: m.journal == Some(m.calls[i]))
    && (m.paid ==> |m.calls| > 0)
  }
}
