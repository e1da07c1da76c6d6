/**
  How sessions end (entpay/client_manager.go): exactly which steps close one, and that none is stranded: after a crash
  at any moment of any history, recovery takes an unfinished session on, and a paid one to its delivery.
 */
module ClientOutcomes {
  import opened Common
  import opened Encoding
  import opened Transactions
  import opened ClientStores
  import opened ClientSessions
  import opened ClientRuns

  // ---------------------------------------------------------------- the steps that stop a session

  predicate Stopped(stage: Stage) {
    stage in {Complete, Invalid, Expired, Rejected, FailedRetryable, FailedTerminal}
  }

  /** Where an answer leaves an operation that still knows the current row, when it leaves it stopped. */
  function Stopping(m: Machine, s: Session, step: Step, answer: Answer): Option<Stage> {
    match step
    case Continuing =>
      if s.stage in {Confirming, Fulfilling} && answer.BadReply? then Some(FailedTerminal)
      else if s.stage in {Confirming, Fulfilling} && !answer.Delivered? && !answer.Status? then Some(FailedRetryable)
      else if s.stage == Submitting && !answer.Success? then Some(FailedRetryable)
      else None
    case Counted(status) => if status == Unknown then Some(FailedTerminal) else None
    case Checking(d) =>
      var kept := d.artifact.Some? ==> !answer.Failure?;
      if s.invoice.Some? && m.verify(s.invoice.value, TransactionId(s), d) && kept then Some(Complete) else Some(FailedRetryable)
    case Reviewing =>
      if answer.Failure? then Some(FailedRetryable)
      else if answer.Success? && !s.redeemed then None
      else if answer.Reviewed? && s.redeemed then None
      else if answer == Unacceptable(Expired) && s.redeemed then Some(Expired)
      else Some(Invalid)
    case _ => None
  }

  /** The stage in which an event stops the session, if it does. */
  function StoppedBy(m: Machine, e: Event): Option<Stage>
    requires m.row.Some?
  {
    var s := m.row.value;
    match e
    case Reject(revision) =>
      if revision == s.revision && s.stage == AwaitingApproval && s.transaction.None? then Some(Rejected) else None
    case Approve(t, revision, expired, ready) =>
      if revision == s.revision && s.stage == AwaitingApproval && expired && s.trust != Changed && !m.active && t !in m.tasks
      then Some(Expired) else None
    case Proceed(t, answer) =>
      if t in m.tasks && m.tasks[t].session == s then Stopping(m, s, m.tasks[t].step, answer) else None
    case _ => None
  }

  /** The row after an event is stopped exactly as foretold, or it is the row of before, or gone, or goes on. */
  ghost predicate StopsAs(before: Option<Session>, after: Option<Session>, stop: Option<Stage>) {
    if stop.Some? then after.Some? && after.value.stage == stop.value
    else after == before || after.None? || !Stopped(after.value.stage)
  }

  lemma ContinuingStops(m: Machine, t: nat, answer: Answer)
    requires Inv(m) && t in m.tasks && m.tasks[t].step.Continuing? && m.row.Some?
    ensures StopsAs(m.row, StepContinuing(m, t, answer).row,
                    if m.tasks[t].session == m.row.value then Stopping(m, m.row.value, Continuing, answer) else None)
  {
    hide TransactionId;
  }

  lemma CountedStops(m: Machine, t: nat)
    requires Inv(m) && t in m.tasks && m.tasks[t].step.Counted? && m.row.Some?
    ensures StopsAs(m.row, StepCounted(m, t).row,
                    if m.tasks[t].session == m.row.value then Stopping(m, m.row.value, m.tasks[t].step, Success) else None)
  {
    hide TransactionId;
  }

  lemma CheckingStops(m: Machine, t: nat, answer: Answer)
    requires Inv(m) && t in m.tasks && m.tasks[t].step.Checking? && m.row.Some?
    ensures StopsAs(m.row, StepChecking(m, t, answer).row,
                    if m.tasks[t].session == m.row.value then Stopping(m, m.row.value, m.tasks[t].step, answer) else None)
  {
  }

  lemma ReviewingStops(m: Machine, t: nat, answer: Answer)
    requires Inv(m) && t in m.tasks && m.tasks[t].step.Reviewing? && m.row.Some?
    ensures StopsAs(m.row, StepReviewing(m, t, answer).row,
                    if m.tasks[t].session == m.row.value then Stopping(m, m.row.value, Reviewing, answer) else None)
  {
    hide TransactionId;
  }

  lemma RecoveringStops(m: Machine, t: nat)
    requires Inv(m) && t in m.tasks && m.row.Some?
    ensures StopsAs(m.row, StepRecovering(m, t).row, None)
  {
    hide TransactionId;
  }

  lemma PreparingStops(m: Machine, t: nat, answer: Answer)
    requires Inv(m) && t in m.tasks && m.row.Some?
    ensures StopsAs(m.row, StepPreparing(m, t, answer).row, None)
  {
    hide TransactionId, ComputeId;
  }

  lemma OtherStops(m: Machine, t: nat, answer: Answer)
    requires Inv(m) && t in m.tasks && m.row.Some? && (m.tasks[t].step in {Sent, NotSent} || m.tasks[t].step.Sending?)
    ensures StopsAs(m.row, StepTask(m, t, answer).row, None)
  {
    hide TransactionId, ComputeId;
  }

  lemma TaskStops(m: Machine, t: nat, answer: Answer)
    requires Inv(m) && t in m.tasks && m.row.Some?
    ensures StopsAs(m.row, StepTask(m, t, answer).row,
                    if m.tasks[t].session == m.row.value then Stopping(m, m.row.value, m.tasks[t].step, answer) else None)
  {
    hide TransactionId, ComputeId, Inv, StepContinuing, StepCounted, StepChecking, StepReviewing, StepRecovering,
      StepPreparing, StepSending, Write, Transition, StopsAs;
    match m.tasks[t].step {
      case Preparing => PreparingStops(m, t, answer);
      case Continuing => ContinuingStops(m, t, answer);
      case Counted(_) => CountedStops(m, t);
      case Checking(_) => CheckingStops(m, t, answer);
      case Reviewing => ReviewingStops(m, t, answer);
      case Recovering => RecoveringStops(m, t);
      case _ => OtherStops(m, t, answer);
    }
  }

  lemma ApprovalStops(m: Machine, t: nat, revision: nat, expired: bool, ready: bool)
    requires Inv(m) && m.row.Some?
    ensures StopsAs(m.row, StartApprove(m, t, revision, expired, ready).row, StoppedBy(m, Approve(t, revision, expired, ready)))
  {
    hide TransactionId, ComputeId, TasksOk;
  }

  lemma RetryStops(m: Machine, t: nat, revision: nat)
    requires m.row.Some?
    ensures StopsAs(m.row, StartRetry(m, t, revision).row, None)
  {
  }

  lemma RejectionStops(m: Machine, revision: nat)
    requires m.row.Some?
    ensures StopsAs(m.row, Apply(m, Reject(revision)).row, StoppedBy(m, Reject(revision)))
  {
  }

  lemma TrustStops(m: Machine, revision: nat)
    requires m.row.Some?
    ensures StopsAs(m.row, Apply(m, ReestablishTrust(revision)).row, None)
  {
  }

  /**
    A session stops exactly when `StoppedBy` says so: failures of the network and of the artifact can be retried, a
    reply that cannot be the merchant's ends the session, and only a verified delivery that was kept completes it.
   */
  lemma StopsExactly(m: Machine, e: Event)
    requires Inv(m) && m.row.Some?
    ensures StopsAs(m.row, Apply(m, e).row, StoppedBy(m, e))
  {
    hide Inv, StepTask, StartApprove, StartRetry, Terminate, TrustAgain, Stopping;
    match e {
      case Approve(t, revision, expired, ready) => ApprovalStops(m, t, revision, expired, ready);
      case Retry(t, revision) => RetryStops(m, t, revision);
      case Reject(revision) => RejectionStops(m, revision);
      case ReestablishTrust(revision) => TrustStops(m, revision);
      case Proceed(t, answer) => if t in m.tasks { TaskStops(m, t, answer); }
      case _ =>
    }
  }

  // ---------------------------------------------------------------- the merchant's progress

  /** Confirming goes over to Fulfilling, or it does not. */
  ghost predicate FulfilsAs(before: Option<Session>, after: Option<Session>, fulfils: bool) {
    before.Some? && before.value.stage == Confirming ==> (after.Some? && after.value.stage == Fulfilling <==> fulfils)
  }

  lemma CountedFulfils(m: Machine, t: nat)
    requires Inv(m) && t in m.tasks && m.tasks[t].step.Counted? && m.row.Some?
    ensures FulfilsAs(m.row, StepCounted(m, t).row, m.tasks[t].session == m.row.value && m.tasks[t].step == Counted(Processing))
  {
    hide TransactionId;
  }

  lemma ContinuingFulfils(m: Machine, t: nat, answer: Answer)
    requires Inv(m) && t in m.tasks && m.row.Some?
    ensures FulfilsAs(m.row, StepContinuing(m, t, answer).row, false)
  {
    hide TransactionId;
  }

  lemma RecoveringFulfils(m: Machine, t: nat)
    requires Inv(m) && t in m.tasks && m.row.Some?
    ensures FulfilsAs(m.row, StepRecovering(m, t).row, false)
  {
    hide TransactionId;
  }

  lemma ReviewingFulfils(m: Machine, t: nat, answer: Answer)
    requires Inv(m) && t in m.tasks && m.row.Some? && m.tasks[t].step.Reviewing?
    ensures FulfilsAs(m.row, StepReviewing(m, t, answer).row, false)
  {
    hide TransactionId;
  }

  lemma OtherFulfils(m: Machine, t: nat, answer: Answer)
    requires Inv(m) && t in m.tasks && m.row.Some? && !m.tasks[t].step.Counted?
    requires m.tasks[t].step !in {Continuing, Recovering, Reviewing}
    ensures FulfilsAs(m.row, StepTask(m, t, answer).row, false)
  {
    hide TransactionId, ComputeId, StepCounted, StepContinuing, StepRecovering, StepReviewing;
  }

  /** A session starts to be fulfilled exactly when a poll that knows its row has heard that the merchant is at it. */
  lemma FulfilsExactly(m: Machine, e: Event)
    requires Inv(m) && m.row.Some? && m.row.value.stage == Confirming
    ensures Apply(m, e).row.Some? && Apply(m, e).row.value.stage == Fulfilling <==>
      e.Proceed? && e.task in m.tasks && m.tasks[e.task] == Task(Counted(Processing), m.row.value, m.tasks[e.task].holds)
  {
    hide Inv, StepContinuing, StepCounted, StepChecking, StepReviewing, StepRecovering, StepPreparing, StepSending,
      Write;
    if e.Proceed? && e.task in m.tasks {
      match m.tasks[e.task].step {
        case Counted(_) => CountedFulfils(m, e.task);
        case Continuing => ContinuingFulfils(m, e.task, e.answer);
        case Recovering => RecoveringFulfils(m, e.task);
        case Reviewing => ReviewingFulfils(m, e.task, e.answer);
        case _ => OtherFulfils(m, e.task, e.answer);
      }
    }
  }

  /** The count of confirmations is this one, unless the session is gone. */
  ghost predicate CountIs(after: Option<Session>, count: nat) {
    after.Some? ==> after.value.confirmations == count
  }

  lemma PollCounts(m: Machine, t: nat, answer: Answer)
    requires Inv(m) && t in m.tasks && m.row.Some? && answer.Status?
    ensures var s := m.row.value;
      CountIs(StepContinuing(m, t, answer).row,
              if m.tasks[t].session == s && s.stage in {Confirming, Fulfilling} then answer.count else s.confirmations)
  {
    hide TransactionId;
  }

  lemma ContinuingCounts(m: Machine, t: nat, answer: Answer)
    requires t in m.tasks && m.row.Some? && !answer.Status?
    ensures CountIs(StepContinuing(m, t, answer).row, m.row.value.confirmations)
  {
    hide TransactionId;
  }

  lemma ReviewingCounts(m: Machine, t: nat, answer: Answer)
    requires t in m.tasks && m.row.Some?
    ensures CountIs(StepReviewing(m, t, answer).row, m.row.value.confirmations)
  {
    hide TransactionId;
  }

  lemma PreparingCounts(m: Machine, t: nat, answer: Answer)
    requires t in m.tasks && m.row.Some?
    ensures CountIs(StepPreparing(m, t, answer).row, m.row.value.confirmations)
  {
    hide TransactionId, ComputeId;
  }

  lemma OtherCounts(m: Machine, t: nat, answer: Answer)
    requires t in m.tasks && m.row.Some? && m.tasks[t].step !in {Continuing, Recovering, Reviewing, Preparing}
    ensures CountIs(StepTask(m, t, answer).row, m.row.value.confirmations)
  {
    hide TransactionId, StepContinuing, StepRecovering, StepReviewing, StepPreparing;
  }

  lemma RecoveringCounts(m: Machine, t: nat)
    requires t in m.tasks && m.row.Some?
    ensures CountIs(StepRecovering(m, t).row, m.row.value.confirmations)
  {
    hide TransactionId;
  }

  lemma StartsCount(m: Machine, e: Event)
    requires m.row.Some? && !e.Proceed?
    ensures CountIs(Apply(m, e).row, m.row.value.confirmations)
  {
  }

  /** The count of confirmations is what the merchant last told a poll that knew the row, and nothing else changes it. */
  lemma CountFollowsMerchant(m: Machine, e: Event)
    requires Inv(m) && m.row.Some?
    ensures var s := m.row.value;
      var told := e.Proceed? && e.task in m.tasks && m.tasks[e.task].session == s && m.tasks[e.task].step == Continuing
                  && s.stage in {Confirming, Fulfilling} && e.answer.Status?;
      CountIs(Apply(m, e).row, if told then e.answer.count else s.confirmations)
  {
    hide Inv, StepContinuing, StepCounted, StepChecking, StepReviewing, StepRecovering, StepPreparing, StepSending,
      Write;
    if e.Proceed? {
      if e.task in m.tasks {
        match m.tasks[e.task].step {
          case Continuing =>
            if e.answer.Status? {
              PollCounts(m, e.task, e.answer);
            } else {
              ContinuingCounts(m, e.task, e.answer);
            }
          case Reviewing => ReviewingCounts(m, e.task, e.answer);
          case Preparing => PreparingCounts(m, e.task, e.answer);
          case Recovering => RecoveringCounts(m, e.task);
          case _ => OtherCounts(m, e.task, e.answer);
        }
      }
    } else {
      StartsCount(m, e);
    }
  }

  // ---------------------------------------------------------------- recovery

  /** An operation fed with answers, nothing else happening meanwhile. */
  function Answered(m: Machine, answers: seq<Answer>): Machine
    decreases |answers|
  {
    if |answers| == 0 then m else Answered(Apply(m, Proceed(0, answers[0])), answers[1..])
  }

  ghost predicate AnsweredTo(m: Machine, answers: seq<Answer>, stage: Stage) {
    var m1 := Answered(m, answers);
    m1.row.Some? && m1.row.value.stage == stage && m1.calls == m.calls && m1.paid == m.paid
  }

  /** With the right answers the session comes to the stage without another payment. */
  ghost predicate Reaches(m: Machine, stage: Stage) {
    exists answers :: AnsweredTo(m, answers, stage)
  }

  lemma There(m: Machine, stage: Stage)
    requires m.row.Some? && m.row.value.stage == stage
    ensures Reaches(m, stage)
  {
    assert AnsweredTo(m, [], stage);
  }

  lemma OneStep(m: Machine, answer: Answer, stage: Stage)
    requires var m1 := Apply(m, Proceed(0, answer)); Reaches(m1, stage) && m1.calls == m.calls && m1.paid == m.paid
    ensures Reaches(m, stage)
  {
    hide Apply;
    var m1 := Apply(m, Proceed(0, answer));
    var rest :| AnsweredTo(m1, rest, stage);
    assert ([answer] + rest)[1..] == rest;
    assert AnsweredTo(m, [answer] + rest, stage);
  }

  /** One operation on the session, which knows its row. */
  predicate Alone(m: Machine, s: Session, step: Step) {
    m.row == Some(s) && 0 in m.tasks && m.tasks[0].step == step && m.tasks[0].session == s && s.revision > 0
  }

  /** What the merchant owes for the payment. */
  predicate Owed(m: Machine, s: Session, d: Delivery) {
    s.invoice.Some? && m.verify(s.invoice.value, TransactionId(s), d)
  }

  lemma CheckingReaches(m: Machine, s: Session, d: Delivery)
    requires Alone(m, s, Checking(d)) && s.stage == Verifying
    ensures Reaches(m, if Owed(m, s, d) then Complete else FailedRetryable)
  {
    hide TransactionId, Reaches;
    var stage := if Owed(m, s, d) then Complete else FailedRetryable;
    There(Apply(m, Proceed(0, Success)), stage);
    OneStep(m, Success, stage);
  }

  lemma PollingReaches(m: Machine, s: Session, d: Delivery)
    requires Alone(m, s, Continuing) && s.stage in {Confirming, Fulfilling} && Owed(m, s, d)
    ensures Reaches(m, Complete)
  {
    hide Reaches;
    var m1 := Apply(m, Proceed(0, Delivered(d)));
    CheckingReaches(m1, m1.row.value, d);
    OneStep(m, Delivered(d), Complete);
  }

  lemma SubmittingReaches(m: Machine, s: Session, d: Delivery)
    requires Alone(m, s, Continuing) && s.stage == Submitting && Owed(m, s, d)
    ensures Reaches(m, Complete)
  {
    hide Reaches;
    var m1 := Apply(m, Proceed(0, Success));
    PollingReaches(m1, m1.row.value, d);
    OneStep(m, Success, Complete);
  }

  lemma BroadcastReaches(m: Machine, s: Session, d: Delivery)
    requires Alone(m, s, Continuing) && s.stage == Broadcast && Owed(m, s, d)
    ensures Reaches(m, Complete)
  {
    hide Reaches;
    var m1 := Apply(m, Proceed(0, Success));
    SubmittingReaches(m1, m1.row.value, d);
    OneStep(m, Success, Complete);
  }

  lemma ContinuingReaches(m: Machine, s: Session, d: Delivery)
    requires Alone(m, s, Continuing) && s.stage in {Broadcast, Submitting, Confirming, Fulfilling} && Owed(m, s, d)
    ensures Reaches(m, Complete)
  {
    hide Reaches, Alone, Owed;
    if s.stage == Broadcast {
      BroadcastReaches(m, s, d);
    } else if s.stage == Submitting {
      SubmittingReaches(m, s, d);
    } else {
      PollingReaches(m, s, d);
    }
  }

  /** A crash, and then recovery of the session. */
  function Recovered(m: Machine): Machine {
    Apply(Apply(m, Crash), Recover(0))
  }

  predicate ChecksAgain(s: Session) {
    s.stage == Verifying || (s.stage == FailedRetryable && s.error != DeliveryInvalid && s.retryStage == Some(Verifying))
  }

  /** The delivery the session already has is to be checked again, and is not what was owed. */
  predicate BadDelivery(m: Machine, s: Session) {
    ChecksAgain(s) && !(s.delivery.Some? && Owed(m, s, s.delivery.value))
  }

  predicate Unfinished(s: Session) {
    s.stage in {Broadcast, Submitting, Confirming, Fulfilling, Verifying} || (s.stage == FailedRetryable && s.transaction.Some?)
  }

  /** What recovery starts with. */
  predicate Fresh(m: Machine, s: Session) {
    m.row == Some(s) && m.tasks == map[0 := Task(Recovering, s, false)] && !m.active
  }

  lemma RecoveredIsFresh(m: Machine, s: Session)
    requires Inv(m) && m.row == Some(s)
    ensures Fresh(Recovered(m), s) && Inv(Recovered(m))
    ensures var m1 := Recovered(m); m1.calls == m.calls && m1.paid == m.paid && m1.verify == m.verify
  {
    hide Inv, StepTask, StartApprove, StartRetry, StartContinue;
    ApplyKeeps(m, Crash);
    ApplyKeeps(Apply(m, Crash), Recover(0));
  }

  /** The same session, further on. */
  ghost predicate FurtherOn(m: Machine, s: Session, m1: Machine) {
    && m1.row.Some? && m1.calls == m.calls && m1.paid == m.paid && m1.verify == m.verify
    && m1.row.value.invoice == s.invoice && m1.row.value.transaction == s.transaction && m1.row.value.delivery == s.delivery
  }

  lemma RunningGoesOn(m: Machine, s: Session)
    requires Inv(m) && Fresh(m, s) && Unfinished(s) && s.stage != FailedRetryable && s.invoice.Some?
    ensures var m1 := StepRecovering(m, 0);
      && FurtherOn(m, s, m1) && m1.row == Some(s)
      && if ChecksAgain(s) then s.delivery.Some? && Alone(m1, s, Checking(s.delivery.value)) else Alone(m1, s, Continuing)
  {
    hide TransactionId, StartRetry;
  }

  lemma FailedGoesOn(m: Machine, s: Session)
    requires Inv(m) && Fresh(m, s) && Unfinished(s) && s.stage == FailedRetryable && s.invoice.Some?
    ensures var m1 := StepRecovering(m, 0);
      && FurtherOn(m, s, m1)
      && if ChecksAgain(s) then
           s.delivery.Some? && m1.row.value.stage == Verifying && Alone(m1, m1.row.value, Checking(s.delivery.value))
         else m1.row.value.stage in {Submitting, Confirming, Fulfilling} && Alone(m1, m1.row.value, Continuing)
  {
    hide TransactionId;
  }

  lemma RecoveringStep(m: Machine, s: Session, answer: Answer)
    requires Fresh(m, s)
    ensures Apply(m, Proceed(0, answer)) == StepRecovering(m, 0)
  {
    hide StepRecovering;
  }

  lemma SameOwed(m: Machine, s: Session, m1: Machine, s1: Session, d: Delivery)
    requires m1.verify == m.verify && s1.invoice == s.invoice && s1.transaction == s.transaction
    ensures Owed(m, s, d) <==> Owed(m1, s1, d)
  {
  }

  lemma RecoveryStep(m: Machine, s: Session, d: Delivery)
    requires Inv(m) && m.row == Some(s) && Unfinished(s) && Owed(m, s, d)
    ensures Reaches(Recovered(m), if BadDelivery(m, s) then FailedRetryable else Complete)
  {
    hide Inv, Apply, Reaches, Alone, TransactionId, StepRecovering;
    RecoveredIsFresh(m, s);
    var m0 := Recovered(m);
    if s.stage == FailedRetryable {
      FailedGoesOn(m0, s);
    } else {
      RunningGoesOn(m0, s);
    }
    RecoveringStep(m0, s, Success);
    var m1 := Apply(m0, Proceed(0, Success));
    SameOwed(m, s, m1, m1.row.value, d);
    if ChecksAgain(s) {
      SameOwed(m, s, m1, m1.row.value, s.delivery.value);
      CheckingReaches(m1, m1.row.value, s.delivery.value);
    } else {
      ContinuingReaches(m1, m1.row.value, d);
    }
    OneStep(m0, Success, if BadDelivery(m, s) then FailedRetryable else Complete);
  }

  /**
    No paid session is stranded: whatever happened before, after a crash recovery alone brings it to the delivery the
    merchant owes, without paying again; only when it holds a bad delivery it stops first, to be retried.
   */
  lemma RecoveryFinishes(verify: (Invoice, Text, Delivery) -> bool, events: seq<Event>, d: Delivery)
    requires var m := Run(Start(verify), events);
      m.row.Some? && Unfinished(m.row.value) && Owed(m, m.row.value, d)
    ensures var m := Run(Start(verify), events);
      Reaches(Recovered(m), if BadDelivery(m, m.row.value) then FailedRetryable else Complete)
  {
    hide Run, Start, Inv, Apply, Reaches, Owed, Alone;
    StartOk(verify);
    RunKeeps(Start(verify), events);
    var m := Run(Start(verify), events);
    RecoveryStep(m, m.row.value, d);
  }

  lemma InspectionReaches(m: Machine, s: Session, invoice: Invoice, ceiling: uint64, fee: uint64, trust: Trust)
    requires Alone(m, s, Reviewing) && s.stage == Inspecting
    ensures Reaches(m, AwaitingApproval)
    decreases !s.redeemed
  {
    hide Reaches;
    var answer := if s.redeemed then Reviewed(invoice, ceiling, fee, trust) else Success;
    var m1 := Apply(m, Proceed(0, answer));
    if s.redeemed {
      There(m1, AwaitingApproval);
    } else {
      InspectionReaches(m1, m1.row.value, invoice, ceiling, fee, trust);
    }
    OneStep(m, answer, AwaitingApproval);
  }

  lemma CrashedIs(m: Machine, s: Session)
    requires m.row == Some(s)
    ensures Apply(m, Crash) == Recovered(m).(tasks := map[]) && !Apply(m, Crash).active
  {
  }

  lemma FreshReviews(m: Machine, s: Session)
    requires Inv(m) && Fresh(m, s) && !Unfinished(s)
    ensures var m1 := StepRecovering(m, 0);
      if s.stage in {Received, Inspecting} then
        m1.row.Some? && m1.row.value.stage == Inspecting && Alone(m1, m1.row.value, Reviewing)
        && m1.calls == m.calls && m1.paid == m.paid
      else if s.stage == PreparingPayment then
        m1.row.Some? && m1.row.value.stage == AwaitingApproval && m1.calls == m.calls && m1.paid == m.paid
      else m1 == m.(tasks := map[])
  {
    hide TransactionId;
  }

  /**
    A session that was being received, inspected or prepared goes back to its review when the merchant's invoice is
    good; every other session without a payment is left as it is.
   */
  lemma RecoveryReviews(m: Machine, s: Session, invoice: Invoice, ceiling: uint64, fee: uint64, trust: Trust)
    requires Inv(m) && m.row == Some(s) && !Unfinished(s)
    ensures s.stage in {Received, Inspecting, PreparingPayment} ==> Reaches(Recovered(m), AwaitingApproval)
    ensures s.stage !in {Received, Inspecting, PreparingPayment} ==>
      Apply(Recovered(m), Proceed(0, Success)) == Apply(m, Crash)
  {
    hide Inv, Reaches, Alone, Apply, StepRecovering;
    RecoveredIsFresh(m, s);
    var m0 := Recovered(m);
    RecoveringStep(m0, s, Success);
    var m1 := StepRecovering(m0, 0);
    FreshReviews(m0, s);
    if s.stage in {Received, Inspecting} {
      InspectionReaches(m1, m1.row.value, invoice, ceiling, fee, trust);
      OneStep(m0, Success, AwaitingApproval);
    } else if s.stage == PreparingPayment {
      There(m1, AwaitingApproval);
      OneStep(m0, Success, AwaitingApproval);
    } else {
      CrashedIs(m, s);
    }
  }
}
