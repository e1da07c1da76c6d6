/**
  What every interleaving of approvals, retries, continuations, recoveries and crashes keeps of a payment session
  (entpay/client_manager.go on entpay/client_store.go).
 */
module ClientRuns {
  import opened Common
  import opened Encoding
  import opened Transactions
  import opened ClientStores
  import opened ClientSessions

  // ---------------------------------------------------------------- one write

  lemma EndKeeps(m: Machine, t: nat)
    requires Inv(m) && t in m.tasks
    ensures Inv(End(m, t))
  {
  }

  /** A write that keeps the row sound keeps everything: other operations only grow staler. */
  lemma WriteKeeps(m: Machine, t: nat, r: Option<Session>, next: Option<Step>)
    requires Inv(m) && t in m.tasks
    requires r.Some? ==> m.row.Some? && (r == m.row || r.value.revision == m.row.value.revision + 1) && RowOk(r.value, m)
    requires r.Some? && next.Some? ==> StepOk(Task(next.value, r.value, m.tasks[t].holds), m)
    ensures Inv(Write(m, t, r, next))
  {
  }

  /** The row moves on under the operations in flight. */
  lemma RowKeeps(m: Machine, r: Option<Session>)
    requires Inv(m) && m.row.Some? && r.Some? && (r == m.row || r.value.revision == m.row.value.revision + 1)
    requires RowOk(r.value, m)
    ensures Inv(m.(row := r))
  {
  }

  /** A task at the row's revision knows the row. */
  lemma TaskKnows(m: Machine, t: nat)
    requires Inv(m) && t in m.tasks
    ensures StepOk(m.tasks[t], m) && SnapshotOk(m.tasks[t].session, m.row)
    ensures At(m.row, m.tasks[t].session.revision) ==> m.row == Some(m.tasks[t].session) && RowOk(m.tasks[t].session, m)
  {
  }

  // ---------------------------------------------------------------- sound writes

  lemma TerminateSound(m: Machine, s: Session, revision: nat, to: Stage, error: ErrorCode)
    requires RowOk(s, m) && Terminate(Some(s), revision, to, error).Some?
    ensures RowOk(Terminate(Some(s), revision, to, error).value, m)
  {
  }

  lemma FailSound(m: Machine, s: Session, to: Stage, error: ErrorCode)
    requires RowOk(s, m) && Fail(Some(s), s, to, error).Some?
    requires to in {Invalid, Expired} ==> s.transaction.None?
    requires to == FailedTerminal ==> s.stage in {Submitting, Confirming, Fulfilling, Verifying}
    requires to == FailedRetryable ==> s.stage in {Inspecting, Submitting, Confirming, Fulfilling, Verifying}
    requires to == FailedRetryable && error == DeliveryInvalid ==> s.stage == Verifying
    requires to in {Invalid, Expired, FailedRetryable, FailedTerminal}
    ensures RowOk(Fail(Some(s), s, to, error).value, m)
  {
  }

  // ---------------------------------------------------------------- every step

  lemma UnpaidRow(m: Machine, s: Session)
    requires RowOk(s, m)
    ensures s.stage == Inspecting ==> s.transaction.None?
    ensures s.stage in {AwaitingApproval, PreparingPayment} ==> s.invoice.Some?
  {
  }

  /** A failure recorded by an operation in flight. */
  lemma FailKeeps(m: Machine, t: nat, to: Stage, error: ErrorCode)
    requires Inv(m) && t in m.tasks && to in {Invalid, Expired, FailedRetryable, FailedTerminal}
    requires var s := m.tasks[t].session;
      && (to in {Invalid, Expired} ==> s.stage == Inspecting)
      && (to == FailedTerminal ==> s.stage in {Submitting, Confirming, Fulfilling, Verifying})
      && (to == FailedRetryable ==> s.stage in {Inspecting, Submitting, Confirming, Fulfilling, Verifying})
      && (to == FailedRetryable && error == DeliveryInvalid ==> s.stage == Verifying)
    ensures Inv(Write(m, t, Fail(m.row, m.tasks[t].session, to, error), None))
  {
    hide Inv, RowOk, StepOk, SnapshotOk, Write;
    var s := m.tasks[t].session;
    TaskKnows(m, t);
    var r := Fail(m.row, s, to, error);
    if r.Some? {
      UnpaidRow(m, s);
      FailSound(m, s, to, error);
    }
    WriteKeeps(m, t, r, None);
  }

  lemma SavedPayment(m: Machine)
    requires Inv(m) && m.row.Some?
    ensures m.row.value.transaction == m.journal
  {
  }

  /** An operation moves on without a write. */
  lemma TaskMoves(m: Machine, t: nat, step: Step)
    requires Inv(m) && t in m.tasks && StepOk(m.tasks[t].(step := step), m)
    ensures Inv(m.(tasks := m.tasks[t := m.tasks[t].(step := step)]))
  {
  }

  lemma BackToApproval(m: Machine, t: nat)
    requires Inv(m) && t in m.tasks && m.tasks[t].session.stage == PreparingPayment
    ensures Inv(Write(m, t, Transition(m.row, m.tasks[t].session.revision, AwaitingApproval, OtherError), None))
  {
  }

  /** The journal is written once; until then nothing was sent and nothing is about to be. */
  lemma JournalKeeps(m: Machine, t: nat, tx: Transaction, fee: uint64)
    requires Inv(m) && t in m.tasks
    ensures var r := Journal(m.row, m.tasks[t].session.revision, tx, fee);
      Inv(Write(if r.Some? then m.(journal := Some(tx)) else m, t, r, Some(Sending(tx, fee))))
  {
  }

  lemma PreparingKeeps(m: Machine, t: nat, answer: Answer)
    requires Inv(m) && t in m.tasks && m.tasks[t].step.Preparing?
    ensures Inv(StepPreparing(m, t, answer))
  {
    hide Inv, RowOk, SnapshotOk, Write, End, Journal;
    var s := m.tasks[t].session;
    TaskKnows(m, t);
    if s.transaction.None? {
      if answer.Prepared? {
        JournalKeeps(m, t, answer.tx, answer.fee);
      } else {
        BackToApproval(m, t);
      }
    } else if m.row.Some? && m.row.value.transaction.Some? {
      SavedPayment(m);
      TaskMoves(m, t, Sending(m.row.value.transaction.value, s.fee));
    } else {
      EndKeeps(m, t);
    }
  }

  lemma CallIsJournaled(m: Machine, i: nat)
    requires Inv(m) && i < |m.calls|
    ensures m.journal == Some(m.calls[i])
  {
  }

  lemma NothingSent(m: Machine)
    requires Inv(m) && m.row.Some? && m.row.value.transaction.None?
    ensures m.journal.None? && m.calls == [] && !m.paid
    ensures forall t | t in m.tasks :: !m.tasks[t].step.Sending? && !m.tasks[t].step.Sent?
  {
    if |m.calls| > 0 {
      CallIsJournaled(m, 0);
    }
    forall t | t in m.tasks ensures !m.tasks[t].step.Sending? && !m.tasks[t].step.Sent? {
      assert StepOk(m.tasks[t], m);
    }
  }

  /** The call carries the journaled transaction; whether it went through is remembered. */
  lemma SendingKeeps(m: Machine, t: nat, answer: Answer)
    requires Inv(m) && t in m.tasks && m.tasks[t].step.Sending?
    ensures Inv(StepSending(m, t, answer))
  {
  }

  lemma SentKeeps(m: Machine, t: nat)
    requires Inv(m) && t in m.tasks && m.tasks[t].step.Sent?
    ensures Inv(Write(m, t, Transition(m.row, m.tasks[t].session.revision, Broadcast, NoError), None))
  {
  }

  /** A transition from one paid stage to the next. */
  lemma AdvanceKeeps(m: Machine, t: nat, to: Stage)
    requires Inv(m) && t in m.tasks && to in {Submitting, Confirming, Fulfilling} && Paid(m.tasks[t].session.stage)
    ensures Inv(Write(m, t, Transition(m.row, m.tasks[t].session.revision, to, NoError), Some(Continuing)))
  {
  }

  lemma DeliveryKeeps(m: Machine, t: nat, d: Delivery)
    requires Inv(m) && t in m.tasks
    ensures Inv(Write(m, t, SaveDelivery(m.row, m.tasks[t].session.revision, d), Some(Checking(d))))
  {
  }

  lemma CountedRow(m: Machine, s: Session, n: nat)
    requires RowOk(s, m) && s.stage in {Confirming, Fulfilling}
    ensures RowOk(Next(s).(confirmations := n), m)
  {
  }

  lemma CountKeeps(m: Machine, t: nat, n: nat, status: MerchantStatus)
    requires Inv(m) && t in m.tasks
    ensures Inv(Write(m, t, SaveCount(m.row, m.tasks[t].session.revision, n), Some(Counted(status))))
  {
    hide Inv, RowOk, SnapshotOk, Write;
    var s := m.tasks[t].session;
    TaskKnows(m, t);
    var r := SaveCount(m.row, s.revision, n);
    if r.Some? {
      CountedRow(m, s, n);
    }
    WriteKeeps(m, t, r, Some(Counted(status)));
  }

  lemma ContinuingKeeps(m: Machine, t: nat, answer: Answer)
    requires Inv(m) && t in m.tasks
    ensures Inv(StepContinuing(m, t, answer))
  {
    hide Inv, RowOk, SnapshotOk, StepOk, Write, End, Transition, Fail, SaveDelivery, SaveCount;
    var s := m.tasks[t].session;
    if s.stage == Broadcast {
      AdvanceKeeps(m, t, Submitting);
    } else if s.stage == Submitting {
      AdvanceKeeps(m, t, Confirming);
      FailKeeps(m, t, FailedRetryable, OtherError);
    } else if s.stage in {Confirming, Fulfilling} {
      match answer {
        case Delivered(d) => DeliveryKeeps(m, t, d);
        case Status(n, status) => CountKeeps(m, t, n, status);
        case BadReply => FailKeeps(m, t, FailedTerminal, OtherError);
        case _ => FailKeeps(m, t, FailedRetryable, OtherError);
      }
    } else {
      EndKeeps(m, t);
    }
  }

  /** An unknown delivery state is only seen while the row is confirming or fulfilling. */
  lemma UnknownKeeps(m: Machine, t: nat)
    requires Inv(m) && t in m.tasks && m.tasks[t].step.Counted?
    ensures Inv(Write(m, t, Fail(m.row, m.tasks[t].session, FailedTerminal, OtherError), None))
  {
    hide Inv, RowOk, SnapshotOk, Write, Fail;
    TaskKnows(m, t);
    FailKeeps(m, t, FailedTerminal, OtherError);
  }

  lemma CountedKeeps(m: Machine, t: nat)
    requires Inv(m) && t in m.tasks && m.tasks[t].step.Counted?
    ensures Inv(StepCounted(m, t))
  {
    hide Inv, RowOk, SnapshotOk, Write, End, Transition, Fail;
    var s, status := m.tasks[t].session, m.tasks[t].step.status;
    if status == Processing && s.stage == Confirming {
      AdvanceKeeps(m, t, Fulfilling);
    } else if status == Unknown {
      UnknownKeeps(m, t);
    } else {
      TaskMoves(m, t, Continuing);
    }
  }

  lemma CompletedRow(m: Machine, s: Session, d: Delivery)
    requires RowOk(s, m) && s.stage == Verifying && s.delivery == Some(d)
    requires m.verify(s.invoice.value, TransactionId(s), d)
    ensures RowOk(Next(s).(stage := Complete, error := NoError), m)
  {
  }

  /** Completion is written at the revision at which the delivery was stored, so what completes is what was verified. */
  lemma CompletedKeeps(m: Machine, t: nat)
    requires Inv(m) && t in m.tasks && m.tasks[t].step.Checking? && m.tasks[t].session.invoice.Some?
    requires m.verify(m.tasks[t].session.invoice.value, TransactionId(m.tasks[t].session), m.tasks[t].step.delivery)
    ensures Inv(Write(m, t, Completed(m.row, m.tasks[t].session.revision), None))
  {
    hide Inv, RowOk, SnapshotOk, Write;
    var s := m.tasks[t].session;
    TaskKnows(m, t);
    var r := Completed(m.row, s.revision);
    if r.Some? {
      CompletedRow(m, s, m.tasks[t].step.delivery);
    }
    WriteKeeps(m, t, r, None);
  }

  lemma CheckingKeeps(m: Machine, t: nat, answer: Answer)
    requires Inv(m) && t in m.tasks && m.tasks[t].step.Checking?
    ensures Inv(StepChecking(m, t, answer))
  {
    hide Inv, RowOk, SnapshotOk, Write, End, Fail, Completed;
    var s, d := m.tasks[t].session, m.tasks[t].step.delivery;
    TaskKnows(m, t);
    if !m.verify(s.invoice.value, TransactionId(s), d) {
      FailKeeps(m, t, FailedRetryable, DeliveryInvalid);
    } else if d.artifact.Some? && answer.Failure? {
      FailKeeps(m, t, FailedRetryable, OtherError);
    } else {
      CompletedKeeps(m, t);
    }
  }

  lemma RedeemKeeps(m: Machine, t: nat)
    requires Inv(m) && t in m.tasks
    ensures Inv(Write(m, t, SaveRedeemed(m.row, m.tasks[t].session.revision), Some(Reviewing)))
  {
  }

  lemma ReviewKeeps(m: Machine, t: nat, invoice: Invoice, ceiling: uint64, fee: uint64, trust: Trust)
    requires Inv(m) && t in m.tasks
    ensures Inv(Write(m, t, SaveReview(m.row, m.tasks[t].session.revision, invoice, ceiling, fee, trust), None))
  {
  }

  lemma ReviewingKeeps(m: Machine, t: nat, answer: Answer)
    requires Inv(m) && t in m.tasks && m.tasks[t].step.Reviewing?
    ensures Inv(StepReviewing(m, t, answer))
  {
    hide Inv, RowOk, SnapshotOk, Write, End, Fail, SaveRedeemed, SaveReview;
    TaskKnows(m, t);
    if m.row.None? {
      EndKeeps(m, t);
    } else if answer.Failure? {
      FailKeeps(m, t, FailedRetryable, OtherError);
    } else if !m.row.value.redeemed {
      RedeemKeeps(m, t);
      FailKeeps(m, t, Invalid, OtherError);
    } else {
      FailKeeps(m, t, Invalid, OtherError);
      FailKeeps(m, t, Expired, OtherError);
      if answer.Reviewed? {
        ReviewKeeps(m, t, answer.invoice, answer.ceiling, answer.fee, answer.trust);
      }
    }
  }

  // ---------------------------------------------------------------- starting operations

  lemma NewTaskKeeps(m: Machine, t: nat, task: Task)
    requires Inv(m) && m.row == Some(task.session) && StepOk(task, m)
    ensures Inv(m.(tasks := m.tasks[t := task])) && Inv(m.(active := true, tasks := m.tasks[t := task]))
  {
  }

  lemma StartContinueKeeps(m: Machine, t: nat)
    requires Inv(m)
    ensures Inv(StartContinue(m, t))
  {
  }

  /** A retry always finds its way: whatever stage a retryable failure remembers, the transition back is permitted. */
  lemma RetryPermitted(m: Machine)
    requires Inv(m) && m.row.Some? && m.row.value.stage == FailedRetryable
    ensures RetryTarget(m.row.value).Some?
    ensures Transition(m.row, m.row.value.revision, RetryTarget(m.row.value).value, NoError).Some?
    ensures RowOk(Transition(m.row, m.row.value.revision, RetryTarget(m.row.value).value, NoError).value, m)
  {
  }

  lemma StartRetryKeeps(m: Machine, t: nat, revision: nat)
    requires Inv(m)
    ensures Inv(StartRetry(m, t, revision))
  {
    hide Inv, RowOk, SnapshotOk, Transition, StartContinue, RetryTarget;
    if t !in m.tasks && At(m.row, revision) && m.row.value.stage == FailedRetryable {
      RetryPermitted(m);
      var r := Transition(m.row, revision, RetryTarget(m.row.value).value, NoError);
      var m1 := m.(row := r);
      RowKeeps(m, r);
      StartContinueKeeps(m1, t);
      if r.value.stage == Inspecting {
        NewTaskKeeps(m1, t, Task(Reviewing, r.value, false));
      } else if r.value.stage == Verifying && r.value.invoice.Some? && r.value.delivery.Some? {
        NewTaskKeeps(m1, t, Task(Checking(r.value.delivery.value), r.value, false));
      }
    }
  }

  lemma InspectKeeps(m: Machine, t: nat)
    requires Inv(m) && t in m.tasks && m.tasks[t].session.stage == Received
    ensures Inv(Write(m, t, Transition(m.row, m.tasks[t].session.revision, Inspecting, NoError), Some(Reviewing)))
  {
  }

  lemma RecoveringKeeps(m: Machine, t: nat)
    requires Inv(m) && t in m.tasks
    ensures Inv(StepRecovering(m, t))
  {
    hide Inv, RowOk, SnapshotOk, Write, End, Transition, StartContinue, StartRetry;
    var s := m.tasks[t].session;
    EndKeeps(m, t);
    StartContinueKeeps(End(m, t), t);
    StartRetryKeeps(End(m, t), t, s.revision);
    if s.stage == Received {
      InspectKeeps(m, t);
    } else if s.stage == Inspecting {
      TaskMoves(m, t, Reviewing);
    } else if s.stage == PreparingPayment {
      BackToApproval(m, t);
    } else if s.stage == Verifying && s.invoice.Some? && s.delivery.Some? {
      TaskMoves(m, t, Checking(s.delivery.value));
    }
  }

  lemma ApproveKeeps(m: Machine, t: nat, revision: nat, expired: bool, ready: bool)
    requires Inv(m)
    ensures Inv(StartApprove(m, t, revision, expired, ready))
  {
  }

  lemma TaskStepKeeps(m: Machine, t: nat, answer: Answer)
    requires Inv(m) && t in m.tasks
    ensures Inv(StepTask(m, t, answer))
  {
    hide Inv, RowOk, SnapshotOk, Write, Transition, StepPreparing, StepSending, StepContinuing, StepCounted,
      StepChecking, StepReviewing, StepRecovering;
    TaskKnows(m, t);
    match m.tasks[t].step {
      case Preparing => PreparingKeeps(m, t, answer);
      case Sending(_, _) => SendingKeeps(m, t, answer);
      case Sent => SentKeeps(m, t);
      case NotSent => BackToApproval(m, t);
      case Continuing => ContinuingKeeps(m, t, answer);
      case Counted(_) => CountedKeeps(m, t);
      case Checking(_) => CheckingKeeps(m, t, answer);
      case Reviewing => ReviewingKeeps(m, t, answer);
      case Recovering => RecoveringKeeps(m, t);
    }
  }

  lemma TrustedRow(m: Machine, revision: nat)
    requires Inv(m) && TrustAgain(m.row, revision).Some?
    ensures RowOk(TrustAgain(m.row, revision).value, m)
  {
  }

  lemma DeletedKeeps(m: Machine)
    requires Inv(m)
    ensures Inv(m.(row := None)) && Inv(m.(tasks := map[], active := false))
  {
  }

  lemma OtherKeeps(m: Machine, e: Event)
    requires Inv(m) && (e.Reject? || e.ReestablishTrust? || e.DeleteSession? || e.Abort? || e.Crash? || e.Recover?)
    ensures Inv(Apply(m, e))
  {
    hide RowOk, SnapshotOk, Terminate, TrustAgain, Deletable, TasksOk;
    match e {
      case Reject(revision) =>
        if Terminate(m.row, revision, Rejected, OtherError).Some? {
          TerminateSound(m, m.row.value, revision, Rejected, OtherError);
          RowKeeps(m, Terminate(m.row, revision, Rejected, OtherError));
        }
      case ReestablishTrust(revision) =>
        if TrustAgain(m.row, revision).Some? {
          TrustedRow(m, revision);
          RowKeeps(m, TrustAgain(m.row, revision));
        }
      case DeleteSession => DeletedKeeps(m);
      case Abort(t) => if t in m.tasks { EndKeeps(m, t); }
      case Crash => DeletedKeeps(m);
      case Recover(t) => if m.row.Some? { NewTaskKeeps(m, t, Task(Recovering, m.row.value, false)); }
    }
  }

  lemma ApplyKeeps(m: Machine, e: Event)
    requires Inv(m)
    ensures Inv(Apply(m, e))
  {
    hide Inv, StepTask, StartApprove, StartContinue, StartRetry;
    match e {
      case Approve(t, revision, expired, ready) => ApproveKeeps(m, t, revision, expired, ready);
      case Continue(t) => StartContinueKeeps(m, t);
      case Retry(t, revision) => StartRetryKeeps(m, t, revision);
      case Proceed(t, answer) => if t in m.tasks { TaskStepKeeps(m, t, answer); }
      case _ => OtherKeeps(m, e);
    }
  }

  lemma {:induction false} RunKeeps(m: Machine, events: seq<Event>)
    requires Inv(m)
    ensures Inv(Run(m, events))
    decreases |events|
  {
    hide Inv, Apply;
    if |events| > 0 {
      ApplyKeeps(m, events[0]);
      RunKeeps(Apply(m, events[0]), events[1..]);
    }
  }

  lemma StartOk(verify: (Invoice, Text, Delivery) -> bool)
    ensures Inv(Start(verify))
  {
  }

  // ---------------------------------------------------------------- the promises

  /** All CommitPreparedPayment calls of a session, in any interleaving and across any crash, carry one transaction. */
  lemma OnePayment(verify: (Invoice, Text, Delivery) -> bool, events: seq<Event>, i: nat, j: nat)
    requires i < |Run(Start(verify), events).calls| && j < |Run(Start(verify), events).calls|
    ensures var m := Run(Start(verify), events);
      m.calls[i] == m.calls[j] && m.journal == Some(m.calls[i])
  {
    hide Run, Start, RowOk, TasksOk;
    StartOk(verify);
    RunKeeps(Start(verify), events);
  }

  lemma RecoveringKeepsVerifier(m: Machine, t: nat)
    requires t in m.tasks
    ensures StepRecovering(m, t).verify == m.verify
  {
  }

  lemma TaskKeepsVerifier(m: Machine, t: nat, answer: Answer)
    requires t in m.tasks
    ensures StepTask(m, t, answer).verify == m.verify
  {
    hide Transition, Fail, SaveDelivery, SaveCount, SaveReview, SaveRedeemed, Journal, Completed, RetryTarget,
      StepRecovering, Write, End;
    RecoveringKeepsVerifier(m, t);
  }

  lemma StepKeepsVerifier(m: Machine, e: Event)
    ensures Apply(m, e).verify == m.verify
  {
    hide Transition, Terminate, TrustAgain, Deletable, RetryTarget, StepTask;
    if e.Proceed? && e.task in m.tasks {
      TaskKeepsVerifier(m, e.task, e.answer);
    }
  }

  lemma {:induction false} SameVerifier(m: Machine, events: seq<Event>)
    ensures Run(m, events).verify == m.verify
    decreases |events|
  {
    hide Apply;
    if |events| > 0 {
      StepKeepsVerifier(m, events[0]);
      SameVerifier(Apply(m, events[0]), events[1..]);
    }
  }

  /**
    Stages from broadcast to complete imply a journaled transaction that was sent; complete implies a verified
    delivery; and while no transaction is journaled nothing was sent.
   */
  lemma StagesMeanPayment(verify: (Invoice, Text, Delivery) -> bool, events: seq<Event>)
    ensures var m := Run(Start(verify), events);
      m.row.Some? ==>
        && m.row.value.transaction == m.journal
        && (Paid(m.row.value.stage) ==> m.journal.Some? && m.paid && |m.calls| > 0)
        && (m.row.value.stage in {Received, Inspecting, Invalid, Rejected} ==> m.row.value.transaction.None?)
        && (m.row.value.transaction.None? ==> m.calls == [])
        && (m.row.value.stage == Complete ==>
              && m.row.value.invoice.Some? && m.row.value.delivery.Some?
              && verify(m.row.value.invoice.value, TransactionId(m.row.value), m.row.value.delivery.value))
  {
    hide Run, TasksOk;
    StartOk(verify);
    RunKeeps(Start(verify), events);
    SameVerifier(Start(verify), events);
    var m := Run(Start(verify), events);
    if m.row.Some? && m.row.value.transaction.None? {
      NothingSent(m);
    }
  }

  /** Every reachable retryable failure can be retried: the retry moves the session on. */
  lemma RetryMovesOn(verify: (Invoice, Text, Delivery) -> bool, events: seq<Event>, t: nat)
    requires var m := Run(Start(verify), events); m.row.Some? && m.row.value.stage == FailedRetryable && t !in m.tasks
    ensures var m := Run(Start(verify), events);
      var m1 := Apply(m, Retry(t, m.row.value.revision));
      && m1.row.Some? && m1.row.value.stage in {Inspecting, Submitting, Confirming, Fulfilling, Verifying}
      && m1.row.value.revision == m.row.value.revision + 1
      && (m1.row.value.stage == Inspecting <==> m.journal.None?)
  {
    hide Run, TasksOk;
    StartOk(verify);
    RunKeeps(Start(verify), events);
    RetryPermitted(Run(Start(verify), events));
  }

  // ---------------------------------------------------------------- what a row can still become

  /** One event writes the row at most once, under the next revision, and never writes a row that is gone. */
  predicate Advances(row: Option<Session>, row1: Option<Session>) {
    row1.Some? ==> row.Some? && (row1 == row || row1.value.revision == row.value.revision + 1)
  }

  lemma PreparingAdvances(m: Machine, t: nat, answer: Answer)
    requires t in m.tasks
    ensures Advances(m.row, StepPreparing(m, t, answer).row)
    ensures Inv(m) && m.journal.Some? ==> StepPreparing(m, t, answer).journal == m.journal
  {
    hide Transition, Journal, Write, End, TasksOk;
  }

  lemma ContinuingAdvances(m: Machine, t: nat, answer: Answer)
    requires t in m.tasks
    ensures Advances(m.row, StepContinuing(m, t, answer).row) && StepContinuing(m, t, answer).journal == m.journal
  {
    hide Transition, Fail, SaveDelivery, SaveCount, Write, End;
  }

  lemma OtherStepsAdvance(m: Machine, t: nat, answer: Answer)
    requires t in m.tasks
    ensures Advances(m.row, StepReviewing(m, t, answer).row) && StepReviewing(m, t, answer).journal == m.journal
    ensures m.tasks[t].step.Counted? ==> Advances(m.row, StepCounted(m, t).row) && StepCounted(m, t).journal == m.journal
    ensures m.tasks[t].step.Checking? ==>
      Advances(m.row, StepChecking(m, t, answer).row) && StepChecking(m, t, answer).journal == m.journal
  {
    hide Transition, Fail, SaveReview, SaveRedeemed, Completed, Write, End, TransactionId;
  }

  lemma RecoveringAdvances(m: Machine, t: nat)
    requires t in m.tasks
    ensures Advances(m.row, StepRecovering(m, t).row) && StepRecovering(m, t).journal == m.journal
  {
  }

  lemma TaskAdvances(m: Machine, t: nat, answer: Answer)
    requires t in m.tasks
    ensures Advances(m.row, StepTask(m, t, answer).row)
    ensures Inv(m) && m.journal.Some? ==> StepTask(m, t, answer).journal == m.journal
  {
    hide Transition, StepRecovering, Write, End, Inv, StepPreparing, StepContinuing, StepReviewing, StepChecking,
      StepCounted;
    RecoveringAdvances(m, t);
    PreparingAdvances(m, t, answer);
    ContinuingAdvances(m, t, answer);
    OtherStepsAdvance(m, t, answer);
  }

  lemma ApplyAdvances(m: Machine, e: Event)
    ensures Advances(m.row, Apply(m, e).row)
    ensures Inv(m) && m.journal.Some? ==> Apply(m, e).journal == m.journal
  {
    hide Transition, Terminate, TrustAgain, Deletable, RetryTarget, StepTask, Inv;
    if e.Proceed? && e.task in m.tasks {
      TaskAdvances(m, e.task, e.answer);
    }
  }

  /**
    Along every run the revision names the row: it never falls, it stays only while the row stays, and a deleted row
    does not come back. This is what lets a write name the revision it was decided on.
   */
  lemma {:induction false} RevisionNamesRow(m: Machine, events: seq<Event>)
    ensures var row := Run(m, events).row;
      row.Some? ==>
        && m.row.Some? && m.row.value.revision <= row.value.revision
        && (row.value.revision == m.row.value.revision ==> row == m.row)
    decreases |events|
  {
    hide Apply;
    if |events| > 0 {
      ApplyAdvances(m, events[0]);
      RevisionNamesRow(Apply(m, events[0]), events[1..]);
    }
  }

  lemma {:induction false} JournalStands(m: Machine, events: seq<Event>)
    requires Inv(m) && m.journal.Some?
    ensures Run(m, events).journal == m.journal && Inv(Run(m, events))
    decreases |events|
  {
    hide Apply, Inv;
    if |events| > 0 {
      ApplyAdvances(m, events[0]);
      ApplyKeeps(m, events[0]);
      JournalStands(Apply(m, events[0]), events[1..]);
    }
  }

  /** A payment is journaled once: whatever happens later, the row holds the same transaction as long as it exists. */
  lemma JournalIsFinal(verify: (Invoice, Text, Delivery) -> bool, events: seq<Event>, later: seq<Event>)
    requires var row := Run(Start(verify), events).row; row.Some? && row.value.transaction.Some?
    ensures var m, m1 := Run(Start(verify), events), Run(Run(Start(verify), events), later);
      m1.row.Some? ==> m1.row.value.transaction == m.row.value.transaction
  {
    hide Run, Start, TasksOk;
    StartOk(verify);
    RunKeeps(Start(verify), events);
    JournalStands(Run(Start(verify), events), later);
  }

  // ---------------------------------------------------------------- what a failure remembers

  /** A write of a retryable failure remembers the stage it left; an invalid delivery is only found while verifying. */
  predicate Remembers(row: Option<Session>, row1: Option<Session>) {
    row1.Some? && row1 != row && row1.value.stage == FailedRetryable ==>
      && row.Some? && row1.value.retryStage == Some(row.value.stage)
      && (row1.value.error == DeliveryInvalid ==> row.value.stage == Verifying)
  }

  lemma ContinuingRemembers(m: Machine, t: nat, answer: Answer)
    requires t in m.tasks
    ensures Remembers(m.row, StepContinuing(m, t, answer).row)
  {
    hide Write, End;
  }

  lemma CheckingRemembers(m: Machine, t: nat, answer: Answer)
    requires Inv(m) && t in m.tasks && m.tasks[t].step.Checking?
    ensures Remembers(m.row, StepChecking(m, t, answer).row)
  {
    hide Inv, RowOk, SnapshotOk, Write, End, TransactionId;
    TaskKnows(m, t);
  }

  lemma ReviewingRemembers(m: Machine, t: nat, answer: Answer)
    requires t in m.tasks
    ensures Remembers(m.row, StepReviewing(m, t, answer).row)
  {
    hide Write, End;
  }

  lemma RetryRemembers(m: Machine, t: nat, revision: nat)
    requires Inv(m)
    ensures Remembers(m.row, StartRetry(m, t, revision).row)
  {
    hide Inv;
  }

  lemma RecoveringRemembers(m: Machine, t: nat)
    requires Inv(m) && t in m.tasks
    ensures Remembers(m.row, StepRecovering(m, t).row)
  {
    hide Inv, RowOk, SnapshotOk, StepOk, Write, End, StartRetry;
    EndKeeps(m, t);
    RetryRemembers(End(m, t), t, m.tasks[t].session.revision);
  }

  lemma NothingWritten(row: Option<Session>)
    ensures Remembers(row, row)
  {
  }

  lemma WriteRemembers(m: Machine, t: nat, to: Stage, error: ErrorCode)
    requires t in m.tasks && to != FailedRetryable
    ensures Remembers(m.row, Write(m, t, Transition(m.row, m.tasks[t].session.revision, to, error), None).row)
  {
    hide Write;
  }

  lemma CountedRemembers(m: Machine, t: nat)
    requires t in m.tasks && m.tasks[t].step.Counted?
    ensures Remembers(m.row, StepCounted(m, t).row)
  {
    hide Write, End;
  }

  lemma PreparingRemembers(m: Machine, t: nat, answer: Answer)
    requires Inv(m) && t in m.tasks && m.tasks[t].step.Preparing?
    ensures Remembers(m.row, StepPreparing(m, t, answer).row)
  {
    hide Inv, Write, End, ComputeId;
  }

  lemma TaskRemembers(m: Machine, t: nat, answer: Answer)
    requires Inv(m) && t in m.tasks
    ensures Remembers(m.row, StepTask(m, t, answer).row)
  {
    hide Inv, Write, End, Journal, Remembers, StepContinuing, StepChecking, StepReviewing, StepRecovering, StepCounted,
      StepPreparing, Transition;
    match m.tasks[t].step {
      case Preparing => PreparingRemembers(m, t, answer);
      case Continuing => ContinuingRemembers(m, t, answer);
      case Counted(_) => CountedRemembers(m, t);
      case Checking(_) => CheckingRemembers(m, t, answer);
      case Reviewing => ReviewingRemembers(m, t, answer);
      case Recovering => RecoveringRemembers(m, t);
      case Sending(_, _) => NothingWritten(m.row);
      case Sent => WriteRemembers(m, t, Broadcast, NoError);
      case NotSent => WriteRemembers(m, t, AwaitingApproval, OtherError);
    }
  }

  lemma ApplyRemembers(m: Machine, e: Event)
    requires Inv(m)
    ensures Remembers(m.row, Apply(m, e).row)
  {
    hide Inv, StepTask, StartRetry;
    match e {
      case Retry(t, revision) => RetryRemembers(m, t, revision);
      case Proceed(t, answer) => if t in m.tasks { TaskRemembers(m, t, answer); }
      case _ =>
    }
  }

  lemma RetryWrites(m: Machine, later: Machine, t: nat)
    requires Inv(m) && m.row.Some? && m.row.value.stage == FailedRetryable && later.row == m.row && t !in later.tasks
    ensures m.row.value.retryStage.Some?
    ensures var row1 := Apply(later, Retry(t, m.row.value.revision)).row;
      && row1.Some?
      && row1.value.stage == (if m.row.value.error == DeliveryInvalid then Fulfilling else m.row.value.retryStage.value)
  {
    hide TasksOk;
    RetryPermitted(m);
  }

  /**
    A retry resumes what failed: whenever an event records a retryable failure, retrying the row it wrote, at any later
    time, takes the session back to the stage it failed in, and to Fulfilling when the delivery was invalid.
   */
  lemma RetryResumes(verify: (Invoice, Text, Delivery) -> bool, events: seq<Event>, e: Event, later: Machine, t: nat)
    requires var m := Run(Start(verify), events);
      var row := Apply(m, e).row;
      && row.Some? && row != m.row && row.value.stage == FailedRetryable
      && later.row == row && t !in later.tasks
    ensures var m := Run(Start(verify), events);
      var row := Apply(m, e).row;
      var row1 := Apply(later, Retry(t, row.value.revision)).row;
      && m.row.Some? && row1.Some?
      && row1.value.stage == (if row.value.error == DeliveryInvalid then Fulfilling else m.row.value.stage)
  {
    hide Run, Start, Inv, Apply;
    StartOk(verify);
    RunKeeps(Start(verify), events);
    var m := Run(Start(verify), events);
    ApplyKeeps(m, e);
    ApplyRemembers(m, e);
    RetryWrites(Apply(m, e), later, t);
  }
}
