/**
  What the row of a session that was never broadcast says about its payment (entpay/client_manager.go). Approval,
  the journal and the payment are separate steps, so a crash can leave a paid session looking unpaid. A stored
  transaction is exactly what such a row must be distrusted for.
 */
module ClientHistories {
  import opened Common
  import opened Encoding
  import opened Transactions
  import opened ClientStores
  import opened ClientSessions
  import opened ClientRuns

  // ---------------------------------------------------------------- runs in pieces

  lemma {:induction false} RunAppend(m: Machine, a: seq<Event>, b: seq<Event>)
    ensures Run(m, a + b) == Run(Run(m, a), b)
    decreases |a|
  {
    hide Apply;
    if |a| == 0 {
      assert a + b == b;
    } else {
      assert (a + b)[0] == a[0] && (a + b)[1..] == a[1..] + b;
      RunAppend(Apply(m, a[0]), a[1..], b);
    }
  }

  lemma RunOne(m: Machine, e: Event)
    ensures Run(m, [e]) == Apply(m, e)
  {
    hide Apply;
    assert [e][1..] == [];
    assert Run(Apply(m, e), []) == Apply(m, e);
  }

  lemma RunTwo(m: Machine, a: Event, b: Event)
    ensures Run(m, [a, b]) == Apply(Apply(m, a), b)
  {
    hide Apply, Run;
    RunAppend(m, [a], [b]);
    RunOne(m, a);
    RunOne(Apply(m, a), b);
    assert [a] + [b] == [a, b];
  }

  lemma RunThree(m: Machine, a: Event, b: Event, d: Event)
    ensures Run(m, [a, b, d]) == Apply(Apply(Apply(m, a), b), d)
  {
    hide Apply, Run;
    RunAppend(m, [a, b], [d]);
    RunTwo(m, a, b);
    RunOne(Apply(Apply(m, a), b), d);
    assert [a, b] + [d] == [a, b, d];
  }

  lemma RunFour(m: Machine, a: Event, b: Event, d: Event, e: Event)
    ensures Run(m, [a, b, d, e]) == Apply(Apply(Apply(Apply(m, a), b), d), e)
  {
    hide Apply, Run;
    RunAppend(m, [a, b], [d, e]);
    RunTwo(m, a, b);
    RunTwo(Apply(Apply(m, a), b), d, e);
    assert [a, b] + [d, e] == [a, b, d, e];
  }

  // ---------------------------------------------------------------- a crash between payment and record

  /** Recovery of the received session, redemption of the link, and a review that offers the invoice. */
  function ReviewEvents(invoice: Invoice, ceiling: uint64, fee: uint64): seq<Event> {
    [Recover(0), Proceed(0, Success), Proceed(0, Success), Proceed(0, Reviewed(invoice, ceiling, fee, First))]
  }

  /** Approval, journal, payment. */
  function PayEvents(tx: Transaction, fee: uint64): seq<Event> {
    [Approve(0, 4, false, true), Proceed(0, Prepared(tx, fee)), Proceed(0, Success)]
  }

  /** A crash before the payment is recorded, recovery, and an approval after the invoice has expired. */
  function LateEvents(): seq<Event> {
    [Crash, Recover(1), Proceed(1, Success), Approve(2, 7, true, true)]
  }

  lemma ReviewRun(verify: (Invoice, Text, Delivery) -> bool, invoice: Invoice, ceiling: uint64, fee: uint64)
    ensures var m := Run(Start(verify), ReviewEvents(invoice, ceiling, fee));
      m.row == Some(NewSession().(revision := 4, stage := AwaitingApproval, redeemed := true, invoice := Some(invoice),
                                  feeCeiling := ceiling, trust := First, fee := fee))
      && !m.active && m.tasks == map[] && m.calls == [] && !m.paid
  {
    hide Run;
    RunFour(Start(verify), Recover(0), Proceed(0, Success), Proceed(0, Success),
            Proceed(0, Reviewed(invoice, ceiling, fee, First)));
    var m1 := Apply(Start(verify), Recover(0));
    assert m1.tasks[0] == Task(Recovering, NewSession(), false);
    var m2 := Apply(m1, Proceed(0, Success));
    assert m2.row == Some(NewSession().(revision := 2, stage := Inspecting));
    assert m2.tasks[0].step == Reviewing && m2.tasks[0].session.revision == 2;
    var m3 := Apply(m2, Proceed(0, Success));
    assert m3.row == Some(NewSession().(revision := 3, stage := Inspecting, redeemed := true));
    assert m3.tasks[0].step == Reviewing && m3.tasks[0].session.revision == 3;
  }

  lemma PayRun(m: Machine, tx: Transaction, fee: uint64)
    requires !m.active && m.tasks == map[] && m.row.Some? && m.row.value.stage == AwaitingApproval
    requires m.row.value.revision == 4
    requires m.row.value.transaction.None? && m.row.value.invoice.Some? && m.row.value.trust != Changed
    requires tx.id == ComputeId(tx) && tx.id != [] && fee > 0
    ensures var m3 := Run(m, PayEvents(tx, fee));
      && m3.paid && m3.calls == m.calls + [tx] && m3.row.Some? && m3.row.value.stage == PreparingPayment
      && m3.row.value.revision == 6 && m3.row.value.invoice.Some? && m3.row.value.trust != Changed
  {
    hide ComputeId, Run;
    RunThree(m, Approve(0, 4, false, true), Proceed(0, Prepared(tx, fee)), Proceed(0, Success));
    var m1 := Apply(m, Approve(0, 4, false, true));
    assert m1.row.value.stage == PreparingPayment && m1.tasks[0] == Task(Preparing, m1.row.value, true);
    var m2 := Apply(m1, Proceed(0, Prepared(tx, fee)));
    assert m2.tasks[0].step == Sending(tx, fee);
  }

  /** Recovery takes a session that was preparing its payment back to approval. */
  lemma CrashForgets(m: Machine, s: Session)
    requires m.row == Some(s) && s.stage == PreparingPayment && s.revision > 0 && m.tasks == map[] && !m.active
    ensures var r := Next(s).(stage := AwaitingApproval, retryStage := None, error := OtherError);
      Apply(Apply(m, Recover(1)), Proceed(1, Success)) == m.(row := Some(r))
  {
  }

  lemma LateRun(m: Machine)
    requires m.row.Some? && m.row.value.stage == PreparingPayment && m.row.value.revision == 6
    requires m.row.value.invoice.Some? && m.row.value.trust != Changed
    ensures var m7 := Run(m, LateEvents());
      m7.row.Some? && m7.row.value.stage == Expired && m7.paid == m.paid && m7.calls == m.calls
  {
    hide Run, StepTask;
    RunFour(m, Crash, Recover(1), Proceed(1, Success), Approve(2, 7, true, true));
    CrashForgets(Apply(m, Crash), m.row.value);
  }

  /**
    A run that ends badly for the record: the payment is sent, the manager crashes before recording it, recovery
    returns the session to approval saying nothing was sent, and approving it after the invoice has expired closes it
    as expired, although the payment went through. Any invoice and any valid transaction will do.
   */
  lemma PaidYetExpired(verify: (Invoice, Text, Delivery) -> bool, invoice: Invoice, ceiling: uint64, preview: uint64,
                       tx: Transaction, fee: uint64)
    requires tx.id == ComputeId(tx) && tx.id != [] && fee > 0
    ensures var m := Run(Start(verify), ReviewEvents(invoice, ceiling, preview) + PayEvents(tx, fee) + LateEvents());
      m.row.Some? && m.row.value.stage == Expired && m.paid && m.calls == [tx]
  {
    hide Run, Start, ReviewEvents, PayEvents, LateEvents, ComputeId;
    var a, b := ReviewEvents(invoice, ceiling, preview), PayEvents(tx, fee);
    RunAppend(Start(verify), a + b, LateEvents());
    RunAppend(Start(verify), a, b);
    ReviewRun(verify, invoice, ceiling, preview);
    PayRun(Run(Start(verify), a), tx, fee);
    LateRun(Run(Start(verify), a + b));
  }

  // ---------------------------------------------------------------- rows before broadcast

  /** Stages a session passes before broadcast. */
  predicate Early(s: Session) {
    s.stage in {Received, Inspecting, AwaitingApproval, PreparingPayment, Expired}
    || (s.stage == FailedRetryable && s.retryStage == Some(Inspecting))
  }

  /** Every write from one early row to another. */
  predicate EarlyWrite(s: Session, s1: Session) {
    var row, r := Some(s), Some(s1);
    match s.stage
    case Received => r == Transition(row, s.revision, Inspecting, NoError)
    case Inspecting =>
      || (!s.redeemed && r == SaveRedeemed(row, s.revision))
      || (s.redeemed && s1.invoice.Some?
          && r == SaveReview(row, s.revision, s1.invoice.value, s1.feeCeiling, s1.fee, s1.trust))
      || (s.redeemed && r == Terminate(row, s.revision, Expired, OtherError))
      || r == Transition(row, s.revision, FailedRetryable, OtherError)
    case AwaitingApproval =>
      || r == TrustAgain(row, s.revision)
      || (s.invoice.Some? && s.trust != Changed
          && (r == Transition(row, s.revision, Expired, OtherError)
              || r == Transition(row, s.revision, PreparingPayment, NoError)))
    case PreparingPayment =>
      || (s1.transaction.Some? && r == Journal(row, s.revision, s1.transaction.value, s1.fee))
      || r == Transition(row, s.revision, AwaitingApproval, OtherError)
    case FailedRetryable => r == Transition(row, s.revision, Inspecting, NoError)
    case _ => false
  }

  /** What an event does to an early row, seen from the row it leaves. */
  predicate RowMoves(row: Option<Session>, row1: Option<Session>) {
    row1.Some? ==>
      row.Some? && (row1 == row || (Early(row1.value) ==> Early(row.value) && EarlyWrite(row.value, row1.value)))
  }

  // ---------------------------------------------------------------- every event

  lemma FailMoves(m: Machine, t: nat, to: Stage, error: ErrorCode)
    requires Inv(m) && t in m.tasks && to in {FailedRetryable, FailedTerminal}
    requires m.tasks[t].session.stage in {Submitting, Confirming, Fulfilling, Verifying}
    ensures RowMoves(m.row, Write(m, t, Fail(m.row, m.tasks[t].session, to, error), None).row)
  {
    hide Inv, RowOk, StepOk, SnapshotOk;
    TaskKnows(m, t);
  }

  lemma PreparingMoves(m: Machine, t: nat, answer: Answer)
    requires Inv(m) && t in m.tasks && m.tasks[t].step.Preparing?
    ensures RowMoves(m.row, StepPreparing(m, t, answer).row)
  {
    hide Inv, RowOk, SnapshotOk, ComputeId;
    TaskKnows(m, t);
  }

  lemma ContinuingMoves(m: Machine, t: nat, answer: Answer)
    requires Inv(m) && t in m.tasks
    ensures RowMoves(m.row, StepContinuing(m, t, answer).row)
  {
    hide Inv, RowOk, SnapshotOk, StepOk, Fail;
    var s := m.tasks[t].session;
    TaskKnows(m, t);
    if s.stage in {Submitting, Confirming, Fulfilling} {
      FailMoves(m, t, FailedRetryable, OtherError);
      FailMoves(m, t, FailedTerminal, OtherError);
    }
  }

  lemma CountedMoves(m: Machine, t: nat)
    requires Inv(m) && t in m.tasks && m.tasks[t].step.Counted?
    ensures RowMoves(m.row, StepCounted(m, t).row)
  {
    hide Inv, RowOk, SnapshotOk, Fail;
    TaskKnows(m, t);
    FailMoves(m, t, FailedTerminal, OtherError);
  }

  lemma CheckingMoves(m: Machine, t: nat, answer: Answer)
    requires Inv(m) && t in m.tasks && m.tasks[t].step.Checking?
    ensures RowMoves(m.row, StepChecking(m, t, answer).row)
  {
    hide Inv, RowOk, SnapshotOk, Fail;
    TaskKnows(m, t);
    FailMoves(m, t, FailedRetryable, DeliveryInvalid);
    FailMoves(m, t, FailedRetryable, OtherError);
  }

  lemma ReviewingMoves(m: Machine, t: nat, answer: Answer)
    requires Inv(m) && t in m.tasks && m.tasks[t].step.Reviewing?
    ensures RowMoves(m.row, StepReviewing(m, t, answer).row)
  {
    hide Inv, RowOk, SnapshotOk;
    TaskKnows(m, t);
    if At(m.row, m.tasks[t].session.revision) {
      UnpaidRow(m, m.tasks[t].session);
    }
  }

  lemma RetryMoves(m: Machine, t: nat, revision: nat)
    requires Inv(m)
    ensures RowMoves(m.row, StartRetry(m, t, revision).row)
  {
    hide Inv, SnapshotOk, TasksOk;
    if m.row.Some? && m.row.value.stage == FailedRetryable {
      RetryPermitted(m);
    }
  }

  lemma RecoveringMoves(m: Machine, t: nat)
    requires Inv(m) && t in m.tasks
    ensures RowMoves(m.row, StepRecovering(m, t).row)
  {
    hide Inv, RowOk, SnapshotOk, StepOk, StartRetry;
    var s := m.tasks[t].session;
    TaskKnows(m, t);
    EndKeeps(m, t);
    RetryMoves(End(m, t), t, s.revision);
  }

  lemma TaskMovesRow(m: Machine, t: nat, answer: Answer)
    requires Inv(m) && t in m.tasks
    ensures RowMoves(m.row, StepTask(m, t, answer).row)
  {
    hide Inv, RowOk, SnapshotOk, StepPreparing, StepContinuing, StepCounted, StepChecking, StepReviewing,
      StepRecovering;
    TaskKnows(m, t);
    match m.tasks[t].step {
      case Preparing => PreparingMoves(m, t, answer);
      case Continuing => ContinuingMoves(m, t, answer);
      case Counted(_) => CountedMoves(m, t);
      case Checking(_) => CheckingMoves(m, t, answer);
      case Reviewing => ReviewingMoves(m, t, answer);
      case Recovering => RecoveringMoves(m, t);
      case _ =>
    }
  }

  /** An event writes the row at most once, and an early row is only ever written from an early row. */
  lemma ApplyMoves(m: Machine, e: Event)
    requires Inv(m)
    ensures RowMoves(m.row, Apply(m, e).row)
  {
    hide Inv, RowOk, TasksOk, StepTask, StartRetry;
    match e {
      case Retry(t, revision) => RetryMoves(m, t, revision);
      case Proceed(t, answer) => if t in m.tasks { TaskMovesRow(m, t, answer); }
      case _ =>
    }
  }

  // ---------------------------------------------------------------- another history of the same row

  /** A machine at this row whose payment, if one is journaled, went through; a preparing session is still at it. */
  ghost predicate Ready(m: Machine, s: Session) {
    && m.row == Some(s) && (s.transaction.Some? ==> m.paid)
    && (if s.stage == PreparingPayment
        then m.active && m.tasks == map[0 := Task(if s.transaction.Some? then Sent else Preparing, s, true)]
        else !m.active && m.tasks == map[])
  }

  function ReviewAnswer(s1: Session): Answer {
    if s1.stage == FailedRetryable then Failure
    else if s1.stage == Expired then Unacceptable(Expired)
    else if s1.stage == Inspecting || s1.invoice.None? then Success
    else Reviewed(s1.invoice.value, s1.feeCeiling, s1.fee, s1.trust)
  }

  /** Events that write `s1` over `s`, and pay as soon as there is something to pay. */
  function Rewrite(s: Session, s1: Session): seq<Event> {
    match s.stage
    case Received => [Recover(0), Proceed(0, Success), Crash]
    case Inspecting => [Recover(0), Proceed(0, Success), Proceed(0, ReviewAnswer(s1)), Crash]
    case AwaitingApproval =>
      if s1.stage == AwaitingApproval then [ReestablishTrust(s.revision)]
      else if s1.stage == Expired then [Approve(0, s.revision, true, true)]
      else if s.transaction.None? then [Approve(0, s.revision, false, true)]
      else [Approve(0, s.revision, false, true), Proceed(0, Success), Proceed(0, Success)]
    case PreparingPayment =>
      if s1.stage == PreparingPayment && s1.transaction.Some? then
        [Proceed(0, Prepared(s1.transaction.value, s1.fee)), Proceed(0, Success)]
      else [Crash, Recover(0), Proceed(0, Success)]
    case FailedRetryable => [Retry(0, s.revision), Crash]
    case _ => []
  }

  lemma RewriteReceived(m: Machine, s: Session, s1: Session)
    requires Ready(m, s) && EarlyWrite(s, s1) && s.stage == Received && s.transaction.None?
    ensures Ready(Run(m, Rewrite(s, s1)), s1)
  {
    hide Run;
    RunThree(m, Recover(0), Proceed(0, Success), Crash);
  }

  lemma InspectResumes(m: Machine, s: Session)
    requires m.row == Some(s) && m.tasks == map[] && s.stage == Inspecting
    ensures Apply(Apply(m, Recover(0)), Proceed(0, Success)) == m.(tasks := map[0 := Task(Reviewing, s, false)])
  {
  }

  lemma ReviewWrites(m: Machine, s: Session, s1: Session)
    requires m.row == Some(s) && m.tasks == map[0 := Task(Reviewing, s, false)]
    requires EarlyWrite(s, s1) && s.stage == Inspecting && s.transaction.None?
    ensures StepReviewing(m, 0, ReviewAnswer(s1)).row == Some(s1) && s1.transaction.None?
    ensures s1.stage != PreparingPayment
    ensures StepReviewing(m, 0, ReviewAnswer(s1)).active == m.active
  {
  }

  lemma RewriteInspecting(m: Machine, s: Session, s1: Session)
    requires Ready(m, s) && EarlyWrite(s, s1) && s.stage == Inspecting && s.transaction.None?
    ensures Ready(Run(m, Rewrite(s, s1)), s1)
  {
    hide Run, EarlyWrite, StepReviewing;
    RunFour(m, Recover(0), Proceed(0, Success), Proceed(0, ReviewAnswer(s1)), Crash);
    InspectResumes(m, s);
    ReviewWrites(m.(tasks := map[0 := Task(Reviewing, s, false)]), s, s1);
  }

  lemma RewriteAwaiting(m: Machine, s: Session, s1: Session)
    requires Ready(m, s) && EarlyWrite(s, s1) && s.stage == AwaitingApproval && s.revision > 0
    ensures Ready(Run(m, Rewrite(s, s1)), s1)
  {
    hide Run;
    if s1.stage == AwaitingApproval {
      RunOne(m, ReestablishTrust(s.revision));
    } else if s1.stage == Expired {
      RunOne(m, Approve(0, s.revision, true, true));
    } else if s.transaction.None? {
      RunOne(m, Approve(0, s.revision, false, true));
    } else {
      RunThree(m, Approve(0, s.revision, false, true), Proceed(0, Success), Proceed(0, Success));
    }
  }

  lemma RewritePreparing(m: Machine, s: Session, s1: Session)
    requires Ready(m, s) && EarlyWrite(s, s1) && s.stage == PreparingPayment && s.revision > 0
    ensures Ready(Run(m, Rewrite(s, s1)), s1)
  {
    hide Run, ComputeId;
    if s1.stage == PreparingPayment {
      RunTwo(m, Proceed(0, Prepared(s1.transaction.value, s1.fee)), Proceed(0, Success));
    } else {
      RunThree(m, Crash, Recover(0), Proceed(0, Success));
    }
  }

  lemma RewriteRetry(m: Machine, s: Session, s1: Session)
    requires Ready(m, s) && EarlyWrite(s, s1) && s.stage == FailedRetryable && s.transaction.None?
    requires s.retryStage == Some(Inspecting) && s.error != DeliveryInvalid
    ensures Ready(Run(m, Rewrite(s, s1)), s1)
  {
    hide Run;
    RunTwo(m, Retry(0, s.revision), Crash);
  }

  lemma RewriteKeepsReady(m: Machine, s: Session, s1: Session)
    requires Inv(m) && Ready(m, s) && EarlyWrite(s, s1) && Early(s)
    ensures Ready(Run(m, Rewrite(s, s1)), s1)
  {
    hide Run, Rewrite, TasksOk;
    match s.stage {
      case Received => RewriteReceived(m, s, s1);
      case Inspecting => RewriteInspecting(m, s, s1);
      case AwaitingApproval => RewriteAwaiting(m, s, s1);
      case PreparingPayment => RewritePreparing(m, s, s1);
      case FailedRetryable => RewriteRetry(m, s, s1);
      case _ =>
    }
  }

  lemma StartReady(verify: (Invoice, Text, Delivery) -> bool)
    ensures Run(Start(verify), []) == Start(verify) && Ready(Start(verify), NewSession())
  {
  }

  /** Every early row that some run reaches, a run reaches in which its journaled payment went through. */
  lemma {:induction false} PaidHistory(verify: (Invoice, Text, Delivery) -> bool, events: seq<Event>)
    returns (other: seq<Event>)
    requires var row := Run(Start(verify), events).row; row.Some? && Early(row.value)
    ensures Ready(Run(Start(verify), other), Run(Start(verify), events).row.value)
    decreases |events|
  {
    hide Run, Apply, Inv, RowOk, EarlyWrite, Rewrite, Ready;
    StartOk(verify);
    if |events| == 0 {
      other := [];
      StartReady(verify);
    } else {
      var before, e := events[..|events| - 1], events[|events| - 1];
      assert before + [e] == events;
      var m := Run(Start(verify), before);
      RunAppend(Start(verify), before, [e]);
      RunOne(m, e);
      RunKeeps(Start(verify), before);
      ApplyMoves(m, e);
      var earlier := PaidHistory(verify, before);
      if Apply(m, e).row == m.row {
        other := earlier;
      } else {
        var s, s1 := m.row.value, Apply(m, e).row.value;
        RunKeeps(Start(verify), earlier);
        RewriteKeepsReady(Run(Start(verify), earlier), s, s1);
        RunAppend(Start(verify), earlier, Rewrite(s, s1));
        other := earlier + Rewrite(s, s1);
      }
    }
  }

  /**
    What a session waiting for approval, or closed as expired, says about its payment: it was not sent in any history
    of the row exactly when no transaction is stored. With a stored transaction the row is also that of a paid session,
    so the expiry exit of Approve is safe exactly behind the check it does not make.
   */
  lemma UnpaidExactly(verify: (Invoice, Text, Delivery) -> bool, events: seq<Event>)
    requires var row := Run(Start(verify), events).row; row.Some? && row.value.stage in {AwaitingApproval, Expired}
    ensures var row := Run(Start(verify), events).row;
      (forall history :: Run(Start(verify), history).row == row ==> !Run(Start(verify), history).paid)
      <==> row.value.transaction.None?
  {
    hide Run, Start, Inv, RowOk, TasksOk;
    var row := Run(Start(verify), events).row;
    if row.value.transaction.None? {
      forall history | Run(Start(verify), history).row == row ensures !Run(Start(verify), history).paid {
        StartOk(verify);
        RunKeeps(Start(verify), history);
        NothingSent(Run(Start(verify), history));
      }
    } else {
      var history := PaidHistory(verify, events);
      assert Run(Start(verify), history).row == row && Run(Start(verify), history).paid;
    }
  }
}
