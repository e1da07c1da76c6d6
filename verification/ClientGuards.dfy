/**
  What the session manager never does and what it does when all goes well (entpay/client_manager.go): two operations
  never hold a session at once, a payment is only prepared on a good approval, a session whose payment is under way is
  not deleted, and with a wallet and a merchant that answer every session completes.
 */
module ClientGuards {
  import opened Common
  import opened Encoding
  import opened Transactions
  import opened ClientStores
  import opened ClientSessions
  import opened ClientRuns
  import opened ClientHistories

  // ---------------------------------------------------------------- one operation at a time

  /** At most one operation holds the session, and the mark is set exactly while one does. */
  ghost predicate OneHolder(m: Machine) {
    && (forall t, u | t in m.tasks && u in m.tasks && m.tasks[t].holds && m.tasks[u].holds :: t == u)
    && (m.active <==> exists t :: t in m.tasks && m.tasks[t].holds)
  }

  lemma EndHolds(m: Machine, t: nat)
    requires OneHolder(m) && t in m.tasks
    ensures OneHolder(End(m, t))
  {
    var m1 := End(m, t);
    if u :| u in m1.tasks && m1.tasks[u].holds {
      assert u in m.tasks && m.tasks[u].holds;
    }
    if m.active && !m.tasks[t].holds {
      var u :| u in m.tasks && m.tasks[u].holds;
      assert u in m1.tasks && m1.tasks[u].holds;
    }
  }

  /** A step of an operation changes neither who holds the session nor the mark. */
  lemma StepHolds(m: Machine, m1: Machine, t: nat, task: Task)
    requires OneHolder(m) && t in m.tasks && task.holds == m.tasks[t].holds
    requires m1.tasks == m.tasks[t := task] && m1.active == m.active
    ensures OneHolder(m1)
  {
    if m.active {
      var u :| u in m.tasks && m.tasks[u].holds;
      assert u in m1.tasks && m1.tasks[u].holds;
    }
    if u :| u in m1.tasks && m1.tasks[u].holds {
      assert u in m.tasks && m.tasks[u].holds;
    }
  }

  lemma SameHolds(m: Machine, m1: Machine)
    requires OneHolder(m) && m1.tasks == m.tasks && m1.active == m.active
    ensures OneHolder(m1)
  {
  }

  lemma WriteHolds(m: Machine, t: nat, r: Option<Session>, next: Option<Step>)
    requires OneHolder(m) && t in m.tasks
    ensures OneHolder(Write(m, t, r, next))
  {
    hide OneHolder, End;
    EndHolds(m, t);
    SameHolds(m, m.(row := r));
    EndHolds(m.(row := r), t);
    if r.Some? && next.Some? {
      StepHolds(m, Write(m, t, r, next), t, Task(next.value, r.value, m.tasks[t].holds));
    }
  }

  lemma MoveHolds(m: Machine, t: nat, step: Step)
    requires OneHolder(m) && t in m.tasks
    ensures OneHolder(m.(tasks := m.tasks[t := m.tasks[t].(step := step)]))
  {
    hide OneHolder;
    StepHolds(m, m.(tasks := m.tasks[t := m.tasks[t].(step := step)]), t, m.tasks[t].(step := step));
  }

  lemma NewHolds(m: Machine, m1: Machine, t: nat, task: Task)
    requires OneHolder(m) && t !in m.tasks && m1.tasks == m.tasks[t := task]
    requires if task.holds then !m.active && m1.active else m1.active == m.active
    ensures OneHolder(m1)
  {
    if m.active {
      var u :| u in m.tasks && m.tasks[u].holds;
      assert u in m1.tasks && m1.tasks[u].holds;
    }
    if task.holds {
      assert t in m1.tasks && m1.tasks[t].holds;
    }
    if u :| u in m1.tasks && m1.tasks[u].holds {
      assert u == t || (u in m.tasks && m.tasks[u].holds);
    }
  }

  lemma ContinueHolds(m: Machine, t: nat)
    requires OneHolder(m)
    ensures OneHolder(StartContinue(m, t))
  {
    hide OneHolder;
    if StartContinue(m, t) != m {
      NewHolds(m, StartContinue(m, t), t, Task(Continuing, m.row.value, true));
    }
  }

  lemma RetryHolds(m: Machine, t: nat, revision: nat)
    requires OneHolder(m)
    ensures OneHolder(StartRetry(m, t, revision))
  {
    hide OneHolder, StartContinue, Transition, RetryTarget;
    if StartRetry(m, t, revision) != m {
      var r := Transition(m.row, revision, RetryTarget(m.row.value).value, NoError);
      var m1 := m.(row := r);
      SameHolds(m, m1);
      ContinueHolds(m1, t);
      NewHolds(m1, m1.(tasks := m1.tasks[t := Task(Reviewing, r.value, false)]), t, Task(Reviewing, r.value, false));
      if r.value.delivery.Some? {
        var task := Task(Checking(r.value.delivery.value), r.value, false);
        NewHolds(m1, m1.(tasks := m1.tasks[t := task]), t, task);
      }
    }
  }

  lemma RecoveringHolds(m: Machine, t: nat)
    requires OneHolder(m) && t in m.tasks
    ensures OneHolder(StepRecovering(m, t))
  {
    hide OneHolder, StartContinue, StartRetry, Transition, Write, End;
    var s := m.tasks[t].session;
    EndHolds(m, t);
    ContinueHolds(End(m, t), t);
    RetryHolds(End(m, t), t, s.revision);
    MoveHolds(m, t, Reviewing);
    if s.delivery.Some? {
      MoveHolds(m, t, Checking(s.delivery.value));
    }
    WriteHolds(m, t, Transition(m.row, s.revision, Inspecting, NoError), Some(Reviewing));
    WriteHolds(m, t, Transition(m.row, s.revision, AwaitingApproval, OtherError), None);
  }

  lemma PreparingHolds(m: Machine, t: nat, answer: Answer)
    requires OneHolder(m) && t in m.tasks
    ensures OneHolder(StepPreparing(m, t, answer))
  {
    hide OneHolder, Transition, Write, End, Journal;
    var s := m.tasks[t].session;
    EndHolds(m, t);
    WriteHolds(m, t, Transition(m.row, s.revision, AwaitingApproval, OtherError), None);
    if answer.Prepared? {
      var r := Journal(m.row, s.revision, answer.tx, answer.fee);
      SameHolds(m, m.(journal := Some(answer.tx)));
      WriteHolds(m.(journal := Some(answer.tx)), t, r, Some(Sending(answer.tx, answer.fee)));
      WriteHolds(m, t, r, Some(Sending(answer.tx, answer.fee)));
    }
    if m.row.Some? && m.row.value.transaction.Some? {
      MoveHolds(m, t, Sending(m.row.value.transaction.value, s.fee));
    }
  }

  lemma SendingHolds(m: Machine, t: nat, answer: Answer)
    requires OneHolder(m) && t in m.tasks && m.tasks[t].step.Sending?
    ensures OneHolder(StepSending(m, t, answer))
  {
    hide OneHolder;
    StepHolds(m, StepSending(m, t, answer), t, m.tasks[t].(step := if answer.Success? then Sent else NotSent));
  }

  /** Every write of an operation, whatever it writes and however it goes on. */
  lemma AnyWriteHolds(m: Machine, t: nat)
    requires OneHolder(m) && t in m.tasks
    ensures forall r, next :: OneHolder(Write(m, t, r, next))
    ensures OneHolder(End(m, t))
  {
    hide OneHolder, Write, End;
    forall r, next ensures OneHolder(Write(m, t, r, next)) {
      WriteHolds(m, t, r, next);
    }
    EndHolds(m, t);
  }

  lemma TaskHolds(m: Machine, t: nat, answer: Answer)
    requires OneHolder(m) && t in m.tasks
    ensures OneHolder(StepTask(m, t, answer))
  {
    hide OneHolder, Write, End, Transition, Fail, SaveDelivery, SaveCount, SaveReview, SaveRedeemed, Completed,
      StepPreparing, StepSending, StepRecovering, TransactionId;
    AnyWriteHolds(m, t);
    MoveHolds(m, t, Continuing);
    PreparingHolds(m, t, answer);
    RecoveringHolds(m, t);
    if m.tasks[t].step.Sending? {
      SendingHolds(m, t, answer);
    }
  }

  lemma ApproveHolds(m: Machine, t: nat, revision: nat, expired: bool, ready: bool)
    requires OneHolder(m)
    ensures OneHolder(StartApprove(m, t, revision, expired, ready))
  {
    hide OneHolder, Transition;
    var r := Transition(m.row, revision, Expired, OtherError);
    SameHolds(m, m.(row := r));
    var p := Transition(m.row, revision, PreparingPayment, NoError);
    if !m.active && t !in m.tasks && p.Some? {
      NewHolds(m, m.(row := p, active := true, tasks := m.tasks[t := Task(Preparing, p.value, true)]), t, Task(Preparing, p.value, true));
    }
  }

  lemma NothingHolds(m: Machine)
    requires m.tasks == map[] && !m.active
    ensures OneHolder(m)
  {
  }

  lemma ApplyHolds(m: Machine, e: Event)
    requires OneHolder(m)
    ensures OneHolder(Apply(m, e))
  {
    hide OneHolder, StepTask, StartApprove, StartContinue, StartRetry, End, Terminate, TrustAgain, Deletable;
    match e {
      case Approve(t, revision, expired, ready) => ApproveHolds(m, t, revision, expired, ready);
      case Continue(t) => ContinueHolds(m, t);
      case Retry(t, revision) => RetryHolds(m, t, revision);
      case Recover(t) =>
        if t !in m.tasks && m.row.Some? {
          NewHolds(m, Apply(m, e), t, Task(Recovering, m.row.value, false));
        }
      case Abort(t) => if t in m.tasks { EndHolds(m, t); }
      case Crash => NothingHolds(Apply(m, e));
      case Proceed(t, answer) => if t in m.tasks { TaskHolds(m, t, answer); }
      case _ => SameHolds(m, Apply(m, e));
    }
  }

  /** No two approvals or continuations of a session are ever under way together, in any interleaving. */
  lemma {:induction false} NeverTwoHolders(m: Machine, events: seq<Event>)
    requires OneHolder(m)
    ensures OneHolder(Run(m, events))
    decreases |events|
  {
    hide OneHolder, Apply;
    if |events| > 0 {
      ApplyHolds(m, events[0]);
      NeverTwoHolders(Apply(m, events[0]), events[1..]);
    }
  }

  lemma StartHolds(verify: (Invoice, Text, Delivery) -> bool)
    ensures OneHolder(Start(verify))
  {
  }

  /** The two together, from a new session on. */
  lemma OneAtATime(verify: (Invoice, Text, Delivery) -> bool, events: seq<Event>, t: nat, u: nat)
    requires var m := Run(Start(verify), events); t in m.tasks && u in m.tasks && m.tasks[t].holds && m.tasks[u].holds
    ensures t == u && Run(Start(verify), events).active
  {
    hide Run, Start;
    StartHolds(verify);
    NeverTwoHolders(Start(verify), events);
  }

  // ---------------------------------------------------------------- what a payment needs

  /** A row that is not already preparing a payment is not made to. */
  predicate StaysUnprepared(row: Option<Session>, row1: Option<Session>) {
    row1.Some? && row1.value.stage == PreparingPayment ==> row.Some? && row.value.stage == PreparingPayment
  }

  lemma ContinuingUnprepared(m: Machine, t: nat, answer: Answer)
    requires t in m.tasks
    ensures StaysUnprepared(m.row, StepContinuing(m, t, answer).row)
  {
    hide Write, End;
  }

  lemma CheckingUnprepared(m: Machine, t: nat, answer: Answer)
    requires t in m.tasks && m.tasks[t].step.Checking?
    ensures StaysUnprepared(m.row, StepChecking(m, t, answer).row)
  {
    hide Write, End, TransactionId;
  }

  lemma ReviewingUnprepared(m: Machine, t: nat, answer: Answer)
    requires t in m.tasks
    ensures StaysUnprepared(m.row, StepReviewing(m, t, answer).row)
  {
    hide Write, End;
  }

  lemma CountedUnprepared(m: Machine, t: nat)
    requires t in m.tasks && m.tasks[t].step.Counted?
    ensures StaysUnprepared(m.row, StepCounted(m, t).row)
  {
    hide Write, End;
  }

  lemma PreparingUnprepared(m: Machine, t: nat, answer: Answer)
    requires t in m.tasks
    ensures StaysUnprepared(m.row, StepPreparing(m, t, answer).row)
  {
    hide Write, End, ComputeId;
  }

  lemma RetryUnprepared(m: Machine, t: nat, revision: nat)
    ensures StaysUnprepared(m.row, StartRetry(m, t, revision).row)
  {
    hide RetryTarget;
  }

  lemma RecoveringUnprepared(m: Machine, t: nat)
    requires t in m.tasks
    ensures StaysUnprepared(m.row, StepRecovering(m, t).row)
  {
    hide Write, End, StartRetry;
    RetryUnprepared(End(m, t), t, m.tasks[t].session.revision);
  }

  lemma TaskUnprepared(m: Machine, t: nat, answer: Answer)
    requires t in m.tasks
    ensures StaysUnprepared(m.row, StepTask(m, t, answer).row)
  {
    hide Write, End, StepContinuing, StepChecking, StepReviewing, StepRecovering, StepCounted, StepPreparing;
    match m.tasks[t].step {
      case Preparing => PreparingUnprepared(m, t, answer);
      case Continuing => ContinuingUnprepared(m, t, answer);
      case Counted(_) => CountedUnprepared(m, t);
      case Checking(_) => CheckingUnprepared(m, t, answer);
      case Reviewing => ReviewingUnprepared(m, t, answer);
      case Recovering => RecoveringUnprepared(m, t);
      case _ =>
    }
  }

  /**
    A session starts preparing a payment only by an approval at its revision, of an invoice that has not expired, with
    the wallet ready, the merchant's identity unchanged, and no other operation holding it; and then it does.
   */
  lemma PreparationNeedsApproval(m: Machine, e: Event)
    requires Inv(m) && m.row.Some? && m.row.value.stage != PreparingPayment
    ensures Apply(m, e).row.Some? && Apply(m, e).row.value.stage == PreparingPayment <==>
      && e.Approve? && e.revision == m.row.value.revision && !e.expired && e.ready
      && m.row.value.stage == AwaitingApproval && m.row.value.trust != Changed && !m.active && e.task !in m.tasks
  {
    hide StepTask, StartRetry, TasksOk, Deletable;
    match e {
      case Retry(t, revision) => RetryUnprepared(m, t, revision);
      case Proceed(t, answer) => if t in m.tasks { TaskUnprepared(m, t, answer); }
      case _ =>
    }
  }

  lemma StartsCallNothing(m: Machine, e: Event)
    requires !e.Proceed?
    ensures Apply(m, e).calls == m.calls
  {
    hide Transition, Terminate, TrustAgain, Deletable, RetryTarget;
  }

  lemma EndCalls(m: Machine, t: nat)
    requires t in m.tasks
    ensures End(m, t).calls == m.calls
  {
  }

  lemma QuietSteps(m: Machine, t: nat, answer: Answer)
    requires t in m.tasks
    ensures StepContinuing(m, t, answer).calls == m.calls && StepReviewing(m, t, answer).calls == m.calls
    ensures StepPreparing(m, t, answer).calls == m.calls
    ensures m.tasks[t].step.Counted? ==> StepCounted(m, t).calls == m.calls
    ensures m.tasks[t].step.Checking? ==> StepChecking(m, t, answer).calls == m.calls
  {
    hide Transition, Fail, SaveDelivery, SaveCount, SaveReview, SaveRedeemed, Journal, Completed, TransactionId,
      Write, End;
    EndCalls(m, t);
  }

  lemma RecoveringCalls(m: Machine, t: nat)
    requires t in m.tasks
    ensures StepRecovering(m, t).calls == m.calls
  {
    hide Transition, Write, RetryTarget;
  }

  lemma TaskCalls(m: Machine, t: nat, answer: Answer)
    requires Inv(m) && t in m.tasks
    ensures StepTask(m, t, answer).calls != m.calls ==>
      && m.tasks[t].session.stage == PreparingPayment && m.journal.Some?
      && StepTask(m, t, answer).calls == m.calls + [m.journal.value]
  {
    hide RowOk, SnapshotOk, Transition, StepRecovering, StepContinuing, StepReviewing, StepPreparing, StepCounted,
      StepChecking, Write, End;
    RecoveringCalls(m, t);
    QuietSteps(m, t, answer);
    assert StepOk(m.tasks[t], m);
  }

  /** A changed merchant identity holds approval up until the user trusts it again, and then no longer. */
  lemma TrustUnlocksApproval(m: Machine, t: nat)
    requires Inv(m) && m.row.Some? && m.row.value.stage == AwaitingApproval && m.row.value.trust == Changed
    requires !m.active && t !in m.tasks
    ensures Apply(m, Approve(t, m.row.value.revision, false, true)) == m
    ensures var m1 := Apply(m, ReestablishTrust(m.row.value.revision));
      var m2 := Apply(m1, Approve(t, m.row.value.revision + 1, false, true));
      && m1.row == Some(m.row.value.(revision := m.row.value.revision + 1, trust := Previous))
      && m2.row.Some? && m2.row.value.stage == PreparingPayment && m2.active
  {
  }

  /** A call that commits a payment is only made for a session that was being prepared when the operation last looked. */
  lemma CallsWhilePreparing(m: Machine, e: Event)
    requires Inv(m) && Apply(m, e).calls != m.calls
    ensures e.Proceed? && e.task in m.tasks && m.tasks[e.task].session.stage == PreparingPayment
    ensures m.journal.Some? && Apply(m, e).calls == m.calls + [m.journal.value]
  {
    hide Transition, Terminate, TrustAgain, Deletable, RetryTarget, RowOk, Write, End, Journal, Fail, Completed, SaveDelivery,
      SaveCount, SaveReview, SaveRedeemed, TransactionId, StartRetry, StartContinue, StartApprove, StepTask, TasksOk;
    if e.Proceed? && e.task in m.tasks {
      TaskCalls(m, e.task, e.answer);
    } else {
      StartsCallNothing(m, e);
    }
  }

  // ---------------------------------------------------------------- what is not deleted

  /** A session whose payment may be under way is not deleted; a finished or unpaid one that waits is. */
  lemma DeletesOnlyFinished(m: Machine)
    requires m.row.Some?
    ensures var s := m.row.value;
      var m1 := Apply(m, DeleteSession);
      if s.stage in {PreparingPayment, Broadcast, Submitting, Confirming, Fulfilling, Verifying, Received, Inspecting}
         || (s.stage == FailedRetryable && s.transaction.Some?)
      then m1 == m else m1 == m.(row := None)
  {
  }

  // ---------------------------------------------------------------- when all goes well

  /** The payment is recorded and handed to the merchant. */
  function SubmitEvents(): seq<Event> {
    [Proceed(0, Success), Continue(0), Proceed(0, Success)]
  }

  /** The merchant confirms, and its delivery comes and is verified. */
  function DeliverEvents(d: Delivery): seq<Event> {
    [Proceed(0, Success), Proceed(0, Delivered(d)), Proceed(0, Success)]
  }

  /** One transition by the operation that holds the session. */
  lemma GoesOnTo(m: Machine, s: Session, step: Step, answer: Answer, to: Stage)
    requires m.row == Some(s) && m.tasks == map[0 := Task(step, s, true)] && s.revision > 0
    requires step == Continuing && ((s.stage == Broadcast && to == Submitting)
                                    || (s.stage == Submitting && to == Confirming && answer.Success?))
    ensures var s1 := Next(s).(stage := to, retryStage := None, error := NoError);
      Apply(m, Proceed(0, answer)) == m.(row := Some(s1), tasks := map[0 := Task(Continuing, s1, true)])
  {
  }

  lemma RecordsPayment(m: Machine, s: Session)
    requires m.row == Some(s) && m.tasks == map[0 := Task(Sent, s, true)] && s.stage == PreparingPayment
    requires s.revision > 0
    ensures var s1 := Next(s).(stage := Broadcast, retryStage := None, error := NoError);
      Apply(m, Proceed(0, Success)) == m.(row := Some(s1), tasks := map[], active := false)
  {
  }

  lemma TakesDelivery(m: Machine, s: Session, d: Delivery)
    requires m.row == Some(s) && m.tasks == map[0 := Task(Continuing, s, true)] && s.stage == Confirming
    ensures var s1 := Next(s).(stage := Verifying, error := NoError, delivery := Some(d));
      Apply(m, Proceed(0, Delivered(d))) == m.(row := Some(s1), tasks := map[0 := Task(Checking(d), s1, true)])
  {
  }

  lemma CompletesSession(m: Machine, s: Session, d: Delivery)
    requires m.row == Some(s) && m.tasks == map[0 := Task(Checking(d), s, true)] && s.stage == Verifying
    requires s.invoice.Some? && m.verify(s.invoice.value, TransactionId(s), d)
    ensures var s1 := Next(s).(stage := Complete, error := NoError);
      Apply(m, Proceed(0, Success)) == m.(row := Some(s1), tasks := map[], active := false)
  {
  }

  lemma SameId(a: Session, b: Session)
    requires a.transaction == b.transaction
    ensures TransactionId(a) == TransactionId(b)
  {
  }

  lemma Picks(m: Machine, s: Session)
    requires m.row == Some(s) && m.tasks == map[] && !m.active && s.transaction.Some? && s.invoice.Some?
    ensures Apply(m, Continue(0)) == m.(active := true, tasks := map[0 := Task(Continuing, s, true)])
  {
  }

  /** The session while its holder continues it. */
  function Continued(m: Machine, s: Session): Machine {
    m.(row := Some(s), active := true, tasks := map[0 := Task(Continuing, s, true)])
  }

  lemma SubmitRun(m: Machine, s: Session)
    requires m.row == Some(s) && m.tasks == map[0 := Task(Sent, s, true)] && s.stage == PreparingPayment
    requires s.revision > 0
    requires s.transaction.Some? && s.invoice.Some?
    ensures var s1 := s.(revision := s.revision + 2, stage := Submitting, retryStage := None, error := NoError);
      Run(m, SubmitEvents()) == Continued(m, s1)
  {
    hide Apply, Run;
    RunThree(m, Proceed(0, Success), Continue(0), Proceed(0, Success));
    var s1 := Next(s).(stage := Broadcast, retryStage := None, error := NoError);
    RecordsPayment(m, s);
    Picks(m.(row := Some(s1), tasks := map[], active := false), s1);
    GoesOnTo(Continued(m, s1), s1, Continuing, Success, Submitting);
  }

  lemma DeliverRun(m: Machine, s: Session, d: Delivery)
    requires s.stage == Submitting && s.revision > 0
    requires s.transaction.Some? && s.invoice.Some? && m.verify(s.invoice.value, TransactionId(s), d)
    ensures var s1 := s.(revision := s.revision + 3, stage := Complete, retryStage := None, error := NoError, delivery := Some(d));
      Run(Continued(m, s), DeliverEvents(d)) == m.(row := Some(s1), tasks := map[], active := false)
  {
    hide Apply, Run, TransactionId;
    RunThree(Continued(m, s), Proceed(0, Success), Proceed(0, Delivered(d)), Proceed(0, Success));
    GoesOnTo(Continued(m, s), s, Continuing, Success, Confirming);
    var s1 := Next(s).(stage := Confirming, retryStage := None, error := NoError);
    TakesDelivery(Continued(m, s1), s1, d);
    var s2 := Next(s1).(stage := Verifying, error := NoError, delivery := Some(d));
    SameId(s, s2);
    CompletesSession(Continued(m, s2).(tasks := map[0 := Task(Checking(d), s2, true)]), s2, d);
  }

  /** What the approval, journal and payment of a reviewed session leave. */
  lemma PaidState(m: Machine, tx: Transaction, fee: uint64)
    requires !m.active && m.tasks == map[] && m.row.Some? && m.row.value.stage == AwaitingApproval
    requires m.row.value.revision == 4
    requires m.row.value.transaction.None? && m.row.value.invoice.Some? && m.row.value.trust != Changed
    requires tx.id == ComputeId(tx) && tx.id != [] && fee > 0
    ensures var m3 := Run(m, PayEvents(tx, fee));
      var s := m.row.value.(revision := 6, stage := PreparingPayment, retryStage := None, error := NoError,
                            transaction := Some(tx), fee := fee);
      && m3.row == Some(s) && m3.tasks == map[0 := Task(Sent, s, true)] && m3.paid && m3.calls == m.calls + [tx]
      && m3.verify == m.verify
  {
    hide ComputeId, Run;
    RunThree(m, Approve(0, 4, false, true), Proceed(0, Prepared(tx, fee)), Proceed(0, Success));
    var m1 := Apply(m, Approve(0, 4, false, true));
    assert m1.row.value.stage == PreparingPayment && m1.tasks == map[0 := Task(Preparing, m1.row.value, true)];
    var m2 := Apply(m1, Proceed(0, Prepared(tx, fee)));
    assert m2.tasks == map[0 := Task(Sending(tx, fee), m2.row.value, true)];
  }

  lemma StartVerify(verify: (Invoice, Text, Delivery) -> bool)
    ensures Start(verify).verify == verify
  {
  }

  /**
    With a wallet that pays and a merchant that delivers what verifies, a received session goes all the way: reviewed,
    approved, paid once, recorded, submitted, confirmed, delivered, complete.
   */
  lemma GoodSessionCompletes(verify: (Invoice, Text, Delivery) -> bool, invoice: Invoice, ceiling: uint64, preview: uint64,
                             tx: Transaction, fee: uint64, d: Delivery)
    requires tx.id == ComputeId(tx) && tx.id != [] && fee > 0 && verify(invoice, tx.id, d)
    ensures var events := ReviewEvents(invoice, ceiling, preview) + PayEvents(tx, fee) + SubmitEvents() + DeliverEvents(d);
      var m := Run(Start(verify), events);
      && m.row.Some? && m.row.value.stage == Complete && m.row.value.delivery == Some(d)
      && m.row.value.transaction == Some(tx) && m.calls == [tx] && m.paid && m.tasks == map[] && !m.active
  {
    hide Run, Start, ReviewEvents, PayEvents, SubmitEvents, DeliverEvents, ComputeId;
    var a, b := ReviewEvents(invoice, ceiling, preview), PayEvents(tx, fee);
    RunAppend(Start(verify), a + b + SubmitEvents(), DeliverEvents(d));
    RunAppend(Start(verify), a + b, SubmitEvents());
    RunAppend(Start(verify), a, b);
    ReviewRun(verify, invoice, ceiling, preview);
    SameVerifier(Start(verify), a);
    StartVerify(verify);
    PaidState(Run(Start(verify), a), tx, fee);
    var m := Run(Start(verify), a + b);
    SubmitRun(m, m.row.value);
    DeliverRun(m, Run(m, SubmitEvents()).row.value, d);
  }
}
