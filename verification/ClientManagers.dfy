/**
  entpay/client_manager.go: the operations of the session manager in the form the source gives them, on the session
  store. Every operation runs here from its start to its end, answered by a script of the world's replies; where the
  script ends its context is cancelled. Each is proved to be one run of the session machine, so that the machine's
  steps are the steps of the code, and all that is proved about every interleaving holds of the manager.
 */
module ClientManagers {
  import opened Common
  import opened Encoding
  import opened Transactions
  import opened ClientStores
  import opened ClientSessions
  import opened ClientRuns
  import opened ClientHistories

  // ---------------------------------------------------------------- an operation by itself

  /** The events of one operation answered by the world: a step for each answer, then the end of its context. */
  function Rest(world: seq<Answer>): seq<Event> {
    if |world| == 0 then [Abort(0)] else [Proceed(0, world[0])] + Rest(world[1..])
  }

  function Script(e: Event, world: seq<Answer>): seq<Event> {
    [e] + Rest(world)
  }

  /** A machine in which one operation is under way. */
  function Working(m: Machine, step: Step, s: Session, holds: bool): Machine {
    m.(active := holds || m.active, tasks := map[0 := Task(step, s, holds)])
  }

  /** The operation is over, and so is its hold of the session. */
  function Over(m: Machine, holds: bool): Machine {
    m.(active := if holds then false else m.active, tasks := map[])
  }

  /** A state that some run of the machine reaches from a new session. */
  ghost predicate Reached(m: Machine) {
    exists history :: m == Run(Start(m.verify), history)
  }

  lemma ReachedOn(m: Machine, m1: Machine, events: seq<Event>)
    requires Reached(m) && m1 == Run(m, events)
    ensures Reached(m1)
  {
    hide Run, Start;
    var history :| m == Run(Start(m.verify), history);
    RunAppend(Start(m.verify), history, events);
    SameVerifier(m, events);
    assert m1 == Run(Start(m1.verify), history + events);
  }

  lemma ReachedByOne(m: Machine, e: Event)
    requires Reached(m)
    ensures Reached(Apply(m, e))
  {
    hide Run, Apply, Reached;
    RunOne(m, e);
    ReachedOn(m, Apply(m, e), [e]);
  }

  lemma StartVerifies(verify: (Invoice, Text, Delivery) -> bool)
    ensures Start(verify).verify == verify
  {
  }

  lemma StartReached(verify: (Invoice, Text, Delivery) -> bool)
    ensures Reached(Start(verify))
  {
    hide Start;
    assert Run(Start(verify), []) == Start(verify);
    StartVerifies(verify);
  }

  lemma RunScript(m: Machine, e: Event, world: seq<Answer>)
    ensures Run(m, Script(e, world)) == Run(Apply(m, e), Rest(world))
    ensures Reached(m) ==> Reached(Run(m, Script(e, world)))
  {
    hide Run, Apply, Rest, Reached;
    if Reached(m) {
      ReachedOn(m, Run(m, Script(e, world)), Script(e, world));
    }
    RunAppend(m, [e], Rest(world));
    RunOne(m, e);
  }

  lemma {:induction false} RestIdles(m: Machine, world: seq<Answer>)
    requires 0 !in m.tasks
    ensures Run(m, Rest(world)) == m
    decreases |world|
  {
    hide Run;
    if |world| == 0 {
      RunOne(m, Abort(0));
    } else {
      RunAppend(m, [Proceed(0, world[0])], Rest(world[1..]));
      RunOne(m, Proceed(0, world[0]));
      RestIdles(m, world[1..]);
    }
  }

  /** The context ends before the next step. */
  lemma RestStops(m: Machine, step: Step, s: Session, holds: bool)
    ensures Run(Working(m, step, s, holds), Rest([])) == Over(m, holds)
  {
    hide Run;
    RunOne(Working(m, step, s, holds), Abort(0));
    assert map[0 := Task(step, s, holds)] - {0} == map[];
  }

  lemma RestSteps(m: Machine, step: Step, s: Session, holds: bool, world: seq<Answer>)
    requires |world| > 0
    ensures var w := Working(m, step, s, holds); Run(w, Rest(world)) == Run(StepTask(w, 0, world[0]), Rest(world[1..]))
  {
    hide Run, StepTask, StartApprove, StartContinue, StartRetry, Terminate, TrustAgain, Deletable;
    var w := Working(m, step, s, holds);
    RunAppend(w, [Proceed(0, world[0])], Rest(world[1..]));
    RunOne(w, Proceed(0, world[0]));
    assert 0 in w.tasks;
  }

  /** A step that ends the operation, with or without a write. */
  lemma RestEnds(m: Machine, step: Step, s: Session, holds: bool, world: seq<Answer>, r: Option<Session>)
    requires |world| > 0
    requires var w := Working(m, step, s, holds);
      var m1 := StepTask(w, 0, world[0]);
      m1 == Write(w, 0, r, None) || (r.None? && m1 == End(w, 0))
    ensures Run(Working(m, step, s, holds), Rest(world)) == Over(m.(row := if r.Some? then r else m.row), holds)
  {
    hide Run, StepTask;
    var w := Working(m, step, s, holds);
    RestSteps(m, step, s, holds, world);
    assert map[0 := Task(step, s, holds)] - {0} == map[];
    RestIdles(StepTask(w, 0, world[0]), world[1..]);
  }

  /** A write that the operation goes on from. */
  lemma RestWrites(m: Machine, step: Step, s: Session, holds: bool, world: seq<Answer>, r: Option<Session>, next: Step)
    requires |world| > 0
    requires StepTask(Working(m, step, s, holds), 0, world[0]) == Write(Working(m, step, s, holds), 0, r, Some(next))
    ensures Run(Working(m, step, s, holds), Rest(world)) ==
      if r.None? then Over(m, holds) else Run(Working(m.(row := r), next, r.value, holds), Rest(world[1..]))
  {
    hide Run, StepTask, Rest, End;
    var w := Working(m, step, s, holds);
    if r.None? {
      RestEnds(m, step, s, holds, world, r);
    } else {
      RestSteps(m, step, s, holds, world);
      assert w.tasks[0 := Task(next, r.value, holds)] == map[0 := Task(next, r.value, holds)];
    }
  }

  /** The first step of Pay: the machine goes on to send what is journaled. */
  lemma SavesPayment(m: Machine, m1: Machine, prepared: Session, s: Session, tx: Transaction, fee: uint64,
                     world: seq<Answer>)
    requires |world| > 0
    requires
      if prepared.transaction.None? then
        && world[0].Prepared? && fee == world[0].fee && tx == world[0].tx
        && Journal(m.row, prepared.revision, tx, fee) == Some(s) && m1 == m.(row := Some(s), journal := Some(tx))
      else m1 == m && s == prepared && fee == s.fee && m.row.Some? && m.row.value.transaction == Some(tx)
    ensures Run(Working(m, Preparing, prepared, true), Rest(world))
         == Run(Working(m1, Sending(tx, fee), s, true), Rest(world[1..]))
  {
    hide Run, Journal, Rest;
    RestSteps(m, Preparing, prepared, true, world);
    var w := Working(m, Preparing, prepared, true);
    assert w.tasks[0 := Task(Sending(tx, fee), s, true)] == map[0 := Task(Sending(tx, fee), s, true)];
  }

  /** The second step: the call is counted, and a success is remembered. */
  lemma SendsPayment(m: Machine, s: Session, tx: Transaction, fee: uint64, world: seq<Answer>)
    requires |world| > 0
    ensures var m1 := m.(calls := m.calls + [tx], paid := m.paid || world[0].Success?);
      Run(Working(m, Sending(tx, fee), s, true), Rest(world))
      == Run(Working(m1, if world[0].Success? then Sent else NotSent, s, true), Rest(world[1..]))
  {
    hide Run, Rest;
    RestSteps(m, Sending(tx, fee), s, true, world);
    var w, step := Working(m, Sending(tx, fee), s, true), if world[0].Success? then Sent else NotSent;
    assert w.tasks[0 := w.tasks[0].(step := step)] == map[0 := Task(step, s, true)];
  }

  /** A count that is not news only brings the operation back to asking. */
  lemma AsksAgain(m: Machine, status: MerchantStatus, s: Session, world: seq<Answer>)
    requires |world| > 0 && status != Unknown && !(status == Processing && s.stage == Confirming)
    ensures Run(Working(m, Counted(status), s, true), Rest(world))
         == Run(Working(m, Continuing, s, true), Rest(world[1..]))
  {
    hide Run, Rest;
    RestSteps(m, Counted(status), s, true, world);
    var w := Working(m, Counted(status), s, true);
    assert w.tasks[0 := w.tasks[0].(step := Continuing)] == map[0 := Task(Continuing, s, true)];
  }

  /** The steps of Continue and inspect, by the branch of the code that takes them. */
  lemma SubmitStep(m: Machine, s: Session, answer: Answer)
    ensures var w := Working(m, Continuing, s, true);
      var m1 := StepTask(w, 0, answer);
      if s.stage == ClientStores.Broadcast then
        m1 == Write(w, 0, Transition(m.row, s.revision, Submitting, NoError), Some(Continuing))
      else if s.stage == Submitting then
        if answer.Success? then m1 == Write(w, 0, Transition(m.row, s.revision, Confirming, NoError), Some(Continuing))
        else m1 == Write(w, 0, ClientSessions.Fail(m.row, s, FailedRetryable, OtherError), None)
      else s.stage in {Confirming, Fulfilling} || m1 == End(w, 0)
  {
    hide Write, End, ClientSessions.Fail, Transition, SaveDelivery, SaveCount;
  }

  lemma CheckStep(m: Machine, s: Session, d: Delivery, holds: bool, answer: Answer)
    requires s.invoice.Some?
    ensures var w := Working(m, Checking(d), s, holds);
      StepTask(w, 0, answer) ==
        if !m.verify(s.invoice.value, TransactionId(s), d) then
          Write(w, 0, ClientSessions.Fail(m.row, s, FailedRetryable, DeliveryInvalid), None)
        else if d.artifact.Some? && answer.Failure? then
          Write(w, 0, ClientSessions.Fail(m.row, s, FailedRetryable, OtherError), None)
        else Write(w, 0, Completed(m.row, s.revision), None)
  {
    hide Write, End, ClientSessions.Fail, Completed, TransactionId;
  }

  lemma ResumeStep(m: Machine, s: Session, answer: Answer)
    ensures var w := Working(m, Recovering, s, false);
      var m1 := StepTask(w, 0, answer);
      if s.stage == Received then m1 == Write(w, 0, Transition(m.row, s.revision, Inspecting, NoError), Some(Reviewing))
      else if s.stage == PreparingPayment then
        m1 == Write(w, 0, Transition(m.row, s.revision, AwaitingApproval, OtherError), None)
      else if s.stage == FailedRetryable then s.transaction.Some? || m1 == End(w, 0)
      else s.stage in {Inspecting, ClientStores.Broadcast, Submitting, Confirming, Fulfilling, Verifying} || m1 == End(w, 0)
  {
    hide Write, End, Transition, StartContinue, StartRetry;
  }

  lemma PollStep(m: Machine, s: Session, answer: Answer)
    requires s.stage in {Confirming, Fulfilling}
    ensures var w := Working(m, Continuing, s, true);
      StepTask(w, 0, answer) ==
        match answer
        case Delivered(d) => Write(w, 0, SaveDelivery(m.row, s.revision, d), Some(Checking(d)))
        case Status(n, status) => Write(w, 0, SaveCount(m.row, s.revision, n), Some(Counted(status)))
        case BadReply => Write(w, 0, ClientSessions.Fail(m.row, s, FailedTerminal, OtherError), None)
        case _ => Write(w, 0, ClientSessions.Fail(m.row, s, FailedRetryable, OtherError), None)
  {
    hide Write, End, ClientSessions.Fail, Transition, SaveDelivery, SaveCount;
  }

  lemma ReviewStep(m: Machine, s: Session, answer: Answer)
    requires m.row.Some? && m.row.value.redeemed
    ensures var w := Working(m, Reviewing, s, false);
      StepTask(w, 0, answer) ==
        match answer
        case Failure => Write(w, 0, ClientSessions.Fail(m.row, s, FailedRetryable, OtherError), None)
        case Reviewed(invoice, ceiling, fee, trust) =>
          Write(w, 0, SaveReview(m.row, s.revision, invoice, ceiling, fee, trust), None)
        case Unacceptable(Expired) => Write(w, 0, ClientSessions.Fail(m.row, s, Expired, OtherError), None)
        case _ => Write(w, 0, ClientSessions.Fail(m.row, s, Invalid, OtherError), None)
  {
    hide Write, End, ClientSessions.Fail, SaveReview;
  }

  /** Recovery of an interrupted review or verification takes it up in place. */
  lemma ResumesAt(m: Machine, s: Session, world: seq<Answer>)
    requires |world| > 0 && m.tasks == map[] && s.stage in {Inspecting, Verifying}
    ensures Run(Working(m, Recovering, s, false), Rest(world)) ==
      if s.stage == Inspecting then Run(Working(m, Reviewing, s, false), Rest(world[1..]))
      else if s.invoice.Some? && s.delivery.Some? then Run(Working(m, Checking(s.delivery.value), s, false), Rest(world[1..]))
      else m
  {
    hide Run, Rest, Transition;
    RestSteps(m, Recovering, s, false, world);
    var w := Working(m, Recovering, s, false);
    if s.stage == Inspecting {
      assert w.tasks[0 := w.tasks[0].(step := Reviewing)] == map[0 := Task(Reviewing, s, false)];
    } else if s.invoice.Some? && s.delivery.Some? {
      var step := Checking(s.delivery.value);
      assert w.tasks[0 := w.tasks[0].(step := step)] == map[0 := Task(step, s, false)];
    } else {
      RestEnds(m, Recovering, s, false, world, None);
    }
  }

  /** Recovery of a paid session starts the operation that takes it further. */
  lemma ResumesAs(m: Machine, s: Session, e: Event, world: seq<Answer>)
    requires |world| > 0 && m.tasks == map[]
    requires
      || (e == Event.Continue(0) && s.stage in {ClientStores.Broadcast, Submitting, Confirming, Fulfilling})
      || (e == Event.Retry(0, s.revision) && s.stage == FailedRetryable && s.transaction.Some?)
    ensures Run(Working(m, Recovering, s, false), Rest(world)) == Run(m, Script(e, world[1..]))
  {
    hide Run, Rest, Transition, StartContinue, StartRetry;
    RestSteps(m, Recovering, s, false, world);
    RunScript(m, e, world[1..]);
    var w := Working(m, Recovering, s, false);
    assert map[0 := Task(Recovering, s, false)] - {0} == map[];
    assert End(w, 0) == m;
  }

  // ---------------------------------------------------------------- the manager

  class ClientManager {
    const store: ClientStore
    const verify: (Invoice, Text, Delivery) -> bool
    var active: bool
    ghost var calls: seq<Transaction>
    ghost var journal: Option<Transaction>
    ghost var paid: bool

    constructor (verify: (Invoice, Text, Delivery) -> bool)
      ensures fresh(store) && State() == Start(verify) && Valid()
    {
      StartReached(verify);
      this.verify := verify;
      store := new ClientStore();
      active, calls, journal, paid := false, [], None, false;
    }

    /** The manager between two operations, as a state of the machine. */
    ghost function State(): Machine
      reads this, store
    {
      Machine(store.row, active, map[], calls, journal, paid, verify)
    }

    /** Whatever operations brought the manager here, a run of the machine brings a new session here. */
    ghost predicate Valid()
      reads this, store
    {
      Reached(State())
    }

    /** So every call made for the session, by any operation, carried the transaction that is journaled. */
    lemma OneTransaction(i: nat)
      requires Valid() && i < |calls|
      ensures journal == Some(calls[i]) && (store.row.Some? ==> store.row.value.transaction == journal)
    {
      hide Run, Start;
      var history :| State() == Run(Start(verify), history);
      OnePayment(verify, history, i, i);
      StagesMeanPayment(verify, history);
    }

    /** fail. */
    method Fail(s: Session, to: Stage, error: ErrorCode) returns (r: Option<Session>)
      modifies store
      ensures r == ClientSessions.Fail(old(store.row), s, to, error) && store.row == if r.Some? then r else old(store.row)
    {
      if (to == Invalid || to == Expired) && s.transaction.None? {
        r := store.TerminateWithoutPayment(s.revision, to, error);
      } else {
        r := store.TransitionTo(s.revision, to, error);
      }
    }

    /** Approve after its checks: journal, pay, record. A payment already journaled is sent again as it is. */
    method Pay(prepared: Session, world: seq<Answer>) returns (r: Option<Session>)
      modifies this, store
      ensures r.Some? ==> r == store.row
      ensures Over(State(), true) == Run(Working(old(State()), Preparing, prepared, true), Rest(world))
    {
      hide Run, Reached, Journal, Transition, ComputeId, Rest;
      ghost var m := State();
      if |world| == 0 {
        RestStops(m, Preparing, prepared, true);
        return None;
      }
      var s, tx, fee := prepared, prepared.transaction, prepared.fee;
      if s.transaction.None? {
        if !world[0].Prepared? {
          r := store.TransitionTo(s.revision, AwaitingApproval, OtherError);
          RestEnds(m, Preparing, s, true, world, r);
          return r;
        }
        fee := world[0].fee;
        r := store.JournalPayment(s.revision, world[0].tx, fee);
        if r.None? {
          RestEnds(m, Preparing, s, true, world, r);
          return None;
        }
        journal := Some(world[0].tx);
        s, tx := r.value, Some(world[0].tx);
      } else {
        if store.row.Some? {
          tx := store.row.value.transaction;
        }
        if store.row.None? || tx.None? {
          RestEnds(m, Preparing, s, true, world, None);
          return None;
        }
      }
      SavesPayment(m, State(), prepared, s, tx.value, fee, world);
      r := Broadcast(s, tx.value, fee, world[1..]);
    }

    /** The call to CommitPreparedPayment, and the record of how it went. */
    method Broadcast(s: Session, tx: Transaction, fee: uint64, world: seq<Answer>) returns (r: Option<Session>)
      modifies this, store
      ensures r.Some? ==> r == store.row
      ensures Over(State(), true) == Run(Working(old(State()), Sending(tx, fee), s, true), Rest(world))
    {
      hide Run, Transition, Rest, Reached;
      ghost var m := State();
      if |world| == 0 {
        RestStops(m, Sending(tx, fee), s, true);
        return None;
      }
      calls := calls + [tx];
      SendsPayment(m, s, tx, fee, world);
      if world[0].Success? {
        paid := true;
        r := Record(s, Sent, ClientStores.Broadcast, NoError, world[1..]);
      } else {
        r := Record(s, NotSent, AwaitingApproval, OtherError, world[1..]);
      }
    }

    /** The last write of Approve. */
    method Record(s: Session, step: Step, to: Stage, error: ErrorCode, world: seq<Answer>) returns (r: Option<Session>)
      requires (step == Sent && to == ClientStores.Broadcast && error == NoError)
        || (step == NotSent && to == AwaitingApproval && error == OtherError)
      modifies store
      ensures r.Some? ==> r == store.row
      ensures Over(State(), true) == Run(Working(old(State()), step, s, true), Rest(world))
    {
      hide Run, Transition, Rest, Reached;
      ghost var m := State();
      if |world| == 0 {
        RestStops(m, step, s, true);
        return None;
      }
      r := store.TransitionTo(s.revision, to, error);
      RestEnds(m, step, s, true, world, r);
    }

    method Approve(revision: nat, expired: bool, ready: bool, world: seq<Answer>) returns (r: Option<Session>)
      modifies this, store
      ensures r.Some? ==> r == store.row
      ensures State() == Run(old(State()), Script(Event.Approve(0, revision, expired, ready), world))
      ensures old(Valid()) ==> Valid()
    {
      hide Run, Transition, Rest, Reached;
      ghost var m, e := State(), Event.Approve(0, revision, expired, ready);
      RunScript(m, e, world);
      if active {
        RestIdles(m, world);
        return None;
      }
      var row := store.row;
      if row.None? || row.value.revision != revision || row.value.stage != AwaitingApproval || row.value.invoice.None?
         || row.value.trust == Changed || (!expired && !ready) {
        RestIdles(m, world);
        return None;
      }
      if expired {
        r := store.TransitionTo(revision, Expired, OtherError);
        RestIdles(State(), world);
        return r;
      }
      r := store.TransitionTo(revision, PreparingPayment, NoError);
      if r.None? {
        RestIdles(m, world);
        return None;
      }
      active := true;
      assert Apply(m, e) == Working(State(), Preparing, r.value, true);
      r := Pay(r.value, world);
      active := false;
    }

    method Reject(revision: nat) returns (r: Option<Session>)
      modifies store
      ensures State() == Apply(old(State()), Event.Reject(revision))
      ensures old(Valid()) ==> Valid()
    {
      r := store.TerminateWithoutPayment(revision, Rejected, OtherError);
      if old(Valid()) {
        ReachedByOne(old(State()), Event.Reject(revision));
      }
    }

    method ReestablishMerchantTrust(revision: nat) returns (r: Option<Session>)
      modifies store
      ensures State() == Apply(old(State()), ReestablishTrust(revision))
      ensures old(Valid()) ==> Valid()
    {
      r := store.ReestablishMerchantTrust(revision);
      if old(Valid()) {
        ReachedByOne(old(State()), ReestablishTrust(revision));
      }
    }

    method DeleteSession() returns (ok: bool)
      modifies store
      ensures State() == Apply(old(State()), Event.DeleteSession)
      ensures old(Valid()) ==> Valid()
    {
      ok := store.DeleteSession();
      if old(Valid()) {
        ReachedByOne(old(State()), Event.DeleteSession);
      }
    }

    /** verifyDelivery. */
    method VerifyDelivery(s: Session, d: Delivery, holds: bool, world: seq<Answer>) returns (r: Option<Session>)
      requires store.row == Some(s) && s.invoice.Some?
      modifies store
      ensures r.Some? ==> r == store.row
      ensures Over(State(), holds) == Run(Working(old(State()), Checking(d), s, holds), Rest(world))
    {
      hide Run, Rest, Reached, ClientSessions.Fail, Completed, TransactionId, StepTask, Write, End;
      ghost var m := State();
      if |world| == 0 {
        RestStops(m, Checking(d), s, holds);
        return None;
      }
      CheckStep(m, s, d, holds, world[0]);
      if !verify(s.invoice.value, TransactionId(s), d) {
        r := Fail(s, FailedRetryable, DeliveryInvalid);
      } else if d.artifact.Some? && world[0].Failure? {
        r := Fail(s, FailedRetryable, OtherError);
      } else {
        r := store.CompleteSession(s.revision);
      }
      RestEnds(m, Checking(d), s, holds, world, r);
    }

    /** What the merchant's status asks for once its count is saved: go on asking with `next`, or stop. */
    method AfterCount(s: Session, status: MerchantStatus, world: seq<Answer>)
      returns (next: Option<Session>, r: Option<Session>)
      requires store.row == Some(s) && s.stage in {Confirming, Fulfilling} && s.invoice.Some?
      modifies store
      ensures r.Some? ==> r == store.row
      ensures next.Some? ==>
        && |world| > 0 && next == store.row && next.value.stage in {Confirming, Fulfilling} && next.value.invoice.Some?
        && Run(Working(State(), Continuing, next.value, true), Rest(world[1..]))
           == Run(Working(old(State()), Counted(status), s, true), Rest(world))
      ensures next.None? ==> Over(State(), true) == Run(Working(old(State()), Counted(status), s, true), Rest(world))
    {
      hide Run, Rest, Reached, ClientSessions.Fail;
      ghost var m := State();
      next, r := None, None;
      if |world| == 0 {
        RestStops(m, Counted(status), s, true);
      } else if status == Processing && s.stage == Confirming {
        next := store.TransitionTo(s.revision, Fulfilling, NoError);
        RestWrites(m, Counted(status), s, true, world, next, Continuing);
      } else if status == Unknown {
        r := Fail(s, FailedTerminal, OtherError);
        RestEnds(m, Counted(status), s, true, world, r);
      } else {
        next := Some(s);
        AsksAgain(m, status, s, world);
      }
    }

    /** The loop of Continue: ask for the delivery until it comes, the merchant errs, or the context ends. */
    method Poll(start: Session, world: seq<Answer>) returns (r: Option<Session>)
      requires store.row == Some(start) && start.stage in {Confirming, Fulfilling} && start.invoice.Some?
      modifies store
      ensures r.Some? ==> r == store.row
      ensures Over(State(), true) == Run(Working(old(State()), Continuing, start, true), Rest(world))
    {
      hide Run, Rest, Reached, ClientSessions.Fail, Transition, SaveDelivery, SaveCount, StepTask, Write, End,
        Working, Over;
      var s, rest := start, world;
      while |rest| > 0
        invariant store.row == Some(s) && s.stage in {Confirming, Fulfilling} && s.invoice.Some?
        invariant Run(Working(State(), Continuing, s, true), Rest(rest))
               == Run(Working(old(State()), Continuing, start, true), Rest(world))
        decreases |rest|
      {
        ghost var m := State();
        PollStep(m, s, rest[0]);
        match rest[0] {
          case Delivered(d) =>
            r := store.SaveDelivered(s.revision, d);
            RestWrites(m, Continuing, s, true, rest, r, Checking(d));
            if r.Some? {
              r := VerifyDelivery(r.value, d, true, rest[1..]);
            }
            return r;
          case Status(n, status) =>
            r := store.SaveConfirmations(s.revision, n);
            RestWrites(m, Continuing, s, true, rest, r, Counted(status));
            if r.None? {
              return None;
            }
            var next;
            next, r := AfterCount(r.value, status, rest[1..]);
            if next.None? {
              return r;
            }
            s, rest := next.value, rest[2..];
          case BadReply =>
            r := Fail(s, FailedTerminal, OtherError);
            RestEnds(m, Continuing, s, true, rest, r);
            return r;
          case _ =>
            r := Fail(s, FailedRetryable, OtherError);
            RestEnds(m, Continuing, s, true, rest, r);
            return r;
        }
      }
      RestStops(State(), Continuing, s, true);
      return None;
    }

    /** The part of Continue before its loop: hand the payment to the merchant. */
    method Submit(start: Session, world: seq<Answer>) returns (r: Option<Session>)
      requires store.row == Some(start) && start.invoice.Some?
      modifies store
      ensures r.Some? ==> r == store.row
      ensures Over(State(), true) == Run(Working(old(State()), Continuing, start, true), Rest(world))
    {
      hide Run, Rest, Reached, ClientSessions.Fail, Transition, StepTask;
      ghost var m := State();
      var s, rest := start, world;
      if s.stage == ClientStores.Broadcast {
        if |rest| == 0 {
          RestStops(m, Continuing, s, true);
          return None;
        }
        r := store.TransitionTo(s.revision, Submitting, NoError);
        SubmitStep(m, s, rest[0]);
        RestWrites(m, Continuing, s, true, rest, r, Continuing);
        if r.None? {
          return None;
        }
        s, rest := r.value, rest[1..];
      }
      m := State();
      if |rest| == 0 {
        RestStops(m, Continuing, s, true);
        return None;
      }
      SubmitStep(m, s, rest[0]);
      if s.stage == Submitting {
        if !rest[0].Success? {
          r := Fail(s, FailedRetryable, OtherError);
          RestEnds(m, Continuing, s, true, rest, r);
          return r;
        }
        r := store.TransitionTo(s.revision, Confirming, NoError);
        RestWrites(m, Continuing, s, true, rest, r, Continuing);
        if r.None? {
          return None;
        }
        s, rest := r.value, rest[1..];
      } else if s.stage != Confirming && s.stage != Fulfilling {
        RestEnds(m, Continuing, s, true, rest, None);
        return None;
      }
      r := Poll(s, rest);
    }

    method Continue(world: seq<Answer>) returns (r: Option<Session>)
      modifies this, store
      ensures r.Some? ==> r == store.row
      ensures State() == Run(old(State()), Script(Event.Continue(0), world))
      ensures old(Valid()) ==> Valid()
    {
      hide Run, Rest, Reached;
      ghost var m := State();
      RunScript(m, Event.Continue(0), world);
      if active {
        RestIdles(m, world);
        return None;
      }
      if store.row.None? || store.row.value.transaction.None? || store.row.value.invoice.None? {
        RestIdles(m, world);
        return None;
      }
      active := true;
      assert Apply(m, Event.Continue(0)) == Working(State(), Continuing, store.row.value, true);
      r := Submit(store.row.value, world);
      active := false;
    }

    /** inspect: redeem the link once, then review the invoice. */
    method Inspect(start: Session, world: seq<Answer>) returns (r: Option<Session>)
      modifies store
      ensures r.Some? ==> r == store.row
      ensures Over(State(), false) == Run(Working(old(State()), Reviewing, start, false), Rest(world))
    {
      hide Run, Rest, Reached, ClientSessions.Fail;
      ghost var m := State();
      if |world| == 0 {
        RestStops(m, Reviewing, start, false);
        return None;
      }
      if store.row.None? {
        RestEnds(m, Reviewing, start, false, world, None);
        return None;
      }
      if store.row.value.redeemed {
        r := Review(start, world);
        return r;
      }
      if world[0].Failure? {
        r := Fail(start, FailedRetryable, OtherError);
        RestEnds(m, Reviewing, start, false, world, r);
        return r;
      }
      if !world[0].Success? {
        r := Fail(start, Invalid, OtherError);
        RestEnds(m, Reviewing, start, false, world, r);
        return r;
      }
      r := store.SaveRedeemedCapsule(start.revision);
      RestWrites(m, Reviewing, start, false, world, r, Reviewing);
      if r.Some? {
        r := Review(r.value, world[1..]);
      }
    }

    /** The rest of inspect: verify the signed invoice and preview the payment. */
    method Review(s: Session, world: seq<Answer>) returns (r: Option<Session>)
      requires store.row.Some? && store.row.value.redeemed
      modifies store
      ensures r.Some? ==> r == store.row
      ensures Over(State(), false) == Run(Working(old(State()), Reviewing, s, false), Rest(world))
    {
      hide Run, Rest, Reached, ClientSessions.Fail, SaveReview, StepTask;
      ghost var m := State();
      if |world| == 0 {
        RestStops(m, Reviewing, s, false);
        return None;
      }
      ReviewStep(m, s, world[0]);
      match world[0] {
        case Failure => r := Fail(s, FailedRetryable, OtherError);
        case Reviewed(invoice, ceiling, fee, trust) => r := store.SaveReviewed(s.revision, invoice, ceiling, fee, trust);
        case Unacceptable(Expired) => r := Fail(s, Expired, OtherError);
        case _ => r := Fail(s, Invalid, OtherError);
      }
      RestEnds(m, Reviewing, s, false, world, r);
    }

    method Retry(revision: nat, world: seq<Answer>) returns (r: Option<Session>)
      modifies this, store
      ensures r.Some? ==> r == store.row
      ensures State() == Run(old(State()), Script(Event.Retry(0, revision), world))
      ensures old(Valid()) ==> Valid()
    {
      hide Run, Rest, Reached, Transition;
      ghost var m, e := State(), Event.Retry(0, revision);
      RunScript(m, e, world);
      var row := store.row;
      if row.None? || row.value.revision != revision || row.value.stage != FailedRetryable || RetryTarget(row.value).None? {
        RestIdles(m, world);
        return None;
      }
      r := store.TransitionTo(revision, RetryTarget(row.value).value, NoError);
      if r.None? {
        RestIdles(m, world);
        return None;
      }
      var s := r.value;
      if s.stage == Inspecting {
        assert Apply(m, e) == Working(State(), Reviewing, s, false);
        r := Inspect(s, world);
      } else if s.stage in {Submitting, Confirming, Fulfilling} {
        RunScript(State(), Event.Continue(0), world);
        r := Continue(world);
      } else if s.stage == Verifying && s.invoice.Some? && s.delivery.Some? {
        assert Apply(m, e) == Working(State(), Checking(s.delivery.value), s, false);
        r := VerifyDelivery(s, s.delivery.value, false, world);
      } else {
        RestIdles(State(), world);
        return None;
      }
    }

    /** One session of Recover, from the row it finds. */
    method Recover(world: seq<Answer>) returns (r: Option<Session>)
      modifies this, store
      ensures r.Some? ==> r == store.row
      ensures State() == Run(old(State()), Script(Event.Recover(0), world))
      ensures old(Valid()) ==> Valid()
    {
      hide Run, Rest, Reached, Transition;
      ghost var m := State();
      RunScript(m, Event.Recover(0), world);
      if store.row.None? {
        RestIdles(m, world);
        return None;
      }
      var s := store.row.value;
      assert Apply(m, Event.Recover(0)) == Working(m, Recovering, s, false);
      if |world| == 0 {
        RestStops(m, Recovering, s, false);
        return None;
      }
      r := Resume(s, world);
    }

    /** What Recover does with a session at each stage. */
    method Resume(s: Session, world: seq<Answer>) returns (r: Option<Session>)
      requires |world| > 0 && store.row == Some(s)
      modifies this, store
      ensures r.Some? ==> r == store.row
      ensures State() == Run(Working(old(State()), Recovering, s, false), Rest(world))
    {
      hide Run, Rest, Reached, Transition, Write, End, StartContinue, StartRetry, StepTask;
      ghost var m := State();
      r := None;
      ResumeStep(m, s, world[0]);
      match s.stage {
        case Received =>
          r := store.TransitionTo(s.revision, Inspecting, NoError);
          RestWrites(m, Recovering, s, false, world, r, Reviewing);
          if r.Some? {
            r := Inspect(r.value, world[1..]);
          }
        case Inspecting =>
          ResumesAt(m, s, world);
          r := Inspect(s, world[1..]);
        case PreparingPayment =>
          r := store.TransitionTo(s.revision, AwaitingApproval, OtherError);
          RestEnds(m, Recovering, s, false, world, r);
        case Broadcast | Submitting | Confirming | Fulfilling =>
          ResumesAs(m, s, Event.Continue(0), world);
          r := Continue(world[1..]);
        case Verifying =>
          ResumesAt(m, s, world);
          if s.invoice.Some? && s.delivery.Some? {
            r := VerifyDelivery(s, s.delivery.value, false, world[1..]);
          }
        case FailedRetryable =>
          if s.transaction.Some? {
            ResumesAs(m, s, Event.Retry(0, s.revision), world);
            r := Retry(s.revision, world[1..]);
          } else {
            RestEnds(m, Recovering, s, false, world, None);
          }
        case _ => RestEnds(m, Recovering, s, false, world, None);
      }
    }
  }
}
