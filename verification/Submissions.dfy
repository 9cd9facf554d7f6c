/**
 The hypothesis that a reservation is submitted successfully at most once: exactly when an accepted
 submission is safe, for queries and for controls, and what goes wrong when it is not.
 */
module Submissions {
  import opened Options
  import opened Engine
  import opened Protocol
  import opened History
  import opened Invariants
  import opened Soundness

  // -------------------------------------------------------------------------------------------
  // Exactly when an accepted submission is safe

  /** An accepted job of the current operation can be seen in the session until the operation ends. */
  predicate AcceptedOk(n: Node) {
    var s := n.s;
    && (s.op.busy && s.op.id in n.h.accepted && !s.stop ==> s.op.ready || s.pending.Some? || HoldsJob(s.worker))
    && (s.worker.Failing? && s.op.busy && s.op.id !in n.h.accepted ==> s.stop || s.lease.abandoned || s.op.discard)
  }

  lemma AcceptedKeptByWorker(n: Node, e: Event)
    requires Base(n) && AcceptedOk(n) && Enabled(n, e) && e.WorkerEvent?
    ensures AcceptedOk(Next(n, e))
  {
  }

  lemma AcceptedKept(n: Node, e: Event)
    requires Base(n) && AcceptedOk(n) && Enabled(n, e)
    ensures AcceptedOk(Next(n, e))
  {
    if e.WorkerEvent? {
      AcceptedKeptByWorker(n, e);
    }
  }

  lemma {:induction false} AcceptedAlong(n: Node, es: seq<Event>)
    requires Sound(n) && AcceptedOk(n) && Runs(n, es)
    ensures AcceptedOk(After(n, es))
    decreases |es|
  {
    if es != [] {
      SoundKept(n, es[0]);
      AcceptedKept(n, es[0]);
      AcceptedAlong(Next(n, es[0]), es[1..]);
    }
  }

  /** The submission replaces no pending job and leaves the session consistent. */
  predicate SafeQuery(s: Session, job: Job, now: bool) {
    s.pending.None? && Shape(Submit(s, job, now))
  }

  predicate SafeControl(s: Session, job: Job) {
    s.pending.None? && Shape(SubmitControl(s, job))
  }

  /** What the flags of the session say; the control's guard, unlike the query's, leaves most of it open. */
  lemma SafeBySession(s: Session, job: Job, now: bool)
    requires Shape(s)
    ensures CanSubmit(s, job.id) ==> (SafeQuery(s, job, now) <==> JobOf(s) != Some(job.id))
    ensures CanSubmitControl(s, job.id) ==>
              (SafeControl(s, job) <==> s.op.busy && s.pending.None? && !s.op.ready && JobOf(s) != Some(job.id))
  {
  }

  lemma SafeByHistory(n: Node, job: Job, now: bool)
    requires Sound(n) && AcceptedOk(n) && job.id != 0
    ensures CanSubmit(n.s, job.id) ==> (SafeQuery(n.s, job, now) <==> job.id !in n.h.accepted)
    ensures CanSubmitControl(n.s, job.id) ==> (SafeControl(n.s, job) <==> job.id !in n.h.accepted)
  {
    SafeBySession(n.s, job, now);
  }

  /**
   In every run: a submission that would be accepted, of a query or of a control, is safe if and only if
   none was accepted for its reservation before.
   */
  lemma SafeIffFirstSubmission(es: seq<Event>, job: Job, now: bool)
    requires Runs(FRESH_NODE, es) && job.id != 0
    ensures var n := After(FRESH_NODE, es);
      && (CanSubmit(n.s, job.id) ==> (SafeQuery(n.s, job, now) <==> job.id !in n.h.accepted))
      && (CanSubmitControl(n.s, job.id) ==> (SafeControl(n.s, job) <==> job.id !in n.h.accepted))
  {
    FreshIsSound();
    SoundAlong(FRESH_NODE, es);
    AcceptedAlong(FRESH_NODE, es);
    SafeByHistory(After(FRESH_NODE, es), job, now);
  }

  // -------------------------------------------------------------------------------------------
  // What goes wrong otherwise

  /** A session, what it accepted and completed, and the work it executed. */
  datatype Trace = Trace(s: Session, accepted: seq<Id>, completed: seq<Id>, executed: seq<Work>)

  const FRESH_TRACE := Trace(FRESH_SESSION, [], [], [])

  function WorkNow(s: Session, e: Event): seq<Work> {
    if e.WorkerEvent? && s.worker.Executing? then [s.worker.job.work] else []
  }

  /** A step without the hypotheses about its caller. */
  function Advance(t: Trace, e: Event): Trace
    requires Possible(t.s, e)
  {
    Trace(Step(t.s, e), t.accepted + AcceptedNow(t.s, e), t.completed + CompletedNow(t.s, e), t.executed + WorkNow(t.s, e))
  }

  predicate Path(traces: seq<Trace>, es: seq<Event>) {
    && |traces| == |es| + 1 && traces[0] == FRESH_TRACE
    && forall i :: 0 <= i < |es| ==> Possible(traces[i].s, es[i]) && traces[i + 1] == Advance(traces[i], es[i])
  }

  lemma Extend(traces: seq<Trace>, es: seq<Event>, e: Event) returns (more: seq<Trace>, moreEvents: seq<Event>)
    requires Path(traces, es) && Possible(traces[|es|].s, e)
    ensures Path(more, moreEvents) && moreEvents == es + [e]
    ensures more[|moreEvents|] == Advance(traces[|es|], e)
  {
    more, moreEvents := traces + [Advance(traces[|es|], e)], es + [e];
  }

  function PlainJob(id: Id): Job {
    Job(id, UserQuery(Query(Parsed([Plain]), false)))
  }

  function Decides(rows: seq<Row>): Choice {
    Choice(false, false, true, Reply(false, false, false, [], rows, false, false, None))
  }

  function SessionWith(op: Operation, pending: Option<Job>, result: Option<ResultSet>, worker: Worker): Session {
    Session(op, false, NO_LEASE, pending, Held(result, None, false, 0), Fetch(false, Closed), Link(true, None), worker)
  }

  const FIRST_RESULT := Some(ResultSet(1, [7], 0, None))

  lemma SubmittedTwice() returns (traces: seq<Trace>, es: seq<Event>)
    ensures Path(traces, es)
    ensures traces[|es|].s == SessionWith(Operation(1, true, false, false, false, 0), Some(PlainJob(1)), None,
                                         Executing(PlainJob(1), false))
  {
    var submit := SubmitEvent(PlainJob(1), false);
    traces, es := [FRESH_TRACE], [];
    traces, es := Extend(traces, es, ReserveEvent(1, 0));
    traces, es := Extend(traces, es, submit);
    traces, es := Extend(traces, es, WorkerEvent(Decides([7])));
    traces, es := Extend(traces, es, submit);
  }

  lemma FirstJobExecuted() returns (traces: seq<Trace>, es: seq<Event>)
    ensures Path(traces, es)
    ensures traces[|es|].s == SessionWith(Operation(1, true, false, false, false, 0), Some(PlainJob(1)), None,
                                          Publishing(PlainJob(1), 0, Some([7]), false))
  {
    traces, es := SubmittedTwice();
    traces, es := Extend(traces, es, WorkerEvent(Decides([7])));
  }

  lemma FirstJobPublished() returns (traces: seq<Trace>, es: seq<Event>)
    ensures Path(traces, es)
    ensures traces[|es|].s == SessionWith(Operation(1, true, true, false, false, 0), Some(PlainJob(1)), FIRST_RESULT,
                                          Waiting)
  {
    var w := WorkerEvent(Decides([7]));
    traces, es := FirstJobExecuted();
    traces, es := Extend(traces, es, w);
    traces, es := Extend(traces, es, w);
    traces, es := Extend(traces, es, w);
  }

  lemma FetchBegunMeanwhile() returns (traces: seq<Trace>, es: seq<Event>)
    ensures Path(traces, es)
    ensures var op := Operation(1, true, true, false, false, 0);
      traces[|es|].s ==
      SessionWith(op, None, FIRST_RESULT, Executing(PlainJob(1), false)).(fetch := Fetch(true, Open(1, false)))
  {
    traces, es := FirstJobPublished();
    traces, es := Extend(traces, es, WorkerEvent(Decides([8])));
    traces, es := Extend(traces, es, FetchBeginEvent(1));
  }

  /** Submitting a query twice for one reservation lets the worker replace a result that is being fetched. */
  lemma SecondSubmissionOverwritesFetch() returns (traces: seq<Trace>, es: seq<Event>, c: Choice)
    ensures Path(traces, es)
    ensures var s := traces[|es|].s;
      s.fetch.active && CanWork(s) && s.held.result.Some? && WorkerStep(s, c).held.result != s.held.result
  {
    c := Decides([8]);
    traces, es := FetchBegunMeanwhile();
    traces, es := Extend(traces, es, WorkerEvent(c));
    assert traces[|es|].s.worker == Publishing(PlainJob(1), 0, Some([8]), false);
    assert WorkerStep(traces[|es|].s, c).held.result == Some(ResultSet(1, [8], 0, None));
  }

  // -------------------------------------------------------------------------------------------

  const LATE_CONTROL := Job(2, TransactionWork(Begin))

  function LeasedWith(op: Operation, stop: bool, pending: Option<Job>, transaction: Transaction, worker: Worker): Session {
    Session(op, stop, Lease(1, false, false), pending, NOTHING_HELD, Fetch(false, Closed), Link(true, transaction), worker)
  }

  /** Two accepted submissions of one reservation, with these completions and this executed work. */
  predicate Told(t: Trace, completed: seq<Id>, executed: seq<Work>) {
    t.accepted == [2, 2] && t.completed == completed && t.executed == executed
  }

  lemma QueryReplacedByControl() returns (traces: seq<Trace>, es: seq<Event>)
    ensures Path(traces, es) && Told(traces[|es|], [], [])
    ensures traces[|es|].s == LeasedWith(Operation(2, true, false, false, false, 0), false, Some(LATE_CONTROL), None,
                                         Waiting)
  {
    traces, es := [FRESH_TRACE], [];
    traces, es := Extend(traces, es, AcquireLeaseEvent(1));
    traces, es := Extend(traces, es, ReserveEvent(2, 1));
    traces, es := Extend(traces, es, SubmitEvent(PlainJob(2), false));
    traces, es := Extend(traces, es, SubmitControlEvent(LATE_CONTROL));
  }

  lemma ControlCompleted() returns (traces: seq<Trace>, es: seq<Event>)
    ensures Path(traces, es) && Told(traces[|es|], [2], [LATE_CONTROL.work])
    ensures traces[|es|].s == LeasedWith(Operation(2, true, true, false, false, 0), false, None, Some([]), Waiting)
  {
    var w := WorkerEvent(Decides([]));
    traces, es := QueryReplacedByControl();
    traces, es := Extend(traces, es, w);
    traces, es := Extend(traces, es, w);
    traces, es := Extend(traces, es, w);
    traces, es := Extend(traces, es, w);
    traces, es := Extend(traces, es, w);
  }

  lemma DroppedAfterStop() returns (traces: seq<Trace>, es: seq<Event>)
    ensures Path(traces, es) && Told(traces[|es|], [2], [LATE_CONTROL.work])
    ensures traces[|es|].s == LeasedWith(Operation(2, true, true, true, true, 0), true, None, Some([]),
                                         DroppingStatement(Pass(true, false), None))
  {
    var w := WorkerEvent(Decides([]));
    traces, es := ControlCompleted();
    traces, es := Extend(traces, es, StopEvent);
    traces, es := Extend(traces, es, w);
    assert traces[|es|].s.worker == DroppingRow(Pass(true, false), false, None, None);
    traces, es := Extend(traces, es, w);
    assert traces[|es|].s.worker == DroppingResult(Pass(true, false), None, None);
    traces, es := Extend(traces, es, w);
  }

  lemma DrainingAfterStop() returns (traces: seq<Trace>, es: seq<Event>)
    ensures Path(traces, es) && Told(traces[|es|], [2], [LATE_CONTROL.work])
    ensures traces[|es|].s == LeasedWith(Operation(0, false, false, false, false, 0), true, None, Some([]), Draining)
  {
    var w := WorkerEvent(Decides([]));
    traces, es := DroppedAfterStop();
    traces, es := Extend(traces, es, w);
    assert traces[|es|].s.worker == RollingBack(Pass(true, false));
    traces, es := Extend(traces, es, w);
    assert traces[|es|].s.worker == Clearing(Pass(true, false));
    traces, es := Extend(traces, es, w);
  }

  lemma FinalAfterStop() returns (traces: seq<Trace>, es: seq<Event>)
    ensures Path(traces, es) && Told(traces[|es|], [2], [LATE_CONTROL.work])
    ensures traces[|es|].s == LeasedWith(Operation(0, false, false, false, false, 0), true, None, Some([]), FinalStatement)
  {
    var w := WorkerEvent(Decides([]));
    traces, es := DrainingAfterStop();
    traces, es := Extend(traces, es, w);
    traces, es := Extend(traces, es, w);
    traces, es := Extend(traces, es, w);
  }

  /**
   A control submitted for a reservation whose query was accepted replaces it: the worker exits, two
   submissions have been accepted, one has been completed, and the query was never executed.
   */
  lemma LateControlLosesCompletion() returns (traces: seq<Trace>, es: seq<Event>)
    ensures Path(traces, es) && traces[|es|].s.worker.Exited?
    ensures Told(traces[|es|], [2], [LATE_CONTROL.work])
  {
    var w := WorkerEvent(Decides([]));
    traces, es := FinalAfterStop();
    traces, es := Extend(traces, es, w);
    assert traces[|es|].s.worker == TakingConnection;
    traces, es := Extend(traces, es, w);
    traces, es := Extend(traces, es, w);
  }
}
