/**
 Nothing is held for ever: on every run, whatever the other threads do meanwhile, a finished or
 abandoned operation and a released lease are gone once the worker has taken a fixed number of steps
 without an infrastructure failure.  Only a held fetch can make the worker wait before that.
 */
module Reclaim {
  import opened Options
  import opened Engine
  import opened Protocol
  import opened History
  import opened Invariants
  import opened Soundness
  import opened Generations
  import opened Shutdown
  import opened Submissions
  import opened Completions
  import opened Requests

  /** The thread infrastructure holds up, and the engine rolls back when asked to. */
  predicate Smooth(s: Session, e: Event) {
    e.WorkerEvent? ==> !e.choice.fault && !(s.worker.RollingBack? && e.choice.reply.fault)
  }

  predicate SmoothRun(n: Node, es: seq<Event>)
    requires Runs(n, es)
    decreases |es|
  {
    es == [] || (Smooth(n.s, es[0]) && SmoothRun(Next(n, es[0]), es[1..]))
  }

  /** Worker steps until the present or next pass has cleared the operation. */
  function Remaining(s: Session): nat {
    match s.worker
    case Waiting => if s.pending.Some? then 11 else 6
    case Executing(_, _) => 10
    case Publishing(_, _, _, _) => 9
    case Completing(_, _) => 8
    case Delivered(_, _) => 7
    case DroppingRow(_, _, _, _) => 5
    case DroppingResult(_, _, _) => 4
    case DroppingStatement(_, _) => 3
    case RollingBack(_) => 2
    case Clearing(_) => 1
    case _ => 0
  }

  /** A pass that captured no release must be followed by one that does. */
  predicate MissedRelease(s: Session) {
    IsPass(s.worker) && !s.worker.pass.releaseLease
  }

  function LeaseRemaining(s: Session): nat {
    Remaining(s) + if MissedRelease(s) then 6 else 0
  }

  /** The worker is in its loop and has something to reclaim, perhaps because its completion took nothing. */
  predicate Reclaiming(s: Session) {
    !IsExit(s.worker) && (IsPass(s.worker) || s.op.discard || s.lease.abandoned || Refused(s))
  }

  /** The completion callback has just said that nobody takes the result. */
  predicate Refused(s: Session) {
    s.worker.Delivered? && !s.worker.delivered
  }

  /** Only a held fetch makes the worker wait. */
  lemma OnlyFetchDelaysReclaim(s: Session)
    requires Reclaiming(s)
    ensures Remaining(s) > 0 && (CanWork(s) || s.fetch.active)
  {
  }

  predicate Approaches(s: Session, t: Session, steps: nat) {
    && Reclaiming(t) && Remaining(s) == Remaining(t) + steps
    && (s.lease.abandoned ==> t.lease.id == s.lease.id && t.lease.abandoned && (MissedRelease(t) <==> MissedRelease(s)))
  }

  lemma PassStep(s: Session, c: Choice)
    requires Shape(s) && Reclaiming(s) && Smooth(s, WorkerEvent(c)) && IsPass(s.worker) && !s.worker.Clearing?
    ensures Approaches(s, WorkerStep(s, c), 1) && WorkerStep(s, c).stop == s.stop
  {
  }

  lemma ReclaimStep(s: Session, c: Choice)
    requires Shape(s) && Reclaiming(s) && CanWork(s) && Smooth(s, WorkerEvent(c)) && !s.worker.Clearing?
    ensures Approaches(s, WorkerStep(s, c), 1) && WorkerStep(s, c).stop == s.stop
  {
    if IsPass(s.worker) {
      PassStep(s, c);
    }
  }

  /** No other thread can put the worker back. */
  lemma CallersCannotDelayReclaim(n: Node, e: Event)
    requires Base(n) && Reclaiming(n.s) && Enabled(n, e) && !e.WorkerEvent?
    ensures Approaches(n.s, Step(n.s, e), 0)
    ensures AcceptedNow(n.s, e) == [] && (!e.StopEvent? ==> Step(n.s, e).stop == n.s.stop)
  {
  }

  /** The first k steps of a run, with so many worker steps among them. */
  predicate Cut(n: Node, es: seq<Event>, k: nat, steps: nat) {
    k <= |es| && Runs(n, es[..k]) && WorkerSteps(es[..k]) == steps
  }

  lemma CutFirst(n: Node, es: seq<Event>)
    requires es != [] && Runs(n, es)
    ensures Cut(n, es, 1, if es[0].WorkerEvent? then 1 else 0) && After(n, es[..1]) == Next(n, es[0])
  {
    assert es[..1] == [es[0]] && es[..1][1..] == [];
  }

  lemma CutExtends(n: Node, es: seq<Event>, k: nat, steps: nat)
    requires es != [] && Runs(n, es) && Cut(Next(n, es[0]), es[1..], k, steps)
    ensures Cut(n, es, k + 1, steps + if es[0].WorkerEvent? then 1 else 0)
    ensures After(n, es[..k + 1]) == After(Next(n, es[0]), es[1..][..k])
  {
    assert es[..k + 1][0] == es[0] && es[..k + 1][1..] == es[1..][..k];
  }

  /** The operation is gone, its parts destroyed, its job completed, and nothing else was accepted meanwhile. */
  predicate OperationGone(accepted: seq<Id>, t: Node) {
    && !t.s.op.busy && !t.s.op.ready && !t.s.op.cancel && !t.s.op.discard && t.s.pending.None? && Empty(t.s)
    && (t.s.worker.Waiting? || (t.s.stop && t.s.worker.Draining?))
    && t.h.completed == t.h.accepted == accepted
  }

  predicate EndsPass(s: Session, e: Event) {
    e.WorkerEvent? && s.worker.Clearing?
  }

  lemma ClearingEndsOperation(n: Node, e: Event)
    requires Sound(n) && Enabled(n, e) && EndsPass(n.s, e)
    ensures Remaining(n.s) == 1 && OperationGone(n.h.accepted, Next(n, e))
  {
    SoundKept(n, e);
  }

  /** A step of any thread, except the one that ends the pass. */
  lemma ReclaimTurn(n: Node, e: Event)
    requires Sound(n) && Reclaiming(n.s) && Enabled(n, e) && Smooth(n.s, e) && !EndsPass(n.s, e)
    ensures Sound(Next(n, e)) && Approaches(n.s, Next(n, e).s, if e.WorkerEvent? then 1 else 0)
    ensures Next(n, e).h.accepted == n.h.accepted
    ensures !e.StopEvent? ==> Next(n, e).s.stop == n.s.stop
  {
    SoundKept(n, e);
    if e.WorkerEvent? {
      ReclaimStep(n.s, e.choice);
      WorkerAcceptsNothing(n, e);
    } else {
      CallersCannotDelayReclaim(n, e);
    }
  }

  /**
   On every run in which the worker takes at least Remaining steps, some prefix with exactly that many
   ends with the operation gone.
   */
  lemma {:induction false} OperationIsReclaimed(n: Node, es: seq<Event>) returns (k: nat)
    requires Sound(n) && Reclaiming(n.s) && Runs(n, es) && SmoothRun(n, es) && WorkerSteps(es) >= Remaining(n.s)
    ensures Cut(n, es, k, Remaining(n.s))
    ensures OperationGone(n.h.accepted, After(n, es[..k]))
    decreases |es|
  {
    OnlyFetchDelaysReclaim(n.s);
    if EndsPass(n.s, es[0]) {
      ClearingEndsOperation(n, es[0]);
      CutFirst(n, es);
      return 1;
    }
    ReclaimTurn(n, es[0]);
    k := OperationIsReclaimed(Next(n, es[0]), es[1..]);
    CutExtends(n, es, k, Remaining(Next(n, es[0]).s));
    k := k + 1;
  }

  /** A finish that returns 1, or a cancel with abandon, is enough for that. */
  lemma FinishOrAbandonReclaims(s: Session, id: Id)
    requires Shape(s) && !IsExit(s.worker)
    ensures CanFinish(s, id) ==> Reclaiming(Finish(s, id)) && Remaining(Finish(s, id)) == Remaining(s)
    ensures CanCancel(s, id) ==> Reclaiming(Cancel(s, id, true)) && Remaining(Cancel(s, id, true)) == Remaining(s)
  {
  }

  /** A completion that takes nothing is enough, too, and nobody fetches the result any more. */
  lemma RefusalReclaims(n: Node, c: Choice)
    requires Sound(n) && n.s.worker.Completing? && !c.delivered
    ensures Reclaiming(WorkerStep(n.s, c)) && Remaining(WorkerStep(n.s, c)) == 7
  {
  }

  lemma RefusalDiscards(n: Node, e: Event)
    requires Sound(n) && Enabled(n, e) && e.WorkerEvent? && Refused(n.s) && Smooth(n.s, e)
    ensures Discarded(Next(n, e), n.s.worker.op)
  {
  }

  /**
   In every run: after a completion whose callback answers 0, with any other threads between, the
   operation is gone once the worker has taken seven failure-free steps, and from the first of them on no
   fetch of its result begins.
   */
  lemma RefusedResultIsReclaimed(n: Node, c: Choice, es: seq<Event>) returns (k: nat)
    requires Sound(n) && Enabled(n, WorkerEvent(c)) && n.s.worker.Completing? && !c.delivered
    requires var m := Next(n, WorkerEvent(c)); Runs(m, es) && SmoothRun(m, es) && WorkerSteps(es) >= 7
    ensures var m := Next(n, WorkerEvent(c));
      Cut(m, es, k, 7) && OperationGone(n.h.accepted, After(m, es[..k]))
  {
    SoundKept(n, WorkerEvent(c));
    RefusalReclaims(n, c);
    WorkerAcceptsNothing(n, WorkerEvent(c));
    k := OperationIsReclaimed(Next(n, WorkerEvent(c)), es);
  }

  // -------------------------------------------------------------------------------------------
  // Submitted jobs

  /** Worker steps until the completion callback of the job in flight. */
  function JobRemaining(s: Session): nat {
    match s.worker
    case Waiting => 4
    case Executing(_, _) => 3
    case Publishing(_, _, _, _) => 2
    case Completing(_, _) => 1
    case Failing => 2
    case CompletingFailed(_) => 1
    case _ => 0
  }

  /** No other thread, and not even a fetch, makes the worker wait while a job is in flight. */
  lemma JobNeverWaits(s: Session)
    requires Shape(s) && InFlight(s) != []
    ensures CanWork(s) && JobRemaining(s) > 0
  {
  }

  lemma JobStep(s: Session, c: Choice, id: Id)
    requires Shape(s) && CanWork(s) && InFlight(s) == [id]
    ensures id in CompletedNow(s, WorkerEvent(c)) ||
            (InFlight(WorkerStep(s, c)) == [id] && JobRemaining(WorkerStep(s, c)) + 1 <= JobRemaining(s))
  {
  }

  lemma JobKeptByCallers(s: Session, e: Event, id: Id)
    requires Shape(s) && Possible(s, e) && Lawful(s, e) && !e.WorkerEvent? && InFlight(s) == [id]
    ensures InFlight(Step(s, e)) == [id] && JobRemaining(Step(s, e)) == JobRemaining(s)
  {
    InFlightAfterControl(s, e);
    assert |InFlight(Step(s, e))| <= 1;
  }

  lemma JobTurn(n: Node, e: Event, id: Id)
    requires Sound(n) && Enabled(n, e) && InFlight(n.s) == [id]
    ensures id in Next(n, e).h.completed || InFlight(Next(n, e).s) == [id]
    ensures id !in Next(n, e).h.completed ==>
              JobRemaining(Next(n, e).s) + (if e.WorkerEvent? then 1 else 0) <= JobRemaining(n.s)
  {
    if e.WorkerEvent? {
      JobStep(n.s, e.choice, id);
    } else {
      EnabledIsLawful(n, e);
      JobKeptByCallers(n.s, e, id);
    }
  }

  /**
   In every run: an accepted job is completed by the time the worker has taken four more steps, even if
   its infrastructure fails, and until then the worker can always take the next one.
   */
  lemma {:induction false} AcceptedJobIsCompleted(n: Node, es: seq<Event>, id: Id)
    requires Sound(n) && InFlight(n.s) == [id] && Runs(n, es) && WorkerSteps(es) >= JobRemaining(n.s)
    ensures id in After(n, es).h.completed && JobRemaining(n.s) <= 4
    decreases |es|
  {
    JobNeverWaits(n.s);
    SoundKept(n, es[0]);
    JobTurn(n, es[0], id);
    if id in Next(n, es[0]).h.completed {
      CompletedForever(Next(n, es[0]), es[1..], id);
    } else {
      AcceptedJobIsCompleted(Next(n, es[0]), es[1..], id);
    }
  }

  lemma {:induction false} CompletedForever(n: Node, es: seq<Event>, id: Id)
    requires Runs(n, es) && id in n.h.completed
    ensures id in After(n, es).h.completed
    decreases |es|
  {
    if es != [] {
      CompletedForever(Next(n, es[0]), es[1..], id);
    }
  }

  // -------------------------------------------------------------------------------------------
  // Released leases

  predicate NoStop(es: seq<Event>) {
    es == [] || (!es[0].StopEvent? && NoStop(es[1..]))
  }

  /** Rolled back and cleared: the session is idle, with nothing outstanding. */
  predicate LeaseGone(accepted: seq<Id>, t: Node) {
    State(t.s) == 0 && t.s.link.transaction.None? && t.h.completed == t.h.accepted == accepted
  }

  /** The lease is released, the worker in its loop, and nobody has stopped the session. */
  ghost predicate LeaseGoing(n: Node) {
    Sound(n) && n.s.lease.abandoned && !n.s.stop && Reclaiming(n.s)
  }

  /** The end of a pass that captured the release. */
  predicate EndsLease(s: Session, e: Event) {
    EndsPass(s, e) && s.worker.pass.releaseLease
  }

  lemma ClearingEndsLease(n: Node, e: Event)
    requires LeaseGoing(n) && Enabled(n, e) && EndsLease(n.s, e)
    ensures LeaseRemaining(n.s) == 1 && LeaseGone(n.h.accepted, Next(n, e))
  {
    WorkerAcceptsNothing(n, e);
    SoundKept(n, e);
    StateZeroMeansIdle(Next(n, e));
  }

  /** The pass missed the release: the next one will see it. */
  lemma ClearingMissedLease(n: Node, e: Event)
    requires LeaseGoing(n) && Enabled(n, e) && EndsPass(n.s, e) && !EndsLease(n.s, e)
    ensures LeaseRemaining(n.s) == 7 && LeaseRemaining(Next(n, e).s) == 6
    ensures LeaseGoing(Next(n, e)) && Next(n, e).h.accepted == n.h.accepted
  {
    WorkerAcceptsNothing(n, e);
    SoundKept(n, e);
  }

  /** Each worker step brings the end one step nearer; nobody else moves it. */
  lemma LeaseTurn(n: Node, e: Event)
    requires LeaseGoing(n) && Enabled(n, e) && Smooth(n.s, e) && !e.StopEvent?
    requires !EndsLease(n.s, e)
    ensures LeaseGoing(Next(n, e)) && Next(n, e).h.accepted == n.h.accepted
    ensures LeaseRemaining(n.s) == LeaseRemaining(Next(n, e).s) + if e.WorkerEvent? then 1 else 0
  {
    if EndsPass(n.s, e) {
      ClearingMissedLease(n, e);
    } else {
      ReclaimTurn(n, e);
    }
  }

  /**
   Wherever a release landed, also in the middle of a pass that did not see it: on every run without a
   stop in which the worker takes at least LeaseRemaining steps, some prefix with exactly that many ends
   with the transaction rolled back, the lease cleared and the session idle.
   */
  lemma {:induction false} ReleasedLeaseIsCleared(n: Node, es: seq<Event>) returns (k: nat)
    requires LeaseGoing(n)
    requires Runs(n, es) && SmoothRun(n, es) && NoStop(es) && WorkerSteps(es) >= LeaseRemaining(n.s)
    ensures Cut(n, es, k, LeaseRemaining(n.s))
    ensures LeaseGone(n.h.accepted, After(n, es[..k]))
    decreases |es|
  {
    OnlyFetchDelaysReclaim(n.s);
    if EndsLease(n.s, es[0]) {
      ClearingEndsLease(n, es[0]);
      CutFirst(n, es);
      return 1;
    }
    LeaseTurn(n, es[0]);
    k := ReleasedLeaseIsCleared(Next(n, es[0]), es[1..]);
    CutExtends(n, es, k, LeaseRemaining(Next(n, es[0]).s));
    k := k + 1;
  }

  // -------------------------------------------------------------------------------------------
  // The one reservation that is not reclaimed by itself

  /**
   A reservation that was cancelled, but not abandoned, before its control was submitted: the control
   is refused, and nothing has asked the worker to wake.
   */
  predicate Stranded(s: Session, id: Id) {
    && s.op.busy && s.op.id == id && s.op.cancel && !s.op.discard && !s.op.ready
    && s.pending.None? && s.worker.Waiting? && !s.stop && !s.lease.abandoned
  }

  /** What frees it: an abandoning cancel, the release of its lease, or retirement. */
  predicate Frees(s: Session, e: Event) {
    match e
    case CancelEvent(id, abandon) => abandon && CanCancel(s, id)
    case ReleaseLeaseEvent(lease) => CanReleaseLease(s, lease)
    case StopEvent => true
    case _ => false
  }

  lemma RefusedControlStrands(s: Session, id: Id, lease: Id, job: Job)
    requires Shape(s) && s.worker.Waiting? && CanReserve(s, lease) && id != 0 && job.id == id
    ensures var t := Cancel(Reserve(s, id, lease), id, false);
      Stranded(t, id) && !CanSubmitControl(t, id) && SubmitControl(t, job) == t
  {
  }

  /** Somebody already asked for the clean-up of the reservation. */
  predicate CleanupRequested(s: Session) {
    s.stop || s.lease.abandoned || s.op.discard
  }

  lemma RefusedControl(n: Node, id: Id)
    requires Sound(n) && AcceptedOk(n) && n.s.op.busy && n.s.op.id == id && id !in n.h.accepted
    requires !CanSubmitControl(n.s, id)
    ensures Stranded(n.s, id) <==> !CleanupRequested(n.s)
    ensures CanWork(n.s) || n.s.worker.Exited? <==> CleanupRequested(n.s)
  {
  }

  /**
   In every run: a control refused while its reservation still holds the session is stranded if and only
   if neither stop, nor a lease release, nor an abandoning cancel came first; otherwise the worker is
   awake, or has exited.
   */
  lemma RefusedControlIsStrandedIff(es: seq<Event>, id: Id)
    requires Runs(FRESH_NODE, es)
    requires var n := After(FRESH_NODE, es);
      n.s.op.busy && n.s.op.id == id && id !in n.h.accepted && !CanSubmitControl(n.s, id)
    ensures var s := After(FRESH_NODE, es).s;
      && (Stranded(s, id) <==> !CleanupRequested(s))
      && (CanWork(s) || s.worker.Exited? <==> CleanupRequested(s))
  {
    FreshIsSound();
    SoundAlong(FRESH_NODE, es);
    AcceptedAlong(FRESH_NODE, es);
    RefusedControl(After(FRESH_NODE, es), id);
  }

  /** It keeps the session until exactly one of those happens; the worker does not even wake. */
  lemma StrandedUntilFreed(n: Node, e: Event, id: Id)
    requires Sound(n) && Enabled(n, e) && Stranded(n.s, id)
    ensures !CanWork(n.s)
    ensures Stranded(Next(n, e).s, id) <==> !Frees(n.s, e)
    ensures Frees(n.s, e) ==> CanWork(Next(n, e).s)
  {
  }
}
