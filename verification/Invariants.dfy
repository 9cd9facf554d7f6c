/** The inductive invariant of one session, in six parts, and its lifting to whole runs. */
module Invariants {
  import opened Options
  import opened Engine
  import opened Protocol
  import opened History

  // -------------------------------------------------------------------------------------------
  // Part 1: flags, owned objects and the worker's program counter

  predicate Empty(s: Session) {
    !s.held.unread && s.held.result.None? && s.held.statement.None?
  }

  predicate InPass(s: Session, pass: Pass) {
    && Empty(s) && s.pending.None? && !s.fetch.active
    && (pass.shouldStop ==> s.stop)
    && (pass.releaseLease ==> s.lease.abandoned)
    && (s.stop || s.lease.abandoned || (s.op.busy && s.op.discard))
  }

  predicate GarbageOf(s: Session, garbage: Option<ResultSet>) {
    garbage.Some? ==> s.op.busy && garbage.value.op == s.op.id
  }

  predicate ParentOf(s: Session, parent: Option<Id>) {
    parent.Some? ==> s.op.busy && parent.value == s.op.id
  }

  predicate IsPass(w: Worker) {
    w.DroppingRow? || w.DroppingResult? || w.DroppingStatement? || w.RollingBack? || w.Clearing?
  }

  predicate HoldsJob(w: Worker) {
    w.Executing? || w.Publishing? || w.Completing?
  }

  predicate IsJob(w: Worker) {
    HoldsJob(w) || w.Delivered?
  }

  /** After the wait for the last fetch: the worker alone touches the session. */
  predicate IsFinal(w: Worker) {
    w.FinalRow? || w.FinalResult? || w.FinalStatement? || IsGone(w)
  }

  predicate IsGone(w: Worker) {
    w.TakingConnection? || w.DroppingConnection? || w.Exited?
  }

  predicate IsExit(w: Worker) {
    w.Failing? || w.CompletingFailed? || w.Draining? || IsFinal(w)
  }

  predicate WorkerShape(s: Session) {
    var w := s.worker;
    && (s.link.open <==> !w.DroppingConnection? && !w.Exited?)
    && (w.Exited? ==> s.link.transaction.None?)
    && (IsPass(w) ==> InPass(s, w.pass))
    && (w.DroppingRow? || w.DroppingResult? ==> GarbageOf(s, w.garbage))
    && (w.DroppingRow? || w.DroppingResult? || w.DroppingStatement? ==> ParentOf(s, w.oldStatement))
    && (w.DroppingRow? && w.oldRow ==> w.garbage.Some?)
    && (w.Clearing? && w.pass.releaseLease ==> s.link.transaction.None?)
    && (IsJob(w) ==> s.op.busy && s.pending.None?)
    && (HoldsJob(w) ==> w.job.id == s.op.id)
    && (w.Delivered? ==> w.op == s.op.id)
    && (w.Executing? || w.Publishing? ==> !s.op.ready && Empty(s))
    && (w.Completing? || w.Delivered? ==> s.op.ready)
    && (IsExit(w) && !w.Failing? ==> s.stop && s.pending.None?)
    && (w.CompletingFailed? && w.failed.Some? ==> s.op.busy && w.failed.value.id == s.op.id && Empty(s))
    && (w.Failing? ==> s.stop || s.op.busy || s.lease.abandoned)
    && (IsFinal(w) ==> !s.fetch.active)
    && (IsFinal(w) && s.held.unread ==> w.FinalRow?)
    && (IsFinal(w) && s.held.result.Some? ==> w.FinalRow? || w.FinalResult?)
    && (IsGone(w) ==> Empty(s))
  }

  predicate Shape(s: Session) {
    && (s.op.busy <==> s.op.id != 0)
    && (s.op.ready ==> s.op.busy || s.stop)
    && (s.op.discard ==> (s.op.busy && (s.op.cancel || s.op.ready)) || s.lease.abandoned || s.stop)
    && (s.op.cancel ==> s.op.busy || s.lease.abandoned || s.stop)
    && (s.lease.abandoned ==> s.lease.id != 0 && (s.op.busy ==> s.op.cancel && s.op.discard))
    && (s.lease.failed ==> s.lease.id != 0 && (s.op.busy ==> s.op.ready))
    && (s.link.transaction.Some? ==> s.lease.id != 0)
    && (s.pending.Some? ==> s.op.busy && !s.op.ready && s.pending.value.id == s.op.id && Empty(s) &&
                            (s.worker.Waiting? || s.worker.Failing?))
    && (s.held.result.Some? ==> s.op.busy && s.op.ready && s.held.result.value.op == s.op.id)
    && (s.held.statement.Some? ==> s.op.busy && s.op.ready && s.held.statement.value == s.op.id)
    && (s.held.unread ==> s.held.result.Some?)
    && (s.fetch.active <==> !s.fetch.cursor.Closed?)
    && (s.fetch.active ==> s.held.result.Some? && s.fetch.cursor.op == s.op.id)
    && WorkerShape(s)
  }

  // -------------------------------------------------------------------------------------------
  // Part 2: identities

  /** The operation whose job the worker holds. */
  function JobOf(s: Session): Option<Id> {
    match s.worker
    case Executing(job, _) => Some(job.id)
    case Publishing(job, _, _, _) => Some(job.id)
    case Completing(job, _) => Some(job.id)
    case Delivered(op, _) => Some(op)
    case CompletingFailed(Some(job)) => Some(job.id)
    case _ => None
  }

  /** Parts of a published result exist, in the session or in the worker's hands. */
  predicate HasParts(s: Session) {
    var w := s.worker;
    || s.held.result.Some? || s.held.statement.Some?
    || ((w.DroppingRow? || w.DroppingResult?) && w.garbage.Some?)
    || ((w.DroppingRow? || w.DroppingResult? || w.DroppingStatement?) && w.oldStatement.Some?)
  }

  predicate Registered(used: set<Id>, reserved: map<Id, Id>, accepted: seq<Id>) {
    && (forall id :: id in reserved ==> id != 0 && id in used)
    && (forall id :: id in accepted ==> id in reserved)
  }

  /** The session's identities, seen from what the callers have been told so far. */
  predicate Identified(s: Session, used: set<Id>, reserved: map<Id, Id>, accepted: seq<Id>) {
    && (s.op.busy ==> s.op.id in reserved && reserved[s.op.id] == s.lease.id)
    && (s.lease.id != 0 ==> s.lease.id in used)
    && (s.pending.Some? ==> s.pending.value.id in accepted)
    && (s.op.ready && !s.stop ==> s.op.id in accepted)
    && (JobOf(s).Some? ==> JobOf(s).value in accepted)
    && (HasParts(s) ==> s.op.id in accepted)
    && (s.pending.Some? && s.pending.value.work.TransactionWork? ==> s.lease.id != 0)
    && (s.worker.Executing? && s.worker.job.work.TransactionWork? ==> s.lease.id != 0)
  }

  /** Whoever is to be interrupted, or is skipped, was asked to end; a failing worker asks for nothing. */
  predicate Asked(s: Session, requested: set<Id>) {
    && (s.op.busy && !s.op.ready && (s.op.cancel || s.stop) ==> s.op.id in requested)
    && (s.worker.Executing? && s.worker.wasCancelled ==> s.op.id in requested)
  }

  /** Both parts together are inductive: the identity part excludes a second submission. */
  predicate Base(n: Node) {
    && Shape(n.s)
    && Registered(n.h.used, n.h.reservedUnder, n.h.accepted)
    && Identified(n.s, n.h.used, n.h.reservedUnder, n.h.accepted)
    && Asked(n.s, n.h.requested)
  }

  predicate IsFetch(e: Event) {
    e.FetchBeginEvent? || e.FetchNextEvent? || e.FetchUnreadEvent? || e.FetchDropEvent? || e.FetchEndEvent?
  }

  predicate NotYetAccepted(s: Session, id: Id) {
    && (s.pending.Some? ==> s.pending.value.id != id)
    && (s.op.id == id ==> (s.op.ready ==> s.stop) && (JobOf(s).Some? ==> JobOf(s).value != id))
  }

  /** What the caller hypotheses mean for the session alone. */
  predicate Lawful(s: Session, e: Event) {
    match e
    case ReserveEvent(id, _) => id != 0
    case SubmitEvent(job, _) => NotYetAccepted(s, job.id)
    case SubmitControlEvent(job) => NotYetAccepted(s, job.id) && (s.op.id == job.id ==> s.op.busy)
    case WorkerEvent(_) =>
      s.worker.Executing? && s.worker.job.work.TransactionWork? ==> s.lease.id != 0
    case _ => true
  }

  lemma ShapeKeptBySubmission(s: Session, e: Event)
    requires Shape(s) && Lawful(s, e) && (e.SubmitEvent? || e.SubmitControlEvent?)
    ensures Shape(Step(s, e))
  {
  }

  lemma ShapeKeptByHolder(s: Session, e: Event)
    requires Shape(s) && Lawful(s, e) && (e.AcquireLeaseEvent? || e.ReleaseLeaseEvent? || e.ReserveEvent?)
    ensures Shape(Step(s, e))
  {
  }

  lemma ShapeKeptByControl(s: Session, e: Event)
    requires Shape(s) && Possible(s, e) && Lawful(s, e) && !IsFetch(e) && !e.WorkerEvent?
    ensures Shape(Step(s, e))
  {
    if e.SubmitEvent? || e.SubmitControlEvent? {
      ShapeKeptBySubmission(s, e);
    } else if e.AcquireLeaseEvent? || e.ReleaseLeaseEvent? || e.ReserveEvent? {
      ShapeKeptByHolder(s, e);
    }
  }

  lemma ShapeKeptByFetchLease(s: Session, e: Event)
    requires Shape(s) && Possible(s, e) && (e.FetchBeginEvent? || e.FetchDropEvent? || e.FetchEndEvent?)
    ensures Shape(Step(s, e))
  {
  }

  lemma ShapeKeptByFetchRow(s: Session, e: Event)
    requires Shape(s) && Possible(s, e) && (e.FetchNextEvent? || e.FetchUnreadEvent?)
    ensures Shape(Step(s, e))
  {
  }

  lemma ShapeKeptByDequeue(s: Session, c: Choice)
    requires Shape(s) && CanWork(s) && s.worker.Waiting?
    ensures Shape(WorkerStep(s, c))
  {
  }

  lemma ShapeKeptByDrop(s: Session, c: Choice)
    requires Shape(s) && (s.worker.DroppingRow? || s.worker.DroppingResult? || s.worker.DroppingStatement?)
    ensures Shape(WorkerStep(s, c))
  {
  }

  lemma ShapeKeptByRollBack(s: Session, c: Choice)
    requires Shape(s) && (s.worker.RollingBack? || s.worker.Clearing?)
    ensures Shape(WorkerStep(s, c))
  {
  }

  lemma ShapeKeptByExecute(s: Session, c: Choice)
    requires Shape(s) && Lawful(s, WorkerEvent(c)) && s.worker.Executing?
    ensures Shape(WorkerStep(s, c))
  {
  }

  lemma ShapeKeptByPublish(s: Session, c: Choice)
    requires Shape(s) && s.worker.Publishing?
    ensures Shape(WorkerStep(s, c))
  {
  }

  lemma ShapeKeptByDelivery(s: Session, c: Choice)
    requires Shape(s) && (s.worker.Completing? || s.worker.Delivered?)
    ensures Shape(WorkerStep(s, c))
  {
  }

  lemma ShapeKeptByFailure(s: Session, c: Choice)
    requires Shape(s) && CanWork(s) && IsExit(s.worker) && !IsFinal(s.worker)
    ensures Shape(WorkerStep(s, c))
  {
  }

  lemma ShapeKeptByFinal(s: Session, c: Choice)
    requires Shape(s) && CanWork(s) && IsFinal(s.worker)
    ensures Shape(WorkerStep(s, c))
  {
  }

  lemma ShapeKeptByWorker(s: Session, c: Choice)
    requires Shape(s) && CanWork(s) && Lawful(s, WorkerEvent(c))
    ensures Shape(WorkerStep(s, c))
  {
    match s.worker
    case Waiting => ShapeKeptByDequeue(s, c);
    case DroppingRow(_, _, _, _) => ShapeKeptByDrop(s, c);
    case DroppingResult(_, _, _) => ShapeKeptByDrop(s, c);
    case DroppingStatement(_, _) => ShapeKeptByDrop(s, c);
    case RollingBack(_) => ShapeKeptByRollBack(s, c);
    case Clearing(_) => ShapeKeptByRollBack(s, c);
    case Executing(_, _) => ShapeKeptByExecute(s, c);
    case Publishing(_, _, _, _) => ShapeKeptByPublish(s, c);
    case Completing(_, _) => ShapeKeptByDelivery(s, c);
    case Delivered(_, _) => ShapeKeptByDelivery(s, c);
    case Failing => ShapeKeptByFailure(s, c);
    case CompletingFailed(_) => ShapeKeptByFailure(s, c);
    case Draining => ShapeKeptByFailure(s, c);
    case _ => ShapeKeptByFinal(s, c);
  }

  lemma ShapeKept(s: Session, e: Event)
    requires Shape(s) && Possible(s, e) && Lawful(s, e)
    ensures Shape(Step(s, e))
  {
    match e
    case FetchNextEvent(_, _) => ShapeKeptByFetchRow(s, e);
    case FetchUnreadEvent => ShapeKeptByFetchRow(s, e);
    case FetchBeginEvent(_) => ShapeKeptByFetchLease(s, e);
    case FetchDropEvent => ShapeKeptByFetchLease(s, e);
    case FetchEndEvent => ShapeKeptByFetchLease(s, e);
    case WorkerEvent(c) => ShapeKeptByWorker(s, c);
    case _ => ShapeKeptByControl(s, e);
  }

  lemma EnabledIsLawful(n: Node, e: Event)
    requires Base(n) && Enabled(n, e)
    ensures Lawful(n.s, e)
  {
  }

  lemma JobIsCurrent(s: Session)
    requires Shape(s)
    ensures IsJob(s.worker) ==> s.op.busy && JobOf(s) == Some(s.op.id)
    ensures s.pending.Some? ==> s.op.busy && s.pending.value.id == s.op.id
    ensures s.worker.Clearing? ==> s.pending.None? && !HasParts(s)
  {
  }

  lemma IdentifiedKeptByLease(s: Session, h: History, e: Event)
    requires Shape(s) && Registered(h.used, h.reservedUnder, h.accepted)
    requires Identified(s, h.used, h.reservedUnder, h.accepted)
    requires Possible(s, e) && Allowed(h, e) && (e.AcquireLeaseEvent? || e.ReleaseLeaseEvent? || e.ReserveEvent?)
    ensures Identified(Step(s, e), UsedAfter(h.used, e), ReservedAfter(h.reservedUnder, s, e),
                       h.accepted + AcceptedNow(s, e))
  {
  }

  lemma IdentifiedKeptBySubmission(s: Session, h: History, e: Event)
    requires Shape(s) && Registered(h.used, h.reservedUnder, h.accepted)
    requires Identified(s, h.used, h.reservedUnder, h.accepted)
    requires Possible(s, e) && Allowed(h, e) && (e.SubmitEvent? || e.SubmitControlEvent?)
    ensures Identified(Step(s, e), UsedAfter(h.used, e), ReservedAfter(h.reservedUnder, s, e),
                       h.accepted + AcceptedNow(s, e))
  {
  }

  lemma IdentifiedKeptByRequest(s: Session, h: History, e: Event)
    requires Shape(s) && Registered(h.used, h.reservedUnder, h.accepted)
    requires Identified(s, h.used, h.reservedUnder, h.accepted)
    requires e.CancelEvent? || e.FinishEvent? || e.StopEvent? || e.InterruptEvent?
    ensures Identified(Step(s, e), UsedAfter(h.used, e), ReservedAfter(h.reservedUnder, s, e),
                       h.accepted + AcceptedNow(s, e))
  {
  }

  lemma RegisteredKept(s: Session, h: History, e: Event)
    requires Registered(h.used, h.reservedUnder, h.accepted) && Possible(s, e) && Allowed(h, e)
    requires Identified(s, h.used, h.reservedUnder, h.accepted) && (s.op.busy <==> s.op.id != 0)
    ensures Registered(UsedAfter(h.used, e), ReservedAfter(h.reservedUnder, s, e), h.accepted + AcceptedNow(s, e))
  {
  }

  lemma IdentifiedKeptByFetch(s: Session, used: set<Id>, reserved: map<Id, Id>, accepted: seq<Id>, e: Event)
    requires Identified(s, used, reserved, accepted) && Possible(s, e) && IsFetch(e)
    ensures Identified(Step(s, e), used, reserved, accepted)
  {
  }

  lemma IdentifiedKeptByJob(s: Session, used: set<Id>, reserved: map<Id, Id>, accepted: seq<Id>, c: Choice)
    requires Identified(s, used, reserved, accepted) && CanWork(s)
    requires IsJob(s.worker) && s.op.busy && JobOf(s) == Some(s.op.id)
    ensures Identified(WorkerStep(s, c), used, reserved, accepted)
  {
  }

  lemma IdentifiedKeptByPass(s: Session, used: set<Id>, reserved: map<Id, Id>, accepted: seq<Id>, c: Choice)
    requires Identified(s, used, reserved, accepted) && CanWork(s) && (s.worker.Waiting? || IsPass(s.worker))
    requires s.worker.Clearing? ==> s.pending.None? && !HasParts(s)
    ensures Identified(WorkerStep(s, c), used, reserved, accepted)
  {
  }

  lemma IdentifiedKeptByFailure(s: Session, used: set<Id>, reserved: map<Id, Id>, accepted: seq<Id>, c: Choice)
    requires Identified(s, used, reserved, accepted) && CanWork(s) && IsExit(s.worker) && !IsFinal(s.worker)
    ensures Identified(WorkerStep(s, c), used, reserved, accepted)
  {
  }

  lemma IdentifiedKeptByFinal(s: Session, used: set<Id>, reserved: map<Id, Id>, accepted: seq<Id>, c: Choice)
    requires Identified(s, used, reserved, accepted) && CanWork(s) && IsFinal(s.worker)
    ensures Identified(WorkerStep(s, c), used, reserved, accepted)
  {
  }

  lemma AskedKept(n: Node, e: Event)
    requires Base(n) && Enabled(n, e)
    ensures Asked(Step(n.s, e), RequestedAfter(n.h.requested, n.s, e))
  {
    JobIsCurrent(n.s);
  }

  lemma IdentifiedKept(n: Node, e: Event)
    requires Base(n) && Enabled(n, e)
    ensures Identified(Step(n.s, e), UsedAfter(n.h.used, e), ReservedAfter(n.h.reservedUnder, n.s, e),
                       n.h.accepted + AcceptedNow(n.s, e))
  {
    if e.WorkerEvent? {
      JobIsCurrent(n.s);
      if IsJob(n.s.worker) {
        IdentifiedKeptByJob(n.s, n.h.used, n.h.reservedUnder, n.h.accepted, e.choice);
      } else if IsFinal(n.s.worker) {
        IdentifiedKeptByFinal(n.s, n.h.used, n.h.reservedUnder, n.h.accepted, e.choice);
      } else if IsExit(n.s.worker) {
        IdentifiedKeptByFailure(n.s, n.h.used, n.h.reservedUnder, n.h.accepted, e.choice);
      } else {
        IdentifiedKeptByPass(n.s, n.h.used, n.h.reservedUnder, n.h.accepted, e.choice);
      }
    } else if IsFetch(e) {
      IdentifiedKeptByFetch(n.s, n.h.used, n.h.reservedUnder, n.h.accepted, e);
    } else if e.AcquireLeaseEvent? || e.ReleaseLeaseEvent? || e.ReserveEvent? {
      IdentifiedKeptByLease(n.s, n.h, e);
    } else if e.SubmitEvent? || e.SubmitControlEvent? {
      IdentifiedKeptBySubmission(n.s, n.h, e);
    } else {
      IdentifiedKeptByRequest(n.s, n.h, e);
    }
  }

  lemma BaseKept(n: Node, e: Event)
    requires Base(n) && Enabled(n, e)
    ensures Base(Next(n, e))
  {
    EnabledIsLawful(n, e);
    ShapeKept(n.s, e);
    IdentifiedKept(n, e);
    RegisteredKept(n.s, n.h, e);
    AskedKept(n, e);
  }
}
