/**
 Generations: an identity that has lost the session never reaches it again, a released lease is
 never lost, and a job that was asked to end before it was dequeued never reaches the engine.
 */
module Generations {
  import opened Options
  import opened Engine
  import opened Protocol
  import opened History
  import opened Invariants
  import opened Transactions
  import opened Soundness

  /** Every new operation starts from a clean session. */
  lemma ReservationStartsClean(n: Node, id: Id, lease: Id)
    requires Sound(n) && Enabled(n, ReserveEvent(id, lease)) && CanReserve(n.s, lease)
    ensures var t := Reserve(n.s, id, lease);
      && t.op.busy && t.op.id == id
      && !t.op.cancel && !t.op.discard && !t.op.ready
      && t.pending.None? && t.held.result.None? && t.held.statement.None? && !t.held.unread
      && !t.fetch.active && t.worker.Waiting? && t.link.open
  {
  }

  // -------------------------------------------------------------------------------------------
  // Stale operations

  /** The identity was used before and no longer names the current operation. */
  predicate StaleOperation(n: Node, id: Id) {
    id != 0 && id in n.h.used && n.s.op.id != id
  }

  /** Late calls with a stale identity are refused and change nothing. */
  ghost predicate OperationIgnored(s: Session, id: Id) {
    && !CanCancel(s, id) && !CanFinish(s, id) && !CanSubmit(s, id) && !CanSubmitControl(s, id) && !CanFetchBegin(s, id)
    && (forall abandon :: Cancel(s, id, abandon) == s)
    && Finish(s, id) == s && FetchBegin(s, id) == s
    && (forall job: Job, now :: job.id == id ==> Submit(s, job, now) == s)
    && (forall job: Job :: job.id == id ==> SubmitControl(s, job) == s)
  }

  lemma OtherOperationIgnored(s: Session, id: Id)
    requires id != 0 && s.op.id != id
    ensures OperationIgnored(s, id)
  {
  }

  lemma StaleOperationKept(n: Node, e: Event, id: Id)
    requires Base(n) && StaleOperation(n, id) && Enabled(n, e)
    ensures StaleOperation(Next(n, e), id)
  {
  }

  lemma {:induction false} StaleOperationForever(n: Node, es: seq<Event>, id: Id)
    requires Sound(n) && Runs(n, es) && StaleOperation(n, id)
    ensures StaleOperation(After(n, es), id) && OperationIgnored(After(n, es).s, id)
    decreases |es|
  {
    if es != [] {
      SoundKept(n, es[0]);
      StaleOperationKept(n, es[0], id);
      StaleOperationForever(Next(n, es[0]), es[1..], id);
    } else {
      OtherOperationIgnored(n.s, id);
    }
  }

  /** Once a later reservation succeeds, every earlier identity is dead for the rest of the run. */
  lemma ReservationSupersedes(n: Node, id: Id, lease: Id, earlier: Id, es: seq<Event>)
    requires Sound(n) && Enabled(n, ReserveEvent(id, lease)) && CanReserve(n.s, lease)
    requires earlier in n.h.used && earlier != 0
    requires Runs(Next(n, ReserveEvent(id, lease)), es)
    ensures OperationIgnored(After(Next(n, ReserveEvent(id, lease)), es).s, earlier)
  {
    SoundKept(n, ReserveEvent(id, lease));
    StaleOperationForever(Next(n, ReserveEvent(id, lease)), es, earlier);
  }

  // -------------------------------------------------------------------------------------------
  // Stale and released leases

  predicate StaleLease(n: Node, lease: Id) {
    lease != 0 && lease in n.h.used && n.s.lease.id != lease
  }

  ghost predicate LeaseIgnored(s: Session, lease: Id) {
    && !CanReleaseLease(s, lease) && ReleaseLease(s, lease) == s
    && !CanReserve(s, lease) && (forall id :: Reserve(s, id, lease) == s)
  }

  predicate ReleasedLease(n: Node, lease: Id) {
    lease != 0 && n.s.lease.id == lease && n.s.lease.abandoned
  }

  lemma StaleLeaseKept(n: Node, e: Event, lease: Id)
    requires Base(n) && StaleLease(n, lease) && Enabled(n, e)
    ensures StaleLease(Next(n, e), lease)
  {
  }

  lemma {:induction false} StaleLeaseForever(n: Node, es: seq<Event>, lease: Id)
    requires Sound(n) && Runs(n, es) && StaleLease(n, lease)
    ensures StaleLease(After(n, es), lease) && LeaseIgnored(After(n, es).s, lease)
    decreases |es|
  {
    if es != [] {
      SoundKept(n, es[0]);
      StaleLeaseKept(n, es[0], lease);
      StaleLeaseForever(Next(n, es[0]), es[1..], lease);
    }
  }

  /** A release that took effect sets the lease aside, wherever the worker happens to be. */
  lemma ReleaseTakesEffect(n: Node, lease: Id)
    requires Sound(n) && CanReleaseLease(n.s, lease)
    ensures ReleasedLease(Next(n, ReleaseLeaseEvent(lease)), lease)
    ensures var t := Next(n, ReleaseLeaseEvent(lease)).s;
      Awake(t) || t.fetch.active || !t.worker.Waiting?
  {
  }

  /** A released lease stays released until its transaction is gone, and then is stale. */
  lemma ReleasedLeaseKept(n: Node, e: Event, lease: Id)
    requires Base(n) && ReleasedLease(n, lease) && Enabled(n, e)
    ensures ReleasedLease(Next(n, e), lease) || StaleLease(Next(n, e), lease)
    ensures !ReleasedLease(Next(n, e), lease) ==> Next(n, e).s.link.transaction.None?
    ensures Next(n, e).h.reservedUnder == n.h.reservedUnder || !(e.ReserveEvent? && e.lease == lease)
  {
  }

  ghost predicate ReservedUnder(h: History, id: Id, lease: Id) {
    id in h.reservedUnder && h.reservedUnder[id] == lease
  }

  /** No release is lost: nothing is reserved under the lease any more, whatever else happens. */
  lemma {:induction false} ReleaseIsNeverLost(n: Node, es: seq<Event>, lease: Id)
    requires Sound(n) && Runs(n, es) && ReleasedLease(n, lease)
    ensures ReleasedLease(After(n, es), lease) || StaleLease(After(n, es), lease)
    ensures forall id :: ReservedUnder(After(n, es).h, id, lease) ==> ReservedUnder(n.h, id, lease)
    decreases |es|
  {
    if es != [] {
      var m := Next(n, es[0]);
      SoundKept(n, es[0]);
      ReleasedLeaseKept(n, es[0], lease);
      NoNewReservation(n, es[0], lease);
      if ReleasedLease(m, lease) {
        ReleaseIsNeverLost(m, es[1..], lease);
      } else {
        NoReservationWhenStale(m, es[1..], lease);
      }
    }
  }

  lemma NoNewReservation(n: Node, e: Event, lease: Id)
    requires Base(n) && Enabled(n, e) && (ReleasedLease(n, lease) || StaleLease(n, lease))
    ensures forall id :: ReservedUnder(Next(n, e).h, id, lease) ==> ReservedUnder(n.h, id, lease)
  {
  }

  lemma {:induction false} NoReservationWhenStale(n: Node, es: seq<Event>, lease: Id)
    requires Sound(n) && Runs(n, es) && StaleLease(n, lease)
    ensures StaleLease(After(n, es), lease)
    ensures forall id :: ReservedUnder(After(n, es).h, id, lease) ==> ReservedUnder(n.h, id, lease)
    decreases |es|
  {
    if es != [] {
      SoundKept(n, es[0]);
      StaleLeaseKept(n, es[0], lease);
      NoNewReservation(n, es[0], lease);
      NoReservationWhenStale(Next(n, es[0]), es[1..], lease);
    }
  }

  /** Public state 0 proves that release and rollback completed and that the worker is idle. */
  lemma StateZeroMeansIdle(n: Node)
    requires Sound(n) && State(n.s) == 0
    ensures n.s.link.transaction.None? && n.s.held.result.None? && n.s.held.statement.None? && !n.s.held.unread
    ensures n.s.pending.None? && !n.s.fetch.active && n.s.worker.Waiting? && n.s.link.open
    ensures !Awake(n.s) && n.h.completed == n.h.accepted
  {
  }

  // -------------------------------------------------------------------------------------------
  // Jobs asked to end before they were dequeued

  predicate Untouched(x: Exec) {
    x.code == 4 && x.writes == [] && !x.took
  }

  /** An accepted job that is cancelled, stopped or released while still pending, and stays skipped. */
  predicate Doomed(n: Node, id: Id) {
    && id in n.h.accepted
    && DoomedNow(n.s, id)
    && (forall i :: 0 <= i < |n.h.log| && n.h.log[i].id == id ==> Untouched(n.h.log[i]))
  }

  predicate DoomedNow(s: Session, id: Id) {
    && (s.pending.Some? && s.pending.value.id == id ==> s.op.cancel || s.stop)
    && (s.worker.Executing? && s.worker.job.id == id ==> s.worker.wasCancelled)
  }

  lemma DoomedNowKeptByCallers(n: Node, e: Event, id: Id)
    requires Base(n) && id in n.h.accepted && DoomedNow(n.s, id) && Enabled(n, e) && !e.WorkerEvent?
    ensures DoomedNow(Step(n.s, e), id)
  {
  }

  lemma DoomedNowKeptByWorker(s: Session, c: Choice, id: Id)
    requires Shape(s) && DoomedNow(s, id) && CanWork(s)
    ensures DoomedNow(WorkerStep(s, c), id)
  {
  }

  lemma SkippedIsUntouched(s: Session, e: Event)
    requires e.WorkerEvent? && s.worker.Executing? && s.worker.wasCancelled
    ensures Untouched(ExecutedNow(s, e)[0])
  {
  }

  lemma DoomedKept(n: Node, e: Event, id: Id)
    requires Sound(n) && Doomed(n, id) && Enabled(n, e)
    ensures Doomed(Next(n, e), id)
  {
    if e.WorkerEvent? {
      DoomedNowKeptByWorker(n.s, e.choice, id);
      if n.s.worker.Executing? && n.s.worker.job.id == id {
        SkippedIsUntouched(n.s, e);
      }
    } else {
      DoomedNowKeptByCallers(n, e, id);
    }
  }

  lemma {:induction false} DoomedForever(n: Node, es: seq<Event>, id: Id)
    requires Sound(n) && Runs(n, es) && Doomed(n, id)
    ensures Doomed(After(n, es), id)
    decreases |es|
  {
    if es != [] {
      SoundKept(n, es[0]);
      DoomedKept(n, es[0], id);
      DoomedForever(Next(n, es[0]), es[1..], id);
    }
  }

  /** A job still pending when it is cancelled, released or stopped never reaches the engine. */
  lemma PendingJobNeverReachesEngine(n: Node, es: seq<Event>, i: nat)
    requires Sound(n) && Runs(n, es)
    requires n.s.pending.Some? && (n.s.op.cancel || n.s.stop)
    requires i < |After(n, es).h.log| && After(n, es).h.log[i].id == n.s.pending.value.id
    ensures Untouched(After(n, es).h.log[i])
  {
    DoomedForever(n, es, n.s.pending.value.id);
  }
}
