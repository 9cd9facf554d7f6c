/**
 What callers have been told so far, noted along a run: which operations were dismissed and cleared,
 which leases were acquired, released and taken back, whether a stop was asked for, and which results
 were reported to be at their end.  The notes are written from answers alone; that the session's flags
 always agree with them is an invariant.
 */
module Annals {
  import opened Options
  import opened Engine
  import opened Protocol
  import opened History
  import opened Invariants
  import opened Transactions
  import opened Completions
  import opened Streaming
  import opened Soundness
  import opened Outcomes

  datatype Annals = Annals(
    dismissed: set<Id>,     // operations finished, abandoned, released, stopped or not delivered
    cleared: set<Id>,       // operations the worker has given up
    acquired: set<Id>,      // leases granted
    released: set<Id>,      // leases given back by their owner
    gone: set<Id>,          // leases the worker has taken back
    ended: set<Id>,         // results reported to be at their end
    stopped: bool)          // stopped, or ended by a failure of the worker

  const FRESH_ANNALS := Annals({}, {}, {}, {}, {}, {}, false)

  function DismissedNow(s: Session, e: Event): set<Id> {
    match e
    case FinishEvent(id) => if CanFinish(s, id) then {id} else {}
    case CancelEvent(id, abandon) => if abandon && CanCancel(s, id) then {id} else {}
    case ReleaseLeaseEvent(lease) => if CanReleaseLease(s, lease) then {s.op.id} else {}
    case StopEvent => {s.op.id}
    case WorkerEvent(c) => if s.worker.Delivered? && !s.worker.delivered && !c.fault then {s.worker.op} else {}
    case _ => {}
  }

  function ClearedNow(s: Session, e: Event): set<Id> {
    if e.WorkerEvent? && s.worker.Clearing? && s.op.busy then {s.op.id} else {}
  }

  function GoneNow(s: Session, e: Event): set<Id> {
    if e.WorkerEvent? && s.worker.Clearing? && s.worker.pass.releaseLease then {s.lease.id} else {}
  }

  function EndedAfter(ended: set<Id>, s: Session, e: Event): set<Id>
    requires Possible(s, e)
  {
    match e
    case FetchNextEvent(fault, _) => if FetchNextCode(s, fault) == 0 then ended + {s.fetch.cursor.op} else ended
    case WorkerEvent(_) => if s.worker.Publishing? then ended - {s.worker.job.id} else ended
    case _ => ended
  }

  function Noted(a: Annals, s: Session, e: Event): Annals
    requires Possible(s, e)
  {
    Annals(
      a.dismissed + DismissedNow(s, e),
      a.cleared + ClearedNow(s, e),
      a.acquired + (if e.AcquireLeaseEvent? && CanAcquireLease(s, e.lease) then {e.lease} else {}),
      a.released + (if e.ReleaseLeaseEvent? && CanReleaseLease(s, e.lease) then {e.lease} else {}),
      a.gone + GoneNow(s, e),
      EndedAfter(a.ended, s, e),
      a.stopped || e.StopEvent? || (e.WorkerEvent? && s.worker.Failing?))
  }

  function NotesAfter(n: Node, es: seq<Event>, a: Annals): Annals
    requires Runs(n, es)
    decreases |es|
  {
    if es == [] then a else NotesAfter(Next(n, es[0]), es[1..], Noted(a, n.s, es[0]))
  }

  // -------------------------------------------------------------------------------------------
  // Operations

  /** The completion callback has been called for it, or is being called. */
  predicate Reported(s: Session, completed: seq<Id>, id: Id) {
    id in completed || (s.worker.Completing? && s.worker.job.id == id)
  }

  /** The worker has recorded its own failure, or has left its loop after a stop. */
  predicate HasFailed(s: Session) {
    IsExit(s.worker) && !s.worker.Failing?
  }

  predicate OperationNotes(s: Session, reserved: map<Id, Id>, dismissed: set<Id>, cleared: set<Id>) {
    && (forall id :: id in reserved ==> (id in cleared <==> !(s.op.busy && s.op.id == id)))
    && (forall id :: id in cleared ==> id in reserved && id in dismissed)
    && (forall id :: id in dismissed ==> id == 0 || id in reserved)
    && (s.op.busy ==> (s.op.discard <==> s.op.id in dismissed))
    && (s.stop && s.op.busy && !IsExit(s.worker) ==> s.op.discard)
  }

  lemma OperationNotesKeptByWorker(n: Node, c: Choice, dismissed: set<Id>, cleared: set<Id>)
    requires Base(n) && OperationNotes(n.s, n.h.reservedUnder, dismissed, cleared) && CanWork(n.s)
    ensures var e := WorkerEvent(c);
      OperationNotes(WorkerStep(n.s, c), n.h.reservedUnder,
                     dismissed + DismissedNow(n.s, e), cleared + ClearedNow(n.s, e))
  {
  }

  lemma OperationNotesKept(n: Node, e: Event, dismissed: set<Id>, cleared: set<Id>)
    requires Base(n) && OperationNotes(n.s, n.h.reservedUnder, dismissed, cleared) && Enabled(n, e)
    ensures OperationNotes(Step(n.s, e), ReservedAfter(n.h.reservedUnder, n.s, e),
                           dismissed + DismissedNow(n.s, e), cleared + ClearedNow(n.s, e))
  {
    if e.WorkerEvent? {
      OperationNotesKeptByWorker(n, e.choice, dismissed, cleared);
    }
  }

  /** Ready means reported, until the worker has failed. */
  predicate ReadyNotes(s: Session, completed: seq<Id>) {
    && (s.op.busy && !HasFailed(s) ==> (s.op.ready <==> Reported(s, completed, s.op.id)))
    && (s.op.busy && HasFailed(s) ==> s.op.ready)
  }

  lemma ReadyNotesKeptByWorker(s: Session, c: Choice, completed: seq<Id>)
    requires Shape(s) && CanWork(s) && ReadyNotes(s, completed)
    ensures ReadyNotes(WorkerStep(s, c), completed + CompletedNow(s, WorkerEvent(c)))
  {
  }

  /** A new operation has not been reported yet. */
  lemma CompletedIsOld(n: Node, e: Event)
    requires Base(n) && Enabled(n, e) && (forall id :: id in n.h.completed ==> id in n.h.accepted)
    ensures e.ReserveEvent? ==> e.id !in n.h.completed
  {
  }

  lemma ReadyNotesKept(n: Node, e: Event)
    requires Base(n) && CompletionOk(n) && ReadyNotes(n.s, n.h.completed) && Enabled(n, e)
    ensures ReadyNotes(Step(n.s, e), n.h.completed + CompletedNow(n.s, e))
  {
    if e.WorkerEvent? {
      ReadyNotesKeptByWorker(n.s, e.choice, n.h.completed);
    } else {
      assert n.h.completed + CompletedNow(n.s, e) == n.h.completed;
      assert forall id :: id in n.h.completed ==> id in n.h.completed + InFlight(n.s);
      CompletedIsOld(n, e);
    }
  }

  // -------------------------------------------------------------------------------------------
  // Leases

  predicate LeaseNotes(s: Session, used: set<Id>, acquired: set<Id>, released: set<Id>, gone: set<Id>) {
    && (forall l :: l in acquired ==> (l in gone <==> s.lease.id != l))
    && (s.lease.id != 0 ==> s.lease.id in acquired && (s.lease.abandoned <==> s.lease.id in released))
    && (forall l :: l in gone ==> l in released)
    && (forall l :: l in released ==> l in acquired)
    && (forall l :: l in acquired ==> l != 0 && l in used)
  }

  lemma LeaseNotesKept(n: Node, a: Annals, e: Event)
    requires Base(n) && LeaseNotes(n.s, n.h.used, a.acquired, a.released, a.gone) && Enabled(n, e)
    ensures var b := Noted(a, n.s, e);
      LeaseNotes(Step(n.s, e), UsedAfter(n.h.used, e), b.acquired, b.released, b.gone)
  {
  }

  predicate HasFailure(log: seq<Exec>, lease: Id) {
    exists i :: 0 <= i < |log| && log[i].lease == lease && log[i].code != 0
  }

  /** A lease counts as failed only after a failed execution under it. */
  predicate FailureNotes(s: Session, log: seq<Exec>) {
    s.lease.id != 0 && s.lease.failed ==> HasFailure(log, s.lease.id)
  }

  lemma FailureStays(log: seq<Exec>, more: seq<Exec>, lease: Id)
    requires HasFailure(log, lease)
    ensures HasFailure(log + more, lease)
  {
    var i :| 0 <= i < |log| && log[i].lease == lease && log[i].code != 0;
    assert (log + more)[i] == log[i];
  }

  lemma FailureNotesKeptByPublish(n: Node, c: Choice)
    requires Base(n) && LogOk(n) && OutcomeOk(n) && n.s.worker.Publishing? && n.s.worker.code != 0
    ensures HasFailure(n.h.log, n.s.lease.id)
  {
    var k := |n.h.log| - 1;
    assert n.h.log[k].id == n.s.op.id && n.h.log[k].lease == n.s.lease.id;
  }

  /** Only publishing a failure makes a lease fail. */
  lemma FailedBefore(s: Session, e: Event)
    requires Shape(s) && Possible(s, e) && Step(s, e).lease.id != 0 && Step(s, e).lease.failed
    ensures s.lease.id == Step(s, e).lease.id
    ensures s.lease.failed || (e.WorkerEvent? && s.worker.Publishing? && s.worker.code != 0)
  {
  }

  lemma FailureNotesKept(n: Node, e: Event)
    requires Base(n) && LogOk(n) && OutcomeOk(n) && FailureNotes(n.s, n.h.log) && Enabled(n, e)
    ensures FailureNotes(Step(n.s, e), n.h.log + ExecutedNow(n.s, e))
  {
    var t := Step(n.s, e);
    if t.lease.id != 0 && t.lease.failed {
      FailedBefore(n.s, e);
      if !n.s.lease.failed {
        FailureNotesKeptByPublish(n, e.choice);
      }
      FailureStays(n.h.log, ExecutedNow(n.s, e), n.s.lease.id);
    }
  }

  // -------------------------------------------------------------------------------------------
  // Results

  predicate LastIsQuery(log: seq<Exec>) {
    log != [] && log[|log| - 1].work.UserQuery?
  }

  /** A successful query has a result until it is dismissed. */
  predicate ResultNotes(s: Session, log: seq<Exec>) {
    && (s.worker.Publishing? && s.worker.code == 0 ==> (s.worker.value.Some? <==> LastIsQuery(log)))
    && (s.op.busy && s.op.ready && s.op.error == 0 && !s.op.discard && !HasFailed(s) && !IsPass(s.worker) ==>
          (s.held.result.Some? <==> LastIsQuery(log)))
  }

  lemma ResultNotesKeptByWorker(n: Node, c: Choice)
    requires Base(n) && OutcomeOk(n) && ResultNotes(n.s, n.h.log) && CanWork(n.s) && !n.s.worker.Executing?
    ensures ResultNotes(WorkerStep(n.s, c), n.h.log)
  {
  }

  lemma ResultNotesKeptByExecution(n: Node, e: Event)
    requires Base(n) && e.WorkerEvent? && n.s.worker.Executing?
    ensures ResultNotes(Step(n.s, e), n.h.log + ExecutedNow(n.s, e))
  {
  }

  lemma ResultNotesKept(n: Node, e: Event)
    requires Base(n) && OutcomeOk(n) && ResultNotes(n.s, n.h.log) && Enabled(n, e)
    ensures ResultNotes(Step(n.s, e), n.h.log + ExecutedNow(n.s, e))
  {
    if e.WorkerEvent? && n.s.worker.Executing? {
      ResultNotesKeptByExecution(n, e);
    } else {
      assert n.h.log + ExecutedNow(n.s, e) == n.h.log;
      if e.WorkerEvent? {
        ResultNotesKeptByWorker(n, e.choice);
      }
    }
  }

  predicate AtEnd(s: Session, r: ResultSet) {
    r.next == |r.rows| && !s.held.unread && !(s.fetch.cursor.Open? && s.fetch.cursor.row)
  }

  /** A result reported to be at its end is: nothing is left of it, and if none was lost, all was received. */
  predicate EndNotes(n: Node, ended: set<Id>) {
    && (forall op :: op in ended && op in n.h.received && op !in n.h.lost ==>
          op in n.h.produced && n.h.received[op] == n.h.produced[op])
    && (n.s.held.result.Some? && !IsFinal(n.s.worker) && n.s.held.result.value.op in ended ==>
          AtEnd(n.s, n.s.held.result.value))
  }

  lemma EndNotesKeptByFetch(n: Node, e: Event, ended: set<Id>)
    requires Base(n) && StreamOk(n) && EndNotes(n, ended) && Enabled(n, e) && IsFetch(e)
    ensures EndNotes(Next(n, e), EndedAfter(ended, n.s, e))
  {
  }

  lemma EndNotesKeptByWorker(n: Node, e: Event, ended: set<Id>)
    requires Base(n) && StreamOk(n) && EndNotes(n, ended) && Enabled(n, e) && e.WorkerEvent?
    ensures EndNotes(Next(n, e), EndedAfter(ended, n.s, e))
  {
  }

  lemma EndNotesKept(n: Node, e: Event, ended: set<Id>)
    requires Base(n) && StreamOk(n) && EndNotes(n, ended) && Enabled(n, e)
    ensures EndNotes(Next(n, e), EndedAfter(ended, n.s, e))
  {
    if IsFetch(e) {
      EndNotesKeptByFetch(n, e, ended);
    } else if e.WorkerEvent? {
      EndNotesKeptByWorker(n, e, ended);
    }
  }

  // -------------------------------------------------------------------------------------------
  // All notes

  predicate HolderNotes(n: Node, a: Annals) {
    && OperationNotes(n.s, n.h.reservedUnder, a.dismissed, a.cleared)
    && ReadyNotes(n.s, n.h.completed)
    && LeaseNotes(n.s, n.h.used, a.acquired, a.released, a.gone)
    && (n.s.stop <==> a.stopped)
  }

  predicate WorkNotes(n: Node, a: Annals) {
    OutcomeOk(n) && FailureNotes(n.s, n.h.log) && ResultNotes(n.s, n.h.log) && EndNotes(n, a.ended)
  }

  predicate NotesOk(n: Node, a: Annals) {
    HolderNotes(n, a) && WorkNotes(n, a)
  }

  lemma StopNoted(s: Session, e: Event)
    requires Shape(s) && Possible(s, e)
    ensures Step(s, e).stop <==> s.stop || e.StopEvent? || (e.WorkerEvent? && s.worker.Failing?)
  {
  }

  lemma HolderNotesKept(n: Node, a: Annals, e: Event)
    requires Base(n) && CompletionOk(n) && HolderNotes(n, a) && Enabled(n, e)
    ensures HolderNotes(Next(n, e), Noted(a, n.s, e))
  {
    OperationNotesKept(n, e, a.dismissed, a.cleared);
    ReadyNotesKept(n, e);
    LeaseNotesKept(n, a, e);
    StopNoted(n.s, e);
  }

  lemma WorkNotesKept(n: Node, a: Annals, e: Event)
    requires Base(n) && LogOk(n) && StreamOk(n) && WorkNotes(n, a) && Enabled(n, e)
    ensures WorkNotes(Next(n, e), Noted(a, n.s, e))
  {
    OutcomeKept(n, e);
    FailureNotesKept(n, e);
    ResultNotesKept(n, e);
    EndNotesKept(n, e, a.ended);
  }

  lemma NotesKept(n: Node, a: Annals, e: Event)
    requires Sound(n) && NotesOk(n, a) && Enabled(n, e)
    ensures NotesOk(Next(n, e), Noted(a, n.s, e))
  {
    HolderNotesKept(n, a, e);
    WorkNotesKept(n, a, e);
  }

  lemma {:induction false} NotesAlong(n: Node, es: seq<Event>, a: Annals)
    requires Sound(n) && NotesOk(n, a) && Runs(n, es)
    ensures NotesOk(After(n, es), NotesAfter(n, es, a))
    decreases |es|
  {
    if es != [] {
      SoundKept(n, es[0]);
      NotesKept(n, a, es[0]);
      NotesAlong(Next(n, es[0]), es[1..], Noted(a, n.s, es[0]));
    }
  }
}
