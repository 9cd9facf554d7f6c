/** Every result, statement, row and connection is destroyed once, children before parents. */
module Destruction {
  import opened Options
  import opened Protocol
  import opened History
  import opened Invariants

  function One(b: bool): nat { if b then 1 else 0 }

  function ResultCount(result: Option<ResultSet>, r: Resource): nat {
    One(result.Some? && r == ResultOf(result.value.op))
  }

  function StatementCount(statement: Option<Id>, r: Resource): nat {
    One(statement.Some? && r == StatementOf(statement.value))
  }

  /** How many copies of a resource exist: in the session, in a cursor, or in the worker's locals. */
  function LiveCount(s: Session, r: Resource): nat {
    One(s.held.unread && s.held.result.Some? && r == RowOf(s.held.result.value.op)) +
    ResultCount(s.held.result, r) +
    StatementCount(s.held.statement, r) +
    One(s.fetch.cursor.Open? && s.fetch.cursor.row && r == RowOf(s.fetch.cursor.op)) +
    One(!s.worker.Exited? && r.TheConnection?) +
    WorkerCount(s.worker, r)
  }

  function WorkerCount(w: Worker, r: Resource): nat {
    if w.DroppingRow? then
      One(w.oldRow && w.garbage.Some? && r == RowOf(w.garbage.value.op)) +
      ResultCount(w.garbage, r) + StatementCount(w.oldStatement, r)
    else if w.DroppingResult? then
      ResultCount(w.garbage, r) + StatementCount(w.oldStatement, r)
    else if w.DroppingStatement? then
      StatementCount(w.oldStatement, r)
    else if w.Publishing? then
      One(w.value.Some? && r == ResultOf(w.job.id)) + One(w.prepared && r == StatementOf(w.job.id))
    else 0
  }

  function Count(xs: seq<Resource>, r: Resource): nat {
    multiset(xs)[r]
  }

  function Level(r: Resource): nat {
    match r
    case RowOf(_) => 0
    case ResultOf(_) => 1
    case StatementOf(_) => 2
    case TheConnection => 3
  }

  /** second may be destroyed after first. */
  predicate Follows(first: Resource, second: Resource) {
    && !first.TheConnection?
    && (!second.TheConnection? && first.op == second.op ==>
          Level(first) < Level(second) || (first.RowOf? && second.RowOf?))
  }

  /** Rows before their result, the result before its statement, every one before the connection. */
  predicate Ordered(destroyed: seq<Resource>) {
    forall i, j :: 0 <= i < j < |destroyed| ==> Follows(destroyed[i], destroyed[j])
  }

  /** Nothing at this level or above has been destroyed for the current operation. */
  function Bound(s: Session): nat {
    if s.worker.Exited? then 4
    else if s.worker.DroppingStatement? then 2
    else if s.worker.RollingBack? || s.worker.Clearing? then 3
    else if IsExit(s.worker) && s.held.result.None? then
      if s.held.statement.Some? then 2 else 3
    else 1
  }

  predicate DestroyedSoFar(s: Session, accepted: seq<Id>, destroyed: seq<Resource>) {
    && Ordered(destroyed)
    && (forall r :: r in destroyed && r.TheConnection? ==> s.worker.Exited?)
    && (forall r :: r in destroyed && !r.TheConnection? ==> r.op in accepted)
    && (forall r :: r in destroyed && !r.TheConnection? && s.op.busy && r.op == s.op.id ==> Level(r) < Bound(s))
  }

  /** Invariant, part 5. */
  ghost predicate DestructionOk(n: Node) {
    && DestroyedSoFar(n.s, n.h.accepted, n.h.destroyed)
    && (forall r :: Count(n.h.created, r) == Count(n.h.destroyed, r) + LiveCount(n.s, r))
  }

  lemma OrderedExtends(destroyed: seq<Resource>, more: seq<Resource>)
    requires Ordered(destroyed) && |more| <= 1
    requires forall r, q :: r in destroyed && q in more ==> Follows(r, q)
    ensures Ordered(destroyed + more)
  {
  }

  // -------------------------------------------------------------------------------------------
  // Conservation: what a step creates or destroys is exactly the change in what exists

  ghost predicate Conserved(s: Session, e: Event, r: Resource)
    requires Possible(s, e)
  {
    LiveCount(Step(s, e), r) + Count(DestroyedNow(s, e), r) == LiveCount(s, r) + Count(CreatedNow(s, e), r)
  }

  lemma ConservedByNext(s: Session, e: Event, r: Resource)
    requires Shape(s) && Possible(s, e) && e.FetchNextEvent?
    ensures Conserved(s, e, r)
  {
  }

  lemma ConservedByFetch(s: Session, e: Event, r: Resource)
    requires Shape(s) && Possible(s, e) && IsFetch(e)
    ensures Conserved(s, e, r)
  {
    if e.FetchNextEvent? {
      ConservedByNext(s, e, r);
    }
  }

  lemma ConservedByCallers(s: Session, e: Event, r: Resource)
    requires Shape(s) && Possible(s, e) && !e.WorkerEvent?
    ensures Conserved(s, e, r)
  {
    if IsFetch(e) {
      ConservedByFetch(s, e, r);
    }
  }

  ghost predicate ConservedByWorker(s: Session, c: Choice, r: Resource)
    requires CanWork(s)
  {
    LiveCount(WorkerStep(s, c), r) + Count(DestroyedByWorker(s), r) == LiveCount(s, r) + Count(CreatedByWorker(s, c), r)
  }

  lemma ConservedByDequeue(s: Session, c: Choice, r: Resource)
    requires Shape(s) && CanWork(s) && s.worker.Waiting?
    ensures ConservedByWorker(s, c, r)
  {
  }

  lemma ConservedByClear(s: Session, c: Choice, r: Resource)
    requires Shape(s) && (s.worker.RollingBack? || s.worker.Clearing?)
    ensures ConservedByWorker(s, c, r)
  {
  }

  lemma ConservedByDrop(s: Session, c: Choice, r: Resource)
    requires Shape(s) && IsPass(s.worker)
    ensures ConservedByWorker(s, c, r)
  {
    if s.worker.RollingBack? || s.worker.Clearing? {
      ConservedByClear(s, c, r);
    }
  }

  lemma ConservedByExecute(s: Session, c: Choice, r: Resource)
    requires Shape(s) && s.worker.Executing?
    ensures ConservedByWorker(s, c, r)
  {
    var out := Executed(s, c);
    assert WorkerStep(s, c).worker == Publishing(s.worker.job, out.code, out.rows, out.prepared);
  }

  lemma ConservedByDelivery(s: Session, c: Choice, r: Resource)
    requires Shape(s) && IsJob(s.worker) && !s.worker.Executing?
    ensures ConservedByWorker(s, c, r)
  {
  }

  lemma ConservedByFailure(s: Session, c: Choice, r: Resource)
    requires Shape(s) && CanWork(s) && IsExit(s.worker) && !IsFinal(s.worker)
    ensures ConservedByWorker(s, c, r)
  {
  }

  lemma ConservedByFinal(s: Session, c: Choice, r: Resource)
    requires Shape(s) && CanWork(s) && IsFinal(s.worker)
    ensures ConservedByWorker(s, c, r)
  {
  }

  // -------------------------------------------------------------------------------------------
  // Order

  /** A step destroys at most one thing: the connection last, or a part of the current operation. */
  predicate DestroysCurrent(s: Session, q: Resource) {
    if q.TheConnection? then s.worker.DroppingConnection?
    else s.op.busy && q.op == s.op.id && (Level(q) >= Bound(s) || (q.RowOf? && Bound(s) == 1))
  }

  lemma DestroyedIsCurrent(s: Session, e: Event)
    requires Shape(s) && Possible(s, e)
    ensures |DestroyedNow(s, e)| <= 1
    ensures forall q :: q in DestroyedNow(s, e) ==> DestroysCurrent(s, q)
  {
  }

  lemma BoundAfterCallers(s: Session, e: Event)
    requires Shape(s) && Possible(s, e) && !e.WorkerEvent?
    ensures var t := Step(s, e);
      && (t.op.busy && !(e.ReserveEvent? && CanReserve(s, e.lease)) ==> s.op.busy && t.op.id == s.op.id)
      && Bound(s) == Bound(t)
      && forall q :: q in DestroyedNow(s, e) ==> Level(q) < Bound(t)
  {
  }

  ghost predicate BoundKept(s: Session, t: Session) {
    && (t.op.busy ==> s.op.busy && t.op.id == s.op.id && Bound(s) <= Bound(t))
    && forall q :: q in DestroyedByWorker(s) && t.op.busy ==> Level(q) < Bound(t)
  }

  lemma BoundAfterExit(s: Session, c: Choice)
    requires Shape(s) && CanWork(s) && IsExit(s.worker)
    ensures BoundKept(s, WorkerStep(s, c))
  {
  }

  lemma BoundAfterWorker(s: Session, c: Choice)
    requires Shape(s) && CanWork(s)
    ensures BoundKept(s, WorkerStep(s, c))
  {
    if IsExit(s.worker) {
      BoundAfterExit(s, c);
    }
  }

  /** Abstract step: t is the session after a step that destroyed more and accepted what is now known. */
  lemma DestroyedSoFarExtends(s: Session, t: Session, accepted: seq<Id>, known: seq<Id>,
                              destroyed: seq<Resource>, more: seq<Resource>)
    requires DestroyedSoFar(s, accepted, destroyed)
    requires forall id :: id in accepted ==> id in known
    requires |more| <= 1 && forall q :: q in more ==> DestroysCurrent(s, q)
    requires forall q :: q in more && q.TheConnection? ==> t.worker.Exited?
    requires forall q :: q in more && !q.TheConnection? ==> q.op in known
    requires s.worker.Exited? ==> t.worker.Exited? && more == []
    requires t.op.busy ==>
               (s.op.busy && t.op.id == s.op.id && Bound(s) <= Bound(t)) || t.op.id !in known
    requires forall q :: q in more && t.op.busy ==> Level(q) < Bound(t)
    ensures DestroyedSoFar(t, known, destroyed + more)
  {
    OrderedExtends(destroyed, more);
  }

  lemma DestroyedSoFarKept(n: Node, e: Event)
    requires Base(n) && DestructionOk(n) && Enabled(n, e)
    ensures DestroyedSoFar(Step(n.s, e), n.h.accepted + AcceptedNow(n.s, e), n.h.destroyed + DestroyedNow(n.s, e))
  {
    DestroyedIsCurrent(n.s, e);
    DestroyedWasAccepted(n, e);
    if e.WorkerEvent? {
      BoundAfterWorker(n.s, e.choice);
      DestroyedSoFarExtends(n.s, Step(n.s, e), n.h.accepted, n.h.accepted + AcceptedNow(n.s, e),
                            n.h.destroyed, DestroyedNow(n.s, e));
    } else {
      BoundAfterCallers(n.s, e);
      DestroyedSoFarExtends(n.s, Step(n.s, e), n.h.accepted, n.h.accepted + AcceptedNow(n.s, e),
                            n.h.destroyed, DestroyedNow(n.s, e));
    }
  }

  /** What a step destroys belongs to an accepted operation. */
  lemma DestroyedWasAccepted(n: Node, e: Event)
    requires Base(n) && Enabled(n, e)
    ensures forall q :: q in DestroyedNow(n.s, e) && !q.TheConnection? ==> q.op in n.h.accepted
  {
  }

  lemma {:induction false} ConservationKept(n: Node, e: Event, r: Resource)
    requires Base(n) && DestructionOk(n) && Enabled(n, e)
    ensures Count(n.h.created + CreatedNow(n.s, e), r) ==
            Count(n.h.destroyed + DestroyedNow(n.s, e), r) + LiveCount(Step(n.s, e), r)
  {
    if e.WorkerEvent? {
      ConservedByPc(n.s, e.choice, r);
    } else {
      ConservedByCallers(n.s, e, r);
    }
  }

  lemma ConservedByPc(s: Session, c: Choice, r: Resource)
    requires Shape(s) && CanWork(s)
    ensures ConservedByWorker(s, c, r)
  {
    if s.worker.Waiting? {
      ConservedByDequeue(s, c, r);
    } else if IsPass(s.worker) {
      ConservedByDrop(s, c, r);
    } else if s.worker.Executing? {
      ConservedByExecute(s, c, r);
    } else if IsJob(s.worker) {
      ConservedByDelivery(s, c, r);
    } else if IsFinal(s.worker) {
      ConservedByFinal(s, c, r);
    } else {
      ConservedByFailure(s, c, r);
    }
  }

  lemma DestructionKept(n: Node, e: Event)
    requires Base(n) && DestructionOk(n) && Enabled(n, e)
    ensures DestructionOk(Next(n, e))
  {
    DestroyedSoFarKept(n, e);
    forall r ensures Count(Next(n, e).h.created, r) == Count(Next(n, e).h.destroyed, r) + LiveCount(Next(n, e).s, r) {
      ConservationKept(n, e, r);
    }
  }
}
