/** Exactly-once completion, in submission order. */
module Completions {
  import opened Options
  import opened Protocol
  import opened History
  import opened Invariants

  /** The accepted job whose completion is still to come; there is never more than one. */
  function InFlight(s: Session): seq<Id> {
    if s.pending.Some? then [s.pending.value.id]
    else if HoldsJob(s.worker) then [s.worker.job.id]
    else if s.worker.CompletingFailed? && s.worker.failed.Some? then [s.worker.failed.value.id]
    else []
  }

  predicate Distinct<T(==)>(xs: seq<T>) {
    forall i, j :: 0 <= i < j < |xs| ==> xs[i] != xs[j]
  }

  /** Invariant, part 4. */
  predicate CompletionOk(n: Node) {
    && Distinct(n.h.accepted)
    && n.h.accepted == n.h.completed + InFlight(n.s)
  }

  lemma InFlightAfterControl(s: Session, e: Event)
    requires Shape(s) && Possible(s, e) && Lawful(s, e) && !e.WorkerEvent?
    ensures InFlight(Step(s, e)) == InFlight(s) + AcceptedNow(s, e)
  {
  }

  lemma InFlightAfterWorker(s: Session, c: Choice)
    requires Shape(s) && CanWork(s)
    ensures CompletedNow(s, WorkerEvent(c)) + InFlight(WorkerStep(s, c)) == InFlight(s)
  {
  }

  lemma DistinctExtends<T>(xs: seq<T>, more: seq<T>)
    requires Distinct(xs) && |more| <= 1 && forall x :: x in more ==> x !in xs
    ensures Distinct(xs + more)
  {
    if more != [] {
      assert more[0] in more;
    }
  }

  lemma CompletionKeptByControl(s: Session, h: History, e: Event)
    requires Shape(s) && Possible(s, e) && Lawful(s, e) && Allowed(h, e) && !e.WorkerEvent?
    requires CompletionOk(Node(s, h))
    ensures h.accepted + AcceptedNow(s, e) == h.completed + InFlight(Step(s, e))
    ensures Distinct(h.accepted + AcceptedNow(s, e))
  {
    InFlightAfterControl(s, e);
    DistinctExtends(h.accepted, AcceptedNow(s, e));
  }

  lemma CompletionKeptByWorker(n: Node, e: Event)
    requires Base(n) && CompletionOk(n) && Enabled(n, e) && e.WorkerEvent?
    ensures CompletionOk(Next(n, e))
  {
    InFlightAfterWorker(n.s, e.choice);
    assert n.h.accepted + AcceptedNow(n.s, e) == n.h.accepted;
    Reassociated(n.h.completed, CompletedNow(n.s, e), InFlight(Step(n.s, e)));
  }

  lemma Reassociated<T>(a: seq<T>, b: seq<T>, c: seq<T>)
    ensures a + b + c == a + (b + c)
  {
  }

  lemma CompletionKept(n: Node, e: Event)
    requires Base(n) && CompletionOk(n) && Enabled(n, e)
    ensures CompletionOk(Next(n, e))
  {
    if e.WorkerEvent? {
      CompletionKeptByWorker(n, e);
    } else {
      EnabledIsLawful(n, e);
      CompletionKeptByControl(n.s, n.h, e);
      assert n.h.completed + CompletedNow(n.s, e) == n.h.completed;
    }
  }
}
