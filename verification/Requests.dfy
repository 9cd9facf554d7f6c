/** What was once requested stands: a cancellation until the operation ends, a discard for good. */
module Requests {
  import opened Options
  import opened Protocol
  import opened History
  import opened Invariants
  import opened Soundness

  /** A request made while an operation held the session is still visible while it does. */
  predicate RequestOk(n: Node) {
    && (n.s.op.busy && n.s.op.id in n.h.requested ==> n.s.op.cancel || n.s.stop)
    && (forall id :: id in n.h.requested ==> id == 0 || id in n.h.used)
  }

  lemma RequestKeptByWorker(n: Node, e: Event)
    requires Base(n) && RequestOk(n) && Enabled(n, e) && e.WorkerEvent?
    ensures RequestOk(Next(n, e))
  {
  }

  lemma RequestKept(n: Node, e: Event)
    requires Base(n) && RequestOk(n) && Enabled(n, e)
    ensures RequestOk(Next(n, e))
  {
    if e.WorkerEvent? {
      RequestKeptByWorker(n, e);
    }
  }

  lemma {:induction false} RequestAlong(n: Node, es: seq<Event>)
    requires Sound(n) && RequestOk(n) && Runs(n, es)
    ensures RequestOk(After(n, es))
    decreases |es|
  {
    if es != [] {
      SoundKept(n, es[0]);
      RequestKept(n, es[0]);
      RequestAlong(Next(n, es[0]), es[1..]);
    }
  }

  /**
   In every run the controller interrupts exactly the executing operations someone asked to end: none
   that nobody asked for, and none that was asked for is ever forgotten.
   */
  lemma InterruptsExactlyTheRequested(es: seq<Event>)
    requires Runs(FRESH_NODE, es)
    ensures var n := After(FRESH_NODE, es);
      Interrupts(n.s) <==> n.s.link.open && n.s.op.busy && !n.s.op.ready && n.s.op.id in n.h.requested
  {
    FreshIsSound();
    SoundAlong(FRESH_NODE, es);
    RequestAlong(FRESH_NODE, es);
  }

  // -------------------------------------------------------------------------------------------
  // A discarded result is never fetched again

  predicate Discarded(n: Node, id: Id) {
    id != 0 && id in n.h.used && (n.s.op.id == id ==> n.s.op.discard)
  }

  lemma DiscardTakesEffect(n: Node, e: Event, id: Id)
    requires Sound(n) && Enabled(n, e)
    requires (e == FinishEvent(id) && CanFinish(n.s, id)) || (e == CancelEvent(id, true) && CanCancel(n.s, id)) ||
             (e.ReleaseLeaseEvent? && CanReleaseLease(n.s, e.lease) && n.s.op.busy && n.s.op.id == id) ||
             (e.StopEvent? && n.s.op.busy && n.s.op.id == id)
    ensures Discarded(Next(n, e), id)
  {
  }

  lemma DiscardedKept(n: Node, e: Event, id: Id)
    requires Base(n) && Discarded(n, id) && Enabled(n, e)
    ensures Discarded(Next(n, e), id)
  {
  }

  /** After an effective finish, abandon, release or stop, no fetch of that result begins and no job is taken for it. */
  lemma {:induction false} DiscardIsFinal(n: Node, es: seq<Event>, id: Id)
    requires Sound(n) && Discarded(n, id) && Runs(n, es)
    ensures Discarded(After(n, es), id)
    ensures !CanFetchBegin(After(n, es).s, id) && !CanSubmit(After(n, es).s, id)
    decreases |es|
  {
    if es != [] {
      SoundKept(n, es[0]);
      DiscardedKept(n, es[0], id);
      DiscardIsFinal(Next(n, es[0]), es[1..], id);
    }
  }
}
