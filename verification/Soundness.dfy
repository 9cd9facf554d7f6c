/** The whole invariant, kept by every step and so true along every run. */
module Soundness {
  import opened Options
  import opened Engine
  import opened Protocol
  import opened History
  import opened Invariants
  import opened Transactions
  import opened Completions
  import opened Destruction
  import opened Streaming

  ghost predicate Sound(n: Node) {
    Base(n) && LogOk(n) && CompletionOk(n) && DestructionOk(n) && StreamOk(n)
  }

  lemma FreshIsSound()
    ensures Sound(FRESH_NODE)
  {
    FreshIsLawful();
    FreshIsConserved();
  }

  lemma FreshIsLawful()
    ensures Base(FRESH_NODE) && LogOk(FRESH_NODE) && CompletionOk(FRESH_NODE)
  {
  }

  lemma FreshIsConserved()
    ensures DestructionOk(FRESH_NODE) && StreamOk(FRESH_NODE)
  {
  }

  lemma SoundKept(n: Node, e: Event)
    requires Sound(n) && Enabled(n, e)
    ensures Sound(Next(n, e))
  {
    BaseKept(n, e);
    LogKept(n, e);
    CompletionKept(n, e);
    DestructionKept(n, e);
    StreamKept(n, e);
  }

  lemma {:induction false} SoundAlong(n: Node, es: seq<Event>)
    requires Sound(n) && Runs(n, es)
    ensures Sound(After(n, es))
    decreases |es|
  {
    if es != [] {
      SoundKept(n, es[0]);
      SoundAlong(Next(n, es[0]), es[1..]);
    }
  }

  // -------------------------------------------------------------------------------------------
  // What every run of a fresh session guarantees

  /** Completions are a prefix of the accepted submissions, each once; at exit none is missing. */
  lemma ExactlyOnceCompletion(es: seq<Event>)
    requires Runs(FRESH_NODE, es)
    ensures var n := After(FRESH_NODE, es);
      && n.h.completed <= n.h.accepted
      && Distinct(n.h.completed)
      && |n.h.accepted| <= |n.h.completed| + 1
      && (n.s.worker.Exited? ==> n.h.completed == n.h.accepted)
  {
    FreshIsSound();
    SoundAlong(FRESH_NODE, es);
    var n := After(FRESH_NODE, es);
    assert n.h.accepted == n.h.completed + InFlight(n.s);
    forall i, j | 0 <= i < j < |n.h.completed| ensures n.h.completed[i] != n.h.completed[j] {
      assert n.h.accepted[i] == n.h.completed[i] && n.h.accepted[j] == n.h.completed[j];
    }
  }

  /** Jobs of one lease: all succeed except possibly the last, so a commit follows successes only. */
  lemma FailedLeaseHistory(es: seq<Event>, i: nat, j: nat)
    requires Runs(FRESH_NODE, es)
    requires i < j < |After(FRESH_NODE, es).h.log|
    ensures var log := After(FRESH_NODE, es).h.log;
      log[i].lease == log[j].lease && log[j].lease != 0 ==> log[i].code == 0
  {
    FreshIsSound();
    SoundAlong(FRESH_NODE, es);
  }

  /** The unlocked lease read sees the lease the job was reserved under; a transaction needs a lease. */
  lemma LeaseReadIsReservation(es: seq<Event>)
    requires Runs(FRESH_NODE, es)
    ensures var n := After(FRESH_NODE, es);
      && (n.s.link.transaction.Some? ==> n.s.lease.id != 0)
      && (n.s.worker.Executing? ==>
            n.s.worker.job.id in n.h.reservedUnder && n.s.lease.id == n.h.reservedUnder[n.s.worker.job.id])
      && (forall i :: 0 <= i < |n.h.log| ==>
            n.h.log[i].id in n.h.reservedUnder && n.h.log[i].lease == n.h.reservedUnder[n.h.log[i].id])
  {
    FreshIsSound();
    SoundAlong(FRESH_NODE, es);
  }

  /** Children are destroyed before parents, each at most once; at exit nothing created is left. */
  lemma DestroyedOnceInOrder(es: seq<Event>)
    requires Runs(FRESH_NODE, es)
    ensures var n := After(FRESH_NODE, es);
      && Ordered(n.h.destroyed)
      && (n.s.worker.Exited? ==> multiset(n.h.destroyed) == multiset(n.h.created))
  {
    FreshIsSound();
    SoundAlong(FRESH_NODE, es);
    var n := After(FRESH_NODE, es);
    if n.s.worker.Exited? {
      forall r: Resource ensures multiset(n.h.destroyed)[r] == multiset(n.h.created)[r] {
        assert Count(n.h.created, r) == Count(n.h.destroyed, r) + LiveCount(n.s, r);
      }
    }
  }

  /** The controller interrupts only an operation that was asked to end while it held the session. */
  lemma {:induction false} InterruptsWereRequested(n: Node, es: seq<Event>)
    requires Sound(n) && Runs(n, es)
    requires forall id :: id in n.h.interrupted ==> id in n.h.requested
    ensures forall id :: id in After(n, es).h.interrupted ==> id in After(n, es).h.requested
    ensures forall id :: id in n.h.requested ==> id in After(n, es).h.requested
    decreases |es|
  {
    if es != [] {
      var m := Next(n, es[0]);
      SoundKept(n, es[0]);
      InterruptTargets(n, es[0]);
      InterruptsWereRequested(m, es[1..]);
    }
  }

  lemma InterruptTargets(n: Node, e: Event)
    requires Base(n) && Enabled(n, e)
    requires forall id :: id in n.h.interrupted ==> id in n.h.requested
    ensures forall id :: id in Next(n, e).h.interrupted ==> id in Next(n, e).h.requested
    ensures forall id :: id in n.h.requested ==> id in Next(n, e).h.requested
  {
  }

  /** A connection that is interrupted still belongs to the session: it has not been handed off or destroyed. */
  lemma InterruptedConnectionIsAlive(es: seq<Event>)
    requires Runs(FRESH_NODE, es) && Interrupts(After(FRESH_NODE, es).s)
    ensures var n := After(FRESH_NODE, es);
      n.s.link.open && TheConnection !in n.h.destroyed && !n.s.worker.DroppingConnection? && !n.s.worker.Exited?
  {
    FreshIsSound();
    SoundAlong(FRESH_NODE, es);
  }

  /** In every run and for every operation, rows arrive as Streamed says. */
  lemma StreamedRowsArePrefix(es: seq<Event>, op: Id)
    requires Runs(FRESH_NODE, es)
    ensures Streamed(After(FRESH_NODE, es), op)
  {
    FreshIsSound();
    SoundAlong(FRESH_NODE, es);
    StreamedNow(After(FRESH_NODE, es), op);
  }
}
