/**
 Every answer of a session's entry points, in every run, from what callers have been told before:
 the reservations, leases, submissions, completions and requests of the run and nothing else.  Each
 statement is an equivalence, so no entry refuses what it owes, and none grants what it must not.
 */
module Answers {
  import opened Options
  import opened Engine
  import opened Protocol
  import opened History
  import opened Invariants
  import opened Transactions
  import opened Streaming
  import opened Soundness
  import opened Outcomes
  import opened Requests
  import opened Submissions
  import opened Annals

  /** Reserved and not given up by the worker since. */
  predicate Current(n: Node, a: Annals, id: Id) {
    id in n.h.reservedUnder && id !in a.cleared
  }

  predicate NoneCurrent(n: Node, a: Annals) {
    forall id :: id in n.h.reservedUnder ==> id in a.cleared
  }

  /** Granted and not taken back by the worker since. */
  predicate Leased(a: Annals, lease: Id) {
    lease in a.acquired && lease !in a.gone
  }

  predicate NoneLeased(a: Annals) {
    forall lease :: lease in a.acquired ==> lease in a.gone
  }

  predicate Completed(n: Node, id: Id) {
    Reported(n.s, n.h.completed, id)
  }

  // -------------------------------------------------------------------------------------------
  // The public snapshot

  predicate StateExact(n: Node, a: Annals) {
    && State(n.s) in {0, 1, 2, 3, 4}
    && (State(n.s) == 3 <==> a.stopped)
    && (State(n.s) == 2 <==> !a.stopped && exists id :: id in n.h.reservedUnder && Current(n, a, id) && Completed(n, id))
    && (State(n.s) == 1 <==> !a.stopped && exists id :: id in n.h.reservedUnder && Current(n, a, id) && !Completed(n, id))
    && (State(n.s) == 4 <==> !a.stopped && NoneCurrent(n, a) && !NoneLeased(a))
    && (State(n.s) == 0 <==> !a.stopped && NoneCurrent(n, a) && NoneLeased(a))
  }

  // -------------------------------------------------------------------------------------------
  // Leases and reservations

  predicate LeaseAnswersExact(n: Node, a: Annals, lease: Id) {
    && (CanAcquireLease(n.s, lease) <==> lease != 0 && State(n.s) == 0)
    && (CanReleaseLease(n.s, lease) <==> Leased(a, lease))
  }

  /** Free and unleased for an ordinary operation; leased, not released and without a failure for a leased one. */
  predicate ReserveExact(n: Node, a: Annals, lease: Id) {
    CanReserve(n.s, lease) <==>
      if lease == 0 then State(n.s) == 0
      else State(n.s) == 4 && Leased(a, lease) && lease !in a.released && !HasFailure(n.h.log, lease)
  }

  // -------------------------------------------------------------------------------------------
  // Operations

  /** The worker holds the operation's job and has not published its outcome. */
  predicate Running(s: Session, id: Id) {
    (s.worker.Executing? || s.worker.Publishing?) && s.worker.job.id == id
  }

  /**
   A reservation is usable until somebody asks for its end.  After its first submission a query is still
   taken while the job runs, the gap that the hypothesis of one submission closes.
   */
  predicate SubmitExact(n: Node, a: Annals, id: Id) {
    var wanted := !a.stopped && Current(n, a, id) && id !in n.h.requested;
    && (CanSubmit(n.s, id) <==> wanted && (id !in n.h.accepted || Running(n.s, id)))
    && (id != 0 && id !in n.h.accepted ==> (CanSubmitControl(n.s, id) <==> wanted))
  }

  predicate EndExact(n: Node, a: Annals, id: Id) {
    && (CanCancel(n.s, id) <==> Current(n, a, id))
    && (CanFinish(n.s, id) <==> Current(n, a, id) && (Completed(n, id) || HasFailed(n.s)))
  }

  /** A delivered success of a query that nobody dismissed, and only that, can be fetched, by one at a time. */
  predicate FetchExact(n: Node, a: Annals, id: Id) {
    CanFetchBegin(n.s, id) <==>
      && !a.stopped && Current(n, a, id) && Completed(n, id) && id !in a.dismissed
      && LastIs(n.h.log, id, 0) && LastIsQuery(n.h.log) && !n.s.fetch.active
  }

  /** Nothing is given up that nobody dismissed, and no lease that its owner did not release. */
  predicate NothingUnasked(n: Node, a: Annals) {
    && a.cleared <= a.dismissed
    && a.gone <= a.released
    && (forall id :: id in n.h.reservedUnder && id !in a.dismissed ==> Current(n, a, id))
    && (forall lease :: lease in a.acquired && lease !in a.released ==> Leased(a, lease))
  }

  // -------------------------------------------------------------------------------------------
  // The proofs

  ghost predicate Known(n: Node, a: Annals) {
    Sound(n) && NotesOk(n, a) && RequestOk(n) && AcceptedOk(n)
  }

  lemma KnownAlong(es: seq<Event>)
    requires Runs(FRESH_NODE, es)
    ensures Known(After(FRESH_NODE, es), NotesAfter(FRESH_NODE, es, FRESH_ANNALS))
  {
    FreshIsSound();
    SoundAlong(FRESH_NODE, es);
    NotesAlong(FRESH_NODE, es, FRESH_ANNALS);
    RequestAlong(FRESH_NODE, es);
    AcceptedAlong(FRESH_NODE, es);
  }

  /** The session's own identity is the current operation, and its lease the one granted. */
  lemma HolderKnown(n: Node, a: Annals, id: Id, lease: Id)
    requires Base(n) && HolderNotes(n, a)
    ensures Current(n, a, id) <==> n.s.op.busy && n.s.op.id == id
    ensures Leased(a, lease) <==> lease != 0 && n.s.lease.id == lease
    ensures NoneCurrent(n, a) <==> !n.s.op.busy
    ensures NoneLeased(a) <==> n.s.lease.id == 0
  {
    if n.s.op.busy {
      assert n.s.op.id in n.h.reservedUnder && n.s.op.id !in a.cleared;
    }
    if n.s.lease.id != 0 {
      assert n.s.lease.id in a.acquired && n.s.lease.id !in a.gone;
    }
  }

  lemma StateIsExact(n: Node, a: Annals)
    requires Base(n) && HolderNotes(n, a)
    ensures StateExact(n, a)
  {
    HolderKnown(n, a, n.s.op.id, n.s.lease.id);
    forall id | id in n.h.reservedUnder ensures Current(n, a, id) ==> id == n.s.op.id {
      HolderKnown(n, a, id, 0);
    }
  }

  lemma LeaseAnswersAreExact(n: Node, a: Annals, lease: Id)
    requires Base(n) && HolderNotes(n, a)
    ensures LeaseAnswersExact(n, a, lease)
  {
    HolderKnown(n, a, 0, lease);
  }

  lemma ReserveIsExact(n: Node, a: Annals, lease: Id)
    requires Base(n) && LogOk(n) && HolderNotes(n, a) && FailureNotes(n.s, n.h.log)
    ensures ReserveExact(n, a, lease)
  {
    HolderKnown(n, a, 0, lease);
    if State(n.s) == 4 && lease == n.s.lease.id && HasFailure(n.h.log, lease) {
      var i :| 0 <= i < |n.h.log| && n.h.log[i].lease == lease && n.h.log[i].code != 0;
      assert Poisoned(n.s);
    }
  }

  lemma SubmitIsExact(n: Node, a: Annals, id: Id)
    requires Base(n) && HolderNotes(n, a) && RequestOk(n) && AcceptedOk(n)
    ensures SubmitExact(n, a, id)
  {
    HolderKnown(n, a, id, 0);
  }

  lemma EndIsExact(n: Node, a: Annals, id: Id)
    requires Base(n) && HolderNotes(n, a)
    ensures EndExact(n, a, id)
  {
    HolderKnown(n, a, id, 0);
  }

  lemma FetchIsExact(n: Node, a: Annals, id: Id)
    requires Base(n) && HolderNotes(n, a) && OutcomeOk(n) && ResultNotes(n.s, n.h.log)
    ensures FetchExact(n, a, id)
  {
    HolderKnown(n, a, id, 0);
  }

  /** In every run the public state is exactly what the calls and completions so far make it. */
  lemma StateInEveryRun(es: seq<Event>)
    requires Runs(FRESH_NODE, es)
    ensures StateExact(After(FRESH_NODE, es), NotesAfter(FRESH_NODE, es, FRESH_ANNALS))
  {
    KnownAlong(es);
    StateIsExact(After(FRESH_NODE, es), NotesAfter(FRESH_NODE, es, FRESH_ANNALS));
  }

  /** In every run a lease is granted, and taken back from its owner, exactly when it must be. */
  lemma LeaseAnswersInEveryRun(es: seq<Event>, lease: Id)
    requires Runs(FRESH_NODE, es)
    ensures LeaseAnswersExact(After(FRESH_NODE, es), NotesAfter(FRESH_NODE, es, FRESH_ANNALS), lease)
  {
    KnownAlong(es);
    LeaseAnswersAreExact(After(FRESH_NODE, es), NotesAfter(FRESH_NODE, es, FRESH_ANNALS), lease);
  }

  /** In every run a reservation succeeds exactly on a free session, or under a healthy lease of its own. */
  lemma ReserveInEveryRun(es: seq<Event>, lease: Id)
    requires Runs(FRESH_NODE, es)
    ensures ReserveExact(After(FRESH_NODE, es), NotesAfter(FRESH_NODE, es, FRESH_ANNALS), lease)
  {
    KnownAlong(es);
    ReserveIsExact(After(FRESH_NODE, es), NotesAfter(FRESH_NODE, es, FRESH_ANNALS), lease);
  }

  /** In every run a submission is accepted exactly for an unused reservation whose end nobody requested. */
  lemma SubmitInEveryRun(es: seq<Event>, id: Id)
    requires Runs(FRESH_NODE, es)
    ensures SubmitExact(After(FRESH_NODE, es), NotesAfter(FRESH_NODE, es, FRESH_ANNALS), id)
  {
    KnownAlong(es);
    SubmitIsExact(After(FRESH_NODE, es), NotesAfter(FRESH_NODE, es, FRESH_ANNALS), id);
  }

  /** In every run cancel and finish are effective exactly for the current operation, finish once it is completed. */
  lemma EndInEveryRun(es: seq<Event>, id: Id)
    requires Runs(FRESH_NODE, es)
    ensures EndExact(After(FRESH_NODE, es), NotesAfter(FRESH_NODE, es, FRESH_ANNALS), id)
  {
    KnownAlong(es);
    EndIsExact(After(FRESH_NODE, es), NotesAfter(FRESH_NODE, es, FRESH_ANNALS), id);
  }

  /** In every run a fetch begins exactly for a delivered success that nobody dismissed and nobody is fetching. */
  lemma FetchInEveryRun(es: seq<Event>, id: Id)
    requires Runs(FRESH_NODE, es)
    ensures FetchExact(After(FRESH_NODE, es), NotesAfter(FRESH_NODE, es, FRESH_ANNALS), id)
  {
    KnownAlong(es);
    FetchIsExact(After(FRESH_NODE, es), NotesAfter(FRESH_NODE, es, FRESH_ANNALS), id);
  }

  /** In every run the worker gives up only what was dismissed, and takes back only what was released. */
  lemma NothingUnaskedInEveryRun(es: seq<Event>)
    requires Runs(FRESH_NODE, es)
    ensures NothingUnasked(After(FRESH_NODE, es), NotesAfter(FRESH_NODE, es, FRESH_ANNALS))
  {
    KnownAlong(es);
  }

  // -------------------------------------------------------------------------------------------
  // Fetching row by row

  /** The three answers of a fetch: -1 the engine threw, 1 one more row, 0 the true end. */
  predicate NextExact(n: Node, fault: bool, lost: bool)
    requires CanFetchRow(n.s)
  {
    var (s, op) := (n.s, n.s.fetch.cursor.op);
    var e := FetchNextEvent(fault, lost);
    var (t, received) := (FetchNext(s, fault, lost), ReceivedAfter(n.h.received, n.s, e));
    var code := FetchNextCode(s, fault);
    && op in n.h.received && op in n.h.produced && op in received
    && (code == -1 <==> fault && !s.held.unread)
    && (code == 1 <==> t.fetch.cursor.Open? && t.fetch.cursor.row)
    && (code == 1 ==> |received[op]| == |n.h.received[op]| + 1 && received[op][..|n.h.received[op]|] == n.h.received[op])
    && (code == 1 && op !in n.h.lost ==>
          |received[op]| <= |n.h.produced[op]| && received[op] == n.h.produced[op][..|received[op]|])
    && (code != 1 ==> received[op] == n.h.received[op])
    && (code == 0 ==> !fault && (op !in n.h.lost ==> n.h.received[op] == n.h.produced[op]))
    && (!fault && op !in n.h.lost && n.h.received[op] == n.h.produced[op] ==> code == 0)
    && (code in {-1, 0, 1})
  }

  /** A row can be pushed back exactly while the cursor holds one, and comes again as the next. */
  predicate UnreadExact(n: Node)
    requires n.s.fetch.cursor.Open?
  {
    && (CanFetchUnread(n.s) <==> n.s.fetch.cursor.row)
    && (n.s.fetch.cursor.row ==>
          var t := FetchUnread(n.s);
          t.held.unread && t.held.rowsRead + 1 == n.s.held.rowsRead && !t.fetch.cursor.row &&
          CanFetchRow(t) && FetchNextCode(t, true) == 1 && FetchNext(t, true, true).held == n.s.held)
  }

  lemma NextIsExact(n: Node, fault: bool, lost: bool)
    requires Base(n) && StreamOk(n) && CanFetchRow(n.s)
    ensures NextExact(n, fault, lost)
  {
  }

  lemma UnreadIsExact(n: Node)
    requires Base(n) && StreamOk(n) && n.s.fetch.cursor.Open?
    ensures UnreadExact(n)
  {
  }

  /** In every run, whatever the engine does, each fetch answers exactly that, and so does each push-back. */
  lemma FetchingInEveryRun(es: seq<Event>, fault: bool, lost: bool)
    requires Runs(FRESH_NODE, es) && After(FRESH_NODE, es).s.fetch.cursor.Open?
    ensures CanFetchRow(After(FRESH_NODE, es).s)
    ensures NextExact(After(FRESH_NODE, es), fault, lost)
    ensures UnreadExact(After(FRESH_NODE, es))
  {
    KnownAlong(es);
    NextIsExact(After(FRESH_NODE, es), fault, lost);
    UnreadIsExact(After(FRESH_NODE, es));
  }

  /** In every run a result once reported to be at its end was received whole, unless the engine lost a row of it. */
  lemma EndIsTrueInEveryRun(es: seq<Event>, op: Id)
    requires Runs(FRESH_NODE, es)
    ensures var (h, a) := (After(FRESH_NODE, es).h, NotesAfter(FRESH_NODE, es, FRESH_ANNALS));
      op in a.ended && op in h.received && op !in h.lost ==> op in h.produced && h.received[op] == h.produced[op]
  {
    KnownAlong(es);
  }
}
