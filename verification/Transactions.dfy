/**
 Transaction atomicity.  What reaches the store is read off the execution log alone: an ordinary
 query that succeeded, or whose fault was durable all the same, contributes its own writes, a commit
 that took effect contributes every write its lease made since its last begin, and nothing else does.
 The machine, with its flags, its engine transaction and its concurrent releases, is proved to agree
 with that reading.
 */
module Transactions {
  import opened Options
  import opened Engine
  import opened Protocol
  import opened History
  import opened Invariants

  // -------------------------------------------------------------------------------------------
  // The declarative reading of a log

  /** All writes a lease has made since its last successful begin. */
  function Batch(log: seq<Exec>, lease: Id): seq<Write> {
    if log == [] then []
    else
      var e := log[|log| - 1];
      var before := Batch(log[..|log| - 1], lease);
      if e.lease != lease then before
      else if e.work == TransactionWork(Begin) && e.code == 0 then []
      else before + e.writes
  }

  /** What the last job of a log makes durable. */
  function Contribution(log: seq<Exec>): seq<Write>
    requires log != []
  {
    var e := log[|log| - 1];
    if e.lease == 0 then e.writes
    else if e.took then Batch(log[..|log| - 1], e.lease)
    else []
  }

  // -------------------------------------------------------------------------------------------
  // Invariant, part 3: the log

  predicate LogHistory(used: set<Id>, reserved: map<Id, Id>, accepted: seq<Id>, log: seq<Exec>) {
    && (forall i :: 0 <= i < |log| ==>
          log[i].id in accepted && log[i].id in reserved && reserved[log[i].id] == log[i].lease)
    && (forall i, j :: 0 <= i < j < |log| ==> log[i].id != log[j].id)
    && (forall i, j :: 0 <= i < j < |log| && log[i].lease == log[j].lease && log[j].lease != 0 ==> log[i].code == 0)
    && (forall i :: 0 <= i < |log| ==> log[i].lease == 0 || log[i].lease in used)
  }

  /** The current lease has seen a failure, perhaps not yet published. */
  predicate Poisoned(s: Session) {
    s.lease.failed || (s.worker.Publishing? && s.worker.code != 0)
  }

  predicate LogCurrent(s: Session, log: seq<Exec>) {
    && (s.pending.Some? ==> forall i :: 0 <= i < |log| ==> log[i].id != s.pending.value.id)
    && (s.worker.Executing? ==> forall i :: 0 <= i < |log| ==> log[i].id != s.worker.job.id)
    && (s.lease.id != 0 && !Poisoned(s) ==>
          forall i :: 0 <= i < |log| && log[i].lease == s.lease.id ==> log[i].code == 0)
    && (s.link.transaction.Some? && !Poisoned(s) ==> s.link.transaction.value == Batch(log, s.lease.id))
  }

  predicate LogOk(n: Node) {
    && LogHistory(n.h.used, n.h.reservedUnder, n.h.accepted, n.h.log)
    && LogCurrent(n.s, n.h.log)
  }

  predicate ExecutesNow(s: Session, e: Event) {
    e.WorkerEvent? && s.worker.Executing?
  }

  lemma LogHistoryKept(h: History, s: Session, e: Event)
    requires LogHistory(h.used, h.reservedUnder, h.accepted, h.log) && Possible(s, e) && Allowed(h, e)
    requires forall id :: id in h.reservedUnder ==> id in h.used
    ensures LogHistory(UsedAfter(h.used, e), ReservedAfter(h.reservedUnder, s, e),
                       h.accepted + AcceptedNow(s, e), h.log)
  {
  }

  lemma LogCurrentKeptByControl(n: Node, e: Event)
    requires Base(n) && LogOk(n) && Enabled(n, e) && !e.WorkerEvent?
    ensures LogCurrent(Step(n.s, e), n.h.log)
  {
  }

  lemma LogCurrentKeptByWorker(n: Node, c: Choice)
    requires Base(n) && LogOk(n) && CanWork(n.s) && !n.s.worker.Executing?
    ensures LogCurrent(WorkerStep(n.s, c), n.h.log)
  {
  }

  /** An execution finds its lease unpoisoned, and under a lease the transaction is the lease's batch. */
  lemma ExecutionStart(n: Node)
    requires Base(n) && LogOk(n) && n.s.worker.Executing?
    ensures !Poisoned(n.s)
    ensures n.s.lease.id == n.h.reservedUnder[n.s.worker.job.id]
    ensures n.s.link.transaction.Some? ==>
              n.s.lease.id != 0 && n.s.link.transaction.value == Batch(n.h.log, n.s.lease.id)
    ensures n.s.worker.job.work.TransactionWork? ==> n.s.lease.id != 0
  {
  }

  /** The heart of atomicity: one execution makes durable exactly what the log says it should. */
  lemma ExecutionContributes(n: Node, e: Event)
    requires Base(n) && LogOk(n) && Enabled(n, e) && ExecutesNow(n.s, e)
    ensures DurableNow(n.s, e) == Contribution(n.h.log + ExecutedNow(n.s, e))
  {
    ExecutionStart(n);
    var entry := ExecutedNow(n.s, e)[0];
    var log' := n.h.log + [entry];
    assert log'[..|log'| - 1] == n.h.log;
  }

  lemma LogCurrentKeptByExecution(n: Node, e: Event)
    requires Base(n) && LogOk(n) && Enabled(n, e) && ExecutesNow(n.s, e)
    ensures LogCurrent(Step(n.s, e), n.h.log + ExecutedNow(n.s, e))
  {
    ExecutionStart(n);
    var entry := ExecutedNow(n.s, e)[0];
    var log' := n.h.log + [entry];
    assert log'[..|log'| - 1] == n.h.log;
  }

  lemma LogHistoryExtended(n: Node, e: Event)
    requires Base(n) && LogOk(n) && Enabled(n, e) && ExecutesNow(n.s, e)
    ensures LogHistory(n.h.used, n.h.reservedUnder, n.h.accepted, n.h.log + ExecutedNow(n.s, e))
  {
    ExecutionStart(n);
  }

  lemma LogKept(n: Node, e: Event)
    requires Base(n) && LogOk(n) && Enabled(n, e)
    ensures LogOk(Next(n, e))
  {
    if ExecutesNow(n.s, e) {
      LogHistoryExtended(n, e);
      LogCurrentKeptByExecution(n, e);
    } else {
      LogHistoryKept(n.h, n.s, e);
      assert n.h.log + ExecutedNow(n.s, e) == n.h.log;
      if e.WorkerEvent? {
        LogCurrentKeptByWorker(n, e.choice);
      } else {
        LogCurrentKeptByControl(n, e);
      }
    }
  }
}
