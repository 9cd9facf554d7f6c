/** What a completion reports, and what may be fetched, is what the execution did. */
module Outcomes {
  import opened Options
  import opened Engine
  import opened Protocol
  import opened History
  import opened Invariants
  import opened Transactions
  import opened Soundness

  predicate LastIs(log: seq<Exec>, id: Id, code: int) {
    log != [] && log[|log| - 1].id == id && log[|log| - 1].code == code
  }

  /** Until a failed worker has been recorded, the current operation's outcome is the last entry of the log. */
  predicate OutcomeOk(n: Node) {
    var (s, log) := (n.s, n.h.log);
    && (s.worker.Publishing? || s.worker.Completing? ==> LastIs(log, s.worker.job.id, s.worker.code))
    && (s.op.busy && s.op.ready && (s.worker.Failing? || !IsExit(s.worker)) ==> LastIs(log, s.op.id, s.op.error))
    && (s.fetch.active ==> LastIs(log, s.op.id, 0))
    && (s.worker.CompletingFailed? && s.worker.failed.Some? ==>
          forall i :: 0 <= i < |log| ==> log[i].id != s.worker.failed.value.id)
  }

  lemma OutcomeKeptByCallers(n: Node, e: Event)
    requires Base(n) && OutcomeOk(n) && Enabled(n, e) && !e.WorkerEvent?
    ensures OutcomeOk(Node(Step(n.s, e), n.h))
  {
  }

  lemma OutcomeKeptByWorker(n: Node, c: Choice)
    requires Base(n) && LogOk(n) && OutcomeOk(n) && CanWork(n.s) && !n.s.worker.Executing?
    ensures OutcomeOk(Node(WorkerStep(n.s, c), n.h))
  {
  }

  lemma OutcomeKept(n: Node, e: Event)
    requires Base(n) && LogOk(n) && OutcomeOk(n) && Enabled(n, e)
    ensures OutcomeOk(Next(n, e))
  {
    if !e.WorkerEvent? {
      OutcomeKeptByCallers(n, e);
    } else if !n.s.worker.Executing? {
      OutcomeKeptByWorker(n, e.choice);
    }
  }

  lemma {:induction false} OutcomeAlong(n: Node, es: seq<Event>)
    requires Sound(n) && OutcomeOk(n) && Runs(n, es)
    ensures OutcomeOk(After(n, es))
    decreases |es|
  {
    if es != [] {
      SoundKept(n, es[0]);
      OutcomeKept(n, es[0]);
      OutcomeAlong(Next(n, es[0]), es[1..]);
    }
  }

  /** The code a completion carries is the code of the job's own execution; a job failed unexecuted never ran. */
  lemma CompletionReportsExecution(es: seq<Event>)
    requires Runs(FRESH_NODE, es)
    ensures var n := After(FRESH_NODE, es);
      && (n.s.worker.Completing? ==> LastIs(n.h.log, n.s.worker.job.id, n.s.worker.code))
      && (n.s.worker.CompletingFailed? && n.s.worker.failed.Some? ==>
            forall i :: 0 <= i < |n.h.log| ==> n.h.log[i].id != n.s.worker.failed.value.id)
  {
    FreshIsSound();
    OutcomeAlong(FRESH_NODE, es);
  }

  /** Only the result of a successful execution can be fetched, and it stays that one while it is. */
  lemma OnlySuccessIsFetched(es: seq<Event>, id: Id)
    requires Runs(FRESH_NODE, es)
    ensures var n := After(FRESH_NODE, es);
      && (CanFetchBegin(n.s, id) ==> LastIs(n.h.log, id, 0))
      && (n.s.fetch.active ==> LastIs(n.h.log, n.s.op.id, 0))
  {
    FreshIsSound();
    SoundAlong(FRESH_NODE, es);
    OutcomeAlong(FRESH_NODE, es);
    FetchableSucceeded(After(FRESH_NODE, es), id);
  }

  lemma FetchableSucceeded(n: Node, id: Id)
    requires Base(n) && OutcomeOk(n)
    ensures CanFetchBegin(n.s, id) ==> LastIs(n.h.log, id, 0)
  {
  }
}
