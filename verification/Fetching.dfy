/** Fetch safety: while a cursor holds the fetch lease, nobody else touches what it reads. */
module Fetching {
  import opened Options
  import opened Engine
  import opened Protocol
  import opened History
  import opened Invariants
  import opened Soundness

  /** The holder's own steps. */
  predicate ByFetcher(e: Event) {
    e.FetchNextEvent? || e.FetchUnreadEvent? || e.FetchDropEvent? || e.FetchEndEvent?
  }

  /** Result, unread row, statement, position, cursor, connection and transaction are as they were. */
  predicate Unmoved(s: Session, t: Session) {
    t.held == s.held && t.fetch == s.fetch && t.link == s.link && t.lease.id == s.lease.id && t.op.id == s.op.id
  }

  lemma OthersLeaveFetchAlone(n: Node, e: Event)
    requires Sound(n) && n.s.fetch.active && Enabled(n, e) && !ByFetcher(e)
    ensures Unmoved(n.s, Next(n, e).s)
    ensures Next(n, e).h.accepted == n.h.accepted && Next(n, e).h.reservedUnder == n.h.reservedUnder
    ensures Next(n, e).h.destroyed == n.h.destroyed && Next(n, e).h.log == n.h.log
  {
    FetchingWorkerIsElsewhere(n.s);
  }

  /** The worker is before a pass or after its last wait, never inside either. */
  lemma FetchingWorkerIsElsewhere(s: Session)
    requires Shape(s) && s.fetch.active
    ensures !IsPass(s.worker) && !s.worker.Executing? && !s.worker.Publishing? && !IsFinal(s.worker)
    ensures s.pending.None? && s.op.busy && s.op.ready && s.held.result.Some? && s.link.open
    ensures !(s.worker.Waiting? && CanWork(s)) && !(s.worker.Draining? && CanWork(s))
  {
  }

  predicate NoFetcherStep(es: seq<Event>) {
    forall i :: 0 <= i < |es| ==> !ByFetcher(es[i])
  }

  /** However long the holder waits, whatever the others do, including a failing worker. */
  lemma {:induction false} FetchLeaseIsExclusive(n: Node, es: seq<Event>)
    requires Sound(n) && n.s.fetch.active && Runs(n, es) && NoFetcherStep(es)
    ensures Unmoved(n.s, After(n, es).s)
    ensures After(n, es).h.accepted == n.h.accepted && After(n, es).h.destroyed == n.h.destroyed
    decreases |es|
  {
    if es != [] {
      SoundKept(n, es[0]);
      OthersLeaveFetchAlone(n, es[0]);
      FetchLeaseIsExclusive(Next(n, es[0]), es[1..]);
    }
  }

  /** The holder can always go on: its next row can be asked for, and its lease can be given back. */
  lemma HolderIsNeverStuck(n: Node)
    requires Sound(n) && n.s.fetch.active
    ensures n.s.fetch.cursor.Open? ==>
              CanFetchRow(n.s) && Possible(n.s, FetchDropEvent) && Possible(FetchDrop(n.s), FetchEndEvent)
    ensures !n.s.fetch.cursor.Open? ==> Possible(n.s, FetchEndEvent)
  {
  }
}
