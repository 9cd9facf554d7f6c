/** Streaming neither loses nor duplicates a row, in every interleaving with the rest of the protocol. */
module Streaming {
  import opened Options
  import opened Engine
  import opened Protocol
  import opened History
  import opened Invariants

  predicate Prefixes(produced: map<Id, seq<Row>>, received: map<Id, seq<Row>>, lost: set<Id>) {
    forall op :: op in received ==> op in produced && (op !in lost ==> received[op] <= produced[op])
  }

  /** A held row is the engine's one tuple buffer, so it must still hold that row. */
  predicate Positioned(s: Session, r: ResultSet, produced: map<Id, seq<Row>>, received: map<Id, seq<Row>>, lost: set<Id>) {
    var row := s.fetch.cursor.Open? && s.fetch.cursor.row;
    && r.op in produced && r.rows == produced[r.op] && r.next <= |r.rows|
    && r.op in received && |received[r.op]| == s.held.rowsRead
    && (r.op !in lost ==>
          s.held.rowsRead + (if s.held.unread then 1 else 0) == r.next && received[r.op] == r.rows[..s.held.rowsRead])
    && (row ==> s.held.rowsRead > 0 && r.next > 0 && received[r.op][s.held.rowsRead - 1] == r.rows[r.next - 1])
    && (s.held.unread || row ==> r.next > 0 && r.buffer == Some(r.rows[r.next - 1]))
    && !(s.held.unread && row)
  }

  predicate PositionedIfHeld(s: Session, produced: map<Id, seq<Row>>, received: map<Id, seq<Row>>, lost: set<Id>) {
    s.held.result.Some? && !IsFinal(s.worker) ==> Positioned(s, s.held.result.value, produced, received, lost)
  }

  /** Invariant, part 6. */
  predicate StreamOk(n: Node) {
    && Prefixes(n.h.produced, n.h.received, n.h.lost)
    && PositionedIfHeld(n.s, n.h.produced, n.h.received, n.h.lost)
  }

  lemma StreamKeptByNext(n: Node, e: Event)
    requires Base(n) && StreamOk(n) && Enabled(n, e) && e.FetchNextEvent?
    ensures var t := Step(n.s, e);
      var (received, lost) := (ReceivedAfter(n.h.received, n.s, e), LostAfter(n.h.lost, n.s, e));
      && Prefixes(n.h.produced, received, lost)
      && PositionedIfHeld(t, n.h.produced, received, lost)
  {
  }

  lemma StreamKeptByFetch(n: Node, e: Event)
    requires Base(n) && StreamOk(n) && Enabled(n, e) && IsFetch(e) && !e.FetchNextEvent?
    ensures var t := Step(n.s, e);
      var (received, lost) := (ReceivedAfter(n.h.received, n.s, e), LostAfter(n.h.lost, n.s, e));
      && Prefixes(n.h.produced, received, lost)
      && PositionedIfHeld(t, n.h.produced, received, lost)
  {
  }

  lemma StreamKeptByPublish(n: Node, c: Choice)
    requires Base(n) && StreamOk(n) && n.s.worker.Publishing?
    ensures var t := WorkerStep(n.s, c);
      var e := WorkerEvent(c);
      var produced := ProducedAfter(n.h.produced, n.s, e);
      var (received, lost) := (ReceivedAfter(n.h.received, n.s, e), LostAfter(n.h.lost, n.s, e));
      && Prefixes(produced, received, lost)
      && PositionedIfHeld(t, produced, received, lost)
  {
  }

  lemma StreamKeptByFinal(s: Session, c: Choice, produced: map<Id, seq<Row>>, received: map<Id, seq<Row>>, lost: set<Id>)
    requires Shape(s) && CanWork(s) && (IsExit(s.worker) || IsPass(s.worker))
    requires PositionedIfHeld(s, produced, received, lost)
    ensures PositionedIfHeld(WorkerStep(s, c), produced, received, lost)
  {
  }

  lemma StreamKeptByWorker(n: Node, c: Choice)
    requires Base(n) && StreamOk(n) && CanWork(n.s) && !n.s.worker.Publishing?
    ensures var t := WorkerStep(n.s, c);
      var e := WorkerEvent(c);
      var produced := ProducedAfter(n.h.produced, n.s, e);
      var (received, lost) := (ReceivedAfter(n.h.received, n.s, e), LostAfter(n.h.lost, n.s, e));
      && Prefixes(produced, received, lost)
      && PositionedIfHeld(t, produced, received, lost)
  {
    if IsExit(n.s.worker) || IsPass(n.s.worker) {
      StreamKeptByFinal(n.s, c, n.h.produced, n.h.received, n.h.lost);
    }
  }

  lemma StreamKeptByControl(n: Node, e: Event)
    requires StreamOk(n) && Enabled(n, e) && !IsFetch(e) && !e.WorkerEvent?
    ensures StreamOk(Next(n, e))
  {
  }

  lemma StreamKept(n: Node, e: Event)
    requires Base(n) && StreamOk(n) && Enabled(n, e)
    ensures StreamOk(Next(n, e))
  {
    if e.WorkerEvent? && n.s.worker.Publishing? {
      StreamKeptByPublish(n, e.choice);
    } else if e.WorkerEvent? {
      StreamKeptByWorker(n, e.choice);
    } else if e.FetchNextEvent? {
      StreamKeptByNext(n, e);
    } else if IsFetch(e) {
      StreamKeptByFetch(n, e);
    } else {
      StreamKeptByControl(n, e);
    }
  }

  /**
   Rows received are a prefix of the result, in order, and an end of rows is the true end, unless a
   throwing engine swallowed a row of this very result.  In any case the position is the number of rows
   received, and a held row's tuple buffer still holds that row.
   */
  predicate Streamed(n: Node, op: Id) {
    && (op in n.h.received ==> op in n.h.produced && (op !in n.h.lost ==> n.h.received[op] <= n.h.produced[op]))
    && (n.s.fetch.cursor.Open? && n.s.fetch.cursor.op == op ==> AtCursor(n, op))
  }

  predicate AtCursor(n: Node, op: Id) {
    && CanFetchRow(n.s) && op in n.h.received && op in n.h.produced
    && |n.h.received[op]| == n.s.held.rowsRead
    && (op !in n.h.lost ==> (FetchNextCode(n.s, false) == 0 <==> n.h.received[op] == n.h.produced[op]))
    && (n.s.fetch.cursor.row ==>
          n.s.held.rowsRead > 0 && n.s.held.result.value.buffer == Some(n.h.received[op][n.s.held.rowsRead - 1]))
  }

  lemma StreamedNow(n: Node, op: Id)
    requires Base(n) && StreamOk(n)
    ensures Streamed(n, op)
  {
  }
}
