/**
 Even an engine that loses rows when it throws cannot make the bridge reorder or repeat any: what a
 client has received is always a subsequence of the result.
 */
module Losses {
  import opened Options
  import opened Engine
  import opened Protocol
  import opened History
  import opened Invariants
  import opened Streaming
  import opened Soundness

  /** a is b with some rows left out. */
  predicate Subsequence(a: seq<Row>, b: seq<Row>)
    decreases |b|
  {
    if a == [] then true
    else if b == [] then false
    else
      var (m, k) := (|a| - 1, |b| - 1);
      Subsequence(a, b[..k]) || (a[m] == b[k] && Subsequence(a[..m], b[..k]))
  }

  lemma OneMoreRow(a: seq<Row>, b: seq<Row>, row: Row)
    requires Subsequence(a, b)
    ensures Subsequence(a, b + [row]) && Subsequence(a + [row], b + [row])
  {
    assert (b + [row])[..|b|] == b && (a + [row])[..|a|] == a;
  }

  lemma {:induction false} MoreRows(a: seq<Row>, b: seq<Row>, k: nat)
    requires k <= |b| && Subsequence(a, b[..k])
    ensures Subsequence(a, b)
    decreases |b|
  {
    if k == |b| {
      assert b[..k] == b;
    } else {
      assert b[..|b| - 1][..k] == b[..k];
      MoreRows(a, b[..|b| - 1], k);
      OneMoreRow(a, b[..|b| - 1], b[|b| - 1]);
      assert b[..|b| - 1] + [b[|b| - 1]] == b;
    }
  }

  /** Taking the last row back leaves a subsequence of what comes before the last one. */
  lemma {:induction false} OneRowLess(a: seq<Row>, b: seq<Row>)
    requires Subsequence(a, b) && a != []
    ensures b != [] && Subsequence(a[..|a| - 1], b[..|b| - 1])
    decreases |b|
  {
    var c := b[..|b| - 1];
    if Subsequence(a, c) {
      OneRowLess(a, c);
      OneMoreRow(a[..|a| - 1], c[..|c| - 1], c[|c| - 1]);
      assert c[..|c| - 1] + [c[|c| - 1]] == c;
    }
  }

  /** What the engine has handed out, except for a row pushed back. */
  function HandedOut(s: Session, r: ResultSet): seq<Row>
    requires r.next <= |r.rows| && (s.held.unread ==> r.next > 0)
  {
    r.rows[..if s.held.unread then r.next - 1 else r.next]
  }

  predicate InOrder(s: Session, r: ResultSet, received: map<Id, seq<Row>>) {
    && r.next <= |r.rows| && (s.held.unread ==> r.next > 0)
    && r.op in received && Subsequence(received[r.op], HandedOut(s, r))
  }

  predicate InOrderIfHeld(s: Session, received: map<Id, seq<Row>>) {
    s.held.result.Some? && !IsFinal(s.worker) ==> InOrder(s, s.held.result.value, received)
  }

  predicate Subsequences(produced: map<Id, seq<Row>>, received: map<Id, seq<Row>>) {
    forall op :: op in received ==> op in produced && Subsequence(received[op], produced[op])
  }

  predicate OrderOk(n: Node) {
    Subsequences(n.h.produced, n.h.received) && InOrderIfHeld(n.s, n.h.received)
  }

  /** One more row received, the next the engine has to give or the one pushed back. */
  lemma Delivered(received: seq<Row>, rows: seq<Row>, at: nat)
    requires at < |rows| && Subsequence(received, rows[..at])
    ensures Subsequence(received, rows[..at + 1])
    ensures Subsequence(received + [rows[at]], rows[..at + 1]) && Subsequence(received + [rows[at]], rows)
  {
    OneMoreRow(received, rows[..at], rows[at]);
    assert rows[..at] + [rows[at]] == rows[..at + 1];
    MoreRows(received + [rows[at]], rows, at + 1);
  }

  lemma OrderKeptByNext(n: Node, e: Event)
    requires Base(n) && StreamOk(n) && OrderOk(n) && Enabled(n, e) && e.FetchNextEvent?
    ensures Subsequences(n.h.produced, ReceivedAfter(n.h.received, n.s, e))
    ensures InOrderIfHeld(Step(n.s, e), ReceivedAfter(n.h.received, n.s, e))
  {
    var (s, r) := (n.s, n.s.held.result.value);
    var at := if s.held.unread then r.next - 1 else r.next;
    if at < |r.rows| {
      Delivered(n.h.received[r.op], r.rows, at);
      if s.held.unread {
        OrderAfterPushedBack(n, e);
      } else {
        OrderAfterRow(n, e);
      }
    }
  }

  /** The row at this position can be received next. */
  predicate NextInOrder(rows: seq<Row>, received: seq<Row>, at: nat) {
    && at < |rows| && Subsequence(received, rows[..at + 1])
    && Subsequence(received + [rows[at]], rows[..at + 1]) && Subsequence(received + [rows[at]], rows)
  }

  lemma OrderAfterPushedBack(n: Node, e: Event)
    requires Base(n) && StreamOk(n) && OrderOk(n) && Enabled(n, e) && e.FetchNextEvent? && n.s.held.unread
    requires var r := n.s.held.result.value;
      NextInOrder(r.rows, n.h.received[r.op], r.next - 1)
    ensures Subsequences(n.h.produced, ReceivedAfter(n.h.received, n.s, e))
    ensures InOrderIfHeld(Step(n.s, e), ReceivedAfter(n.h.received, n.s, e))
  {
  }

  /** The engine delivers its next row, or throws and keeps or loses it. */
  lemma OrderAfterRow(n: Node, e: Event)
    requires Base(n) && StreamOk(n) && OrderOk(n) && Enabled(n, e) && e.FetchNextEvent? && !n.s.held.unread
    requires var r := n.s.held.result.value;
      NextInOrder(r.rows, n.h.received[r.op], r.next)
    ensures Subsequences(n.h.produced, ReceivedAfter(n.h.received, n.s, e))
    ensures InOrderIfHeld(Step(n.s, e), ReceivedAfter(n.h.received, n.s, e))
  {
  }

  lemma OrderKeptByUnread(n: Node)
    requires Base(n) && StreamOk(n) && OrderOk(n) && Enabled(n, FetchUnreadEvent)
    ensures Subsequences(n.h.produced, ReceivedAfter(n.h.received, n.s, FetchUnreadEvent))
    ensures InOrderIfHeld(Step(n.s, FetchUnreadEvent), ReceivedAfter(n.h.received, n.s, FetchUnreadEvent))
  {
    if CanFetchUnread(n.s) {
      var r := n.s.held.result.value;
      var received := n.h.received[r.op];
      OneRowLess(received, r.rows[..r.next]);
      assert r.rows[..r.next][..r.next - 1] == r.rows[..r.next - 1];
      MoreRows(received[..|received| - 1], r.rows, r.next - 1);
    }
  }

  lemma OrderKeptByOthers(n: Node, e: Event)
    requires Base(n) && OrderOk(n) && Enabled(n, e) && !e.FetchNextEvent? && !e.FetchUnreadEvent?
    ensures Subsequences(ProducedAfter(n.h.produced, n.s, e), ReceivedAfter(n.h.received, n.s, e))
    ensures InOrderIfHeld(Step(n.s, e), ReceivedAfter(n.h.received, n.s, e))
  {
  }

  lemma OrderKept(n: Node, e: Event)
    requires Base(n) && StreamOk(n) && OrderOk(n) && Enabled(n, e)
    ensures OrderOk(Next(n, e))
  {
    match e
    case FetchNextEvent(_, _) => OrderKeptByNext(n, e);
    case FetchUnreadEvent => OrderKeptByUnread(n);
    case _ => OrderKeptByOthers(n, e);
  }

  lemma {:induction false} OrderAlong(n: Node, es: seq<Event>)
    requires Sound(n) && OrderOk(n) && Runs(n, es)
    ensures OrderOk(After(n, es))
    decreases |es|
  {
    if es != [] {
      SoundKept(n, es[0]);
      OrderKept(n, es[0]);
      OrderAlong(Next(n, es[0]), es[1..]);
    }
  }

  /** In every run, whatever the engine loses, what was received of a result is a subsequence of it. */
  lemma ReceivedInOrder(es: seq<Event>, op: Id)
    requires Runs(FRESH_NODE, es) && op in After(FRESH_NODE, es).h.received
    ensures var h := After(FRESH_NODE, es).h;
      op in h.produced && Subsequence(h.received[op], h.produced[op])
  {
    FreshIsSound();
    OrderAlong(FRESH_NODE, es);
  }
}
