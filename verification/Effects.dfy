/**
 What an execution does, by its own code: when a job succeeds, and that a success takes effect in
 full.  The engine's answer, the callback's answer and the log are all these statements speak of.
 */
module Effects {
  import opened Options
  import opened Engine
  import opened Protocol
  import opened History
  import opened Invariants
  import opened Transactions
  import opened Soundness
  import opened Atomicity

  // -------------------------------------------------------------------------------------------
  // From the log alone

  /** A commit that reports success took effect, and under a lease nothing but a commit ever does. */
  predicate Effective(x: Exec) {
    && x.code in {0, 3, 4}
    && (x.work == TransactionWork(Commit) && x.code == 0 ==> x.took)
    && (x.took && x.lease != 0 ==> x.work == TransactionWork(Commit) && x.code != 4)
    && (x.took && x.lease == 0 ==> x.work.UserQuery? && x.code == 3)
    && (x.work.TransactionWork? ==> x.lease != 0)
    && (x.work.TransactionWork? || x.code == 4 ==> x.writes == [])
  }

  lemma ExecutionIsEffective(n: Node, e: Event)
    requires Base(n) && Enabled(n, e)
    ensures forall x :: x in ExecutedNow(n.s, e) ==> Effective(x)
  {
  }

  predicate AllEffective(log: seq<Exec>) {
    forall i :: 0 <= i < |log| ==> Effective(log[i])
  }

  lemma {:induction false} LogIsEffective(n: Node, es: seq<Event>)
    requires Sound(n) && AllEffective(n.h.log) && Runs(n, es)
    ensures AllEffective(After(n, es).h.log)
    decreases |es|
  {
    if es != [] {
      SoundKept(n, es[0]);
      ExecutionIsEffective(n, es[0]);
      LogIsEffective(Next(n, es[0]), es[1..]);
    }
  }

  /** In every run, by the log alone: when an execution took effect. */
  lemma SuccessTakesEffect(es: seq<Event>)
    requires Runs(FRESH_NODE, es)
    ensures AllEffective(After(FRESH_NODE, es).h.log)
  {
    FreshIsSound();
    LogIsEffective(FRESH_NODE, es);
  }

  predicate OrderEffective(order: seq<Entry>) {
    forall k :: 0 <= k < |order| ==> Effective(order[k].exec)
  }

  lemma {:induction false} OrderIsEffective(w: World, initial: Store, turns: seq<Turn>)
    requires Consistent(w, initial) && OrderEffective(w.order) && Schedule(w, turns)
    ensures OrderEffective(AfterTurns(w, turns).order)
    decreases |turns|
  {
    if turns != [] {
      ConsistentKept(w, initial, turns[0]);
      ExecutionIsEffective(w.nodes[turns[0].session], turns[0].event);
      OrderIsEffective(Advance(w, turns[0]), initial, turns[1..]);
    }
  }

  /** What the k-th execution of an order must add to the committed work. */
  predicate Adds(order: seq<Entry>, k: nat, added: seq<Write>)
    requires k < |order|
  {
    var x := order[k].exec;
    var batch := Batch(Project(order[..k], order[k].session), x.lease);
    && (x.code == 0 && x.work == TransactionWork(Commit) ==> added == batch)
    && (x.code == 0 && x.work.UserQuery? && x.lease == 0 ==> added == x.writes)
    && (x.code == 3 && x.work == TransactionWork(Commit) ==> added == batch || added == [])
    && (x.work.UserQuery? && x.lease == 0 ==> added == x.writes)
    && (x.lease != 0 && x.work != TransactionWork(Commit) ==> added == [])
    && (x.code == 4 ==> added == [])
  }

  lemma EffectiveAdds(order: seq<Entry>, k: nat) returns (added: seq<Write>)
    requires k < |order| && Effective(order[k].exec)
    ensures Committed(order[..k + 1]) == Committed(order[..k]) + added && Adds(order, k, added)
  {
    assert order[..k + 1] == order[..k] + [order[k]];
    CommittedAppend(order[..k], order[k]);
    ContributionOf(Project(order[..k], order[k].session), order[k].exec);
    added := Contribution(Project(order[..k], order[k].session) + [order[k].exec]);
  }

  /**
   In every schedule: a commit that reports success makes exactly its lease's batch durable, a
   successful ordinary query its own writes, a failing commit all or nothing, and anything else nothing.
   */
  lemma EveryExecutionAdds(sessions: nat, store: Store, turns: seq<Turn>, k: nat) returns (added: seq<Write>)
    requires Schedule(FreshWorld(sessions, store), turns)
    requires k < |AfterTurns(FreshWorld(sessions, store), turns).order|
    ensures var order := AfterTurns(FreshWorld(sessions, store), turns).order;
      Committed(order[..k + 1]) == Committed(order[..k]) + added && Adds(order, k, added)
  {
    FreshWorldIsConsistent(sessions, store);
    OrderIsEffective(FreshWorld(sessions, store), store, turns);
    added := EffectiveAdds(AfterTurns(FreshWorld(sessions, store), turns).order, k);
  }

  // -------------------------------------------------------------------------------------------
  // When a job succeeds, and what a success leaves behind

  /** Cancelled before execution: exactly when it was so at dequeue or the job's own callback says so. */
  predicate CancelExact(before: Session, c: Choice, out: Outcome)
    requires before.worker.Executing?
  {
    && (out.code == 4 <==> before.worker.wasCancelled || c.cancelled)
    && (out.code == 4 ==> out == Outcome(4, before.link.transaction, [], false, None, false))
  }

  /** A query succeeds exactly if its text is acceptable, its lease has a transaction, and the engine takes it. */
  predicate QueryExact(log: seq<Exec>, lease: Id, open: bool, query: Query, reply: Reply, out: Outcome) {
    && (out.code == 0 <==> Acceptable(query.text) && (lease == 0 || open) && !reply.fault)
    && (out.code == 0 ==> out.rows == Some(reply.rows) && out.prepared == query.parameters)
    && (out.code == 0 && lease == 0 ==> out.durable == reply.writes && out.transaction.None?)
    && (out.code == 0 && lease != 0 ==> out.durable == [] && out.transaction == Some(Batch(log, lease) + reply.writes))
    && (!Acceptable(query.text) || (lease != 0 && !open) ==>
          out.durable == [] && out.rows.None? && !out.prepared && (out.transaction.Some? <==> open))
  }

  /** Controls: begin opens an empty transaction, commit makes the lease's batch durable, rollback nothing. */
  predicate ControlExact(log: seq<Exec>, lease: Id, open: bool, control: Control, reply: Reply, out: Outcome) {
    && out.rows.None? && !out.prepared
    && (match control
        case Begin =>
          && (out.code == 0 <==> !open && !reply.fault)
          && out.durable == [] && (out.code == 0 ==> out.transaction == Some([]))
        case Commit =>
          && (out.code == 0 <==> open && !reply.fault)
          && (out.code == 0 ==> out.durable == Batch(log, lease) && out.transaction.None?)
          && (out.code == 3 && open && reply.took ==> out.durable == Batch(log, lease) && out.transaction.None?)
          && (out.code == 3 && !(open && reply.took) ==> out.durable == [])
        case Rollback =>
          && (out.code == 0 <==> !open || !reply.fault)
          && out.durable == [] && (out.code == 0 ==> out.transaction.None?))
  }

  predicate ExecutionExact(n: Node, c: Choice)
    requires n.s.worker.Executing?
  {
    var (s, out) := (n.s, Executed(n.s, c));
    var open := s.link.transaction.Some?;
    && CancelExact(s, c, out)
    && (out.code != 4 ==>
          match s.worker.job.work
          case UserQuery(query) => QueryExact(n.h.log, s.lease.id, open, query, c.reply, out)
          case TransactionWork(control) => ControlExact(n.h.log, s.lease.id, open, control, c.reply, out))
  }

  /** The log entry says what happened, and the job's completion and result will too. */
  predicate RecordedExactly(n: Node, c: Choice)
    requires n.s.worker.Executing?
  {
    var (s, out) := (n.s, Executed(n.s, c));
    var entries := ExecutedNow(s, WorkerEvent(c));
    var t := WorkerStep(s, c);
    && |entries| == 1
    && entries[0].id == s.worker.job.id && entries[0].work == s.worker.job.work && entries[0].code == out.code
    && entries[0].lease == s.lease.id
    && (entries[0].work.UserQuery? && out.code == 0 ==> entries[0].writes == c.reply.writes)
    && t.worker == Publishing(s.worker.job, out.code, out.rows, out.prepared)
    && t.link.transaction == out.transaction
  }

  lemma ExecutionIsExactNow(n: Node, c: Choice)
    requires Base(n) && LogOk(n) && n.s.worker.Executing?
    ensures ExecutionExact(n, c) && RecordedExactly(n, c)
  {
    ExecutionStart(n);
  }

  /** In every run, for every job and every answer of engine and callback. */
  lemma ExecutionIsExact(es: seq<Event>, c: Choice)
    requires Runs(FRESH_NODE, es) && After(FRESH_NODE, es).s.worker.Executing?
    ensures ExecutionExact(After(FRESH_NODE, es), c) && RecordedExactly(After(FRESH_NODE, es), c)
  {
    FreshIsSound();
    SoundAlong(FRESH_NODE, es);
    ExecutionIsExactNow(After(FRESH_NODE, es), c);
  }
}
