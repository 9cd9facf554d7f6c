/** Shutdown: once a session is stopped, its worker exits within a bound that every step lowers. */
module Shutdown {
  import opened Options
  import opened Protocol
  import opened History
  import opened Invariants
  import opened Destruction
  import opened Soundness

  /** An upper bound on the worker steps left. */
  function Rank(s: Session): nat {
    match s.worker
    case Waiting => if s.pending.Some? then 24 else 14
    case Executing(_, _) => 23
    case Publishing(_, _, _, _) => 22
    case Completing(_, _) => 21
    case Delivered(_, _) => 20
    case DroppingRow(pass, _, _, _) => if pass.shouldStop then 13 else 19
    case DroppingResult(pass, _, _) => if pass.shouldStop then 12 else 18
    case DroppingStatement(pass, _) => if pass.shouldStop then 11 else 17
    case RollingBack(pass) => if pass.shouldStop then 10 else 16
    case Clearing(pass) => if pass.shouldStop then 9 else 15
    case Failing => 8
    case CompletingFailed(_) => 7
    case Draining => 6
    case FinalRow => 5
    case FinalResult => 4
    case FinalStatement => 3
    case TakingConnection => 2
    case DroppingConnection => 1
    case Exited => 0
  }

  lemma WorkerLowersRank(s: Session, c: Choice)
    requires Shape(s) && s.stop && CanWork(s)
    ensures WorkerStep(s, c).stop && Rank(WorkerStep(s, c)) < Rank(s)
  {
  }

  /** After stop nobody else delays the worker: no reservation, submission or fetch is admitted. */
  lemma CallersCannotDelay(s: Session, e: Event)
    requires Shape(s) && s.stop && Possible(s, e) && !e.WorkerEvent?
    ensures Step(s, e).stop && Rank(Step(s, e)) == Rank(s)
    ensures AcceptedNow(s, e) == [] && (forall lease :: !CanReserve(s, lease) && !CanAcquireLease(s, lease))
    ensures Step(s, e).fetch.active ==> s.fetch.active
  {
  }

  function WorkerSteps(es: seq<Event>): nat {
    if es == [] then 0 else WorkerSteps(es[1..]) + if es[0].WorkerEvent? then 1 else 0
  }

  /** On any run after stop the worker takes at most Rank steps, and nothing new is accepted. */
  lemma {:induction false} StoppedWorkerIsBounded(n: Node, es: seq<Event>)
    requires Sound(n) && n.s.stop && Runs(n, es)
    ensures After(n, es).s.stop
    ensures WorkerSteps(es) + Rank(After(n, es).s) <= Rank(n.s) <= 24
    ensures After(n, es).h.accepted == n.h.accepted
    ensures After(n, es).s.fetch.active ==> n.s.fetch.active
    decreases |es|
  {
    if es != [] {
      SoundKept(n, es[0]);
      if es[0].WorkerEvent? {
        WorkerLowersRank(n.s, es[0].choice);
        WorkerAcceptsNothing(n, es[0]);
      } else {
        CallersCannotDelay(n.s, es[0]);
      }
      StoppedWorkerIsBounded(Next(n, es[0]), es[1..]);
    }
  }

  lemma WorkerAcceptsNothing(n: Node, e: Event)
    requires Base(n) && Enabled(n, e) && e.WorkerEvent?
    ensures Next(n, e).h.accepted == n.h.accepted
    ensures Next(n, e).s.fetch == n.s.fetch
  {
  }

  /** Only a held fetch makes a stopped worker wait. */
  lemma OnlyFetchDelaysExit(s: Session)
    requires Shape(s) && s.stop && !s.fetch.active && !s.worker.Exited?
    ensures CanWork(s)
  {
  }

  lemma ExitedIsEmpty(n: Node)
    requires Sound(n) && n.s.worker.Exited?
    ensures Emptied(n)
  {
  }

  /** Everything released and every accepted job completed. */
  predicate Emptied(n: Node) {
    && !n.s.link.open && n.s.link.transaction.None? && n.s.pending.None?
    && n.s.held.result.None? && n.s.held.statement.None? && !n.s.held.unread
    && n.h.completed == n.h.accepted
  }

  /**
   Shutdown terminates: on every run after stop, with any other threads between, the worker takes at most
   Rank steps; having taken them it has exited with everything released and nothing accepted since the
   stop; and before that it can always go on, unless a fetch begun before the stop is still held.
   */
  lemma StoppedWorkerExits(n: Node, es: seq<Event>)
    requires Sound(n) && n.s.stop && Runs(n, es)
    ensures var t := After(n, es);
      && WorkerSteps(es) <= Rank(n.s)
      && (WorkerSteps(es) == Rank(n.s) ==> t.s.worker.Exited?)
      && (t.s.worker.Exited? ==> Emptied(t) && t.h.completed == n.h.accepted)
      && (!t.s.worker.Exited? ==> CanWork(t.s) || (t.s.fetch.active && n.s.fetch.active))
  {
    StoppedWorkerIsBounded(n, es);
    SoundAlong(n, es);
    StoppedNow(After(n, es));
  }

  lemma StoppedNow(n: Node)
    requires Sound(n) && n.s.stop
    ensures Rank(n.s) == 0 <==> n.s.worker.Exited?
    ensures n.s.worker.Exited? ==> Emptied(n)
    ensures n.s.worker.Exited? || n.s.fetch.active || CanWork(n.s)
  {
    if n.s.worker.Exited? {
      ExitedIsEmpty(n);
    } else if !n.s.fetch.active {
      OnlyFetchDelaysExit(n.s);
    }
  }
}
