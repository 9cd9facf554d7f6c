/**
 The two protocols fit together: seen through the few facts the runtime relies on, every step of a
 session is a step the runtime admits, or changes nothing it can see.
 */
module Composition {
  import opened Options
  import P = Protocol
  import I = Invariants
  import R = RuntimeProtocol
  import V = RuntimeInvariant

  /** A session as the runtime sees it. */
  function RoleOf(s: P.Session): R.Role {
    R.Role(true, s.worker.Exited?, !s.worker.Exited?, s.stop, s.fetch.active)
  }

  /** The runtime step that a session step is, for session i of a database; None: invisible. */
  function Visible(s: P.Session, e: P.Event, i: nat): Option<R.Local>
    requires P.Possible(s, e)
  {
    match e
    case StopEvent => Some(R.StopNext)
    case FetchBeginEvent(id) => if P.CanFetchBegin(s, id) then Some(R.FetchBegins(i)) else None
    case FetchEndEvent => Some(R.FetchEnds(i))
    case WorkerEvent(_) =>
      if s.worker.Failing? then Some(R.WorkerFails(i))
      else if s.worker.DroppingConnection? then Some(R.WorkerExits(i))
      else None
    case _ => None
  }

  /** What entitles each thread to its step: retirement, an owned handle, the cursor, or being the worker. */
  predicate CallersEntitled(db: R.Db, e: P.Event, i: nat) {
    match e
    case StopEvent => R.RetireRunning(db) && db.stopped == i
    case InterruptEvent => db.phase.Ready? || db.phase.Retiring?
    case WorkerEvent(_) => true
    case FetchNextEvent(_, _) => true
    case FetchUnreadEvent => true
    case FetchDropEvent => true
    case FetchEndEvent => true
    case _ => !db.phase.Opening? && db.handles > 0
  }

  /** The session step e is the runtime step Visible says it is, or leaves the session's role alone. */
  ghost predicate Simulated(s: P.Session, e: P.Event, db: R.Db, i: nat)
    requires P.Possible(s, e) && i < |db.roles|
  {
    match Visible(s, e, i)
    case None => RoleOf(P.Step(s, e)) == RoleOf(s)
    case Some(local) =>
      R.LocalEnabled(db, local) && R.LocalStep(db, local).roles == db.roles[i := RoleOf(P.Step(s, e))]
  }

  lemma CallIsRuntimeStep(s: P.Session, e: P.Event, db: R.Db, i: nat)
    requires I.Shape(s) && P.Possible(s, e) && !e.WorkerEvent?
    requires i < |db.roles| && db.roles[i] == RoleOf(s) && CallersEntitled(db, e, i)
    ensures Simulated(s, e, db, i)
  {
  }

  lemma WorkerStepIsRuntimeStep(s: P.Session, c: P.Choice, db: R.Db, i: nat)
    requires I.Shape(s) && P.Possible(s, P.WorkerEvent(c))
    requires i < |db.roles| && db.roles[i] == RoleOf(s)
    ensures Simulated(s, P.WorkerEvent(c), db, i)
  {
  }

  lemma SessionStepIsRuntimeStep(s: P.Session, e: P.Event, db: R.Db, i: nat)
    requires I.Shape(s) && P.Possible(s, e)
    requires i < |db.roles| && db.roles[i] == RoleOf(s) && CallersEntitled(db, e, i)
    ensures Simulated(s, e, db, i)
  {
    if e.WorkerEvent? {
      WorkerStepIsRuntimeStep(s, e.choice, db, i);
    } else {
      CallIsRuntimeStep(s, e, db, i);
    }
  }

  /** The runtime's local assumption about roles is what the session invariant provides. */
  lemma SessionMeetsRoleAssumption(s: P.Session)
    requires I.Shape(s)
    ensures V.RoleOk(RoleOf(s))
    ensures RoleOf(s).exited ==> s.held.result.None? && s.held.statement.None? && !s.link.open && s.link.transaction.None?
  {
  }
}
