/**
 The whole bridge: the runtime with all its databases, each with its sessions, as one machine.  The
 stop, the exit, the connection and the fetch of a session are what the runtime waits for and counts.
 */
module System {
  import opened Options
  import P = Protocol
  import H = History
  import I = Invariants
  import D = Destruction
  import S = Soundness
  import R = RuntimeProtocol
  import V = RuntimeInvariant
  import T = RuntimeSafety
  import opened Composition

  datatype System = System(runtime: R.Runtime, nodes: seq<seq<H.Node>>)

  const FRESH_SYSTEM := System(R.FRESH_RUNTIME, [])

  datatype Turn =
    | OfSession(d: R.DbId, i: nat, event: P.Event)
    | OfRuntime(change: R.Event)

  /** Steps of the runtime itself; those of running sessions are the sessions' own. */
  predicate OwnStep(r: R.Runtime, e: R.Event)
    requires R.Possible(r, e)
  {
    match e
    case Step(d, l) =>
      && !l.WorkerFails? && !l.WorkerExits? && !l.FetchBegins? && !l.FetchEnds?
      && (l.StopNext? ==> !r.dbs[d].roles[r.dbs[d].stopped].started)
    case _ => true
  }

  predicate SessionAt(y: System, d: R.DbId, i: nat) {
    d < |y.runtime.dbs| && d < |y.nodes| && i < |y.nodes[d]| && i < |y.runtime.dbs[d].roles| &&
    y.runtime.dbs[d].roles[i].started
  }

  predicate Possible(y: System, t: Turn) {
    match t
    case OfSession(d, i, e) =>
      && SessionAt(y, d, i) && H.Enabled(y.nodes[d][i], e) && CallersEntitled(y.runtime.dbs[d], e, i)
      && (e.InterruptEvent? ==> d in y.runtime.registry)
    case OfRuntime(e) => R.Possible(y.runtime, e) && OwnStep(y.runtime, e)
  }

  /** A session step takes the runtime along by the step it is, if it is a visible one. */
  function RuntimeEvent(y: System, d: R.DbId, i: nat, e: P.Event): Option<R.Event>
    requires SessionAt(y, d, i) && P.Possible(y.nodes[d][i].s, e)
  {
    match Visible(y.nodes[d][i].s, e, i)
    case Some(local) => Some(R.Step(d, local))
    case None => None
  }

  function NodesAfter(nodes: seq<seq<H.Node>>, r: R.Runtime, e: R.Event): seq<seq<H.Node>>
    requires R.Possible(r, e)
  {
    match e
    case Register(path) => if R.AdmitCode(R.Entries(r), path) != 0 then nodes else nodes + [[]]
    case Step(d, l) =>
      if l.SessionUp? && d < |nodes| then nodes[d := nodes[d] + [H.FRESH_NODE]] else nodes
    case _ => nodes
  }

  /** The role of a running session is that session seen from the runtime. */
  ghost predicate Matches(role: R.Role, node: H.Node) {
    S.Sound(node) && (role.started ==> role == RoleOf(node.s))
  }

  ghost predicate Coupled(roles: seq<R.Role>, nodes: seq<H.Node>) {
    |roles| == |nodes| && forall i :: 0 <= i < |roles| ==> Matches(roles[i], nodes[i])
  }

  ghost predicate SystemOk(y: System) {
    && V.RuntimeOk(y.runtime) && |y.nodes| == |y.runtime.dbs|
    && forall d :: 0 <= d < |y.nodes| ==> Coupled(y.runtime.dbs[d].roles, y.nodes[d])
  }

  /** Under the invariant the runtime admits the step that a session step is. */
  lemma SessionTurnIsAdmitted(y: System, d: R.DbId, i: nat, e: P.Event)
    requires SystemOk(y) && Possible(y, OfSession(d, i, e))
    ensures Simulated(y.nodes[d][i].s, e, y.runtime.dbs[d], i)
    ensures RuntimeEvent(y, d, i, e).Some? ==> R.Possible(y.runtime, RuntimeEvent(y, d, i, e).value)
  {
    assert Coupled(y.runtime.dbs[d].roles, y.nodes[d]);
    SessionStepIsRuntimeStep(y.nodes[d][i].s, e, y.runtime.dbs[d], i);
  }

  function WithNode(y: System, d: R.DbId, i: nat, node: H.Node): seq<seq<H.Node>>
    requires SessionAt(y, d, i)
  {
    y.nodes[d := y.nodes[d][i := node]]
  }

  ghost predicate Enabled(y: System, t: Turn) {
    Possible(y, t) &&
    (t.OfSession? && RuntimeEvent(y, t.d, t.i, t.event).Some? ==>
       R.Possible(y.runtime, RuntimeEvent(y, t.d, t.i, t.event).value))
  }

  ghost function Next(y: System, t: Turn): System
    requires Enabled(y, t)
  {
    match t
    case OfSession(d, i, e) =>
      var nodes := WithNode(y, d, i, H.Next(y.nodes[d][i], e));
      (match RuntimeEvent(y, d, i, e)
       case Some(change) => System(R.After(y.runtime, change), nodes)
       case None => System(y.runtime, nodes))
    case OfRuntime(change) => System(R.After(y.runtime, change), NodesAfter(y.nodes, y.runtime, change))
  }

  // -------------------------------------------------------------------------------------------
  // The invariant is kept

  lemma CoupledUpdate(roles: seq<R.Role>, nodes: seq<H.Node>, i: nat, node: H.Node)
    requires Coupled(roles, nodes) && i < |roles| && roles[i].started && S.Sound(node)
    ensures Coupled(roles[i := RoleOf(node.s)], nodes[i := node])
  {
    assert Matches(RoleOf(node.s), node);
  }

  /** Only the sessions of database d changed. */
  ghost predicate OnlyAt(y: System, z: System, d: R.DbId) {
    && |z.runtime.dbs| == |y.runtime.dbs| && |z.nodes| == |y.nodes|
    && forall x :: 0 <= x < |y.nodes| && x < |y.runtime.dbs| && x != d ==>
         z.nodes[x] == y.nodes[x] && z.runtime.dbs[x].roles == y.runtime.dbs[x].roles
  }

  lemma OkElsewhere(y: System, z: System, d: R.DbId)
    requires SystemOk(y) && V.RuntimeOk(z.runtime) && OnlyAt(y, z, d) && d < |y.nodes|
    requires Coupled(z.runtime.dbs[d].roles, z.nodes[d])
    ensures SystemOk(z)
  {
    forall x | 0 <= x < |z.nodes| ensures Coupled(z.runtime.dbs[x].roles, z.nodes[x]) {
      assert Coupled(y.runtime.dbs[x].roles, y.nodes[x]);
    }
  }

  /** A session turn replaces one node, and its role by what the new node looks like. */
  lemma SessionTurnReplaces(y: System, d: R.DbId, i: nat, e: P.Event)
    requires SystemOk(y) && Enabled(y, OfSession(d, i, e))
    ensures var z := Next(y, OfSession(d, i, e));
      && OnlyAt(y, z, d)
      && z.nodes[d] == y.nodes[d][i := H.Next(y.nodes[d][i], e)]
      && z.runtime.dbs[d].roles == y.runtime.dbs[d].roles[i := RoleOf(z.nodes[d][i].s)]
  {
    SessionTurnIsAdmitted(y, d, i, e);
    SessionIsCoupled(y, d, i);
    RoleReplaced(y.nodes[d][i].s, e, y.runtime.dbs[d], i);
    SessionTurnTouches(y, d, i, e);
  }

  lemma SessionTurnTouches(y: System, d: R.DbId, i: nat, e: P.Event)
    requires |y.nodes| == |y.runtime.dbs| && Enabled(y, OfSession(d, i, e))
    ensures var z := Next(y, OfSession(d, i, e));
      && OnlyAt(y, z, d)
      && z.nodes[d] == y.nodes[d][i := H.Next(y.nodes[d][i], e)]
      && z.runtime.dbs[d] == DbAfter(y.nodes[d][i].s, e, y.runtime.dbs[d], i)
  {
  }

  lemma SessionTurnKeepsRuntime(y: System, d: R.DbId, i: nat, e: P.Event)
    requires V.RuntimeOk(y.runtime) && Enabled(y, OfSession(d, i, e))
    ensures V.RuntimeOk(Next(y, OfSession(d, i, e)).runtime)
  {
    if RuntimeEvent(y, d, i, e).Some? {
      V.RuntimeOkKept(y.runtime, RuntimeEvent(y, d, i, e).value);
    }
  }

  function DbAfter(s: P.Session, e: P.Event, db: R.Db, i: nat): R.Db
    requires P.Possible(s, e)
  {
    match Visible(s, e, i)
    case Some(l) => if R.LocalEnabled(db, l) then R.LocalStep(db, l) else db
    case None => db
  }

  lemma RoleReplaced(s: P.Session, e: P.Event, db: R.Db, i: nat)
    requires P.Possible(s, e) && i < |db.roles| && db.roles[i] == RoleOf(s) && Simulated(s, e, db, i)
    ensures DbAfter(s, e, db, i).roles == db.roles[i := RoleOf(P.Step(s, e))]
  {
    assert db.roles[i := db.roles[i]] == db.roles;
  }

  lemma OkKeptBySession(y: System, d: R.DbId, i: nat, e: P.Event)
    requires SystemOk(y) && Enabled(y, OfSession(d, i, e))
    ensures SystemOk(Next(y, OfSession(d, i, e)))
  {
    var node := y.nodes[d][i];
    assert Coupled(y.runtime.dbs[d].roles, y.nodes[d]);
    S.SoundKept(node, e);
    SessionTurnReplaces(y, d, i, e);
    SessionTurnKeepsRuntime(y, d, i, e);
    CoupledUpdate(y.runtime.dbs[d].roles, y.nodes[d], i, H.Next(node, e));
    OkElsewhere(y, Next(y, OfSession(d, i, e)), d);
  }

  /** The runtime's own steps change no role of a running session, and give every new one a fresh session. */
  lemma OwnStepKeepsRoles(db: R.Db, l: R.Local)
    requires V.DbOk(db) && R.LocalEnabled(db, l)
    requires !l.WorkerFails? && !l.WorkerExits? && !l.FetchBegins? && !l.FetchEnds?
    requires l.StopNext? ==> !db.roles[db.stopped].started
    ensures var roles := R.LocalStep(db, l).roles;
      && |roles| == |db.roles| + (if l.SessionUp? then 1 else 0)
      && (forall i :: 0 <= i < |db.roles| ==> SameRunning(db.roles[i], roles[i]))
      && (l.SessionUp? && roles[|db.roles|].started ==> roles[|db.roles|] == RoleOf(H.FRESH_NODE.s))
  {
  }

  lemma FreshMatches(role: R.Role)
    requires role.started ==> role == RoleOf(H.FRESH_NODE.s)
    ensures Matches(role, H.FRESH_NODE)
  {
    S.FreshIsSound();
  }

  lemma CoupledAfterOwnStep(db: R.Db, l: R.Local, nodes: seq<H.Node>)
    requires V.DbOk(db) && R.LocalEnabled(db, l) && Coupled(db.roles, nodes)
    requires !l.WorkerFails? && !l.WorkerExits? && !l.FetchBegins? && !l.FetchEnds?
    requires l.StopNext? ==> !db.roles[db.stopped].started
    ensures Coupled(R.LocalStep(db, l).roles, if l.SessionUp? then nodes + [H.FRESH_NODE] else nodes)
  {
    OwnStepKeepsRoles(db, l);
    var after := R.LocalStep(db, l).roles;
    if l.SessionUp? {
      FreshMatches(after[|db.roles|]);
      CoupledKept(db.roles, after[..|db.roles|], nodes);
      CoupledGrows(after, nodes, H.FRESH_NODE);
    } else {
      CoupledKept(db.roles, after, nodes);
    }
  }

  predicate SameRunning(before: R.Role, after: R.Role) {
    after == before || (!before.started && !after.started)
  }

  lemma CoupledKept(roles: seq<R.Role>, after: seq<R.Role>, nodes: seq<H.Node>)
    requires Coupled(roles, nodes) && |after| == |roles|
    requires forall i :: 0 <= i < |roles| ==> SameRunning(roles[i], after[i])
    ensures Coupled(after, nodes)
  {
    forall i | 0 <= i < |roles| ensures Matches(after[i], nodes[i]) {
      assert Matches(roles[i], nodes[i]);
    }
  }

  lemma CoupledGrows(after: seq<R.Role>, nodes: seq<H.Node>, node: H.Node)
    requires |after| == |nodes| + 1 && Coupled(after[..|nodes|], nodes) && Matches(after[|nodes|], node)
    ensures Coupled(after, nodes + [node])
  {
    forall i | 0 <= i < |nodes| ensures Matches(after[i], nodes[i]) {
      assert after[..|nodes|][i] == after[i];
    }
  }

  lemma OkKeptByLocal(y: System, d: R.DbId, l: R.Local)
    requires SystemOk(y) && Enabled(y, OfRuntime(R.Step(d, l)))
    ensures SystemOk(Next(y, OfRuntime(R.Step(d, l))))
  {
    V.RuntimeOkKept(y.runtime, R.Step(d, l));
    assert V.DbOk(y.runtime.dbs[d]) && Coupled(y.runtime.dbs[d].roles, y.nodes[d]);
    CoupledAfterOwnStep(y.runtime.dbs[d], l, y.nodes[d]);
    LocalTurnReplaces(y, d, l);
    OkElsewhere(y, Next(y, OfRuntime(R.Step(d, l))), d);
  }

  lemma LocalTurnReplaces(y: System, d: R.DbId, l: R.Local)
    requires |y.nodes| == |y.runtime.dbs| && Enabled(y, OfRuntime(R.Step(d, l)))
    ensures var z := Next(y, OfRuntime(R.Step(d, l)));
      && OnlyAt(y, z, d)
      && z.runtime.dbs[d] == R.LocalStep(y.runtime.dbs[d], l)
      && z.nodes[d] == if l.SessionUp? then y.nodes[d] + [H.FRESH_NODE] else y.nodes[d]
  {
  }

  lemma OtherChangesKeepRoles(r: R.Runtime, e: R.Event)
    requires R.Possible(r, e) && !e.Step?
    ensures |R.After(r, e).dbs| >= |r.dbs|
    ensures forall d :: 0 <= d < |r.dbs| ==> R.After(r, e).dbs[d].roles == r.dbs[d].roles
    ensures e.Register? && R.AdmitCode(R.Entries(r), e.path) == 0 ==>
              |R.After(r, e).dbs| == |r.dbs| + 1 && R.After(r, e).dbs[|r.dbs|].roles == []
    ensures !(e.Register? && R.AdmitCode(R.Entries(r), e.path) == 0) ==> |R.After(r, e).dbs| == |r.dbs|
  {
  }

  lemma OkKept(y: System, t: Turn)
    requires SystemOk(y) && Enabled(y, t)
    ensures SystemOk(Next(y, t))
  {
    match t
    case OfSession(d, i, e) => OkKeptBySession(y, d, i, e);
    case OfRuntime(change) =>
      if change.Step? {
        OkKeptByLocal(y, change.d, change.local);
      } else {
        V.RuntimeOkKept(y.runtime, change);
        OtherChangesKeepRoles(y.runtime, change);
      }
  }

  // -------------------------------------------------------------------------------------------
  // Runs

  ghost predicate Runs(y: System, ts: seq<Turn>)
    decreases |ts|
  {
    ts == [] || (Enabled(y, ts[0]) && Runs(Next(y, ts[0]), ts[1..]))
  }

  ghost function After(y: System, ts: seq<Turn>): System
    requires Runs(y, ts)
    decreases |ts|
  {
    if ts == [] then y else After(Next(y, ts[0]), ts[1..])
  }

  lemma {:induction false} OkAlong(y: System, ts: seq<Turn>)
    requires SystemOk(y) && Runs(y, ts)
    ensures SystemOk(After(y, ts))
    decreases |ts|
  {
    if ts != [] {
      OkKept(y, ts[0]);
      OkAlong(Next(y, ts[0]), ts[1..]);
    }
  }

  lemma FreshSystemIsOk()
    ensures SystemOk(FRESH_SYSTEM)
  {
  }

  /** In a reachable state every possible turn is enabled: the runtime's books never block a session step. */
  lemma PossibleIsEnabled(start: System, ts: seq<Turn>, t: Turn)
    requires SystemOk(start) && Runs(start, ts) && Possible(After(start, ts), t)
    ensures Enabled(After(start, ts), t)
  {
    OkAlong(start, ts);
    AdmittedIsEnabled(After(start, ts), t);
  }

  lemma AdmittedIsEnabled(y: System, t: Turn)
    requires SystemOk(y) && Possible(y, t)
    ensures Enabled(y, t)
  {
    if t.OfSession? {
      SessionTurnIsAdmitted(y, t.d, t.i, t.event);
    }
  }

  /** A session with nothing left: its worker has exited, everything created is destroyed, every job completed. */
  ghost predicate Finished(n: H.Node) {
    && n.s.worker.Exited? && !n.s.link.open && n.s.link.transaction.None? && I.Empty(n.s) && !n.s.fetch.active
    && D.Ordered(n.h.destroyed) && multiset(n.h.destroyed) == multiset(n.h.created)
    && n.h.completed == n.h.accepted
  }

  lemma ExitedIsFinished(n: H.Node)
    requires S.Sound(n) && n.s.worker.Exited?
    ensures Finished(n)
  {
    forall r: H.Resource ensures multiset(n.h.destroyed)[r] == multiset(n.h.created)[r] {
      assert D.Count(n.h.created, r) == D.Count(n.h.destroyed, r) + D.LiveCount(n.s, r);
    }
  }

  /** The engine is about to be destroyed, destroyed, or freed with its database. */
  predicate EngineEnding(db: R.Db) {
    db.custody.DroppingEngine? || !db.engine || db.freed
  }

  lemma EndingHasExited(db: R.Db, i: nat)
    requires V.DbOk(db) && EngineEnding(db) && i < |db.roles| && db.roles[i].started
    ensures db.roles[i].exited
  {
  }

  /** In every run an engine that is ending has only finished sessions. */
  lemma EngineGoesLast(start: System, ts: seq<Turn>, d: R.DbId, i: nat)
    requires SystemOk(start) && Runs(start, ts) && SessionAt(After(start, ts), d, i)
    requires EngineEnding(After(start, ts).runtime.dbs[d])
    ensures Finished(After(start, ts).nodes[d][i])
  {
    OkAlong(start, ts);
    EndingIsFinished(After(start, ts), d, i);
  }

  lemma EndingIsFinished(y: System, d: R.DbId, i: nat)
    requires SystemOk(y) && SessionAt(y, d, i) && EngineEnding(y.runtime.dbs[d])
    ensures Finished(y.nodes[d][i])
  {
    SessionIsCoupled(y, d, i);
    EndingHasExited(y.runtime.dbs[d], i);
    ExitedIsFinished(y.nodes[d][i]);
  }

  lemma SessionIsCoupled(y: System, d: R.DbId, i: nat)
    requires SystemOk(y) && SessionAt(y, d, i)
    ensures V.DbOk(y.runtime.dbs[d]) && S.Sound(y.nodes[d][i])
    ensures y.runtime.dbs[d].roles[i] == RoleOf(y.nodes[d][i].s)
    ensures d in y.runtime.registry ==> V.Owned(y.runtime.dbs[d])
  {
    assert Coupled(y.runtime.dbs[d].roles, y.nodes[d]);
    assert Matches(y.runtime.dbs[d].roles[i], y.nodes[d][i]);
  }

  /** The database has not been freed, and somebody still holds it. */
  predicate Alive(y: System, d: R.DbId) {
    d < |y.runtime.dbs| && !y.runtime.dbs[d].freed && y.runtime.dbs[d].refs > 0
  }

  /** In every run whoever takes a step on a session, its database has not been freed. */
  lemma NoSessionOfFreedDatabaseMoves(start: System, ts: seq<Turn>, d: R.DbId, i: nat, e: P.Event)
    requires SystemOk(start) && Runs(start, ts) && Possible(After(start, ts), OfSession(d, i, e))
    ensures Alive(After(start, ts), d)
  {
    OkAlong(start, ts);
    MoverIsSafe(After(start, ts), d, i, e);
  }

  lemma MoverIsSafe(y: System, d: R.DbId, i: nat, e: P.Event)
    requires SystemOk(y) && Possible(y, OfSession(d, i, e))
    ensures Alive(y, d)
  {
    SessionIsCoupled(y, d, i);
    MoverHoldsDatabase(y.runtime.dbs[d], y.nodes[d][i].s, i, e);
  }

  lemma MoverHoldsDatabase(db: R.Db, s: P.Session, i: nat, e: P.Event)
    requires V.DbOk(db) && i < |db.roles| && db.roles[i] == RoleOf(s) && I.Shape(s)
    requires P.Possible(s, e) && CallersEntitled(db, e, i) && (e.InterruptEvent? ==> V.Owned(db))
    ensures !db.freed && db.refs > 0
  {
    if db.roles[i].fetching {
      T.CursorHoldsDatabase(db.roles, i);
    } else if !db.roles[i].exited {
      T.RunningWorkerHoldsDatabase(db, i);
    }
  }
}
