/** What every run of the runtime guarantees. */
module RuntimeSafety {
  import opened Options
  import opened RuntimeProtocol
  import opened RuntimeInvariant

  predicate Runs(r: Runtime, es: seq<Event>)
    decreases |es|
  {
    es == [] || (Possible(r, es[0]) && Runs(After(r, es[0]), es[1..]))
  }

  function AfterAll(r: Runtime, es: seq<Event>): Runtime
    requires Runs(r, es)
    decreases |es|
  {
    if es == [] then r else AfterAll(After(r, es[0]), es[1..])
  }

  lemma {:induction false} OkAlong(r: Runtime, es: seq<Event>)
    requires RuntimeOk(r) && Runs(r, es)
    ensures RuntimeOk(AfterAll(r, es))
    decreases |es|
  {
    if es != [] {
      RuntimeOkKept(r, es[0]);
      OkAlong(After(r, es[0]), es[1..]);
    }
  }

  /** References are conserved; only the last one frees, and only after engine and connections are gone. */
  lemma ReferencesAreConserved(es: seq<Event>, d: DbId)
    requires Runs(FRESH_RUNTIME, es) && d < |AfterAll(FRESH_RUNTIME, es).dbs|
    ensures var db := AfterAll(FRESH_RUNTIME, es).dbs[d];
      && db.refs == db.handles + (if Owned(db) then 1 else 0) + Fetches(db.roles) + db.ending
      && (db.freed <==> db.refs == 0)
      && (db.freed ==> !db.engine && db.phase.Closed? && AllExited(db.roles, |db.roles|) && Unlinked(db.roles, |db.roles|))
  {
    OkAlong(FRESH_RUNTIME, es);
  }

  /** The database a step is about. */
  function Target(r: Runtime, e: Event): Option<DbId> {
    match e
    case Register(_) => None
    case Step(d, _) => Some(d)
    case Enqueue(d) => Some(d)
    case Take => if r.queue != [] then Some(r.queue[0]) else None
    case JoinDone(d) => Some(d)
    case UnlinkDone(d) => Some(d)
    case Control(d) => Some(d)
    case Unregister(d) => Some(d)
    case LetGo(d) => Some(d)
  }

  lemma RunningWorkerHoldsDatabase(db: Db, i: nat)
    requires DbOk(db) && i < |db.roles| && db.roles[i].started && !db.roles[i].exited
    ensures !db.freed && db.refs > 0
  {
  }

  lemma {:induction false} CursorHoldsDatabase(roles: seq<Role>, i: nat)
    requires i < |roles| && roles[i].fetching
    ensures Fetches(roles) > 0
  {
    if i < |roles| - 1 {
      CursorHoldsDatabase(roles[..|roles| - 1], i);
    }
  }

  /** Whoever acts on a database, it has not been freed: worker, cursor, cleaner, controller or handle holder. */
  lemma NothingTouchesFreedDatabase(r: Runtime, e: Event)
    requires RuntimeOk(r) && Possible(r, e) && Target(r, e).Some?
    ensures var d := Target(r, e).value;
      d < |r.dbs| && !r.dbs[d].freed && r.dbs[d].refs > 0
  {
    if e.Step? && e.local.FetchEnds? {
      CursorHoldsDatabase(r.dbs[e.d].roles, e.local.i);
    } else if e.Take? {
      assert r.queue[0] in r.queue;
    }
  }

  /** The controller scans complete session arrays only, and never one the cleaner has unregistered. */
  lemma ControllerSeesOpenDatabases(r: Runtime, d: DbId)
    requires RuntimeOk(r) && Possible(r, Control(d))
    ensures !r.dbs[d].phase.Opening? && InRegistry(r.dbs[d]) && !r.dbs[d].freed
    ensures forall l :: LocalEnabled(r.dbs[d], l) ==> |LocalStep(r.dbs[d], l).roles| == |r.dbs[d].roles|
  {
  }

  /** In every run at most 64 databases are registered. */
  lemma RegistryIsBounded(es: seq<Event>)
    requires Runs(FRESH_RUNTIME, es)
    ensures |AfterAll(FRESH_RUNTIME, es).registry| <= 64
  {
    OkAlong(FRESH_RUNTIME, es);
  }

  /** In every run at most one live engine has a given nonempty path. */
  lemma OneEnginePerPath(es: seq<Event>, a: DbId, b: DbId)
    requires Runs(FRESH_RUNTIME, es)
    requires var dbs := AfterAll(FRESH_RUNTIME, es).dbs;
      a < |dbs| && b < |dbs| && dbs[a].engine && dbs[b].engine && dbs[a].path == dbs[b].path != ""
    ensures a == b
  {
    OkAlong(FRESH_RUNTIME, es);
    var r := AfterAll(FRESH_RUNTIME, es);
    assert a in r.registry && b in r.registry;
  }

  /** In a reachable state a path has at most one holder; 6 is returned exactly while it is retiring. */
  lemma CodeSixMeansRetiring(r: Runtime, path: string)
    requires RuntimeOk(r)
    ensures AdmitCode(Entries(r), path) in {0, 2, 6}
    ensures AdmitCode(Entries(r), path) == 6 <==>
              path != "" && exists d :: d in r.registry && r.dbs[d].path == path && r.dbs[d].phase.Retiring?
    ensures AdmitCode(Entries(r), path) == 0 <==>
              (path == "" || forall d :: d in r.registry ==> r.dbs[d].path != path) && |r.registry| < 64
  {
    var entries := Entries(r);
    ReserveCodeMeaning(entries, path);
    if path != "" {
      forall d | d in r.registry && r.dbs[d].path == path
        ensures exists i :: FirstHolder(entries, path, i) && entries[i].1 == r.dbs[d].phase
      {
        var i :| 0 <= i < |r.registry| && r.registry[i] == d;
        assert entries[i] == (path, r.dbs[d].phase);
        forall j | 0 <= j < i ensures entries[j].0 != path {
          assert entries[j].0 == r.dbs[r.registry[j]].path;
        }
        assert FirstHolder(entries, path, i);
      }
      forall i | 0 <= i < |entries|
        ensures entries[i] == (r.dbs[r.registry[i]].path, r.dbs[r.registry[i]].phase)
        ensures r.registry[i] in r.registry
      {
      }
    }
  }

  /** Admission registers the database under its path, with one reference of the opener and one of the runtime. */
  lemma AdmissionRegisters(r: Runtime, path: string)
    requires RuntimeOk(r)
    ensures var (t, d) := (After(r, Register(path)), |r.dbs|);
      if AdmitCode(Entries(r), path) != 0 then t == r
      else
        && t.dbs == r.dbs + [t.dbs[d]] && t.registry == r.registry + [d] && t.queue == r.queue
        && t.dbs[d].path == path && t.dbs[d].phase.Opening? && t.dbs[d].refs == 2 && t.dbs[d].handles == 1
        && Bounded(t) && (path != "" ==> AdmitCode(Entries(t), path) == 2)
  {
    if AdmitCode(Entries(r), path) == 0 {
      OkKeptByRegister(r, path);
      var t := After(r, Register(path));
      CodeSixMeansRetiring(t, path);
      assert |r.dbs| in t.registry;
    }
  }

  /** First in, first out: the cleaner is handed exactly the enqueued databases, each once, in order. */
  lemma RetirementIsFifo(es: seq<Event>)
    requires Runs(FRESH_RUNTIME, es)
    ensures var r := AfterAll(FRESH_RUNTIME, es);
      && r.enqueued == r.taken + r.queue
      && r.taken <= r.enqueued
      && Distinct(r.enqueued) && Distinct(r.taken)
  {
    OkAlong(FRESH_RUNTIME, es);
    var r := AfterAll(FRESH_RUNTIME, es);
    forall i, j | 0 <= i < j < |r.taken| ensures r.taken[i] != r.taken[j] {
      assert r.enqueued[i] == r.taken[i] && r.enqueued[j] == r.taken[j];
    }
  }

  /** Every connection is gone, and every worker has exited, before the engine is destroyed. */
  lemma EngineOutlivesConnections(r: Runtime, e: Event, d: DbId)
    requires RuntimeOk(r) && Possible(r, e) && d < |r.dbs|
    requires r.dbs[d].engine && !After(r, e).dbs[d].engine
    ensures AllExited(r.dbs[d].roles, |r.dbs[d].roles|) && Unlinked(r.dbs[d].roles, |r.dbs[d].roles|)
    ensures Fetches(r.dbs[d].roles) == 0
    ensures d in r.registry
  {
    assert r.dbs[d].custody.DroppingEngine?;
    NoFetchNoCount(r.dbs[d].roles);
  }
}
