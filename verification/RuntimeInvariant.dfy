/** The runtime's inductive invariant: a local part for each database, and what ties them together. */
module RuntimeInvariant {
  import opened Options
  import opened RuntimeProtocol

  // -------------------------------------------------------------------------------------------
  // Local part

  predicate RoleOk(role: Role) {
    && (role.exited ==> role.started && role.stop && !role.linked)
    && (role.started && !role.exited ==> role.linked)
    && (role.fetching ==> role.started && role.linked)
  }

  predicate Unlinked(roles: seq<Role>, count: nat) {
    forall i :: 0 <= i < |roles| && i < count ==> !roles[i].linked
  }

  predicate Stopped(roles: seq<Role>, count: nat) {
    forall i :: 0 <= i < |roles| && i < count ==> roles[i].stop
  }

  predicate AllExited(roles: seq<Role>, count: nat) {
    forall i :: 0 <= i < |roles| && i < count ==> roles[i].started ==> roles[i].exited
  }

  predicate Owned(db: Db) {
    !db.custody.Done?
  }

  predicate InRegistry(db: Db) {
    !db.custody.Closing? && !db.custody.Unreferencing? && !db.custody.Done?
  }

  /** The cleaner has joined every worker. */
  predicate WorkersGone(c: Custody) {
    c.Unlinking? || EngineDoomed(c)
  }

  predicate EngineDoomed(c: Custody) {
    c.DroppingEngine? || EngineGone(c)
  }

  predicate EngineGone(c: Custody) {
    c.Unregistering? || c.Closing? || c.Unreferencing? || c.Done?
  }

  predicate DbOk(db: Db) {
    && db.refs == db.handles + (if Owned(db) then 1 else 0) + Fetches(db.roles) + db.ending
    && (db.freed <==> db.refs == 0) && db.refs >= 0
    && (forall i :: 0 <= i < |db.roles| ==> RoleOk(db.roles[i]))
    && (forall i :: 0 <= i < |db.roles| && db.roles[i].linked ==> db.engine)
    && (db.phase.Opening? || db.phase.Ready? ==> db.custody.Held? && db.handles >= 1 && db.stopped == 0)
    && (db.custody.Held? ==> db.handles >= 1 && !db.phase.Closed? && db.stopped <= |db.roles|)
    && Stopped(db.roles, if db.custody.Held? then db.stopped else |db.roles|)
    && (db.phase.Closed? <==> db.custody.Unreferencing? || db.custody.Done?)
    && (db.custody.Joining? && db.custody.joined ==> AllExited(db.roles, db.custody.next))
    && (WorkersGone(db.custody) ==> AllExited(db.roles, |db.roles|))
    && (db.custody.Unlinking? ==> Unlinked(db.roles, db.custody.next))
    && (EngineDoomed(db.custody) ==> Unlinked(db.roles, |db.roles|))
    && (EngineGone(db.custody) ==> !db.engine)
    && (db.custody.Joining? || db.custody.Unlinking? ==> db.custody.next <= |db.roles|)
    && (!db.broken && !db.phase.Opening? ==> db.engine || EngineGone(db.custody))
  }

  lemma {:induction false} FetchesUpdate(roles: seq<Role>, i: nat, role: Role)
    requires i < |roles|
    ensures Fetches(roles[i := role]) + (if roles[i].fetching then 1 else 0) ==
            Fetches(roles) + (if role.fetching then 1 else 0)
    decreases |roles|
  {
    var n := |roles| - 1;
    if i < n {
      FetchesUpdate(roles[..n], i, role);
      assert roles[i := role][..n] == roles[..n][i := role];
    } else {
      assert roles[i := role][..n] == roles[..n];
    }
  }

  lemma {:induction false} NoFetchNoCount(roles: seq<Role>)
    requires forall i :: 0 <= i < |roles| ==> !roles[i].fetching
    ensures Fetches(roles) == 0
  {
    if roles != [] {
      NoFetchNoCount(roles[..|roles| - 1]);
    }
  }

  lemma FetchesAppend(roles: seq<Role>, role: Role)
    ensures Fetches(roles + [role]) == Fetches(roles) + if role.fetching then 1 else 0
  {
    assert (roles + [role])[..|roles|] == roles;
  }

  lemma DbOkKeptByOpening(db: Db, l: Local)
    requires DbOk(db) && LocalEnabled(db, l)
    requires l.EngineUp? || l.SessionUp? || l.OpenDone? || l.OpenFailed? || l.Retire? || l.DropHandle? || l.FetchUnrefs?
    ensures DbOk(LocalStep(db, l))
  {
    if l.SessionUp? {
      FetchesAppend(db.roles, Role(l.started, false, true, false, false));
    }
  }

  lemma DbOkKeptByStop(db: Db)
    requires DbOk(db) && LocalEnabled(db, StopNext)
    ensures DbOk(LocalStep(db, StopNext))
  {
    FetchesUpdate(db.roles, db.stopped, LocalStep(db, StopNext).roles[db.stopped]);
  }

  lemma DbOkKeptByUnlink(db: Db)
    requires DbOk(db) && LocalEnabled(db, UnlinkNext)
    ensures DbOk(LocalStep(db, UnlinkNext))
  {
    FetchesUpdate(db.roles, db.custody.next, LocalStep(db, UnlinkNext).roles[db.custody.next]);
  }

  lemma DbOkKeptByWorkers(db: Db, l: Local)
    requires DbOk(db) && LocalEnabled(db, l)
    requires l.WorkerFails? || l.WorkerExits?
    ensures DbOk(LocalStep(db, l))
  {
    FetchesUpdate(db.roles, l.i, LocalStep(db, l).roles[l.i]);
  }

  lemma DbOkKeptByFetch(db: Db, l: Local)
    requires DbOk(db) && LocalEnabled(db, l) && (l.FetchBegins? || l.FetchEnds?)
    ensures DbOk(LocalStep(db, l))
  {
    FetchesUpdate(db.roles, l.i, LocalStep(db, l).roles[l.i]);
  }

  lemma DbOkKeptByCleaner(db: Db, l: Local)
    requires DbOk(db) && LocalEnabled(db, l) && (l.JoinNext? || l.DropEngine? || l.Close?)
    ensures DbOk(LocalStep(db, l))
  {
  }

  lemma DbOkKept(db: Db, l: Local)
    requires DbOk(db) && LocalEnabled(db, l)
    ensures DbOk(LocalStep(db, l))
  {
    match l
    case StopNext => DbOkKeptByStop(db);
    case WorkerFails(_) => DbOkKeptByWorkers(db, l);
    case WorkerExits(_) => DbOkKeptByWorkers(db, l);
    case UnlinkNext => DbOkKeptByUnlink(db);
    case FetchBegins(_) => DbOkKeptByFetch(db, l);
    case FetchEnds(_) => DbOkKeptByFetch(db, l);
    case JoinNext(_) => DbOkKeptByCleaner(db, l);
    case DropEngine => DbOkKeptByCleaner(db, l);
    case Close => DbOkKeptByCleaner(db, l);
    case _ => DbOkKeptByOpening(db, l);
  }

  // -------------------------------------------------------------------------------------------
  // Global part

  predicate Distinct(ids: seq<DbId>) {
    forall i, j :: 0 <= i < j < |ids| ==> ids[i] != ids[j]
  }

  predicate BeingCleaned(c: Custody) {
    c.Joining? || c.Unlinking? || c.DroppingEngine? || c.Unregistering? || c.Closing? || c.Unreferencing?
  }

  predicate PathsUnique(r: Runtime)
    requires Bounded(r)
  {
    forall i, j :: 0 <= i < j < |r.registry| && r.dbs[r.registry[i]].path != "" ==>
      r.dbs[r.registry[i]].path != r.dbs[r.registry[j]].path
  }

  predicate RegistryOk(r: Runtime) {
    && Bounded(r) && Distinct(r.registry) && |r.registry| <= CAPACITY
    && (forall d :: 0 <= d < |r.dbs| ==> (InRegistry(r.dbs[d]) <==> d in r.registry))
    && PathsUnique(r)
  }

  predicate QueueOk(r: Runtime) {
    && r.enqueued == r.taken + r.queue && Distinct(r.enqueued)
    && (forall i :: 0 <= i < |r.enqueued| ==> r.enqueued[i] < |r.dbs|)
    && (forall d :: 0 <= d < |r.dbs| ==> (!r.dbs[d].custody.Held? <==> d in r.enqueued))
    && (forall d :: 0 <= d < |r.dbs| ==> (r.dbs[d].custody.Queued? <==> d in r.queue))
  }

  predicate CleanerOk(r: Runtime) {
    && (r.cleaning.Some? ==> r.cleaning.value < |r.dbs| && BeingCleaned(r.dbs[r.cleaning.value].custody))
    && (forall d :: 0 <= d < |r.dbs| && BeingCleaned(r.dbs[d].custody) ==> r.cleaning == Some(d))
  }

  predicate DbsOk(r: Runtime) {
    forall d :: 0 <= d < |r.dbs| ==> DbOk(r.dbs[d])
  }

  predicate RuntimeOk(r: Runtime) {
    DbsOk(r) && RegistryOk(r) && QueueOk(r) && CleanerOk(r)
  }

  // -------------------------------------------------------------------------------------------
  // Frames: what a change of one database leaves alone

  predicate Replaced(r: Runtime, t: Runtime, d: DbId) {
    && d < |r.dbs| == |t.dbs|
    && t.dbs == r.dbs[d := t.dbs[d]]
  }

  lemma RegistryFrame(r: Runtime, t: Runtime, d: DbId)
    requires RegistryOk(r) && Replaced(r, t, d) && t.registry == r.registry
    requires t.dbs[d].path == r.dbs[d].path && (InRegistry(t.dbs[d]) <==> InRegistry(r.dbs[d]))
    ensures RegistryOk(t)
  {
    forall i | 0 <= i < |r.registry| ensures t.dbs[t.registry[i]].path == r.dbs[r.registry[i]].path {
    }
  }

  lemma QueueFrame(r: Runtime, t: Runtime, d: DbId)
    requires QueueOk(r) && Replaced(r, t, d)
    requires t.queue == r.queue && t.enqueued == r.enqueued && t.taken == r.taken
    requires (t.dbs[d].custody.Held? <==> r.dbs[d].custody.Held?) && (t.dbs[d].custody.Queued? <==> r.dbs[d].custody.Queued?)
    ensures QueueOk(t)
  {
  }

  lemma CleanerFrame(r: Runtime, t: Runtime, d: DbId)
    requires CleanerOk(r) && Replaced(r, t, d) && t.cleaning == r.cleaning
    requires BeingCleaned(t.dbs[d].custody) <==> BeingCleaned(r.dbs[d].custody)
    ensures CleanerOk(t)
  {
  }

  lemma DbsFrame(r: Runtime, t: Runtime, d: DbId)
    requires DbsOk(r) && Replaced(r, t, d) && DbOk(t.dbs[d])
    ensures DbsOk(t)
  {
  }

  /** A local step never moves a database between registry, queue and cleaner. */
  lemma LocalStaysInPlace(db: Db, l: Local)
    requires LocalEnabled(db, l)
    ensures var after := LocalStep(db, l);
      && after.path == db.path
      && (InRegistry(after) <==> InRegistry(db))
      && (after.custody.Held? <==> db.custody.Held?)
      && (after.custody.Queued? <==> db.custody.Queued?)
      && (BeingCleaned(after.custody) <==> BeingCleaned(db.custody))
  {
  }

  lemma OkKeptByStep(r: Runtime, d: DbId, l: Local)
    requires RuntimeOk(r) && Possible(r, Step(d, l))
    ensures RuntimeOk(After(r, Step(d, l)))
  {
    var t := After(r, Step(d, l));
    DbOkKept(r.dbs[d], l);
    LocalStaysInPlace(r.dbs[d], l);
    DbsFrame(r, t, d);
    RegistryFrame(r, t, d);
    QueueFrame(r, t, d);
    CleanerFrame(r, t, d);
  }

  // -------------------------------------------------------------------------------------------
  // Admission

  predicate FirstHolder(entries: seq<(string, Phase)>, path: string, i: int) {
    0 <= i < |entries| && entries[i].0 == path && forall j :: 0 <= j < i ==> entries[j].0 != path
  }

  /** The scan finds the first entry with the wanted path, and only a retiring one yields 6. */
  lemma {:induction false} ReserveCodeMeaning(entries: seq<(string, Phase)>, path: string)
    ensures ReserveCode(entries, path) in {0, 2, 6}
    ensures ReserveCode(entries, path) == 0 <==> path == "" || forall i :: 0 <= i < |entries| ==> entries[i].0 != path
    ensures ReserveCode(entries, path) == 6 <==>
              path != "" && exists i :: FirstHolder(entries, path, i) && entries[i].1.Retiring?
  {
    if entries != [] {
      ReserveCodeMeaning(entries[1..], path);
      forall i | 0 < i < |entries| ensures entries[i] == entries[1..][i - 1] {
      }
      if path == "" || entries[0].0 != path {
        if ReserveCode(entries[1..], path) == 6 {
          var i :| FirstHolder(entries[1..], path, i) && entries[1..][i].1.Retiring?;
          assert FirstHolder(entries, path, i + 1);
        }
        if i :| path != "" && FirstHolder(entries, path, i) && entries[i].1.Retiring? {
          assert FirstHolder(entries[1..], path, i - 1);
        }
      } else {
        assert FirstHolder(entries, path, 0);
      }
    }
  }

  lemma RegisterKeepsRegistry(r: Runtime, path: string)
    requires RegistryOk(r) && AdmitCode(Entries(r), path) == 0
    ensures RegistryOk(After(r, Register(path)))
  {
    var entries := Entries(r);
    ReserveCodeMeaning(entries, path);
    var t := After(r, Register(path));
    assert t.dbs[|r.dbs|] == NewDb(path);
    assert InRegistry(t.dbs[|r.dbs|]);
    forall i | 0 <= i < |r.registry|
      ensures t.registry[i] == r.registry[i] && t.dbs[r.registry[i]] == r.dbs[r.registry[i]]
      ensures path != "" ==> r.dbs[r.registry[i]].path != path
    {
      assert entries[i].0 == r.dbs[r.registry[i]].path;
    }
    assert PathsUnique(t);
  }

  lemma OkKeptByRegister(r: Runtime, path: string)
    requires RuntimeOk(r)
    ensures RuntimeOk(After(r, Register(path)))
  {
    if AdmitCode(Entries(r), path) == 0 {
      RegisterKeepsRegistry(r, path);
      var t := After(r, Register(path));
      assert t.dbs[|r.dbs|] == NewDb(path);
      assert DbOk(NewDb(path));
    }
  }

  // -------------------------------------------------------------------------------------------
  // Queue and cleaner

  lemma {:induction false} EraseMembers(registry: seq<DbId>, d: DbId)
    requires Distinct(registry)
    ensures forall x :: x in Erase(registry, d) <==> x in registry && x != d
    ensures |Erase(registry, d)| <= |registry|
    ensures Distinct(Erase(registry, d))
    ensures forall i :: 0 <= i < |Erase(registry, d)| ==> Erase(registry, d)[i] in registry
  {
    if registry != [] {
      DistinctTail(registry);
      if registry[0] != d {
        EraseMembers(registry[1..], d);
        DistinctCons(registry[0], Erase(registry[1..], d));
      }
    }
  }

  lemma DistinctTail(ids: seq<DbId>)
    requires ids != [] && Distinct(ids)
    ensures Distinct(ids[1..]) && ids[0] !in ids[1..]
    ensures forall x :: x in ids <==> x == ids[0] || x in ids[1..]
  {
    assert ids == [ids[0]] + ids[1..];
  }

  lemma DistinctCons(d: DbId, ids: seq<DbId>)
    requires Distinct(ids) && d !in ids
    ensures Distinct([d] + ids)
  {
  }

  /** The custody changes outside local steps keep the local part. */
  lemma Recustody(db: Db, custody: Custody)
    requires DbOk(db)
    requires
      || (custody.Queued? && RetireRunning(db) && db.stopped == |db.roles|)
      || (custody == Joining(0, true) && db.custody.Queued?)
      || (custody == Unlinking(0) && db.custody.Joining? && db.custody.joined && db.custody.next == |db.roles|)
      || (custody.Quarantined? && db.custody.Joining?)
      || (custody.DroppingEngine? && db.custody.Unlinking? && db.custody.next == |db.roles|)
      || (custody.Closing? && db.custody.Unregistering?)
    ensures DbOk(db.(custody := custody))
  {
  }

  lemma LettingGo(db: Db)
    requires DbOk(db) && db.custody.Unreferencing?
    ensures DbOk(Unref(db.(custody := Done)))
  {
  }

  lemma OkKeptByEnqueue(r: Runtime, d: DbId)
    requires RuntimeOk(r) && Possible(r, Enqueue(d))
    ensures RuntimeOk(After(r, Enqueue(d)))
  {
    var t := After(r, Enqueue(d));
    Recustody(r.dbs[d], Queued);
    DbsFrame(r, t, d);
    RegistryFrame(r, t, d);
    CleanerFrame(r, t, d);
    assert d !in r.enqueued;
    assert t.enqueued == t.taken + t.queue;
  }

  lemma TakeKeepsQueue(r: Runtime)
    requires QueueOk(r) && Possible(r, Take)
    ensures QueueOk(After(r, Take))
  {
    var t := After(r, Take);
    assert r.queue == [r.queue[0]] + r.queue[1..];
    assert t.enqueued == t.taken + t.queue;
    forall i | 0 <= i < |t.queue| ensures t.queue[i] != r.queue[0] {
      assert r.enqueued[|r.taken|] == r.queue[0] && r.enqueued[|r.taken| + i + 1] == t.queue[i];
    }
    forall d | 0 <= d < |t.dbs| ensures t.dbs[d].custody.Queued? <==> d in t.queue {
      assert d in r.queue <==> d == r.queue[0] || d in t.queue;
    }
  }

  lemma OkKeptByTake(r: Runtime)
    requires RuntimeOk(r) && Possible(r, Take)
    ensures RuntimeOk(After(r, Take))
  {
    var d := r.queue[0];
    var t := After(r, Take);
    assert r.dbs[d].custody.Queued?;
    Recustody(r.dbs[d], Joining(0, true));
    DbsFrame(r, t, d);
    RegistryFrame(r, t, d);
    TakeKeepsQueue(r);
  }

  lemma OkKeptByProgress(r: Runtime, d: DbId, e: Event)
    requires RuntimeOk(r) && Possible(r, e) && (e == JoinDone(d) || e == UnlinkDone(d))
    ensures RuntimeOk(After(r, e))
  {
    var t := After(r, e);
    Recustody(r.dbs[d], t.dbs[d].custody);
    DbsFrame(r, t, d);
    RegistryFrame(r, t, d);
    QueueFrame(r, t, d);
    assert r.cleaning == Some(d);
  }

  lemma UnregisterKeepsRegistry(r: Runtime, d: DbId)
    requires RegistryOk(r) && Possible(r, Unregister(d))
    ensures RegistryOk(After(r, Unregister(d)))
  {
    EraseMembers(r.registry, d);
    ErasePreservesPaths(r, d);
    var t := After(r, Unregister(d));
    forall i | 0 <= i < |t.registry|
      ensures t.registry[i] < |r.dbs| && t.dbs[t.registry[i]].path == r.dbs[t.registry[i]].path
    {
      assert t.registry[i] in r.registry;
    }
  }

  lemma ErasePreservesPaths(r: Runtime, d: DbId)
    requires RegistryOk(r)
    ensures forall i, j :: 0 <= i < j < |Erase(r.registry, d)| ==>
              var a, b := Erase(r.registry, d)[i], Erase(r.registry, d)[j];
              a < |r.dbs| && b < |r.dbs| && (r.dbs[a].path != "" ==> r.dbs[a].path != r.dbs[b].path)
  {
    EraseMembers(r.registry, d);
    forall i, j | 0 <= i < j < |Erase(r.registry, d)|
      ensures var a, b := Erase(r.registry, d)[i], Erase(r.registry, d)[j];
              a < |r.dbs| && b < |r.dbs| && (r.dbs[a].path != "" ==> r.dbs[a].path != r.dbs[b].path)
    {
      var a, b := Erase(r.registry, d)[i], Erase(r.registry, d)[j];
      var x :| 0 <= x < |r.registry| && r.registry[x] == a;
      var y :| 0 <= y < |r.registry| && r.registry[y] == b;
      assert x != y;
    }
  }

  lemma OkKeptByUnregister(r: Runtime, d: DbId)
    requires RuntimeOk(r) && Possible(r, Unregister(d))
    ensures RuntimeOk(After(r, Unregister(d)))
  {
    var t := After(r, Unregister(d));
    Recustody(r.dbs[d], Closing);
    DbsFrame(r, t, d);
    UnregisterKeepsRegistry(r, d);
    QueueFrame(r, t, d);
    CleanerFrame(r, t, d);
  }

  lemma OkKeptByLetGo(r: Runtime, d: DbId)
    requires RuntimeOk(r) && Possible(r, LetGo(d))
    ensures RuntimeOk(After(r, LetGo(d)))
  {
    var t := After(r, LetGo(d));
    LettingGo(r.dbs[d]);
    DbsFrame(r, t, d);
    RegistryFrame(r, t, d);
    QueueFrame(r, t, d);
  }

  lemma RuntimeOkKept(r: Runtime, e: Event)
    requires RuntimeOk(r) && Possible(r, e)
    ensures RuntimeOk(After(r, e))
  {
    match e
    case Register(path) => OkKeptByRegister(r, path);
    case Step(d, l) => OkKeptByStep(r, d, l);
    case Enqueue(d) => OkKeptByEnqueue(r, d);
    case Take => OkKeptByTake(r);
    case JoinDone(d) => OkKeptByProgress(r, d, e);
    case UnlinkDone(d) => OkKeptByProgress(r, d, e);
    case Control(_) =>
    case Unregister(d) => OkKeptByUnregister(r, d);
    case LetGo(d) => OkKeptByLetGo(r, d);
  }
}
