/**
 The process-wide runtime: the registry of databases, counted ownership, retirement and the
 cleaner.  A database changes by its own local steps; the registry, the retirement queue and the
 cleaner tie the databases together.
 */
module RuntimeProtocol {
  import opened Options

  /** Position of a database in the order of registration. */
  type DbId = nat

  const CAPACITY := 64

  datatype Phase = Opening | Ready | Retiring | Closed

  /** What the runtime sees of one session; linked: its connection object exists. */
  datatype Role = Role(started: bool, exited: bool, linked: bool, stop: bool, fetching: bool)

  /** How far a database has come on its way through retirement; Done: the runtime let go of it. */
  datatype Custody =
    | Held
    | Queued
    | Joining(next: nat, joined: bool)
    | Unlinking(next: nat)
    | DroppingEngine
    | Unregistering
    | Closing
    | Unreferencing
    | Quarantined
    | Done

  datatype Db = Db(
    path: string,
    phase: Phase,
    refs: int,
    handles: nat,       // references of the opener or of the caller it was returned to
    ending: nat,        // cursors that gave their fetch lease back but not yet their reference
    engine: bool,
    roles: seq<Role>,
    broken: bool,       // opening failed; no further session is added
    stopped: nat,       // sessions the retiring thread has stopped so far
    custody: Custody,
    freed: bool)

  // -------------------------------------------------------------------------------------------
  // Reference counting

  function Fetches(roles: seq<Role>): nat {
    if roles == [] then 0
    else Fetches(roles[..|roles| - 1]) + if roles[|roles| - 1].fetching then 1 else 0
  }

  function Ref(db: Db): Db {
    db.(refs := db.refs + 1)
  }

  /** Giving up the last reference frees the object. */
  function Unref(db: Db): Db {
    db.(refs := db.refs - 1, freed := db.freed || db.refs == 1)
  }

  // -------------------------------------------------------------------------------------------
  // Local steps

  datatype Local =
    | EngineUp
    | SessionUp(started: bool)
    | OpenDone
    | OpenFailed
    | Retire
    | StopNext
    | DropHandle
    | WorkerFails(i: nat)
    | WorkerExits(i: nat)
    | FetchBegins(i: nat)
    | FetchEnds(i: nat)
    | FetchUnrefs
    | JoinNext(failed: bool)
    | UnlinkNext
    | DropEngine
    | Close

  predicate RoleAt(db: Db, i: nat) {
    i < |db.roles| && db.roles[i].started && !db.roles[i].exited
  }

  /** Retirement is under way on a thread that still needs its own reference. */
  predicate RetireRunning(db: Db) {
    db.phase.Retiring? && db.custody.Held?
  }

  /** Who may take a step: the opener, a handle holder, a worker, a cursor holder, or the cleaner. */
  predicate LocalEnabled(db: Db, l: Local) {
    match l
    case EngineUp => db.phase.Opening? && !db.engine && db.roles == [] && !db.broken
    case SessionUp(_) => db.phase.Opening? && db.engine && !db.broken
    case OpenDone => db.phase.Opening? && db.engine && !db.broken
    case OpenFailed => db.phase.Opening?
    case Retire => !db.phase.Opening? && db.handles > 0
    case StopNext => RetireRunning(db) && db.stopped < |db.roles|
    case DropHandle =>
      (db.phase.Retiring? || db.phase.Closed?) && db.handles > (if RetireRunning(db) then 1 else 0)
    case WorkerFails(i) => RoleAt(db, i)
    case WorkerExits(i) => RoleAt(db, i) && db.roles[i].stop && !db.roles[i].fetching
    case FetchBegins(i) =>
      !db.phase.Opening? && db.handles > 0 && RoleAt(db, i) && !db.roles[i].stop && !db.roles[i].fetching
    case FetchEnds(i) => i < |db.roles| && db.roles[i].fetching
    case FetchUnrefs => db.ending > 0
    case JoinNext(failed) =>
      db.custody.Joining? && db.custody.next < |db.roles| &&
      (failed || (db.roles[db.custody.next].started ==> db.roles[db.custody.next].exited))
    case UnlinkNext => db.custody.Unlinking? && db.custody.next < |db.roles|
    case DropEngine => db.custody.DroppingEngine?
    case Close => db.custody.Closing?
  }

  function WithRole(db: Db, i: nat, role: Role): Db
    requires i < |db.roles|
  {
    db.(roles := db.roles[i := role])
  }

  function LocalStep(db: Db, l: Local): Db
    requires LocalEnabled(db, l)
  {
    match l
    case EngineUp => db.(engine := true)
    case SessionUp(started) => db.(roles := db.roles + [Role(started, false, true, false, false)], broken := !started)
    case OpenDone => db.(phase := Ready)
    case OpenFailed => db.(phase := Ready, broken := true)
    case Retire => if db.phase.Ready? then db.(phase := Retiring) else db
    case StopNext => WithRole(db, db.stopped, db.roles[db.stopped].(stop := true)).(stopped := db.stopped + 1)
    case DropHandle => Unref(db.(handles := db.handles - 1))
    case WorkerFails(i) => WithRole(db, i, db.roles[i].(stop := true))
    case WorkerExits(i) => WithRole(db, i, db.roles[i].(exited := true, linked := false))
    case FetchBegins(i) => Ref(WithRole(db, i, db.roles[i].(fetching := true)))
    case FetchEnds(i) => WithRole(db, i, db.roles[i].(fetching := false)).(ending := db.ending + 1)
    case FetchUnrefs => Unref(db.(ending := db.ending - 1))
    case JoinNext(failed) => db.(custody := Joining(db.custody.next + 1, db.custody.joined && !failed))
    case UnlinkNext =>
      WithRole(db, db.custody.next, db.roles[db.custody.next].(linked := false)).(custody := Unlinking(db.custody.next + 1))
    case DropEngine => db.(engine := false, custody := Unregistering)
    case Close => db.(phase := Closed, custody := Unreferencing)
  }

  // -------------------------------------------------------------------------------------------
  // The runtime

  datatype Runtime = Runtime(
    dbs: seq<Db>,
    registry: seq<DbId>,
    queue: seq<DbId>,
    cleaning: Option<DbId>,
    enqueued: seq<DbId>,      // history: databases ever enqueued
    taken: seq<DbId>)         // history: databases ever handed to the cleaner

  const FRESH_RUNTIME := Runtime([], [], [], None, [], [])

  predicate Bounded(r: Runtime) {
    forall i :: 0 <= i < |r.registry| ==> r.registry[i] < |r.dbs|
  }

  /** The registry as a scan sees it: path and phase of each entry, in order. */
  function Entries(r: Runtime): seq<(string, Phase)>
    requires Bounded(r)
  {
    seq(|r.registry|, i requires 0 <= i < |r.registry| => (r.dbs[r.registry[i]].path, r.dbs[r.registry[i]].phase))
  }

  /** 0 admits; 6: the path's owner is retiring; 2: an active owner, or no room. */
  function ReserveCode(entries: seq<(string, Phase)>, path: string): int {
    if entries == [] then 0
    else if path != "" && entries[0].0 == path then
      if entries[0].1.Retiring? then 6 else 2
    else ReserveCode(entries[1..], path)
  }

  function AdmitCode(entries: seq<(string, Phase)>, path: string): int {
    var code := ReserveCode(entries, path);
    if code != 0 then code else if |entries| >= CAPACITY then 2 else 0
  }

  datatype Event =
    | Register(path: string)
    | Step(d: DbId, local: Local)
    | Enqueue(d: DbId)
    | Take
    | JoinDone(d: DbId)
    | UnlinkDone(d: DbId)
    | Control(d: DbId)
    | Unregister(d: DbId)
    | LetGo(d: DbId)

  predicate Exists(r: Runtime, d: DbId) {
    d < |r.dbs|
  }

  predicate Possible(r: Runtime, e: Event) {
    match e
    case Register(_) => Bounded(r)
    case Step(d, l) => Exists(r, d) && LocalEnabled(r.dbs[d], l)
    case Enqueue(d) => Exists(r, d) && RetireRunning(r.dbs[d]) && r.dbs[d].stopped == |r.dbs[d].roles|
    case Take => r.cleaning.None? && r.queue != [] && r.queue[0] < |r.dbs|
    case JoinDone(d) => Exists(r, d) && r.dbs[d].custody.Joining? && r.dbs[d].custody.next == |r.dbs[d].roles|
    case UnlinkDone(d) => Exists(r, d) && r.dbs[d].custody.Unlinking? && r.dbs[d].custody.next == |r.dbs[d].roles|
    case Control(d) => Exists(r, d) && d in r.registry && (r.dbs[d].phase.Ready? || r.dbs[d].phase.Retiring?)
    case Unregister(d) => Exists(r, d) && r.dbs[d].custody.Unregistering?
    case LetGo(d) => Exists(r, d) && r.dbs[d].custody.Unreferencing?
  }

  /** Erases the first occurrence. */
  function Erase<T(==)>(registry: seq<T>, d: T): seq<T> {
    if registry == [] then []
    else if registry[0] == d then registry[1..]
    else [registry[0]] + Erase(registry[1..], d)
  }

  function NewDb(path: string): Db {
    Db(path, Opening, 2, 1, 0, false, [], false, 0, Held, false)
  }

  function After(r: Runtime, e: Event): Runtime
    requires Possible(r, e)
  {
    match e
    case Register(path) =>
      if AdmitCode(Entries(r), path) != 0 then r
      else r.(dbs := r.dbs + [NewDb(path)], registry := r.registry + [|r.dbs|])
    case Step(d, l) => r.(dbs := r.dbs[d := LocalStep(r.dbs[d], l)])
    case Enqueue(d) =>
      r.(dbs := r.dbs[d := r.dbs[d].(custody := Queued)], queue := r.queue + [d], enqueued := r.enqueued + [d])
    case Take =>
      var d := r.queue[0];
      r.(dbs := r.dbs[d := r.dbs[d].(custody := Joining(0, true))], queue := r.queue[1..],
         cleaning := Some(d), taken := r.taken + [d])
    case JoinDone(d) =>
      if r.dbs[d].custody.joined then r.(dbs := r.dbs[d := r.dbs[d].(custody := Unlinking(0))])
      else r.(dbs := r.dbs[d := r.dbs[d].(custody := Quarantined)], cleaning := None)
    case UnlinkDone(d) => r.(dbs := r.dbs[d := r.dbs[d].(custody := DroppingEngine)])
    case Control(_) => r
    case Unregister(d) =>
      r.(dbs := r.dbs[d := r.dbs[d].(custody := Closing)], registry := Erase(r.registry, d))
    case LetGo(d) => r.(dbs := r.dbs[d := Unref(r.dbs[d].(custody := Done))], cleaning := None)
  }
}
