/**
 Retirement comes to its end: a retiring thread always reaches the queue, and the cleaner, which waits
 for nothing but workers to exit, lets go of a database in a fixed number of its steps.
 */
module Retirement {
  import opened Options
  import opened RuntimeProtocol
  import opened RuntimeInvariant
  import opened RuntimeSafety

  // -------------------------------------------------------------------------------------------
  // Up to the queue

  /** Steps of the thread that retires a database until it is queued. */
  function RetirerRank(db: Db): nat {
    if RetireRunning(db) && db.stopped <= |db.roles| then |db.roles| - db.stopped + 1 else 0
  }

  function RetirerEvent(db: Db, d: DbId): Event {
    if db.stopped < |db.roles| then Step(d, StopNext) else Enqueue(d)
  }

  /** An opening that succeeds or fails, at any point, leaves a database that a first request retires. */
  lemma EveryOpeningCanRetire(db: Db, l: Local)
    requires DbOk(db) && db.phase.Opening?
    ensures LocalEnabled(db, OpenFailed) && (LocalEnabled(db, OpenDone) <==> db.engine && !db.broken)
    ensures (l.OpenFailed? || l.OpenDone?) && LocalEnabled(db, l) ==>
              var open := LocalStep(db, l);
              open.phase.Ready? && open.roles == db.roles && open.refs == db.refs && open.engine == db.engine &&
              LocalEnabled(open, Retire) && RetireRunning(LocalStep(open, Retire))
  {
  }

  /** Of all requests exactly the first on a ready database starts a retirement. */
  lemma RetireTakesEffect(db: Db)
    requires DbOk(db) && LocalEnabled(db, Retire)
    ensures var after := LocalStep(db, Retire);
      && !after.phase.Ready?
      && (db.phase.Ready? ==> RetireRunning(after) && RetirerRank(after) == |db.roles| + 1)
      && (!db.phase.Ready? ==> after == db)
  {
  }

  /** The retiring thread can always go on, and each of its steps brings the queue nearer. */
  lemma RetirerGoesOn(r: Runtime, d: DbId)
    requires RuntimeOk(r) && d < |r.dbs| && RetireRunning(r.dbs[d])
    ensures var e := RetirerEvent(r.dbs[d], d);
      && Possible(r, e)
      && RetirerRank(r.dbs[d]) > 0
      && RetirerRank(After(r, e).dbs[d]) + 1 == RetirerRank(r.dbs[d])
      && (RetirerRank(r.dbs[d]) == 1 ==> After(r, e).dbs[d].custody.Queued? && After(r, e).queue == r.queue + [d])
  {
    assert DbOk(r.dbs[d]);
  }

  // -------------------------------------------------------------------------------------------
  // From the queue on

  /** In custody, and no join has failed. */
  predicate OnItsWay(db: Db) {
    !db.custody.Held? && !db.custody.Quarantined? && (db.custody.Joining? ==> db.custody.joined)
  }

  /** Cleaner steps until the runtime has let go of the database. */
  function CleanerRank(db: Db): int {
    var n := |db.roles|;
    match db.custody
    case Queued => 2 * n + 7
    case Joining(next, _) => 2 * n - next + 6
    case Unlinking(next) => n - next + 5
    case DroppingEngine => 4
    case Unregistering => 3
    case Closing => 2
    case Unreferencing => 1
    case _ => 0
  }

  function CleanerEvent(r: Runtime, d: DbId): Event
    requires d < |r.dbs|
  {
    var db := r.dbs[d];
    match db.custody
    case Joining(next, _) => if next < |db.roles| then Step(d, JoinNext(false)) else JoinDone(d)
    case Unlinking(next) => if next < |db.roles| then Step(d, UnlinkNext) else UnlinkDone(d)
    case DroppingEngine => Step(d, DropEngine)
    case Unregistering => Unregister(d)
    case Closing => Step(d, Close)
    case Unreferencing => LetGo(d)
    case _ => Take
  }

  /** What the cleaner waits for: the worker it is joining. */
  predicate AwaitsWorker(db: Db) {
    && db.custody.Joining? && db.custody.next < |db.roles|
    && db.roles[db.custody.next].started && !db.roles[db.custody.next].exited
  }

  lemma CleanerGoesOn(r: Runtime, d: DbId)
    requires RuntimeOk(r) && r.cleaning == Some(d) && OnItsWay(r.dbs[d])
    ensures Possible(r, CleanerEvent(r, d)) || AwaitsWorker(r.dbs[d])
    ensures ByCleaner(r, CleanerEvent(r, d), d)
  {
    assert DbOk(r.dbs[d]);
  }

  /** An idle cleaner takes the first database of the queue. */
  lemma CleanerTakesNext(r: Runtime)
    requires RuntimeOk(r) && r.cleaning.None? && r.queue != []
    ensures Possible(r, Take) && After(r, Take).cleaning == Some(r.queue[0]) && OnItsWay(r.dbs[r.queue[0]])
  {
    assert r.queue[0] in r.queue;
    assert r.enqueued[|r.taken|] == r.queue[0];
  }

  predicate ByCleaner(r: Runtime, e: Event, d: DbId) {
    match e
    case Step(x, l) => x == d && (l.JoinNext? || l.UnlinkNext? || l.DropEngine? || l.Close?)
    case Take => r.queue != [] && r.queue[0] == d
    case JoinDone(x) => x == d
    case UnlinkDone(x) => x == d
    case Unregister(x) => x == d
    case LetGo(x) => x == d
    case _ => false
  }

  predicate FailsJoin(e: Event, d: DbId) {
    e == Step(d, JoinNext(true))
  }

  lemma LocalKeepsRank(db: Db, l: Local)
    requires DbOk(db) && OnItsWay(db) && LocalEnabled(db, l) && l != JoinNext(true)
    ensures OnItsWay(LocalStep(db, l))
    ensures CleanerRank(LocalStep(db, l)) + (if l.JoinNext? || l.UnlinkNext? || l.DropEngine? || l.Close? then 1 else 0) ==
            CleanerRank(db)
  {
  }

  /** Only the cleaner moves a database on, by one with each of its steps. */
  lemma RankFalls(r: Runtime, e: Event, d: DbId)
    requires RuntimeOk(r) && Possible(r, e) && d < |r.dbs| && OnItsWay(r.dbs[d]) && !FailsJoin(e, d)
    ensures d < |After(r, e).dbs| && OnItsWay(After(r, e).dbs[d])
    ensures CleanerRank(After(r, e).dbs[d]) + (if ByCleaner(r, e, d) then 1 else 0) == CleanerRank(r.dbs[d])
  {
    assert DbOk(r.dbs[d]);
    if e.Step? && e.d == d {
      LocalKeepsRank(r.dbs[d], e.local);
    } else if !ByCleaner(r, e, d) {
      OthersLeaveAlone(r, e, d);
    }
    if e.Take? {
      assert r.queue[0] in r.queue;
    }
  }

  lemma OthersLeaveAlone(r: Runtime, e: Event, d: DbId)
    requires RuntimeOk(r) && Possible(r, e) && d < |r.dbs| && OnItsWay(r.dbs[d])
    requires !ByCleaner(r, e, d) && !(e.Step? && e.d == d)
    ensures d < |After(r, e).dbs| && After(r, e).dbs[d] == r.dbs[d]
  {
  }

  lemma RankZeroIsDone(db: Db)
    requires DbOk(db) && OnItsWay(db)
    ensures CleanerRank(db) >= 0 && (CleanerRank(db) == 0 <==> db.custody.Done?)
    ensures db.custody.Done? ==> db.phase.Closed? && !db.engine && AllExited(db.roles, |db.roles|) && !InRegistry(db)
  {
  }

  function CleanerSteps(r: Runtime, es: seq<Event>, d: DbId): nat
    requires Runs(r, es)
    decreases |es|
  {
    if es == [] then 0 else CleanerSteps(After(r, es[0]), es[1..], d) + if ByCleaner(r, es[0], d) then 1 else 0
  }

  predicate NoFailedJoin(es: seq<Event>, d: DbId) {
    es == [] || (!FailsJoin(es[0], d) && NoFailedJoin(es[1..], d))
  }

  lemma {:induction false} RankAlong(r: Runtime, es: seq<Event>, d: DbId)
    requires RuntimeOk(r) && Runs(r, es) && d < |r.dbs| && OnItsWay(r.dbs[d]) && NoFailedJoin(es, d)
    ensures d < |AfterAll(r, es).dbs| && OnItsWay(AfterAll(r, es).dbs[d])
    ensures CleanerRank(AfterAll(r, es).dbs[d]) + CleanerSteps(r, es, d) == CleanerRank(r.dbs[d])
    decreases |es|
  {
    if es != [] {
      RankFalls(r, es[0], d);
      RuntimeOkKept(r, es[0]);
      RankAlong(After(r, es[0]), es[1..], d);
    }
  }

  /**
   On every run without a failed join, a queued database is let go exactly when the cleaner has taken
   CleanerRank steps on it: closed, without engine, all workers exited, its path free again.
   */
  lemma RetirementEnds(r: Runtime, es: seq<Event>, d: DbId)
    requires RuntimeOk(r) && Runs(r, es) && d < |r.dbs| && OnItsWay(r.dbs[d]) && NoFailedJoin(es, d)
    ensures var t := AfterAll(r, es);
      && d < |t.dbs| && CleanerSteps(r, es, d) <= CleanerRank(r.dbs[d])
      && (t.dbs[d].custody.Done? <==> CleanerSteps(r, es, d) == CleanerRank(r.dbs[d]))
      && (t.dbs[d].custody.Done? ==> t.dbs[d].phase.Closed? && !t.dbs[d].engine && d !in t.registry &&
                                     AllExited(t.dbs[d].roles, |t.dbs[d].roles|))
  {
    OkAlong(r, es);
    RankAlong(r, es, d);
    assert DbOk(AfterAll(r, es).dbs[d]);
    RankZeroIsDone(AfterAll(r, es).dbs[d]);
  }

  // -------------------------------------------------------------------------------------------
  // A worker that cannot be joined

  /** Set aside for good: registered, with its engine, for a worker may still run on it. */
  predicate SetAside(r: Runtime, d: DbId) {
    d < |r.dbs| && r.dbs[d].custody.Quarantined? && d in r.registry
  }

  /** A failed join sets the database aside when the joins are over, and frees the cleaner for the next. */
  lemma FailedJoinSetsAside(r: Runtime, d: DbId)
    requires RuntimeOk(r) && Possible(r, JoinDone(d)) && !r.dbs[d].custody.joined
    ensures SetAside(After(r, JoinDone(d)), d) && After(r, JoinDone(d)).cleaning.None?
    ensures After(r, JoinDone(d)).dbs[d].engine == r.dbs[d].engine
  {
  }

  lemma SetAsideKept(r: Runtime, e: Event, d: DbId)
    requires RuntimeOk(r) && Possible(r, e) && SetAside(r, d)
    ensures SetAside(After(r, e), d) && After(r, e).dbs[d].engine == r.dbs[d].engine
  {
    assert DbOk(r.dbs[d]);
    if e.Unregister? {
      EraseMembers(r.registry, e.d);
    }
    if e.Take? {
      assert r.queue[0] in r.queue;
    }
  }

  /** On every run a database set aside stays so: its engine is never destroyed and its path never freed. */
  lemma {:induction false} QuarantineIsPermanent(r: Runtime, es: seq<Event>, d: DbId)
    requires RuntimeOk(r) && Runs(r, es) && SetAside(r, d)
    ensures SetAside(AfterAll(r, es), d) && AfterAll(r, es).dbs[d].engine == r.dbs[d].engine
    ensures !AfterAll(r, es).dbs[d].freed
    decreases |es|
  {
    if es != [] {
      SetAsideKept(r, es[0], d);
      RuntimeOkKept(r, es[0]);
      QuarantineIsPermanent(After(r, es[0]), es[1..], d);
    } else {
      assert DbOk(r.dbs[d]);
    }
  }
}
