/**
 The runtime object: its registry vector, its counted databases and the intrusive retirement
 queue, a list threaded through the databases themselves.
 */
module NativeRuntime {
  import opened Options
  import R = RuntimeProtocol

  class Database {
    const path: string
    var phase: R.Phase
    var refs: int
    var freed: bool
    var retirementNext: Database?
    ghost var enqueued: bool           // whether it ever entered the retirement queue

    /** Nothing enters the queue before its retirement, nor is linked before it enters. */
    ghost predicate Valid()
      reads this
    {
      (phase.Opening? || phase.Ready? ==> !enqueued) && (!enqueued ==> retirementNext == null)
    }

    constructor (path: string)
      ensures this.path == path && phase == R.Opening && refs == 1 && !freed && !enqueued && Valid()
    {
      this.path := path;
      phase, refs, freed, retirementNext, enqueued := R.Opening, 1, false, null, false;
    }

    /** Compare-and-swap: of all retiring threads exactly the one that finds it ready goes on. */
    method BeginRetire() returns (won: bool)
      requires Valid()
      modifies `phase
      ensures won <==> old(phase) == R.Ready
      ensures phase == if won then R.Retiring else old(phase)
      ensures Valid() && (won ==> !enqueued)
    {
      won := phase == R.Ready;
      if won {
        phase := R.Retiring;
      }
    }

    method Unref() returns (last: bool)
      requires refs > 0 && !freed
      modifies `refs, `freed
      ensures refs == old(refs) - 1 && (last <==> refs == 0) && freed == last
    {
      refs := refs - 1;
      last := refs == 0;
      if last {
        freed := true;
      }
    }
  }

  class Runtime {
    var databases: seq<Database>
    var first: Database?
    var last: Database?
    ghost var queue: seq<Database>

    /** The list from first to last threads exactly the queue, each database once. */
    ghost predicate Valid()
      reads this, queue
    {
      && (forall i, j :: 0 <= i < j < |queue| ==> queue[i] != queue[j])
      && first == (if queue == [] then null else queue[0])
      && last == (if queue == [] then null else queue[|queue| - 1])
      && (forall i :: 0 <= i < |queue| ==>
            queue[i].enqueued && queue[i].retirementNext == Successor(queue, i))
    }

    static ghost function Successor(q: seq<Database>, i: nat): Database? {
      if i + 1 < |q| then q[i + 1] else null
    }

    constructor ()
      ensures Valid() && queue == [] && databases == []
    {
      databases, first, last, queue := [], null, null, [];
    }

    function Entries(): seq<(string, R.Phase)>
      reads this, databases
    {
      seq(|databases|, i requires 0 <= i < |databases| reads this, databases => (databases[i].path, databases[i].phase))
    }

    method Reserve(db: Database) returns (code: int)
      modifies `databases, db`refs
      ensures code == R.AdmitCode(old(Entries()), db.path)
      ensures code == 0 ==> databases == old(databases) + [db] && db.refs == old(db.refs) + 1
      ensures code != 0 ==> databases == old(databases) && db.refs == old(db.refs)
    {
      var i := 0;
      while i < |databases|
        invariant 0 <= i <= |databases|
        invariant R.ReserveCode(Entries(), db.path) == R.ReserveCode(Entries()[i..], db.path)
      {
        assert Entries()[i..][0] == Entries()[i];
        if db.path != "" && databases[i].path == db.path {
          return if databases[i].phase.Retiring? then 6 else 2;
        }
        assert Entries()[i..][1..] == Entries()[i + 1..];
        i := i + 1;
      }
      if |databases| >= R.CAPACITY {
        return 2;
      }
      databases := databases + [db];
      db.refs := db.refs + 1;
      return 0;
    }

    /** The last section of a retirement, for the thread that won it. */
    method Enqueue(db: Database)
      requires Valid() && db.Valid() && db.phase.Retiring? && !db.enqueued
      modifies this, queue, db`enqueued
      ensures Valid() && queue == old(queue) + [db] && databases == old(databases)
      ensures db.Valid() && db.enqueued && db.phase == old(db.phase) && db.refs == old(db.refs)
      ensures forall d :: d in old(queue) ==> d.phase == old(d.phase) && d.refs == old(d.refs) && d.freed == old(d.freed)
    {
      if last != null {
        assert last in queue;
        last.retirementNext := db;
      } else {
        first := db;
      }
      last := db;
      queue := queue + [db];
      db.enqueued := true;
    }

    /**
     A retirement, but for the sections between that stop the sessions: the database enters the queue
     exactly if it was ready.
     */
    method Retire(db: Database)
      requires Valid() && db.Valid()
      modifies this, queue, db
      ensures Valid() && db.Valid() && databases == old(databases)
      ensures queue == old(queue) + (if old(db.phase) == R.Ready then [db] else [])
      ensures db.phase == if old(db.phase) == R.Ready then R.Retiring else old(db.phase)
    {
      var won := db.BeginRetire();
      if won {
        Enqueue(db);
      }
    }

    /** What the cleaner does when it wakes. */
    method TakeFirst() returns (db: Database)
      requires Valid() && first != null
      modifies this
      ensures Valid() && old(queue) == [db] + queue && databases == old(databases)
    {
      db := first;
      ghost var rest := queue[1..];
      assert queue == [db] + rest && db.retirementNext == Successor(queue, 0);
      forall i | 0 <= i < |rest| ensures rest[i].enqueued && rest[i].retirementNext == Successor(rest, i) {
        assert rest[i] == queue[i + 1] && Successor(rest, i) == Successor(queue, i + 1);
      }
      assert rest != [] ==> rest[|rest| - 1] == queue[|queue| - 1];
      first := db.retirementNext;
      if first == null {
        last := null;
      }
      queue := rest;
    }

    method Unregister(db: Database)
      modifies `databases
      ensures databases == R.Erase(old(databases), db)
    {
      var i := 0;
      while i < |databases| && databases[i] != db
        invariant 0 <= i <= |databases|
        invariant db !in databases[..i]
      {
        i := i + 1;
      }
      EraseAt(databases, db, i);
      if i < |databases| {
        databases := databases[..i] + databases[i + 1..];
      }
    }
  }

  /** Erasing a database drops the position where it first stands, if any. */
  lemma {:induction false} EraseAt(databases: seq<Database>, db: Database, i: nat)
    requires i <= |databases| && db !in databases[..i] && (i < |databases| ==> databases[i] == db)
    ensures R.Erase(databases, db) ==
            if i < |databases| then databases[..i] + databases[i + 1..] else databases
  {
    if i > 0 {
      assert databases[0] == databases[..i][0] && databases[1..][..i - 1] == databases[..i][1..];
      EraseAt(databases[1..], db, i - 1);
    }
  }
}
