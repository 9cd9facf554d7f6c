/**
 The session object itself: its fields, and one method for each critical section or unlocked
 stretch of the bridge.  Every method is proved to take the object's view exactly as the protocol
 does and to return the protocol's code, so the run theorems speak about this object.
 */
module NativeSession {
  import opened Options
  import opened Engine
  import P = Protocol
  import I = Invariants

  type Id = P.Id

  /** The engine's durable state, shared by every connection of a database. */
  class Durable {
    var store: Store

    constructor (store: Store)
      ensures this.store == store
    {
      this.store := store;
    }
  }

  /** An engine connection with at most one open transaction. */
  class Connection {
    const durable: Durable
    var transaction: Transaction

    constructor (durable: Durable)
      ensures this.durable == durable && transaction == None
    {
      this.durable := durable;
      transaction := None;
    }

    method Persist(writes: seq<Write>)
      modifies durable
      ensures durable.store == Replay(old(durable.store), writes)
    {
      var i := 0;
      while i < |writes|
        invariant 0 <= i <= |writes|
        invariant durable.store == Replay(old(durable.store), writes[..i])
      {
        assert writes[..i + 1][..i] == writes[..i];
        durable.store := Apply(durable.store, writes[i]);
        i := i + 1;
      }
      assert writes[..|writes|] == writes;
    }

    /** The three transaction controls; the result says whether the call threw. */
    method RunControl(control: Control, reply: Reply) returns (threw: bool)
      modifies this, durable
      ensures var out := Engine.RunControl(old(transaction), control, reply);
        && transaction == out.transaction
        && durable.store == Replay(old(durable.store), out.durable)
        && (threw <==> out.code == 3) && (!threw <==> out.code == 0)
    {
      match control
      case Begin =>
        if transaction.Some? || reply.fault {
          transaction := if reply.keeps then transaction else None;
          return true;
        }
        transaction := Some([]);
        return false;
      case Commit =>
        if transaction.None? {
          return true;
        }
        var batch := transaction.value;
        if !reply.fault || reply.took {
          Persist(batch);
          transaction := None;
        } else {
          transaction := if reply.keeps then transaction else None;
        }
        return reply.fault;
      case Rollback =>
        if transaction.Some? {
          if reply.fault {
            transaction := if reply.keeps then transaction else None;
            return true;
          }
          transaction := None;
        }
        return false;
    }

    /** Running an accepted text: the code, the result's rows if there is one, and the statement if there is one. */
    method RunAccepted(query: Query, reply: Reply) returns (code: int, rows: Option<seq<Row>>, prepared: bool)
      requires Acceptable(query.text)
      modifies this, durable
      ensures var out := RunText(old(transaction), query, reply);
        && transaction == out.transaction
        && durable.store == Replay(old(durable.store), out.durable)
        && code == out.code && rows == out.rows && prepared == out.prepared
    {
      if reply.fault {
        if reply.took && transaction.None? {
          Persist(reply.writes);
        }
        transaction := if reply.keeps then transaction else None;
        return 3, if reply.failedResult then Some([]) else None, query.parameters && reply.prepared;
      }
      if transaction.Some? {
        transaction := Some(transaction.value + reply.writes);
      } else {
        Persist(reply.writes);
      }
      return 0, Some(reply.rows), query.parameters;
    }
  }

  class Session {
    var connection: Connection?
    var retired: Connection?           // the worker's local while it destroys the connection
    var statement: Option<Id>
    var result: Option<P.ResultSet>
    var unreadRow: bool
    var rowsRead: nat
    var pending: Option<P.Job>
    var id: Id
    var lease: Id
    var leaseAbandoned: bool
    var leaseFailed: bool
    var busy: bool
    var ready: bool
    var stop: bool
    var cancel: bool
    var discard: bool
    var fetching: bool
    var error: int
    var cursor: P.Cursor
    var worker: P.Worker

    constructor (durable: Durable)
      ensures View() == P.FRESH_SESSION && connection != null && connection.durable == durable && fresh(connection)
    {
      connection := new Connection(durable);
      retired := null;
      statement, result, unreadRow, rowsRead, pending := None, None, false, 0, None;
      id, lease, leaseAbandoned, leaseFailed := 0, 0, false, false;
      busy, ready, stop, cancel, discard, fetching := false, false, false, false, false, false;
      error, cursor, worker := 0, P.Closed, P.Waiting;
    }

    function LinkView(): P.Link
      reads this, connection, retired
    {
      P.Link(connection != null,
             if connection != null then connection.transaction
             else if retired != null then retired.transaction else None)
    }

    function View(): P.Session
      reads this, connection, retired
    {
      P.Session(
        P.Operation(id, busy, ready, cancel, discard, error), stop, P.Lease(lease, leaseAbandoned, leaseFailed),
        pending, P.Held(result, statement, unreadRow, rowsRead), P.Fetch(fetching, cursor), LinkView(), worker)
    }

    // -----------------------------------------------------------------------------------------
    // API threads

    method AcquireLease(newLease: Id) returns (code: int)
      modifies this
      ensures View() == P.AcquireLease(old(View()), newLease)
      ensures code == if P.CanAcquireLease(old(View()), newLease) then 0 else 2
    {
      if newLease == 0 {
        return 2;
      }
      if busy || stop || lease != 0 {
        return 2;
      }
      lease := newLease;
      return 0;
    }

    method ReleaseLease(held: Id) returns (code: int)
      modifies this
      ensures View() == P.ReleaseLease(old(View()), held)
      ensures code == if P.CanReleaseLease(old(View()), held) then 1 else 0
    {
      if held == 0 || lease != held {
        return 0;
      }
      leaseAbandoned, cancel, discard := true, true, true;
      return 1;
    }

    method Reserve(newId: Id, under: Id) returns (code: int)
      modifies this
      ensures View() == P.Reserve(old(View()), newId, under)
      ensures code == if P.CanReserve(old(View()), under) then 0 else 2
    {
      if busy || stop || lease != under || leaseAbandoned || leaseFailed {
        return 2;
      }
      busy := true;
      id := newId;
      return 0;
    }

    method Submit(job: P.Job, cancelledNow: bool) returns (code: int)
      modifies this
      ensures View() == P.Submit(old(View()), job, cancelledNow)
      ensures code == if P.CanSubmit(old(View()), job.id) then 0 else 2
    {
      if !busy || id != job.id || stop || cancel || discard || pending.Some? || ready {
        return 2;
      }
      pending := Some(job);
      id := job.id;
      busy := true;
      cancel := cancelledNow;
      return 0;
    }

    method SubmitControl(job: P.Job) returns (code: int)
      modifies this
      ensures View() == P.SubmitControl(old(View()), job)
      ensures code == if P.CanSubmitControl(old(View()), job.id) then 0 else 2
    {
      if id != job.id || stop || cancel || leaseAbandoned {
        return 2;
      }
      pending := Some(job);
      return 0;
    }

    method Cancel(op: Id, abandon: bool) returns (code: int)
      modifies this
      ensures View() == P.Cancel(old(View()), op, abandon)
      ensures code == if P.CanCancel(old(View()), op) then 1 else 0
    {
      if !busy || id != op {
        return 0;
      }
      cancel := true;
      if abandon {
        discard := true;
      }
      return 1;
    }

    method Finish(op: Id) returns (code: int)
      modifies this
      ensures View() == P.Finish(old(View()), op)
      ensures code == if P.CanFinish(old(View()), op) then 1 else 0
    {
      if !busy || id != op || !ready {
        return 0;
      }
      discard := true;
      return 1;
    }

    method State() returns (code: int)
      ensures code == P.State(View())
    {
      code := if stop then 3 else if ready then 2 else if busy then 1 else if lease != 0 then 4 else 0;
    }

    method RequestStop()
      modifies this
      ensures View() == P.RequestStop(old(View()))
    {
      stop, cancel, discard := true, true, true;
    }

    /** The controller's visit: hit says whether the connection is interrupted. */
    method Interrupt() returns (hit: bool)
      ensures hit <==> P.Interrupts(View())
      ensures hit ==> connection != null
    {
      hit := connection != null && busy && !ready && (cancel || stop);
    }

    // -----------------------------------------------------------------------------------------
    // The fetching thread

    method FetchBegin(op: Id) returns (code: int)
      modifies this
      ensures View() == P.FetchBegin(old(View()), op)
      ensures code == if P.CanFetchBegin(old(View()), op) then 0 else 2
    {
      if id != op || !ready || stop || discard || fetching || error != 0 || result.None? {
        return 2;
      }
      fetching := true;
      cursor := P.Open(op, false);
      return 0;
    }

    method FetchNext(fault: bool, lost: bool) returns (code: int)
      requires P.CanFetchRow(View())
      modifies this
      ensures View() == P.FetchNext(old(View()), fault, lost)
      ensures code == P.FetchNextCode(old(View()), fault)
    {
      cursor := P.Open(cursor.op, false);
      if unreadRow {
        unreadRow := false;
      } else {
        var r := result.value;
        if fault {
          result := Some(r.(next := if lost && r.next < |r.rows| then r.next + 1 else r.next, buffer := None));
          return -1;
        }
        if r.next >= |r.rows| {
          return 0;
        }
        result := Some(r.(next := r.next + 1, buffer := Some(r.rows[r.next])));
      }
      cursor := P.Open(cursor.op, true);
      rowsRead := rowsRead + 1;
      return 1;
    }

    method FetchUnread() returns (code: int)
      requires cursor.Open?
      modifies this
      ensures View() == P.FetchUnread(old(View()))
      ensures code == if P.CanFetchUnread(old(View())) then 1 else 0
    {
      if !cursor.row || unreadRow || rowsRead == 0 {
        return 0;
      }
      unreadRow := true;
      cursor := P.Open(cursor.op, false);
      rowsRead := rowsRead - 1;
      return 1;
    }

    method FetchDrop()
      requires cursor.Open?
      modifies this
      ensures View() == P.FetchDrop(old(View()))
    {
      cursor := P.Ending(cursor.op);
    }

    method FetchEnd()
      requires cursor.Ending?
      modifies this
      ensures View() == P.FetchEnd(old(View()))
    {
      fetching := false;
      cursor := P.Closed;
    }

    // -----------------------------------------------------------------------------------------
    // The worker

    method TakeJob()
      requires pending.Some?
      modifies `pending, `worker
      ensures View() == P.Dequeue(old(View()))
    {
      worker := P.Executing(pending.value, cancel || stop);
      pending := None;
    }

    method TakeGarbage()
      requires pending.None?
      modifies `unreadRow, `result, `statement, `worker
      ensures View() == P.Dequeue(old(View()))
    {
      worker := P.DroppingRow(P.Pass(stop, leaseAbandoned), unreadRow, result, statement);
      unreadRow, result, statement := false, None, None;
    }

    method Dequeue(c: P.Choice)
      requires worker.Waiting? && P.Awake(View())
      modifies this
      ensures View() == P.WorkerStep(old(View()), c) && connection == old(connection)
    {
      if c.fault {
        MoveWorker(P.Failing);
      } else if pending.Some? {
        TakeJob();
      } else {
        TakeGarbage();
      }
    }

    /** Destroying the garbage of a pass, one object after the other, outside the lock. */
    method DropNext(c: P.Choice)
      requires worker.DroppingRow? || worker.DroppingResult? || worker.DroppingStatement?
      modifies this
      ensures View() == P.WorkerStep(old(View()), c) && connection == old(connection)
    {
      match worker
      case DroppingRow(pass, _, garbage, parent) => worker := P.DroppingResult(pass, garbage, parent);
      case DroppingResult(pass, _, parent) => worker := P.DroppingStatement(pass, parent);
      case DroppingStatement(pass, _) => worker := P.RollingBack(pass);
    }

    method RollBack(c: P.Choice)
      requires worker.RollingBack? && connection != null
      modifies this, connection, connection.durable
      ensures View() == P.WorkerStep(old(View()), c)
      ensures connection == old(connection) && connection.durable.store == old(connection.durable.store)
    {
      var pass := worker.pass;
      if pass.releaseLease && connection.transaction.Some? {
        var threw := connection.RunControl(Rollback, c.reply);
        if threw {
          worker := P.Failing;
          return;
        }
      }
      worker := P.Clearing(pass);
    }

    method ClearOperation()
      modifies `busy, `ready, `discard, `cancel, `id
      ensures View() == old(View()).(op := P.Operation(0, false, false, false, false, error))
    {
      busy, ready, discard, cancel, id := false, false, false, false, 0;
    }

    method ClearLease()
      modifies `lease, `leaseAbandoned, `leaseFailed
      ensures View() == old(View()).(lease := P.NO_LEASE)
    {
      lease, leaseAbandoned, leaseFailed := 0, false, false;
    }

    method MoveWorker(to: P.Worker)
      modifies `worker
      ensures View() == old(View()).(worker := to)
    {
      worker := to;
    }

    method Clear()
      requires worker.Clearing?
      modifies this
      ensures View() == P.Clear(old(View()), old(worker.pass)) && connection == old(connection)
    {
      var pass := worker.pass;
      ClearOperation();
      if pass.releaseLease {
        ClearLease();
      }
      MoveWorker(if pass.shouldStop then P.Draining else P.Waiting);
    }

    method Execute(c: P.Choice)
      requires worker.Executing? && connection != null
      modifies this, connection, connection.durable
      ensures View() == P.WorkerStep(old(View()), c)
      ensures connection == old(connection)
      ensures connection.durable.store ==
              Replay(old(connection.durable.store), P.Executed(old(View()), c).durable)
    {
      var job := worker.job;
      var code, value, prepared := 0, None, false;
      if worker.wasCancelled || c.cancelled {
        code := 4;
      } else {
        match job.work
        case TransactionWork(control) =>
          var threw := connection.RunControl(control, c.reply);
          code := if threw then 3 else 0;
        case UserQuery(query) =>
          if lease != 0 && connection.transaction.None? {
            code := 3;
          } else {
            var refusal := ValidateQuery(query.text);
            if refusal.Some? {
              code := 3;
            } else {
              code, value, prepared := connection.RunAccepted(query, c.reply);
            }
          }
      }
      worker := P.Publishing(job, code, value, prepared);
    }

    method InstallResult(op: Id, value: Option<seq<Row>>, prepared: bool)
      modifies `result, `rowsRead, `statement
      ensures View() == old(View()).(held := P.Held(
                if value.Some? then Some(P.ResultSet(op, value.value, 0, None)) else None,
                if prepared then Some(op) else None, unreadRow, 0))
    {
      result := if value.Some? then Some(P.ResultSet(op, value.value, 0, None)) else None;
      rowsRead := 0;
      statement := if prepared then Some(op) else None;
    }

    method MarkReady(code: int)
      modifies `error, `leaseFailed, `ready
      ensures View() == old(View()).(
                op := old(View()).op.(error := code, ready := true),
                lease := old(View()).lease.(failed := old(leaseFailed) || (lease != 0 && code != 0)))
    {
      error := code;
      if lease != 0 && code != 0 {
        leaseFailed := true;
      }
      ready := true;
    }

    method Publish()
      requires worker.Publishing?
      modifies this
      ensures var w := old(worker);
        View() == P.Publish(old(View()), w.job, w.code, w.value, w.prepared) && connection == old(connection)
    {
      var job, code := worker.job, worker.code;
      InstallResult(job.id, worker.value, worker.prepared);
      MarkReady(code);
      MoveWorker(P.Completing(job, code));
    }

    /** The completion call, and the locked section after it. */
    method Complete(c: P.Choice)
      requires worker.Completing? || worker.Delivered?
      modifies this
      ensures View() == P.WorkerStep(old(View()), c) && connection == old(connection)
    {
      if worker.Completing? {
        worker := P.Delivered(worker.job.id, c.delivered);
      } else if c.fault {
        worker := P.Failing;
      } else {
        if !worker.delivered {
          discard := true;
        }
        worker := P.Waiting;
      }
    }

    method Fail(c: P.Choice)
      requires worker.Failing? || worker.CompletingFailed?
      modifies this
      ensures View() == P.WorkerStep(old(View()), c) && connection == old(connection)
    {
      if worker.Failing? {
        stop, ready := true, true;
        error := 3;
        worker := P.CompletingFailed(pending);
        pending := None;
      } else {
        worker := P.Draining;
      }
    }

    /** From the last wait to exit: row, result, statement, then the connection. */
    method Exit(c: P.Choice)
      requires P.CanWork(View())
      requires worker.Draining? || worker.FinalRow? || worker.FinalResult? || worker.FinalStatement? ||
               worker.TakingConnection? || worker.DroppingConnection?
      requires worker.DroppingConnection? ==> connection == null
      requires worker.TakingConnection? ==> connection != null
      modifies this
      ensures View() == P.WorkerStep(old(View()), c)
      ensures connection == if old(worker).TakingConnection? then null else old(connection)
    {
      match worker
      case Draining =>
        worker := P.FinalRow;
      case FinalRow =>
        unreadRow := false;
        worker := P.FinalResult;
      case FinalResult =>
        result := None;
        worker := P.FinalStatement;
      case FinalStatement =>
        statement := None;
        worker := P.TakingConnection;
      case TakingConnection =>
        retired := connection;
        connection := null;
        worker := P.DroppingConnection;
      case DroppingConnection =>
        retired := null;
        worker := P.Exited;
    }

    // -----------------------------------------------------------------------------------------

    /** What the step of a session in this state makes durable. */
    static ghost function Durably(s: P.Session, c: P.Choice): seq<Write> {
      if s.worker.Executing? then P.Executed(s, c).durable else []
    }

    /**
     One turn of the worker from any state that satisfies the protocol's invariant: the invariant supplies
     everything the methods above ask for.
     */
    method Work(c: P.Choice)
      requires I.Shape(View()) && P.CanWork(View())
      modifies this, connection, if connection == null then {} else {connection.durable}
      ensures View() == P.WorkerStep(old(View()), c)
      ensures connection == if old(worker).TakingConnection? then null else old(connection)
      ensures var held := old(connection);
        held != null ==> held.durable.store == Replay(old(HeldStore()), Durably(old(View()), c))
    {
      assert connection != null <==> View().link.open;
      match worker
      case Waiting => Dequeue(c);
      case RollingBack(_) => RollBack(c);
      case Clearing(_) => Clear();
      case Executing(_, _) => Execute(c);
      case Publishing(_, _, _, _) => Publish();
      case Completing(_, _) => Complete(c);
      case Delivered(_, _) => Complete(c);
      case Failing => Fail(c);
      case CompletingFailed(_) => Fail(c);
      case DroppingRow(_, _, _, _) => DropNext(c);
      case DroppingResult(_, _, _) => DropNext(c);
      case DroppingStatement(_, _) => DropNext(c);
      case Draining => Exit(c);
      case FinalRow => Exit(c);
      case FinalResult => Exit(c);
      case FinalStatement => Exit(c);
      case TakingConnection => Exit(c);
      case DroppingConnection => Exit(c);
    }

    function HeldStore(): Store
      reads this, connection, if connection == null then {} else {connection.durable}
    {
      if connection == null then map[] else connection.durable.store
    }
  }
}
