/**
 One native session as an atomic-step protocol.  Every function below is one critical section, or
 one stretch of code that a single thread runs without a lock: the entry points of API threads,
 the retirement request, the interrupt controller, the fetching thread, and the worker, whose
 program counter carries the locals it holds between its own critical sections.
 */
module Protocol {
  import opened Options
  import opened Engine

  /** Operation and lease identities come from one counter; 0 stands for none. */
  type Id = nat

  datatype Job = Job(id: Id, work: Work)

  /** A result object: its rows, the engine's read position, and the tuple buffer getNext reuses. */
  datatype ResultSet = ResultSet(op: Id, rows: seq<Row>, next: nat, buffer: Option<Row>)

  /** The fetching thread: Ending is after the cursor is deleted, before its lease is given back. */
  datatype Cursor = Closed | Open(op: Id, row: bool) | Ending(op: Id)

  /** What one job-less worker pass captured under the lock. */
  datatype Pass = Pass(shouldStop: bool, releaseLease: bool)

  datatype Worker =
    | Waiting
    | DroppingRow(pass: Pass, oldRow: bool, garbage: Option<ResultSet>, oldStatement: Option<Id>)
    | DroppingResult(pass: Pass, garbage: Option<ResultSet>, oldStatement: Option<Id>)
    | DroppingStatement(pass: Pass, oldStatement: Option<Id>)
    | RollingBack(pass: Pass)
    | Clearing(pass: Pass)
    | Executing(job: Job, wasCancelled: bool)
    | Publishing(job: Job, code: int, value: Option<seq<Row>>, prepared: bool)
    | Completing(job: Job, code: int)
    | Delivered(op: Id, delivered: bool)
    | Failing
    | CompletingFailed(failed: Option<Job>)
    | Draining
    | FinalRow
    | FinalResult
    | FinalStatement
    | TakingConnection
    | DroppingConnection
    | Exited

  /** The current operation: its identity and the flags other threads set on it. */
  datatype Operation = Operation(id: Id, busy: bool, ready: bool, cancel: bool, discard: bool, error: int)

  datatype Lease = Lease(id: Id, abandoned: bool, failed: bool)

  /** What the session holds of a published result. */
  datatype Held = Held(result: Option<ResultSet>, statement: Option<Id>, unread: bool, rowsRead: nat)

  datatype Fetch = Fetch(active: bool, cursor: Cursor)

  /** open: the session still owns its connection; transaction: the one open on that connection. */
  datatype Link = Link(open: bool, transaction: Transaction)

  datatype Session = Session(
    op: Operation, stop: bool, lease: Lease, pending: Option<Job>, held: Held, fetch: Fetch, link: Link,
    worker: Worker)

  const NO_OPERATION := Operation(0, false, false, false, false, 0)
  const NO_LEASE := Lease(0, false, false)
  const NOTHING_HELD := Held(None, None, false, 0)

  const FRESH_SESSION :=
    Session(NO_OPERATION, false, NO_LEASE, None, NOTHING_HELD, Fetch(false, Closed), Link(true, None), Waiting)

  // -------------------------------------------------------------------------------------------
  // API threads.  Each entry has the guard under which it takes effect and what it then does; a
  // refused call changes nothing.

  predicate CanAcquireLease(s: Session, lease: Id) {
    lease != 0 && !s.op.busy && !s.stop && s.lease.id == 0
  }

  function AcquireLease(s: Session, lease: Id): Session {
    if CanAcquireLease(s, lease) then s.(lease := s.lease.(id := lease)) else s
  }

  predicate CanReleaseLease(s: Session, lease: Id) {
    lease != 0 && s.lease.id == lease
  }

  function ReleaseLease(s: Session, lease: Id): Session {
    if CanReleaseLease(s, lease) then
      s.(lease := s.lease.(abandoned := true), op := s.op.(cancel := true, discard := true))
    else s
  }

  predicate CanReserve(s: Session, lease: Id) {
    !s.op.busy && !s.stop && s.lease.id == lease && !s.lease.abandoned && !s.lease.failed
  }

  function Reserve(s: Session, id: Id, lease: Id): Session {
    if CanReserve(s, lease) then s.(op := s.op.(busy := true, id := id)) else s
  }

  predicate CanSubmit(s: Session, id: Id) {
    && s.op.busy && s.op.id == id && !s.stop && !s.op.cancel && !s.op.discard && s.pending.None? && !s.op.ready
  }

  /** The locked part of a query submission; cancelledNow is what the callback says under the lock. */
  function Submit(s: Session, job: Job, cancelledNow: bool): Session {
    if CanSubmit(s, job.id) then s.(pending := Some(job), op := s.op.(cancel := cancelledNow)) else s
  }

  predicate CanSubmitControl(s: Session, id: Id) {
    s.op.id == id && !s.stop && !s.op.cancel && !s.lease.abandoned
  }

  /** The second locked part of a transaction control, after its reservation. */
  function SubmitControl(s: Session, job: Job): Session {
    if CanSubmitControl(s, job.id) then s.(pending := Some(job)) else s
  }

  predicate CanCancel(s: Session, id: Id) {
    s.op.busy && s.op.id == id
  }

  function Cancel(s: Session, id: Id, abandon: bool): Session {
    if CanCancel(s, id) then s.(op := s.op.(cancel := true, discard := s.op.discard || abandon)) else s
  }

  predicate CanFinish(s: Session, id: Id) {
    s.op.busy && s.op.id == id && s.op.ready
  }

  function Finish(s: Session, id: Id): Session {
    if CanFinish(s, id) then s.(op := s.op.(discard := true)) else s
  }

  /** The public snapshot: 3 retiring, 2 result ready, 1 executing, 4 leased and idle, 0 idle. */
  function State(s: Session): int {
    if s.stop then 3 else if s.op.ready then 2 else if s.op.busy then 1 else if s.lease.id != 0 then 4 else 0
  }

  // -------------------------------------------------------------------------------------------
  // Retirement and the interrupt controller

  function RequestStop(s: Session): Session {
    s.(stop := true, op := s.op.(cancel := true, discard := true))
  }

  predicate Interrupts(s: Session) {
    s.link.open && s.op.busy && !s.op.ready && (s.op.cancel || s.stop)
  }

  // -------------------------------------------------------------------------------------------
  // The fetching thread

  predicate CanFetchBegin(s: Session, id: Id) {
    && s.op.id == id && s.op.ready && !s.stop && !s.op.discard && !s.fetch.active && s.op.error == 0
    && s.held.result.Some?
  }

  function FetchBegin(s: Session, id: Id): Session {
    if CanFetchBegin(s, id) then s.(fetch := Fetch(true, Open(id, false))) else s
  }

  predicate CanFetchRow(s: Session) {
    s.fetch.cursor.Open? && s.held.result.Some?
  }

  /** 1: a row is held, 0: end of rows, -1: the engine threw. */
  function FetchNextCode(s: Session, fault: bool): int
    requires CanFetchRow(s)
  {
    if s.held.unread then 1
    else if fault then -1
    else if s.held.result.value.next >= |s.held.result.value.rows| then 0
    else 1
  }

  /** An engine that throws may have moved past a row it never delivered. */
  predicate LosesRow(s: Session, fault: bool, lost: bool)
    requires CanFetchRow(s)
  {
    !s.held.unread && fault && lost && s.held.result.value.next < |s.held.result.value.rows|
  }

  /** The previous row is released first; a row pushed back earlier comes before the engine's next one. */
  function FetchNext(s: Session, fault: bool, lost: bool): Session
    requires CanFetchRow(s)
  {
    var r := s.held.result.value;
    s.(fetch := Fetch(s.fetch.active, Open(s.fetch.cursor.op, FetchNextCode(s, fault) == 1)),
       held :=
         if s.held.unread then
           s.held.(unread := false, rowsRead := s.held.rowsRead + 1)
         else if fault then
           s.held.(result := Some(r.(next := if LosesRow(s, fault, lost) then r.next + 1 else r.next, buffer := None)))
         else if r.next >= |r.rows| then
           s.held
         else
           s.held.(rowsRead := s.held.rowsRead + 1,
                   result := Some(r.(next := r.next + 1, buffer := Some(r.rows[r.next])))))
  }

  predicate CanFetchUnread(s: Session) {
    s.fetch.cursor.Open? && s.fetch.cursor.row && !s.held.unread && s.held.rowsRead != 0
  }

  function FetchUnread(s: Session): Session {
    if CanFetchUnread(s) then
      s.(fetch := Fetch(s.fetch.active, Open(s.fetch.cursor.op, false)),
         held := s.held.(unread := true, rowsRead := s.held.rowsRead - 1))
    else s
  }

  /** Deleting the cursor releases its row before the result may be destroyed. */
  function FetchDrop(s: Session): Session
    requires s.fetch.cursor.Open?
  {
    s.(fetch := s.fetch.(cursor := Ending(s.fetch.cursor.op)))
  }

  function FetchEnd(s: Session): Session
    requires s.fetch.cursor.Ending?
  {
    s.(fetch := Fetch(false, Closed))
  }

  // -------------------------------------------------------------------------------------------
  // The worker

  /** What the outside world decides during one worker step. */
  datatype Choice = Choice(
    fault: bool,        // thread infrastructure failure
    cancelled: bool,    // the job's cancellation callback
    delivered: bool,    // the completion callback took the result
    reply: Reply)

  predicate Awake(s: Session) {
    !s.fetch.active && (s.stop || s.pending.Some? || s.op.discard || s.lease.abandoned)
  }

  predicate CanWork(s: Session) {
    match s.worker
    case Waiting => Awake(s)
    case Draining => !s.fetch.active
    case Exited => false
    case _ => true
  }

  function Dequeue(s: Session): Session {
    if s.pending.Some? then
      s.(pending := None, worker := Executing(s.pending.value, s.op.cancel || s.stop))
    else
      s.(held := s.held.(unread := false, result := None, statement := None),
         worker := DroppingRow(Pass(s.stop, s.lease.abandoned), s.held.unread, s.held.result, s.held.statement))
  }

  /** A rollback that throws ends the worker; the engine may or may not have closed the transaction. */
  function RollBack(s: Session, pass: Pass, reply: Reply): Session {
    var active := pass.releaseLease && s.link.transaction.Some?;
    var throws := active && reply.fault;
    s.(worker := if throws then Failing else Clearing(pass),
       link := if active && !(throws && reply.keeps) then s.link.(transaction := None) else s.link)
  }

  function Clear(s: Session, pass: Pass): Session {
    s.(op := s.op.(busy := false, ready := false, discard := false, cancel := false, id := 0),
       lease := if pass.releaseLease then NO_LEASE else s.lease,
       worker := if pass.shouldStop then Draining else Waiting)
  }

  /** The unlocked execution; it reads the session's lease without the lock. */
  function Executed(s: Session, c: Choice): Outcome
    requires s.worker.Executing?
  {
    RunJob(s.lease.id, s.link.transaction, s.worker.job.work, s.worker.wasCancelled || c.cancelled, c.reply)
  }

  function Execute(s: Session, c: Choice): Session
    requires s.worker.Executing?
  {
    var out := Executed(s, c);
    s.(link := s.link.(transaction := out.transaction),
       worker := Publishing(s.worker.job, out.code, out.rows, out.prepared))
  }

  function Publish(s: Session, job: Job, code: int, value: Option<seq<Row>>, prepared: bool): Session {
    s.(held := Held(if value.Some? then Some(ResultSet(job.id, value.value, 0, None)) else None,
                    if prepared then Some(job.id) else None,
                    s.held.unread,
                    0),
       op := s.op.(error := code, ready := true),
       lease := s.lease.(failed := s.lease.failed || (s.lease.id != 0 && code != 0)),
       worker := Completing(job, code))
  }

  function Fail(s: Session): Session {
    s.(stop := true, op := s.op.(ready := true, error := 3), pending := None, worker := CompletingFailed(s.pending))
  }

  function WorkerStep(s: Session, c: Choice): Session
    requires CanWork(s)
  {
    match s.worker
    case Waiting => if c.fault then s.(worker := Failing) else Dequeue(s)
    case DroppingRow(pass, _, garbage, parent) => s.(worker := DroppingResult(pass, garbage, parent))
    case DroppingResult(pass, _, parent) => s.(worker := DroppingStatement(pass, parent))
    case DroppingStatement(pass, _) => s.(worker := RollingBack(pass))
    case RollingBack(pass) => RollBack(s, pass, c.reply)
    case Clearing(pass) => Clear(s, pass)
    case Executing(_, _) => Execute(s, c)
    case Publishing(job, code, value, prepared) => Publish(s, job, code, value, prepared)
    case Completing(job, _) => s.(worker := Delivered(job.id, c.delivered))
    case Delivered(_, delivered) =>
      if c.fault then s.(worker := Failing)
      else s.(op := s.op.(discard := s.op.discard || !delivered), worker := Waiting)
    case Failing => Fail(s)
    case CompletingFailed(_) => s.(worker := Draining)
    case Draining => s.(worker := FinalRow)
    case FinalRow => s.(held := s.held.(unread := false), worker := FinalResult)
    case FinalResult => s.(held := s.held.(result := None), worker := FinalStatement)
    case FinalStatement => s.(held := s.held.(statement := None), worker := TakingConnection)
    case TakingConnection => s.(link := s.link.(open := false), worker := DroppingConnection)
    case DroppingConnection => s.(link := s.link.(transaction := None), worker := Exited)
  }

  // -------------------------------------------------------------------------------------------
  // Steps

  datatype Event =
    | AcquireLeaseEvent(lease: Id)
    | ReleaseLeaseEvent(lease: Id)
    | ReserveEvent(id: Id, lease: Id)
    | SubmitEvent(job: Job, cancelledNow: bool)
    | SubmitControlEvent(job: Job)
    | CancelEvent(id: Id, abandon: bool)
    | FinishEvent(id: Id)
    | StopEvent
    | InterruptEvent
    | FetchBeginEvent(id: Id)
    | FetchNextEvent(fault: bool, lost: bool)
    | FetchUnreadEvent
    | FetchDropEvent
    | FetchEndEvent
    | WorkerEvent(choice: Choice)

  /** Only the fetching thread and the worker ever have to wait. */
  predicate Possible(s: Session, e: Event) {
    match e
    case FetchNextEvent(_, _) => CanFetchRow(s)
    case FetchUnreadEvent => s.fetch.cursor.Open?
    case FetchDropEvent => s.fetch.cursor.Open?
    case FetchEndEvent => s.fetch.cursor.Ending?
    case WorkerEvent(_) => CanWork(s)
    case _ => true
  }

  function Step(s: Session, e: Event): Session
    requires Possible(s, e)
  {
    match e
    case AcquireLeaseEvent(lease) => AcquireLease(s, lease)
    case ReleaseLeaseEvent(lease) => ReleaseLease(s, lease)
    case ReserveEvent(id, lease) => Reserve(s, id, lease)
    case SubmitEvent(job, now) => Submit(s, job, now)
    case SubmitControlEvent(job) => SubmitControl(s, job)
    case CancelEvent(id, abandon) => Cancel(s, id, abandon)
    case FinishEvent(id) => Finish(s, id)
    case StopEvent => RequestStop(s)
    case InterruptEvent => s
    case FetchBeginEvent(id) => FetchBegin(s, id)
    case FetchNextEvent(fault, lost) => FetchNext(s, fault, lost)
    case FetchUnreadEvent => FetchUnread(s)
    case FetchDropEvent => FetchDrop(s)
    case FetchEndEvent => FetchEnd(s)
    case WorkerEvent(choice) => WorkerStep(s, choice)
  }
}
