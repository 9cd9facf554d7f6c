/**
 A session together with the history of its run.  The history only records; no step reads it.
 The guards below are the protocol's hypotheses about its callers.
 */
module History {
  import opened Options
  import opened Engine
  import opened Protocol

  /** One executed job: took is set when a commit, or a faulty ordinary query, was durable. */
  datatype Exec = Exec(id: Id, lease: Id, work: Work, code: int, took: bool, writes: seq<Write>)

  datatype Resource = RowOf(op: Id) | ResultOf(op: Id) | StatementOf(op: Id) | TheConnection

  datatype History = History(
    used: set<Id>,                  // identities handed to an entry that needs a fresh one
    reservedUnder: map<Id, Id>,     // successful reservations and the lease each was made under
    accepted: seq<Id>,              // submissions that returned 0
    completed: seq<Id>,             // completion callbacks
    log: seq<Exec>,                 // executed jobs, in execution order
    created: seq<Resource>,
    destroyed: seq<Resource>,
    produced: map<Id, seq<Row>>,    // every published result
    received: map<Id, seq<Row>>,    // rows fetched and not pushed back
    lost: set<Id>,                  // results of which a throwing engine swallowed a row
    requested: set<Id>,             // operations someone asked to end while they held the session
    interrupted: seq<Id>)           // operations the controller interrupted

  datatype Node = Node(s: Session, h: History)

  const FRESH_NODE := Node(FRESH_SESSION,
    History({}, map[], [], [], [], [TheConnection], [], map[], map[], {}, {}, []))

  /**
   Identities are fresh; a submission is made at most once for each reservation (an attempt that
   was refused may be repeated); a control job follows its own reservation under a nonzero lease.
   Everything else may be called by anyone, at any time, with any argument.
   */
  predicate Allowed(h: History, e: Event) {
    match e
    case AcquireLeaseEvent(lease) => lease !in h.used
    case ReserveEvent(id, _) => id != 0 && id !in h.used
    case SubmitEvent(job, _) => job.work.UserQuery? && job.id !in h.accepted
    case SubmitControlEvent(job) =>
      job.work.TransactionWork? && job.id !in h.accepted && job.id in h.reservedUnder && h.reservedUnder[job.id] != 0
    case _ => true
  }

  predicate Enabled(n: Node, e: Event) {
    Possible(n.s, e) && Allowed(n.h, e)
  }

  // -------------------------------------------------------------------------------------------
  // Recording

  function UsedAfter(used: set<Id>, e: Event): set<Id> {
    match e
    case AcquireLeaseEvent(lease) => used + {lease}
    case ReserveEvent(id, _) => used + {id}
    case _ => used
  }

  function ReservedAfter(reserved: map<Id, Id>, s: Session, e: Event): map<Id, Id>
    requires Possible(s, e)
  {
    if e.ReserveEvent? && CanReserve(s, e.lease) then reserved[e.id := e.lease] else reserved
  }

  function AcceptedNow(s: Session, e: Event): seq<Id>
    requires Possible(s, e)
  {
    match e
    case SubmitEvent(job, _) => if CanSubmit(s, job.id) then [job.id] else []
    case SubmitControlEvent(job) => if CanSubmitControl(s, job.id) then [job.id] else []
    case _ => []
  }

  function CompletedNow(s: Session, e: Event): seq<Id> {
    if !e.WorkerEvent? then []
    else match s.worker
      case Completing(job, _) => [job.id]
      case CompletingFailed(Some(job)) => [job.id]
      case _ => []
  }

  /** What an executed query wrote: nothing unless it succeeded or its fault was durable all the same. */
  function WritesOf(work: Work, reply: Reply, out: Outcome): seq<Write> {
    if work.UserQuery? && (out.code == 0 || out.took) then reply.writes else []
  }

  function ExecutedNow(s: Session, e: Event): seq<Exec> {
    if e.WorkerEvent? && s.worker.Executing? then
      var out := Executed(s, e.choice);
      var job := s.worker.job;
      [Exec(job.id, s.lease.id, job.work, out.code, out.took, WritesOf(job.work, e.choice.reply, out))]
    else []
  }

  /** Writes that this step makes durable. */
  function DurableNow(s: Session, e: Event): seq<Write> {
    if e.WorkerEvent? && s.worker.Executing? then Executed(s, e.choice).durable else []
  }

  function RowIf(held: bool, op: Id): seq<Resource> { if held then [RowOf(op)] else [] }

  function ResultIf(r: Option<ResultSet>): seq<Resource> { if r.Some? then [ResultOf(r.value.op)] else [] }

  function StatementIf(p: Option<Id>): seq<Resource> { if p.Some? then [StatementOf(p.value)] else [] }

  function CreatedByWorker(s: Session, c: Choice): seq<Resource> {
    if s.worker.Executing? then
      (if Executed(s, c).rows.Some? then [ResultOf(s.worker.job.id)] else []) +
      (if Executed(s, c).prepared then [StatementOf(s.worker.job.id)] else [])
    else []
  }

  function CreatedNow(s: Session, e: Event): seq<Resource>
    requires Possible(s, e)
  {
    match e
    case FetchNextEvent(fault, _) => RowIf(!s.held.unread && FetchNextCode(s, fault) == 1, s.fetch.cursor.op)
    case WorkerEvent(c) => CreatedByWorker(s, c)
    case _ => []
  }

  function DestroyedByWorker(s: Session): seq<Resource> {
    match s.worker
    case DroppingRow(_, row, garbage, _) => RowIf(row && garbage.Some?, if garbage.Some? then garbage.value.op else 0)
    case DroppingResult(_, garbage, _) => ResultIf(garbage)
    case DroppingStatement(_, parent) => StatementIf(parent)
    case Publishing(_, _, _, _) => ResultIf(s.held.result) + StatementIf(s.held.statement)   // overwritten
    case FinalRow => RowIf(s.held.unread && s.held.result.Some?, if s.held.result.Some? then s.held.result.value.op else 0)
    case FinalResult => ResultIf(s.held.result)
    case FinalStatement => StatementIf(s.held.statement)
    case DroppingConnection => [TheConnection]
    case _ => []
  }

  function DestroyedNow(s: Session, e: Event): seq<Resource> {
    match e
    case FetchNextEvent(_, _) => if s.fetch.cursor.Open? then RowIf(s.fetch.cursor.row, s.fetch.cursor.op) else []
    case FetchDropEvent => if s.fetch.cursor.Open? then RowIf(s.fetch.cursor.row, s.fetch.cursor.op) else []
    case WorkerEvent(_) => DestroyedByWorker(s)
    case _ => []
  }

  function ProducedAfter(produced: map<Id, seq<Row>>, s: Session, e: Event): map<Id, seq<Row>> {
    if e.WorkerEvent? && s.worker.Publishing? && s.worker.value.Some?
    then produced[s.worker.job.id := s.worker.value.value] else produced
  }

  /** The client's own view: a fetched row is appended, a pushed-back row is taken off again. */
  function ReceivedAfter(received: map<Id, seq<Row>>, s: Session, e: Event): map<Id, seq<Row>>
    requires Possible(s, e)
  {
    match e
    case WorkerEvent(_) =>
      if s.worker.Publishing? && s.worker.value.Some? then received[s.worker.job.id := []] else received
    case FetchNextEvent(fault, lost) =>
      var op := s.fetch.cursor.op;
      var r := FetchNext(s, fault, lost).held.result.value;
      if FetchNextCode(s, fault) == 1 && op in received && r.buffer.Some?
      then received[op := received[op] + [r.buffer.value]] else received
    case FetchUnreadEvent =>
      var op := s.fetch.cursor.op;
      if CanFetchUnread(s) && op in received && |received[op]| > 0
      then received[op := received[op][..|received[op]| - 1]] else received
    case _ => received
  }

  function LostAfter(lost: set<Id>, s: Session, e: Event): set<Id>
    requires Possible(s, e)
  {
    match e
    case WorkerEvent(_) =>
      if s.worker.Publishing? && s.worker.value.Some? then lost - {s.worker.job.id} else lost
    case FetchNextEvent(fault, loses) =>
      if LosesRow(s, fault, loses) then lost + {s.fetch.cursor.op} else lost
    case _ => lost
  }

  function RequestedAfter(requested: set<Id>, s: Session, e: Event): set<Id>
    requires Possible(s, e)
  {
    match e
    case SubmitEvent(job, now) => if now && CanSubmit(s, job.id) then requested + {job.id} else requested
    case CancelEvent(id, _) => if CanCancel(s, id) then requested + {id} else requested
    case ReleaseLeaseEvent(lease) => if CanReleaseLease(s, lease) then requested + {s.op.id} else requested
    case StopEvent => requested + {s.op.id}
    case _ => requested
  }

  function Record(h: History, s: Session, e: Event): History
    requires Possible(s, e)
  {
    History(
      UsedAfter(h.used, e),
      ReservedAfter(h.reservedUnder, s, e),
      h.accepted + AcceptedNow(s, e),
      h.completed + CompletedNow(s, e),
      h.log + ExecutedNow(s, e),
      h.created + CreatedNow(s, e),
      h.destroyed + DestroyedNow(s, e),
      ProducedAfter(h.produced, s, e),
      ReceivedAfter(h.received, s, e),
      LostAfter(h.lost, s, e),
      RequestedAfter(h.requested, s, e),
      if e.InterruptEvent? && Interrupts(s) then h.interrupted + [s.op.id] else h.interrupted)
  }

  function Next(n: Node, e: Event): Node
    requires Enabled(n, e)
  {
    Node(Step(n.s, e), Record(n.h, n.s, e))
  }

  // -------------------------------------------------------------------------------------------
  // Runs: every interleaving is one sequence of steps

  predicate Runs(n: Node, es: seq<Event>)
    decreases |es|
  {
    es == [] || (Enabled(n, es[0]) && Runs(Next(n, es[0]), es[1..]))
  }

  function After(n: Node, es: seq<Event>): Node
    requires Runs(n, es)
    decreases |es|
  {
    if es == [] then n else After(Next(n, es[0]), es[1..])
  }
}
