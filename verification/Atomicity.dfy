/**
 Many sessions over one store.  The store is, in every reachable state, the replay of what the
 declarative reading of the execution order says was committed.
 */
module Atomicity {
  import opened Options
  import opened Engine
  import opened Protocol
  import opened History
  import opened Invariants
  import opened Transactions
  import opened Soundness

  /** One executed job and the session that ran it. */
  datatype Entry = Entry(session: nat, exec: Exec)

  datatype World = World(nodes: seq<Node>, store: Store, order: seq<Entry>)

  /** One session's share of the global execution order. */
  function Project(order: seq<Entry>, session: nat): seq<Exec> {
    if order == [] then []
    else
      var before := Project(order[..|order| - 1], session);
      var last := order[|order| - 1];
      if last.session == session then before + [last.exec] else before
  }

  /** Everything that is durable after an execution order, as the order alone tells it. */
  function Committed(order: seq<Entry>): seq<Write> {
    if order == [] then []
    else
      var last := order[|order| - 1];
      Committed(order[..|order| - 1]) + Contribution(Project(order[..|order| - 1], last.session) + [last.exec])
  }

  datatype Turn = Turn(session: nat, event: Event)

  predicate TurnEnabled(w: World, t: Turn) {
    t.session < |w.nodes| && Enabled(w.nodes[t.session], t.event)
  }

  function Advance(w: World, t: Turn): World
    requires TurnEnabled(w, t)
  {
    var n := w.nodes[t.session];
    var ran := ExecutedNow(n.s, t.event);
    World(w.nodes[t.session := Next(n, t.event)],
          Replay(w.store, DurableNow(n.s, t.event)),
          w.order + if ran == [] then [] else [Entry(t.session, ran[0])])
  }

  predicate Schedule(w: World, turns: seq<Turn>)
    decreases |turns|
  {
    turns == [] || (TurnEnabled(w, turns[0]) && Schedule(Advance(w, turns[0]), turns[1..]))
  }

  function AfterTurns(w: World, turns: seq<Turn>): World
    requires Schedule(w, turns)
    decreases |turns|
  {
    if turns == [] then w else AfterTurns(Advance(w, turns[0]), turns[1..])
  }

  function FreshWorld(sessions: nat, store: Store): World {
    World(seq(sessions, _ => FRESH_NODE), store, [])
  }

  /** Every session is sound, its log is its share of the order, and the store is the order's replay. */
  ghost predicate Consistent(w: World, initial: Store) {
    && (forall i :: 0 <= i < |w.nodes| ==> Sound(w.nodes[i]) && w.nodes[i].h.log == Project(w.order, i))
    && w.store == Replay(initial, Committed(w.order))
  }

  lemma ProjectAppend(order: seq<Entry>, entry: Entry, session: nat)
    ensures Project(order + [entry], session) ==
            Project(order, session) + if entry.session == session then [entry.exec] else []
  {
    assert (order + [entry])[..|order|] == order;
  }

  lemma CommittedAppend(order: seq<Entry>, entry: Entry)
    ensures Committed(order + [entry]) ==
            Committed(order) + Contribution(Project(order, entry.session) + [entry.exec])
  {
    assert (order + [entry])[..|order|] == order;
  }

  lemma LogsFollow(w: World, initial: Store, t: Turn)
    requires Consistent(w, initial) && TurnEnabled(w, t) && ExecutedNow(w.nodes[t.session].s, t.event) != []
    ensures forall i :: 0 <= i < |w.nodes| ==> Advance(w, t).nodes[i].h.log == Project(Advance(w, t).order, i)
  {
    var n := w.nodes[t.session];
    var ran := ExecutedNow(n.s, t.event);
    assert ran == [ran[0]] && Next(n, t.event).h.log == n.h.log + ran;
    forall i | 0 <= i < |w.nodes| ensures Advance(w, t).nodes[i].h.log == Project(Advance(w, t).order, i) {
      ProjectAppend(w.order, Entry(t.session, ran[0]), i);
    }
  }

  lemma StoreFollows(w: World, initial: Store, t: Turn)
    requires Consistent(w, initial) && TurnEnabled(w, t) && ExecutedNow(w.nodes[t.session].s, t.event) != []
    ensures Advance(w, t).store == Replay(initial, Committed(Advance(w, t).order))
  {
    var n := w.nodes[t.session];
    var ran := ExecutedNow(n.s, t.event);
    assert ran == [ran[0]];
    ExecutionContributes(n, t.event);
    CommittedAppend(w.order, Entry(t.session, ran[0]));
    ReplayConcat(initial, Committed(w.order), DurableNow(n.s, t.event));
  }

  lemma {:induction false} ConsistentKept(w: World, initial: Store, t: Turn)
    requires Consistent(w, initial) && TurnEnabled(w, t)
    ensures Consistent(Advance(w, t), initial)
  {
    var n := w.nodes[t.session];
    SoundKept(n, t.event);
    if ExecutedNow(n.s, t.event) == [] {
      assert w.order + [] == w.order;
      assert n.h.log + [] == n.h.log;
    } else {
      LogsFollow(w, initial, t);
      StoreFollows(w, initial, t);
    }
  }

  lemma {:induction false} ConsistentAlong(w: World, initial: Store, turns: seq<Turn>)
    requires Consistent(w, initial) && Schedule(w, turns)
    ensures Consistent(AfterTurns(w, turns), initial)
    decreases |turns|
  {
    if turns != [] {
      ConsistentKept(w, initial, turns[0]);
      ConsistentAlong(Advance(w, turns[0]), initial, turns[1..]);
    }
  }

  lemma UniformWorldIsConsistent(w: World, node: Node)
    requires Sound(node) && node.h.log == [] && w.order == []
    requires forall i :: 0 <= i < |w.nodes| ==> w.nodes[i] == node
    ensures Consistent(w, w.store)
  {
  }

  lemma FreshWorldIsConsistent(sessions: nat, store: Store)
    ensures Consistent(FreshWorld(sessions, store), store)
  {
    FreshIsSound();
    UniformWorldIsConsistent(FreshWorld(sessions, store), FRESH_NODE);
  }

  /** Atomicity: on every schedule the store is the replay of the ordinary writes and committed batches. */
  lemma StoreIsCommittedWork(sessions: nat, store: Store, turns: seq<Turn>)
    requires Schedule(FreshWorld(sessions, store), turns)
    ensures var w := AfterTurns(FreshWorld(sessions, store), turns);
      w.store == Replay(store, Committed(w.order))
  {
    FreshWorldIsConsistent(sessions, store);
    ConsistentAlong(FreshWorld(sessions, store), store, turns);
  }

  // -------------------------------------------------------------------------------------------
  // A lease without an effective commit contributes nothing

  predicate Belongs(entry: Entry, session: nat, lease: Id) {
    entry.session == session && entry.exec.lease == lease
  }

  function Without(order: seq<Entry>, session: nat, lease: Id): seq<Entry> {
    if order == [] then []
    else
      var before := Without(order[..|order| - 1], session, lease);
      var last := order[|order| - 1];
      if Belongs(last, session, lease) then before else before + [last]
  }

  lemma {:induction false} OtherBatchUnaffected(order: seq<Entry>, session: nat, lease: Id, other: nat, otherLease: Id)
    requires other != session || otherLease != lease
    ensures Batch(Project(Without(order, session, lease), other), otherLease) == Batch(Project(order, other), otherLease)
  {
    if order != [] {
      var before := order[..|order| - 1];
      var last := order[|order| - 1];
      assert order == before + [last];
      OtherBatchUnaffected(before, session, lease, other, otherLease);
      ProjectAppend(before, last, other);
      ProjectAppend(Without(before, session, lease), last, other);
      BatchAppend(Project(before, other), last.exec, otherLease);
      BatchAppend(Project(Without(before, session, lease), other), last.exec, otherLease);
    }
  }

  lemma BatchAppend(log: seq<Exec>, e: Exec, lease: Id)
    ensures Batch(log + [e], lease) ==
            if e.lease != lease then Batch(log, lease)
            else if e.work == TransactionWork(Begin) && e.code == 0 then []
            else Batch(log, lease) + e.writes
  {
    assert (log + [e])[..|log|] == log;
  }

  lemma ContributionOf(log: seq<Exec>, e: Exec)
    ensures Contribution(log + [e]) ==
            if e.lease == 0 then e.writes else if e.took then Batch(log, e.lease) else []
  {
    assert (log + [e])[..|log|] == log;
  }

  /** Abandoned, failed, cancelled or retired: if none of its commits took effect, a lease leaves no trace. */
  lemma {:induction false} UncommittedLeaseLeavesNoTrace(order: seq<Entry>, session: nat, lease: Id)
    requires lease != 0
    requires forall i :: 0 <= i < |order| && Belongs(order[i], session, lease) ==> !order[i].exec.took
    ensures Committed(Without(order, session, lease)) == Committed(order)
  {
    if order != [] {
      var before := order[..|order| - 1];
      var last := order[|order| - 1];
      assert order == before + [last];
      forall i | 0 <= i < |before| && Belongs(before[i], session, lease) ensures !before[i].exec.took {
        assert before[i] == order[i];
      }
      UncommittedLeaseLeavesNoTrace(before, session, lease);
      CommittedAppend(before, last);
      ContributionOf(Project(before, last.session), last.exec);
      if Belongs(last, session, lease) {
        assert order[|order| - 1] == last;
        assert Committed(before) + [] == Committed(before);
      } else {
        CommittedAppend(Without(before, session, lease), last);
        ContributionOf(Project(Without(before, session, lease), last.session), last.exec);
        OtherBatchUnaffected(before, session, lease, last.session, last.exec.lease);
      }
    }
  }
}
