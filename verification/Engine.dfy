/**
 The engine as the bridge uses it: a durable store, at most one open transaction on each
 connection, and a parser that turns query text into a list of statements.  What the engine
 decides for itself (does a statement fail, does a failed commit or autocommit query take effect,
 does a failure leave the transaction open) arrives in a Reply, so every result holds for all such
 decisions.  What stays fixed is that only a commit makes an open transaction durable, and then all of
 it, and that only a transaction statement opens or commits one.
 */
module Engine {
  import opened Options

  type Row = nat
  type Store = map<nat, nat>

  datatype Write = Put(key: nat, value: nat) | Remove(key: nat)

  /** The writes of an open transaction; None is autocommit. */
  type Transaction = Option<seq<Write>>

  function Apply(store: Store, write: Write): Store {
    match write
    case Put(key, value) => store[key := value]
    case Remove(key) => store - {key}
  }

  function Replay(store: Store, writes: seq<Write>): Store {
    if writes == [] then store
    else Apply(Replay(store, writes[..|writes| - 1]), writes[|writes| - 1])
  }

  lemma {:induction false} ReplayConcat(store: Store, first: seq<Write>, second: seq<Write>)
    ensures Replay(store, first + second) == Replay(Replay(store, first), second)
    decreases |second|
  {
    if second == [] {
      assert first + second == first;
    } else {
      var whole := first + second;
      assert whole[..|whole| - 1] == first + second[..|second| - 1];
      ReplayConcat(store, first, second[..|second| - 1]);
    }
  }

  /** The last write to a key decides what the store holds under it. */
  predicate Decided(store: Store, after: Store, writes: seq<Write>, key: nat) {
    if exists i :: 0 <= i < |writes| && writes[i].key == key then
      exists i :: 0 <= i < |writes| && writes[i].key == key &&
                  (forall j :: i < j < |writes| ==> writes[j].key != key) &&
                  (if writes[i].Put? then key in after && after[key] == writes[i].value else key !in after)
    else (key in after <==> key in store) && (key in store ==> after[key] == store[key])
  }

  lemma {:induction false} ReplayDecides(store: Store, writes: seq<Write>, key: nat)
    ensures Decided(store, Replay(store, writes), writes, key)
    decreases |writes|
  {
    if writes != [] {
      var k := |writes| - 1;
      ReplayDecides(store, writes[..k], key);
      if writes[k].key != key && exists i :: 0 <= i < k && writes[..k][i].key == key {
        var i :| 0 <= i < k && writes[..k][i].key == key && (forall j :: i < j < k ==> writes[..k][j].key != key) &&
          (if writes[..k][i].Put?
           then key in Replay(store, writes[..k]) && Replay(store, writes[..k])[key] == writes[..k][i].value
           else key !in Replay(store, writes[..k]));
        assert writes[i].key == key;
        forall j | i < j < |writes| ensures writes[j].key != key {
          assert j < k ==> writes[..k][j] == writes[j];
        }
      }
    }
  }

  // -------------------------------------------------------------------------------------------
  // Statements

  datatype Statement = Plain | TransactionControl | Explain(inner: Statement)

  /** What the engine's parser makes of a text. */
  datatype Text = Malformed | Parsed(statements: seq<Statement>)

  datatype Query = Query(text: Text, parameters: bool)

  /** A statement under a number of EXPLAIN or PROFILE wrappers. */
  function Wrapped(depth: nat, statement: Statement): Statement {
    if depth == 0 then statement else Explain(Wrapped(depth - 1, statement))
  }

  function Innermost(statement: Statement): Statement {
    match statement
    case Explain(inner) => Innermost(inner)
    case _ => statement
  }

  predicate Acceptable(text: Text) {
    text.Parsed? && |text.statements| == 1 && !Innermost(text.statements[0]).TransactionControl?
  }

  datatype Refusal = SyntaxError | NotOneStatement | ManualTransaction

  /** The text check that precedes every user query. */
  method ValidateQuery(text: Text) returns (refusal: Option<Refusal>)
    ensures refusal.None? <==> Acceptable(text)
    ensures refusal == Some(ManualTransaction) <==>
            text.Parsed? && |text.statements| == 1 && Innermost(text.statements[0]).TransactionControl?
    ensures refusal == Some(NotOneStatement) <==> text.Parsed? && |text.statements| != 1
  {
    if text.Malformed? {
      return Some(SyntaxError);
    }
    if |text.statements| != 1 {
      return Some(NotOneStatement);
    }
    var statement := text.statements[0];
    while statement.Explain?
      invariant Innermost(statement) == Innermost(text.statements[0])
      decreases statement
    {
      statement := statement.inner;
    }
    refusal := if statement.TransactionControl? then Some(ManualTransaction) else None;
  }

  lemma {:induction false} InnermostOfWrapped(depth: nat, statement: Statement)
    ensures Innermost(Wrapped(depth, statement)) == Innermost(statement)
  {
    if depth > 0 {
      InnermostOfWrapped(depth - 1, statement);
    }
  }

  /** EXPLAIN hides nothing: a text is judged by the statement at the bottom of any number of wrappers. */
  lemma ExplainDepthDoesNotMatter(depth: nat, statement: Statement)
    ensures Acceptable(Parsed([Wrapped(depth, statement)])) <==> Acceptable(Parsed([statement]))
    ensures !Acceptable(Parsed([Wrapped(depth, TransactionControl)]))
  {
    InnermostOfWrapped(depth, statement);
    InnermostOfWrapped(depth, TransactionControl);
  }

  lemma {:induction false} InnermostIsWrapped(statement: Statement) returns (depth: nat)
    ensures statement == Wrapped(depth, Innermost(statement)) && !Innermost(statement).Explain?
  {
    if statement.Explain? {
      depth := InnermostIsWrapped(statement.inner);
      depth := depth + 1;
    } else {
      depth := 0;
    }
  }

  /** Exactly the texts of one plain statement, under any number of wrappers, are accepted. */
  lemma AcceptableIffOnePlainStatement(text: Text)
    ensures Acceptable(text) <==> exists depth :: text == Parsed([Wrapped(depth, Plain)])
  {
    if depth :| text == Parsed([Wrapped(depth, Plain)]) {
      InnermostOfWrapped(depth, Plain);
    }
    if Acceptable(text) {
      var depth := InnermostIsWrapped(text.statements[0]);
      assert text == Parsed([Wrapped(depth, Plain)]);
    }
  }

  // -------------------------------------------------------------------------------------------
  // Execution

  datatype Control = Begin | Commit | Rollback

  datatype Work = UserQuery(query: Query) | TransactionWork(control: Control)

  /** The engine's own choices during one call. */
  datatype Reply = Reply(
    fault: bool,              // the call throws, or its result reports an error
    keeps: bool,              // a fault leaves the transaction open
    took: bool,               // a faulty commit or autocommit query was durable all the same
    writes: seq<Write>,       // what a statement writes if it takes effect
    rows: seq<Row>,           // what a successful statement returns
    prepared: bool,           // a faulty parameterized query still yields a statement
    failedResult: bool,       // a faulty query still yields a (failed) result
    forged: Transaction)      // what a raw transaction statement would leave open

  /** What one job leaves behind. */
  datatype Outcome = Outcome(
    code: int,                // 0, 3 engine error, 4 cancelled before execution
    transaction: Transaction,
    durable: seq<Write>,      // writes that reach the store
    took: bool,               // a commit took effect, or a faulty query was durable all the same
    rows: Option<seq<Row>>,   // a result object and its rows
    prepared: bool)           // a prepared statement object

  /** The engine runs any text it is given; only a transaction statement touches the transaction. */
  function RunText(transaction: Transaction, query: Query, reply: Reply): Outcome {
    if query.text.Parsed? &&
       exists i :: 0 <= i < |query.text.statements| && Innermost(query.text.statements[i]).TransactionControl? then
      Outcome(if reply.fault then 3 else 0, reply.forged, reply.writes, false, None, query.parameters)
    else if reply.fault then
      var took := reply.took && transaction.None?;
      Outcome(3, if reply.keeps then transaction else None, if took then reply.writes else [], took,
              if reply.failedResult then Some([]) else None, query.parameters && reply.prepared)
    else if transaction.Some? then
      Outcome(0, Some(transaction.value + reply.writes), [], false, Some(reply.rows), query.parameters)
    else
      Outcome(0, None, reply.writes, false, Some(reply.rows), query.parameters)
  }

  /** A user query on a session that holds the given lease (0: none). */
  function RunQuery(lease: nat, transaction: Transaction, query: Query, reply: Reply): Outcome {
    if lease != 0 && transaction.None? then
      Outcome(3, transaction, [], false, None, false)
    else if !Acceptable(query.text) then
      Outcome(3, transaction, [], false, None, false)
    else
      RunText(transaction, query, reply)
  }

  function RunControl(transaction: Transaction, control: Control, reply: Reply): Outcome {
    match control
    case Begin =>
      if transaction.Some? || reply.fault then
        Outcome(3, if reply.keeps then transaction else None, [], false, None, false)
      else
        Outcome(0, Some([]), [], false, None, false)
    case Commit =>
      if transaction.None? then
        Outcome(3, None, [], false, None, false)
      else if !reply.fault then
        Outcome(0, None, transaction.value, true, None, false)
      else if reply.took then
        Outcome(3, None, transaction.value, true, None, false)
      else
        Outcome(3, if reply.keeps then transaction else None, [], false, None, false)
    case Rollback =>
      if transaction.None? || !reply.fault then
        Outcome(0, None, [], false, None, false)
      else
        Outcome(3, if reply.keeps then transaction else None, [], false, None, false)
  }

  /** One dequeued job, as the worker executes it. */
  function RunJob(lease: nat, transaction: Transaction, work: Work, cancelled: bool, reply: Reply): Outcome {
    if cancelled then
      Outcome(4, transaction, [], false, None, false)
    else
      match work
      case UserQuery(query) => RunQuery(lease, transaction, query, reply)
      case TransactionWork(control) => RunControl(transaction, control, reply)
  }

  /** User text neither opens nor commits a transaction, and under a lease it writes nothing by itself. */
  lemma UserTextCannotControlTransaction(lease: nat, transaction: Transaction, query: Query, reply: Reply)
    ensures var out := RunQuery(lease, transaction, query, reply);
      && (out.took ==> lease == 0 && transaction.None? && out.durable == reply.writes)
      && (transaction.None? ==> out.transaction.None?)
      && (transaction.Some? && out.transaction.None? ==> out.code == 3 && out.durable == [])
      && (lease != 0 ==> out.durable == [])
      && (out.durable != [] ==> transaction.None? && (out.code == 0 || out.took))
  {
  }
}
