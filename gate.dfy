/** The database access scope `with_sql_cursor(readonly)`: open a
    connection and a cursor, run the body, commit when the body completes
    and the scope is not `readonly`, roll back and re-raise when it raises
    and the scope is not `readonly`, and close the cursor and the connection
    on every exit path. The database file is observed through the trace of
    the calls made on it. */
module Gate {
  import opened Wrappers

  datatype Event =
    | Connect
    | OpenCursor
    | Execute(sql: string)
    | Commit
    | Rollback
    | CloseCursor
    | CloseConnection

  /** How the body of the `with` block ended. */
  datatype BodyOutcome = Completed | Raised(message: string)

  // ---------------------------------------------------------------------
  // the connection protocol, as an automaton

  datatype GateState = GateState(connected: bool, cursor: bool)

  const Idle := GateState(false, false)

  /** The calls a sqlite3 connection and cursor accept in each state;
      `None` is a call on a closed object. */
  function Step(st: GateState, e: Event): Option<GateState>
  {
    match e
    case Connect => if st.connected then None else Some(GateState(true, false))
    case OpenCursor => if st.connected && !st.cursor then Some(GateState(true, true)) else None
    case Execute(_) => if st.cursor then Some(st) else None
    case Commit => if st.connected then Some(st) else None
    case Rollback => if st.connected then Some(st) else None
    case CloseCursor => if st.cursor then Some(GateState(st.connected, false)) else None
    case CloseConnection => if st.connected && !st.cursor then Some(Idle) else None
  }

  /** The state after a sequence of calls, if every call is accepted. */
  function Run(st: GateState, events: seq<Event>): Option<GateState>
    decreases |events|
  {
    if events == [] then Some(st)
    else match Step(st, events[0])
      case None => None
      case Some(next) => Run(next, events[1..])
  }

  lemma {:induction false} RunConcat(st: GateState, a: seq<Event>, b: seq<Event>)
    requires Run(st, a).Some?
    ensures Run(st, a + b) == Run(Run(st, a).value, b)
    decreases |a|
  {
    if a != [] {
      assert Step(st, a[0]).Some?;
      var next := Step(st, a[0]).value;
      assert Run(st, a) == Run(next, a[1..]);
      assert (a + b)[0] == a[0];
      assert (a + b)[1..] == a[1..] + b;
      assert Run(st, a + b) == Run(next, a[1..] + b);
      RunConcat(next, a[1..], b);
    } else {
      assert a + b == b;
    }
  }

  // ---------------------------------------------------------------------
  // one scope

  function Executions(statements: seq<string>): (r: seq<Event>)
    ensures |r| == |statements|
    ensures forall i | 0 <= i < |r| :: r[i] == Execute(statements[i])
  {
    seq(|statements|, i requires 0 <= i < |statements| => Execute(statements[i]))
  }

  /** The calls one `with with_sql_cursor(readonly)` block makes when its
      body executes `statements` and then ends with `body`. */
  function ScopeEvents(readonly: bool, statements: seq<string>, body: BodyOutcome): seq<Event>
  {
    [Connect, OpenCursor] + Executions(statements) + Ending(readonly, body) + [CloseCursor, CloseConnection]
  }

  /** The commit or rollback after the body, if any. */
  function Ending(readonly: bool, body: BodyOutcome): seq<Event>
  {
    if readonly then [] else if body.Completed? then [Commit] else [Rollback]
  }

  lemma {:induction false} RunExecutions(statements: seq<string>)
    ensures Run(GateState(true, true), Executions(statements)) == Some(GateState(true, true))
    decreases |statements|
  {
    if statements != [] {
      assert Executions(statements)[1..] == Executions(statements[1..]);
      RunExecutions(statements[1..]);
    }
  }

  /** Every call of a scope is made on an open object, and the scope ends
      with the cursor and the connection closed, whether the body
      completes or raises. */
  lemma ScopeIsLegal(readonly: bool, statements: seq<string>, body: BodyOutcome)
    ensures Run(Idle, ScopeEvents(readonly, statements, body)) == Some(Idle)
  {
    var ending := Ending(readonly, body);
    RunExecutions(statements);
    RunConcat(Idle, [Connect, OpenCursor], Executions(statements));
    RunConcat(Idle, [Connect, OpenCursor] + Executions(statements), ending);
    RunConcat(Idle, [Connect, OpenCursor] + Executions(statements) + ending, [CloseCursor, CloseConnection]);
  }

  /** A scope commits exactly when it is writable and its body completes. */
  lemma ScopeCommitsIff(readonly: bool, statements: seq<string>, body: BodyOutcome)
    ensures Commit in ScopeEvents(readonly, statements, body) <==> !readonly && body.Completed?
  {
    var s := ScopeEvents(readonly, statements, body);
    if !readonly && body.Completed? {
      assert s[2 + |statements|] == Commit;
    }
  }

  /** A scope rolls back exactly when it is writable and its body raises. */
  lemma ScopeRollsBackIff(readonly: bool, statements: seq<string>, body: BodyOutcome)
    ensures Rollback in ScopeEvents(readonly, statements, body) <==> !readonly && body.Raised?
  {
    var s := ScopeEvents(readonly, statements, body);
    if !readonly && body.Raised? {
      assert s[2 + |statements|] == Rollback;
    }
  }

  /** The database is touched only by the statements the body executes:
      the calls between opening and closing are exactly those statements,
      and, for a `readonly` scope, nothing else. */
  lemma ReadOnlyScope(statements: seq<string>, body: BodyOutcome)
    ensures var s := ScopeEvents(true, statements, body);
            s[..2] == [Connect, OpenCursor] &&
            s[2..|s| - 2] == Executions(statements) &&
            s[|s| - 2..] == [CloseCursor, CloseConnection]
  {
  }

  lemma ScopeShape(before: seq<Event>, readonly: bool, statements: seq<string>, body: BodyOutcome)
    ensures before + [Connect] + [OpenCursor] + Executions(statements) + Ending(readonly, body) + [CloseCursor] + [CloseConnection]
         == before + ScopeEvents(readonly, statements, body)
  {
  }

  // ---------------------------------------------------------------------
  // the database file, as the object the scopes act on

  class AccessGate {
    /** Every call made on the database, in order. */
    var events: seq<Event>
    var connectionOpen: bool
    var cursorOpen: bool

    /** Between scopes nothing is open, and the calls so far obey the
        protocol. */
    ghost predicate Valid()
      reads this
    {
      !connectionOpen && !cursorOpen && Run(Idle, events) == Some(Idle)
    }

    constructor ()
      ensures Valid() && events == []
    {
      events := [];
      connectionOpen := false;
      cursorOpen := false;
    }

    method Record(e: Event)
      modifies this
      ensures events == old(events) + [e]
      ensures connectionOpen == old(connectionOpen) && cursorOpen == old(cursorOpen)
    {
      events := events + [e];
    }

    /** `with with_sql_cursor(readonly) as cur:` around a body that
        executes `statements` and ends with `body`; a raising body is
        re-raised after the cleanup. */
    method WithSqlCursor(statements: seq<string>, body: BodyOutcome, readonly: bool := true)
      returns (outcome: BodyOutcome)
      requires Valid()
      modifies this
      ensures Valid()
      ensures outcome == body
      ensures events == old(events) + ScopeEvents(readonly, statements, body)
    {
      ghost var before := events;
      Record(Connect);
      connectionOpen := true;
      Record(OpenCursor);
      cursorOpen := true;
      ExecuteAll(statements);
      ghost var afterBody := events;
      if body.Completed? {
        if !readonly {
          Record(Commit);
        }
      } else {
        if !readonly {
          Record(Rollback);
        }
      }
      assert events == afterBody + Ending(readonly, body);
      Record(CloseCursor);
      cursorOpen := false;
      Record(CloseConnection);
      connectionOpen := false;
      outcome := body;
      ScopeShape(before, readonly, statements, body);
      ScopeIsLegal(readonly, statements, body);
      RunConcat(Idle, before, ScopeEvents(readonly, statements, body));
    }

    /** The body's `cur.execute` calls, in order. */
    method ExecuteAll(statements: seq<string>)
      requires connectionOpen && cursorOpen
      modifies this
      ensures connectionOpen && cursorOpen
      ensures events == old(events) + Executions(statements)
    {
      var i := 0;
      while i < |statements|
        invariant 0 <= i <= |statements|
        invariant connectionOpen && cursorOpen
        invariant events == old(events) + Executions(statements[..i])
      {
        Record(Execute(statements[i]));
        assert Executions(statements[..i + 1]) == Executions(statements[..i]) + [Execute(statements[i])];
        i := i + 1;
      }
      assert statements[..i] == statements;
    }
  }
}
