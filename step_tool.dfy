/**
 * The Snowflake tool of the decomposing agent (the tc-decomp snowflake_tool.py):
 * a registry of per-session connections, the formatting of one query's
 * result, and the two entry points `execute_snowflake_sql` and
 * `execute_sql_step`, the latter turning a named SELECT step into a temp
 * table the following steps can read.
 */
module StepTool {
  import opened Wrappers
  import opened Text
  import opened CsvDisplay
  import Decompose
  import Submission

  const MissingSql: string := "ERROR: 'sql' is a required parameter."
  const SnowflakeSqlHeader: string := "EXECUTION RESULT of [execute_snowflake_sql]:\n"
  const SqlStepHeader: string := "EXECUTION RESULT of [execute_sql_step]:\n"

  /**
   * How one query went: it completed, or connecting or executing raised a
   * ProgrammingError/DatabaseError, or raised any other exception.
   */
  datatype Execution = Completed(result: CursorResult) | DbRaised(message: string) | OtherRaised(message: string)

  /**
   * `_execute_query`'s reply text. It reads as a failure to the submission
   * converter exactly when the query did not complete, and it carries the
   * exception's message after the error kind.
   */
  function QueryContent(e: Execution): (r: string)
    ensures Submission.FailureReply(r) <==> !e.Completed?
    ensures e.DbRaised? ==> r == "SQL Error: " + e.message
    ensures e.OtherRaised? ==> r == "Unexpected error: " + e.message
    ensures e.Completed? ==> r == FormatSqlResult(e.result)
  {
    match e
    case Completed(c) =>
      var r := FormatSqlResult(c);
      PrefixesDiffer(r, SuccessMessage, "SQL Error");
      PrefixesDiffer(r, SuccessMessage, "Unexpected error");
      r
    case DbRaised(m) =>
      var r := "SQL Error: " + m;
      StartsWithConcat("SQL Error: ", m);
      StartsWithConcat("SQL Error", ": ");
      StartsWithTrans(r, "SQL Error: ", "SQL Error");
      r
    case OtherRaised(m) =>
      var r := "Unexpected error: " + m;
      StartsWithConcat("Unexpected error: ", m);
      StartsWithConcat("Unexpected error", ": ");
      StartsWithTrans(r, "Unexpected error: ", "Unexpected error");
      r
  }

  /** `execute_sql_step` runs a named SELECT as a temp table. */
  predicate WrapsSelect(sql: string, stepName: Option<string>) {
    Truthy(stepName) && StartsWith(Upper(Strip(sql)), "SELECT")
  }

  /**
   * The statement `execute_sql_step` sends: the SQL as given, or, for a
   * named SELECT, the temp-table statement around the SQL as given (not
   * stripped).
   */
  function StepSql(sql: string, stepName: Option<string>): (r: string)
    ensures WrapsSelect(sql, stepName) ==> r == Decompose.TempTableSql(stepName.value, sql)
    ensures !WrapsSelect(sql, stepName) ==> r == sql
  {
    if WrapsSelect(sql, stepName) then
      "CREATE OR REPLACE TEMP TABLE " + stepName.value + " AS\n" + sql
    else sql
  }

  /**
   * The submission converter decides to wrap exactly as the tool did, and
   * the block it records holds the statement the tool would have sent for
   * the stripped SQL.
   */
  lemma ConverterReplaysStep(sql: string, stepName: Option<string>)
    ensures var step := Submission.StepLabel(stepName);
      (Submission.Wraps(Submission.ExecuteSqlStep, sql, step) <==> WrapsSelect(sql, stepName))
      && Submission.SqlBlock(Submission.ExecuteSqlStep, sql, step)
         == "-- [" + Submission.ExecuteSqlStep + "] " + (if step != "" then step else "check") + "\n"
            + StepSql(Strip(sql), stepName)
  {
    var step := Submission.StepLabel(stepName);
    Submission.SqlBlockBody(Submission.ExecuteSqlStep, sql, step);
    StripIdempotent(sql);
    assert WrapsSelect(sql, stepName) <==> WrapsSelect(Strip(sql), stepName);
  }

  /**
   * Both entry points put a header in front of `_execute_query`'s text, so a
   * reply handed on verbatim never reads as a failure to the converter,
   * even when the query raised.
   */
  lemma HeaderHidesFailure(e: Execution)
    ensures !Submission.FailureReply(SqlStepHeader + QueryContent(e))
    ensures !Submission.FailureReply(SnowflakeSqlHeader + QueryContent(e))
    ensures !e.Completed? ==> Submission.FailureReply(QueryContent(e))
  {
    var c := QueryContent(e);
    StartsWithConcat(SqlStepHeader, c);
    StartsWithConcat(SnowflakeSqlHeader, c);
    PrefixesDiffer(SqlStepHeader + c, SqlStepHeader, "SQL Error");
    PrefixesDiffer(SqlStepHeader + c, SqlStepHeader, "Unexpected error");
    PrefixesDiffer(SnowflakeSqlHeader + c, SnowflakeSqlHeader, "SQL Error");
    PrefixesDiffer(SnowflakeSqlHeader + c, SnowflakeSqlHeader, "Unexpected error");
  }

  // ---------------------------------------------------------------------
  // The session registry `_session_connections`
  // ---------------------------------------------------------------------

  /** A Snowflake connection: whether it has been closed, and the database its credentials named. */
  class Connection {
    var closed: bool
    const database: Option<string>

    /** `snowflake.connector.connect(**creds)`: the database is in the credentials only when truthy. */
    constructor Open(database: Option<string>)
      ensures !closed
      ensures this.database == if Truthy(database) then database else None
    {
      closed := false;
      this.database := if Truthy(database) then database else None;
    }

    method Close()
      modifies this
      ensures closed
    {
      closed := true;
    }
  }

  class SessionRegistry {
    var connections: map<string, Connection>

    constructor ()
      ensures connections == map[]
    {
      connections := map[];
    }

    /** The registered connection for `sessionId` can be reused. */
    predicate Reusable(sessionId: string)
      reads this, connections.Values
    {
      sessionId in connections && !connections[sessionId].closed
    }

    /**
     * `get_or_create_connection`: an open registered connection is returned
     * and the registry is left alone; otherwise a fresh connection is opened
     * and registered under `sessionId`, replacing a closed one.
     */
    method GetOrCreateConnection(sessionId: string, database: Option<string>) returns (conn: Connection)
      modifies this
      ensures sessionId in connections && connections[sessionId] == conn && !conn.closed
      ensures old(Reusable(sessionId)) ==> conn == old(connections[sessionId]) && connections == old(connections)
      ensures !old(Reusable(sessionId)) ==>
        fresh(conn) && conn.database == (if Truthy(database) then database else None)
        && connections == old(connections)[sessionId := conn]
    {
      if sessionId in connections {
        var existing := connections[sessionId];
        if !existing.closed {
          return existing;
        }
      }
      conn := new Connection.Open(database);
      connections := connections[sessionId := conn];
    }

    /**
     * `close_session`: the session's connection, if any, is closed and its
     * entry removed; every other entry stays as it was.
     */
    method CloseSession(sessionId: string)
      modifies this, if sessionId in connections then {connections[sessionId]} else {}
      ensures connections == old(connections) - {sessionId}
      ensures sessionId in old(connections) ==> old(connections[sessionId]).closed
    {
      if sessionId in connections {
        connections[sessionId].Close();
        connections := connections - {sessionId};
      }
    }

    /**
     * `_execute_query`: the statement runs on the session's connection,
     * opened or reused as GetOrCreateConnection says, and `run` is what the
     * database did with it: the registry changes only at `sessionId`, and
     * only when no open connection was registered there.
     */
    method ExecuteQuery(sessionId: string, database: Option<string>, run: Execution) returns (content: string)
      modifies this
      ensures content == QueryContent(run)
      ensures sessionId in connections && !connections[sessionId].closed
      ensures old(Reusable(sessionId)) ==> connections == old(connections)
      ensures !old(Reusable(sessionId)) ==>
        fresh(connections[sessionId]) && connections[sessionId].database == (if Truthy(database) then database else None)
        && connections == old(connections)[sessionId := connections[sessionId]]
    {
      var _ := GetOrCreateConnection(sessionId, database);
      content := QueryContent(run);
    }

    /**
     * `execute_snowflake_sql`: a missing or empty `sql` is refused before
     * anything runs; otherwise the SQL is sent as given. `sent` is the
     * statement sent to the database, if any.
     */
    method ExecuteSnowflakeSql(sql: Option<string>, sessionId: string, database: Option<string>, run: Execution)
      returns (content: string, sent: Option<string>)
      modifies this
      ensures !Truthy(sql) ==> content == MissingSql && sent == None && connections == old(connections)
      ensures Truthy(sql) ==> sent == sql && content == SnowflakeSqlHeader + QueryContent(run)
      ensures Truthy(sql) ==> sessionId in connections && !connections[sessionId].closed
      ensures Truthy(sql) && old(Reusable(sessionId)) ==> connections == old(connections)
      ensures Truthy(sql) && !old(Reusable(sessionId)) ==>
        fresh(connections[sessionId]) && connections[sessionId].database == (if Truthy(database) then database else None)
        && connections == old(connections)[sessionId := connections[sessionId]]
    {
      if !Truthy(sql) {
        return MissingSql, None;
      }
      var text := ExecuteQuery(sessionId, database, run);
      content, sent := SnowflakeSqlHeader + text, sql;
    }

    /**
     * `execute_sql_step`: like ExecuteSnowflakeSql, but a named SELECT is
     * sent as the statement that materialises it as a temp table.
     */
    method ExecuteSqlStep(sql: Option<string>, stepName: Option<string>, sessionId: string, database: Option<string>, run: Execution)
      returns (content: string, sent: Option<string>)
      modifies this
      ensures !Truthy(sql) ==> content == MissingSql && sent == None && connections == old(connections)
      ensures Truthy(sql) ==> sent == Some(StepSql(sql.value, stepName)) && content == SqlStepHeader + QueryContent(run)
      ensures Truthy(sql) ==> sessionId in connections && !connections[sessionId].closed
      ensures Truthy(sql) && old(Reusable(sessionId)) ==> connections == old(connections)
      ensures Truthy(sql) && !old(Reusable(sessionId)) ==>
        fresh(connections[sessionId]) && connections[sessionId].database == (if Truthy(database) then database else None)
        && connections == old(connections)[sessionId := connections[sessionId]]
    {
      if !Truthy(sql) {
        return MissingSql, None;
      }
      var statement := sql.value;
      if stepName.Some? && stepName.value != "" && StartsWith(Upper(Strip(statement)), "SELECT") {
        statement := "CREATE OR REPLACE TEMP TABLE " + stepName.value + " AS\n" + statement;
      }
      var text := ExecuteQuery(sessionId, database, run);
      content, sent := SqlStepHeader + text, Some(statement);
    }
  }
}
