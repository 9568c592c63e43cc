/**
 * The Snowflake tool of the tool-calling agent (the tc snowflake_tool.py):
 * one query on a connection of its own, and a batch of queries on one
 * shared connection that stops at the first statement the database refuses.
 */
module BatchTool {
  import opened Wrappers
  import opened Text
  import opened CsvDisplay

  const Header: string := "EXECUTION RESULT of [execute_snowflake_sql]:\n"
  const DefaultTimeout: nat := 300

  // ---------------------------------------------------------------------
  // Credentials
  // ---------------------------------------------------------------------

  /** The entries `get_snowflake_credentials` reads from the environment never include these two. */
  predicate BaseCredentials(base: map<string, string>) {
    "database" !in base && "schema" !in base
  }

  /** `execute_snowflake_sql`: the database joins the credentials only when it is truthy. */
  method SingleCredentials(base: map<string, string>, database: Option<string>) returns (creds: map<string, string>)
    requires BaseCredentials(base)
    ensures forall k :: k in base ==> k in creds && creds[k] == base[k]
    ensures forall k :: k in creds ==> k in base || k == "database"
    ensures "database" in creds <==> Truthy(database)
    ensures "database" in creds ==> creds["database"] == database.value
  {
    creds := base;
    if Truthy(database) {
      creds := creds["database" := database.value];
    }
  }

  /**
   * `execute_snowflake_sql_batch`: with a truthy database the schema
   * defaults to the database's name, and a schema joins the credentials
   * only when it (after that default) is truthy.
   */
  method BatchCredentials(base: map<string, string>, database: Option<string>, schema: Option<string>)
    returns (creds: map<string, string>)
    requires BaseCredentials(base)
    ensures forall k :: k in base ==> k in creds && creds[k] == base[k]
    ensures forall k :: k in creds ==> k in base || k == "database" || k == "schema"
    ensures "database" in creds <==> Truthy(database)
    ensures "database" in creds ==> creds["database"] == database.value
    ensures "schema" in creds <==> Truthy(schema) || Truthy(database)
    ensures Truthy(schema) ==> creds["schema"] == schema.value
    ensures !Truthy(schema) && Truthy(database) ==> creds["schema"] == database.value
  {
    var schema := schema;
    creds := base;
    if Truthy(database) {
      creds := creds["database" := database.value];
      if !Truthy(schema) {
        schema := database;
      }
    }
    if Truthy(schema) {
      creds := creds["schema" := schema.value];
    }
  }

  // ---------------------------------------------------------------------
  // One query
  // ---------------------------------------------------------------------

  /** The exceptions `execute_snowflake_sql` tells apart, most specific first. */
  datatype Failure =
    | ProgrammingError(message: string)
    | DatabaseError(message: string)
    | TimeoutError
    | OtherError(message: string)

  /** How the query went: completed, or connecting or executing raised. */
  datatype Run = Completed(result: CursorResult) | Raised(failure: Failure)

  /** `kwargs.get('timeout', TIMEOUT)` */
  function TimeoutOf(timeout: Option<nat>): nat {
    if timeout.Some? then timeout.value else DefaultTimeout
  }

  function FailureText(f: Failure, timeout: nat): string {
    match f
    case ProgrammingError(m) => "SQL Error: " + m
    case DatabaseError(m) => "Database error: " + m
    case TimeoutError => "Execution timed out after " + NatToString(timeout) + " seconds."
    case OtherError(m) => "Unexpected error: " + m
  }

  /**
   * `execute_snowflake_sql`'s content: the header, then the formatted result
   * or the error text. It reads as a success exactly when the query
   * completed, and a timeout names the timeout in force.
   */
  function ExecuteSnowflakeSql(run: Run, timeout: Option<nat>): (r: string)
    ensures StartsWith(r, Header)
    ensures StartsWith(r, Header + SuccessMessage) <==> run.Completed?
    ensures run.Completed? ==> r == Header + FormatSqlResult(run.result)
    ensures run.Raised? ==> r == Header + FailureText(run.failure, TimeoutOf(timeout))
  {
    var content := match run
      case Completed(c) => FormatSqlResult(c)
      case Raised(f) =>
        (FailureTextIsNoSuccess(f, TimeoutOf(timeout));
         FailureText(f, TimeoutOf(timeout)));
    StartsWithAfter(Header, content, SuccessMessage);
    StartsWithAfter(Header, content, "");
    Header + content
  }

  /** No error text reads as a success. */
  lemma FailureTextIsNoSuccess(f: Failure, timeout: nat)
    ensures !StartsWith(FailureText(f, timeout), SuccessMessage)
  {
    var t := FailureText(f, timeout);
    match f {
      case ProgrammingError(m) =>
        StartsWithConcat("SQL Error: ", m);
        PrefixesDiffer(t, "SQL Error: ", SuccessMessage);
      case DatabaseError(m) =>
        StartsWithConcat("Database error: ", m);
        PrefixesDiffer(t, "Database error: ", SuccessMessage);
      case TimeoutError =>
        var rest := NatToString(timeout) + " seconds.";
        assert t == "Execution timed out after " + rest;
        StartsWithConcat("Execution timed out after ", rest);
        PrefixesDiffer(t, "Execution timed out after ", SuccessMessage);
      case OtherError(m) =>
        StartsWithConcat("Unexpected error: ", m);
        PrefixesDiffer(t, "Unexpected error: ", SuccessMessage);
    }
  }

  // ---------------------------------------------------------------------
  // A batch of queries on one connection
  // ---------------------------------------------------------------------

  /**
   * What the database does with one statement of the batch: it completes,
   * raises a ProgrammingError/DatabaseError, or raises anything else (which
   * escapes the loop to the outer handler).
   */
  datatype Outcome = Ran(result: CursorResult) | DbRaised(message: string) | OtherRaised(message: string)

  datatype Statement = Statement(sql: string, outcome: Outcome)

  /** A result dict: `{"content": …, "success": …}`. */
  datatype Entry = Entry(content: string, success: bool)

  /** The batch's note after a cut CSV: the display limit and the row count, not the CSV length. */
  function BatchNote(rowCount: nat): string {
    "\n\nNote: Truncated to " + NatToString(MaxCsvChars) + " chars. Total: " + NatToString(rowCount) + " rows."
  }

  /**
   * The batch's own reply for a statement that ran: a cut CSV is fenced as
   * in the single-query reply but followed by the shorter note, and a CSV
   * within the limit has no newline before its closing fence.
   */
  function BatchFormat(c: CursorResult): (r: string)
    ensures StartsWith(r, SuccessMessage)
    ensures c.Rows? ==> StartsWith(r, SuccessMessage + ("\n\n```csv\n" + ShownCsv(c.csv)))
    ensures c.NoDescription? ==> r == SuccessMessage + "."
    ensures c.NoRows? ==> r == SuccessMessage + ", but no rows returned."
    ensures c.Rows? && |c.csv| <= MaxCsvChars ==> r == SuccessMessage + ("\n\n```csv\n" + c.csv + "```")
    ensures c.Rows? && |c.csv| > MaxCsvChars ==> r == CsvBlock(ShownCsv(c.csv)) + BatchNote(c.rowCount)
  {
    match c
    case NoDescription => (StartsWithConcat(SuccessMessage, "."); SuccessMessage + ".")
    case NoRows =>
      (StartsWithConcat(SuccessMessage, ", but no rows returned."); SuccessMessage + ", but no rows returned.")
    case Rows(n, csv) =>
      var shown := ShownCsv(csv);
      var head := "\n\n```csv\n" + shown;
      if |csv| > MaxCsvChars then
        var block := CsvBlock(shown);
        StartsWithConcat(head, "\n```");
        StartsWithAfter(SuccessMessage, head + "\n```", head);
        StartsWithConcat(SuccessMessage, head + "\n```");
        StartsWithConcat(block, BatchNote(n));
        StartsWithTrans(block + BatchNote(n), block, SuccessMessage);
        StartsWithTrans(block + BatchNote(n), block, SuccessMessage + head);
        block + BatchNote(n)
      else
        StartsWithConcat(head, "```");
        StartsWithAfter(SuccessMessage, head + "```", head);
        StartsWithConcat(SuccessMessage, head + "```");
        SuccessMessage + (head + "```")
  }

  /** The entry one statement leaves in `results`: `success` is true exactly when the statement ran. */
  function EntryFor(o: Outcome): (e: Entry)
    ensures e.success <==> o.Ran?
  {
    match o
    case Ran(c) => Entry(Header + BatchFormat(c), true)
    case DbRaised(m) => Entry(Header + ("SQL Error: " + m), false)
    case OtherRaised(m) => Entry(Header + ("Connection error: " + m), false)
  }

  /** Every entry carries the header, and its text reports success exactly when `success` is set. */
  lemma EntryForReads(o: Outcome)
    ensures StartsWith(EntryFor(o).content, Header)
    ensures EntryFor(o).success <==> StartsWith(EntryFor(o).content, Header + SuccessMessage)
  {
    var text := match o
      case Ran(c) => BatchFormat(c)
      case DbRaised(m) => "SQL Error: " + m
      case OtherRaised(m) => "Connection error: " + m;
    assert EntryFor(o).content == Header + text;
    match o {
      case Ran(_) =>
      case DbRaised(m) =>
        StartsWithConcat("SQL Error: ", m);
        PrefixesDiffer(text, "SQL Error: ", SuccessMessage);
      case OtherRaised(m) =>
        StartsWithConcat("Connection error: ", m);
        PrefixesDiffer(text, "Connection error: ", SuccessMessage);
    }
    StartsWithAfter(Header, text, SuccessMessage);
    StartsWithAfter(Header, text, "");
  }

  /** The index of the first statement that does not complete, or |qs|. */
  function StopIndex(qs: seq<Statement>): (k: nat)
    ensures k <= |qs|
    ensures forall i :: 0 <= i < k ==> qs[i].outcome.Ran?
    ensures k < |qs| ==> !qs[k].outcome.Ran?
  {
    if |qs| == 0 then 0
    else if !qs[0].outcome.Ran? then 0
    else 1 + StopIndex(qs[1..])
  }

  /** How many statements the loop sends: all up to and including the first that fails. */
  function SentCount(qs: seq<Statement>): nat {
    if StopIndex(qs) < |qs| then StopIndex(qs) + 1 else |qs|
  }

  /** The entries of statements that all ran, one per statement, in order. */
  function Entries(qs: seq<Statement>): (r: seq<Entry>)
    ensures |r| == |qs| && forall i :: 0 <= i < |qs| ==> r[i] == EntryFor(qs[i].outcome)
  {
    seq(|qs|, i requires 0 <= i < |qs| => EntryFor(qs[i].outcome))
  }

  /** The results of a batch whose connection opened: one entry per statement sent, in order. */
  function BatchResults(qs: seq<Statement>): (r: seq<Entry>)
    ensures |r| <= |qs|
    ensures forall i :: 0 <= i < |r| ==> r[i] == EntryFor(qs[i].outcome)
    ensures forall i :: 0 <= i < |r| - 1 ==> r[i].success
    ensures |r| < |qs| ==> |r| > 0 && !r[|r| - 1].success
    ensures (forall i :: 0 <= i < |qs| ==> qs[i].outcome.Ran?) ==> |r| == |qs|
  {
    var k := SentCount(qs);
    var r := Entries(qs[..k]);
    assert forall i | 0 <= i < k :: qs[..k][i] == qs[i];
    assert forall i | 0 <= i < k :: r[i].success == qs[i].outcome.Ran?;
    assert k < |qs| ==> k == StopIndex(qs) + 1;
    r
  }

  function Sqls(qs: seq<Statement>): (r: seq<string>)
    ensures |r| == |qs| && forall i :: 0 <= i < |qs| ==> r[i] == qs[i].sql
  {
    seq(|qs|, i requires 0 <= i < |qs| => qs[i].sql)
  }

  lemma EntryForOutcome(o: Outcome)
    ensures o.Ran? ==> EntryFor(o) == Entry(Header + BatchFormat(o.result), true)
    ensures o.DbRaised? ==> EntryFor(o) == Entry(Header + ("SQL Error: " + o.message), false)
    ensures o.OtherRaised? ==> EntryFor(o) == Entry(Header + ("Connection error: " + o.message), false)
  {
  }

  lemma PrefixSnoc(qs: seq<Statement>, i: nat)
    requires i < |qs|
    ensures Entries(qs[..i + 1]) == Entries(qs[..i]) + [EntryFor(qs[i].outcome)]
    ensures Sqls(qs[..i + 1]) == Sqls(qs[..i]) + [qs[i].sql]
  {
  }

  /**
   * `execute_snowflake_sql_batch`. `connectError` is the exception raised
   * while connecting, if any; `sent` lists the statements sent to the
   * database, in order.
   */
  method ExecuteBatch(qs: seq<Statement>, connectError: Option<string>) returns (results: seq<Entry>, sent: seq<string>)
    ensures connectError.Some? ==>
      results == [Entry(Header + "Connection error: " + connectError.value, false)] && sent == []
    ensures connectError.None? ==> results == BatchResults(qs) && sent == Sqls(qs[..|results|])
  {
    if connectError.Some? {
      results, sent := [Entry(Header + "Connection error: " + connectError.value, false)], [];
      return;
    }
    results, sent := SendStatements(qs);
  }

  /** The statement loop: each statement is sent and leaves its entry, and the first failure ends the loop. */
  method SendStatements(qs: seq<Statement>) returns (results: seq<Entry>, sent: seq<string>)
    ensures results == Entries(qs[..SentCount(qs)]) && sent == Sqls(qs[..SentCount(qs)])
  {
    results, sent := [], [];
    var i := 0;
    while i < |qs|
      invariant i <= |qs| && i <= StopIndex(qs)
      invariant results == Entries(qs[..i]) && sent == Sqls(qs[..i])
    {
      PrefixSnoc(qs, i);
      sent := sent + [qs[i].sql];
      var entry, failed := RunStatement(qs[i].outcome);
      results := results + [entry];
      if failed {
        assert StopIndex(qs) == i;
        return;  // `break`: stop on error
      }
      i := i + 1;
    }
  }

  /** The body of the batch loop: one statement's entry, and whether the loop stops after it. */
  method RunStatement(o: Outcome) returns (entry: Entry, failed: bool)
    ensures entry == EntryFor(o) && failed == !o.Ran?
  {
    EntryForOutcome(o);
    match o {
      case Ran(c) =>
        entry, failed := Entry(Header + BatchFormat(c), true), false;
      case DbRaised(m) =>
        entry, failed := Entry(Header + ("SQL Error: " + m), false), true;
      case OtherRaised(m) =>
        // not a database error: it escapes to the outer handler
        entry, failed := Entry(Header + ("Connection error: " + m), false), true;
    }
  }
}
