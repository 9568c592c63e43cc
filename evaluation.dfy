/**
 * The verification harness of execute_sql_snow.py: it runs each benchmark
 * query once as written and once decomposed, and compares the two results.
 * The database is not modelled: each statement's outcome is an input, and
 * so is the column comparison `vectors_match`, which is floating point.
 */
module Evaluation {
  import opened Wrappers
  import opened Text
  import opened Seqs
  import opened Decompose

  // ---------------------------------------------------------------------
  // Result frames and statement outcomes
  // ---------------------------------------------------------------------

  datatype Cell = Null | Number(n: int) | Str(s: string)

  type Column = seq<Cell>

  /** A result frame, column by column (what `transpose().values.tolist()` yields). */
  datatype Frame = Frame(columns: seq<Column>, rowCount: nat)

  /** `df.empty`: no columns or no rows. */
  predicate Empty(f: Frame) {
    |f.columns| == 0 || f.rowCount == 0
  }

  datatype DbError = ProgrammingError(message: string) | OtherError(message: string)

  /** What the cursor does with one statement. */
  datatype StatementOutcome =
    | Rows(frame: Frame)        // the statement has a result description
    | NoDescription             // it ran but described no result
    | Raised(error: DbError)

  /** The `(DataFrame or None, error or None)` pair the runners return. */
  datatype Outcome = Outcome(frame: Option<Frame>, error: Option<string>)

  const NoData: Outcome := Outcome(None, Some("No data returned"))

  /**
   * The message for a failed execution, with the timeout shown in seconds:
   * a timeout, or the error's own message after "SQL Error: " or "Error: ".
   */
  function ErrorText(e: DbError, timeout: nat): (t: string)
    ensures t != ""
    ensures e.OtherError? ==> t == "Error: " + e.message
    ensures e.ProgrammingError? && !Contains(e.message, "STATEMENT_TIMEOUT") && !Contains(e.message, "SQL execution canceled")
      ==> t == "SQL Error: " + e.message
  {
    match e
    case ProgrammingError(msg) =>
      if Contains(msg, "STATEMENT_TIMEOUT") || Contains(msg, "SQL execution canceled") then
        "Query timed out after " + NatToString(timeout) + " seconds"
      else "SQL Error: " + msg
    case OtherError(msg) => "Error: " + msg
  }

  /**
   * `execute_sql_to_dataframe` on the outcome of its one statement. Reading
   * the columns of a statement without a description raises a TypeError.
   */
  function RunSingle(o: StatementOutcome, timeout: nat): (r: Outcome)
    ensures WellFormedOutcome(r)
    ensures r.frame.Some? ==> o == Rows(r.frame.value) && !Empty(r.frame.value)
    ensures o.Rows? && !Empty(o.frame) ==> r == Outcome(Some(o.frame), None)
    ensures o.Rows? && Empty(o.frame) ==> r == NoData
    ensures o.NoDescription? ==> r == Outcome(None, Some("Error: 'NoneType' object is not iterable"))
    ensures o.Raised? ==> r == Outcome(None, Some(ErrorText(o.error, timeout)))
  {
    match o
    case Raised(e) => Outcome(None, Some(ErrorText(e, timeout)))
    case NoDescription => Outcome(None, Some("Error: 'NoneType' object is not iterable"))
    case Rows(f) => if Empty(f) then NoData else Outcome(Some(f), None)
  }

  // ---------------------------------------------------------------------
  // The batch runner
  // ---------------------------------------------------------------------

  /** The index of the first statement that raises, if any. */
  function FirstRaised(os: seq<StatementOutcome>): (k: Option<nat>)
    ensures k.None? <==> forall i | 0 <= i < |os| :: !os[i].Raised?
    ensures k.Some? ==> k.value < |os| && os[k.value].Raised? && forall i | 0 <= i < k.value :: !os[i].Raised?
  {
    if |os| == 0 then None
    else if os[0].Raised? then Some(0)
    else
      var k := FirstRaised(os[1..]);
      if k.None? then None else Some(k.value + 1)
  }

  /** The index of the last described statement, or -1. */
  function LastRowsIndex(os: seq<StatementOutcome>): (k: int)
    ensures -1 <= k < |os|
    ensures 0 <= k ==> os[k].Rows?
    ensures forall j | k < j < |os| :: !os[j].Rows?
  {
    if |os| == 0 then -1
    else if os[|os| - 1].Rows? then |os| - 1
    else
      var init := os[..|os| - 1];
      var k := LastRowsIndex(init);
      assert forall j | k < j < |os| - 1 :: os[j] == init[j];
      k
  }

  /** The frame of the last described statement, if any. */
  function LastFrame(os: seq<StatementOutcome>): (f: Option<Frame>)
    ensures f.None? <==> forall i | 0 <= i < |os| :: !os[i].Rows?
    ensures f.Some? ==> exists i :: 0 <= i < |os| && os[i] == Rows(f.value) && forall j | i < j < |os| :: !os[j].Rows?
  {
    var k := LastRowsIndex(os);
    if 0 <= k then Some(os[k].frame) else None
  }

  /**
   * What `execute_batch_sql_to_dataframe` returns for these statement
   * outcomes: the first error, else the last described frame when it is not
   * empty, else "No data returned".
   */
  function BatchResult(os: seq<StatementOutcome>, timeout: nat): (r: Outcome)
    ensures WellFormedOutcome(r)
    ensures r.frame.Some? ==> FirstRaised(os).None? && r.frame == LastFrame(os) && !Empty(r.frame.value)
  {
    var k := FirstRaised(os);
    if k.Some? then Outcome(None, Some(ErrorText(os[k.value].error, timeout)))
    else
      var f := LastFrame(os);
      if f.None? || Empty(f.value) then NoData else Outcome(Some(f.value), None)
  }

  /** The schema the batch session opens: the given one, or the database's name. */
  function SessionSchema(schema: Option<string>, database: string): (s: string)
    ensures Truthy(schema) ==> s == schema.value
    ensures !Truthy(schema) ==> s == database
  {
    if schema.Some? && schema.value != "" then schema.value else database
  }

  /**
   * The statement loop of `execute_batch_sql_to_dataframe`: statements run
   * in order, a described result replaces the kept frame, and the first
   * raise ends the loop. `ran` is how many statements were executed.
   */
  method RunBatch(os: seq<StatementOutcome>, timeout: nat) returns (r: Outcome, ran: nat)
    ensures r == BatchResult(os, timeout)
    ensures FirstRaised(os).Some? ==> ran == FirstRaised(os).value + 1
    ensures FirstRaised(os).None? ==> ran == |os|
  {
    var finalFrame: Option<Frame> := None;
    var i := 0;
    while i < |os|
      invariant i <= |os|
      invariant forall j | 0 <= j < i :: !os[j].Raised?
      invariant finalFrame == LastFrame(os[..i])
    {
      assert os[..i + 1][..i] == os[..i];
      match os[i] {
        case Raised(e) =>
          assert FirstRaised(os) == Some(i);
          return Outcome(None, Some(ErrorText(e, timeout))), i + 1;
        case Rows(f) =>
          finalFrame := Some(f);
        case NoDescription =>
      }
      i := i + 1;
    }
    assert os[..i] == os;
    if finalFrame.None? || Empty(finalFrame.value) {
      return NoData, i;
    }
    return Outcome(finalFrame, None), i;
  }

  /** Without errors, the batch returns the frame of its last described statement when that is non-empty. */
  lemma BatchKeepsLastFrame(os: seq<StatementOutcome>, timeout: nat, i: nat)
    requires i < |os| && os[i].Rows? && !Empty(os[i].frame)
    requires forall j | 0 <= j < |os| :: !os[j].Raised?
    requires forall j | i < j < |os| :: !os[j].Rows?
    ensures BatchResult(os, timeout) == Outcome(Some(os[i].frame), None)
  {
    assert LastRowsIndex(os) == i;
  }

  // ---------------------------------------------------------------------
  // Schema extraction
  // ---------------------------------------------------------------------

  /** A qualified table reference `catalog.db.table`; a missing part is "". */
  datatype TableRef = TableRef(catalog: string, db: string)

  /** The reference names the session's database and a schema. */
  predicate SchemaMatches(t: TableRef, database: string) {
    t.catalog != "" && t.db != "" && Upper(StripQuotes(t.catalog)) == Upper(database)
  }

  /** The index of the first matching reference at or after `from`, or |refs|. */
  function FirstMatch(refs: seq<TableRef>, database: string, from: nat): (k: nat)
    requires from <= |refs|
    ensures from <= k <= |refs|
    ensures forall j | from <= j < k :: !SchemaMatches(refs[j], database)
    ensures k < |refs| ==> SchemaMatches(refs[k], database)
    decreases |refs| - from
  {
    if from == |refs| then from
    else if SchemaMatches(refs[from], database) then from
    else FirstMatch(refs, database, from + 1)
  }

  /** The schema of the first matching reference, quotes stripped. */
  function SchemaFromRefs(refs: seq<TableRef>, database: string): (r: Option<string>)
    ensures r.None? <==> forall i | 0 <= i < |refs| :: !SchemaMatches(refs[i], database)
    ensures r.Some? ==> exists i :: 0 <= i < |refs| && SchemaMatches(refs[i], database)
                           && r.value == StripQuotes(refs[i].db)
                           && forall j | 0 <= j < i :: !SchemaMatches(refs[j], database)
  {
    var k := FirstMatch(refs, database, 0);
    if k < |refs| then Some(StripQuotes(refs[k].db)) else None
  }

  /**
   * `extract_schema_from_sql`: the table references of the parsed statement,
   * or None when parsing raised; the loop returns at the first match.
   */
  method ExtractSchema(parsed: Option<seq<TableRef>>, database: string) returns (r: Option<string>)
    ensures parsed.None? ==> r.None?
    ensures parsed.Some? ==> r == SchemaFromRefs(parsed.value, database)
  {
    if parsed.None? {
      return None;
    }
    var refs := parsed.value;
    var i := 0;
    while i < |refs|
      invariant i <= |refs|
      invariant forall j | 0 <= j < i :: !SchemaMatches(refs[j], database)
    {
      var t := refs[i];
      if t.catalog != "" && t.db != "" {
        var catalogClean := Upper(StripQuotes(t.catalog));
        var dbClean := Upper(database);
        if catalogClean == dbClean {
          assert FirstMatch(refs, database, 0) == i;
          return Some(StripQuotes(t.db));
        }
      }
      i := i + 1;
    }
    assert FirstMatch(refs, database, 0) == |refs|;
    return None;
  }

  // ---------------------------------------------------------------------
  // Running a decomposed query
  // ---------------------------------------------------------------------

  /** How a plan is executed. */
  datatype Dispatch = NothingToRun | RunAlone(sql: string) | RunAsBatch(statements: seq<string>)

  /** No step: nothing runs; one step: it runs alone; otherwise every step's SQL runs as one batch, in plan order. */
  function DispatchPlan(plan: seq<DecomposedQuery>): (d: Dispatch)
    ensures d.NothingToRun? <==> |plan| == 0
    ensures d.RunAlone? <==> |plan| == 1
    ensures d.RunAlone? ==> d.sql == plan[0].sql
    ensures d.RunAsBatch? ==> |d.statements| == |plan| && forall i | 0 <= i < |plan| :: d.statements[i] == plan[i].sql
  {
    if |plan| == 0 then NothingToRun
    else if |plan| == 1 then RunAlone(plan[0].sql)
    else RunAsBatch(seq(|plan|, i requires 0 <= i < |plan| => plan[i].sql))
  }

  /**
   * `execute_decomposed_sql`. `decomposed` is the decomposer's plan or the
   * message of the exception it raised; `single` is what the database does
   * with a lone statement, and `batch` holds one outcome per statement of a
   * batch, in plan order. `ran` counts the batch statements that were
   * executed: up to and including the first that raises.
   */
  method ExecuteDecomposedSql(decomposed: Result<seq<DecomposedQuery>, string>, parsed: Option<seq<TableRef>>,
                              database: string, timeout: nat, single: StatementOutcome, batch: seq<StatementOutcome>)
    returns (r: Outcome, sent: Dispatch, sessionSchema: Option<string>, ran: nat)
    ensures WellFormedOutcome(r)
    ensures decomposed.Failure? ==> sent == NothingToRun
    ensures decomposed.Success? ==> sent == DispatchPlan(decomposed.value)
    ensures decomposed.Failure? ==> r == Outcome(None, Some("Decomposition error: " + decomposed.error))
    ensures decomposed.Success? && |decomposed.value| == 0 ==> r == Outcome(None, Some("No queries to execute"))
    ensures decomposed.Success? && |decomposed.value| == 1 ==> r == RunSingle(single, timeout)
    ensures decomposed.Success? && |decomposed.value| >= 2 ==>
      && r == BatchResult(batch, timeout)
      && sessionSchema == Some(SessionSchema(if parsed.Some? then SchemaFromRefs(parsed.value, database) else None, database))
    ensures sessionSchema.Some? ==> decomposed.Success? && |decomposed.value| >= 2
    ensures !(decomposed.Success? && |decomposed.value| >= 2) ==> ran == 0
    ensures decomposed.Success? && |decomposed.value| >= 2 ==>
      ran == if FirstRaised(batch).Some? then FirstRaised(batch).value + 1 else |batch|
  {
    sessionSchema, sent, ran := None, NothingToRun, 0;
    if decomposed.Failure? {
      return Outcome(None, Some("Decomposition error: " + decomposed.error)), sent, None, 0;
    }
    sent := DispatchPlan(decomposed.value);
    match sent
    case NothingToRun =>
      r := Outcome(None, Some("No queries to execute"));
    case RunAlone(sql) =>
      r := RunSingle(single, timeout);
    case RunAsBatch(statements) =>
      var schema := ExtractSchema(parsed, database);
      sessionSchema := Some(SessionSchema(schema, database));
      r, ran := RunBatch(batch, timeout);
  }

  // ---------------------------------------------------------------------
  // Comparing results
  // ---------------------------------------------------------------------

  /** Some predicted column matches the gold column `g`. */
  predicate MatchedBy(g: Column, pred: seq<Column>, vectorsMatch: (Column, Column) -> bool) {
    exists j :: 0 <= j < |pred| && vectorsMatch(g, pred[j])
  }

  /** Every gold column matches at least one predicted column. */
  predicate Covered(gold: seq<Column>, pred: seq<Column>, vectorsMatch: (Column, Column) -> bool) {
    forall i | 0 <= i < |gold| :: MatchedBy(gold[i], pred, vectorsMatch)
  }

  /** `any(vectors_match(gold, pred) for pred in t_pred_list)` */
  method AnyMatch(g: Column, pred: seq<Column>, vectorsMatch: (Column, Column) -> bool) returns (found: bool)
    ensures found <==> MatchedBy(g, pred, vectorsMatch)
  {
    var j := 0;
    while j < |pred|
      invariant j <= |pred|
      invariant forall k | 0 <= k < j :: !vectorsMatch(g, pred[k])
    {
      if vectorsMatch(g, pred[j]) {
        return true;
      }
      j := j + 1;
    }
    return false;
  }

  /**
   * `compare_pandas_table` with `condition_cols=[]`: the score is 1 iff
   * every gold column is matched by some predicted column, else 0.
   * `vectorsMatch` stands for `vectors_match` with the chosen `ignore_order`.
   */
  method ComparePandasTable(pred: Frame, gold: Frame, vectorsMatch: (Column, Column) -> bool) returns (score: int)
    ensures score == 1 || score == 0
    ensures score == 1 <==> Covered(gold.columns, pred.columns, vectorsMatch)
  {
    score := 1;
    var i := 0;
    while i < |gold.columns|
      invariant i <= |gold.columns|
      invariant score == 1 || score == 0
      invariant score == 1 <==> Covered(gold.columns[..i], pred.columns, vectorsMatch)
    {
      var found := AnyMatch(gold.columns[i], pred.columns, vectorsMatch);
      if !found {
        score := 0;
      }
      assert forall k | 0 <= k < i :: gold.columns[..i + 1][k] == gold.columns[..i][k];
      i := i + 1;
    }
    assert gold.columns[..i] == gold.columns;
  }

  /** Extra predicted columns never lower the score. */
  lemma CoveredByMoreColumns(gold: seq<Column>, pred: seq<Column>, extra: seq<Column>, vectorsMatch: (Column, Column) -> bool)
    requires Covered(gold, pred, vectorsMatch)
    ensures Covered(gold, pred + extra, vectorsMatch)
  {
    forall i | 0 <= i < |gold|
      ensures MatchedBy(gold[i], pred + extra, vectorsMatch)
    {
      var j :| 0 <= j < |pred| && vectorsMatch(gold[i], pred[j]);
      assert (pred + extra)[j] == pred[j];
    }
  }

  /** The order of the predicted columns does not matter. */
  lemma CoveredIgnoresColumnOrder(gold: seq<Column>, pred: seq<Column>, pred': seq<Column>, vectorsMatch: (Column, Column) -> bool)
    requires multiset(pred) == multiset(pred')
    requires Covered(gold, pred, vectorsMatch)
    ensures Covered(gold, pred', vectorsMatch)
  {
    forall i | 0 <= i < |gold|
      ensures MatchedBy(gold[i], pred', vectorsMatch)
    {
      var j :| 0 <= j < |pred| && vectorsMatch(gold[i], pred[j]);
      assert pred[j] in multiset(pred');
      var j' :| 0 <= j' < |pred'| && pred'[j'] == pred[j];
    }
  }

  /**
   * `compare_dataframes(df1, df2)`: df1 plays the prediction and df2 the
   * gold table. Both missing match; one missing does not; otherwise they
   * match iff every column of df2 is matched by a column of df1.
   */
  function CompareDataframes(df1: Option<Frame>, df2: Option<Frame>, vectorsMatch: (Column, Column) -> bool)
    : (r: (bool, string))
    ensures r.0 <==> (df1.None? && df2.None?) || (df1.Some? && df2.Some? && Covered(df2.value.columns, df1.value.columns, vectorsMatch))
    ensures r.1 == "both_empty" <==> df1.None? && df2.None?
    ensures r.1 == "one_empty" <==> df1.None? != df2.None?
    ensures df1.Some? && df2.Some? ==> r.1 == (if r.0 then "match" else "value_mismatch")
  {
    if df1.None? && df2.None? then (true, "both_empty")
    else if df1.None? || df2.None? then (false, "one_empty")
    else if Covered(df2.value.columns, df1.value.columns, vectorsMatch) then (true, "match")
    else (false, "value_mismatch")
  }

  // ---------------------------------------------------------------------
  // One benchmark query
  // ---------------------------------------------------------------------

  /** A benchmark entry; absent keys are None. */
  datatype QueryInput = QueryInput(instanceId: Option<string>, sql: Option<string>, dbId: Option<string>)

  datatype QueryResult = QueryResult(
    instanceId: string, database: string, matched: bool, reason: string,
    originalError: Option<string>, decomposedError: Option<string>)

  function OrDefault(o: Option<string>, d: string): string {
    if o.Some? then o.value else d
  }

  /** A stored error: the first 200 characters of a non-empty message, else None. */
  function StoredError(e: Option<string>): (r: Option<string>)
    ensures r.Some? <==> Truthy(e)
    ensures Truthy(e) && |e.value| <= 200 ==> r == e
    ensures Truthy(e) && |e.value| > 200 ==> r == Some(e.value[..200])
  {
    if Truthy(e) then Some(Take(e.value, 200)) else None
  }

  /**
   * `process_single_query` given the outcomes of the original and of the
   * decomposed run: an error of the original wins, then one of the
   * decomposed run, otherwise the frames are compared (original as df1).
   */
  function ProcessSingleQuery(q: QueryInput, original: Outcome, decomposed: Outcome, vectorsMatch: (Column, Column) -> bool)
    : (r: QueryResult)
    ensures r.instanceId == OrDefault(q.instanceId, "unknown") && r.database == OrDefault(q.dbId, "")
    ensures r.originalError == StoredError(original.error) && r.decomposedError == StoredError(decomposed.error)
    ensures original.frame.None? && Truthy(original.error) ==> r.reason == "original_error" && !r.matched
    ensures !(original.frame.None? && Truthy(original.error)) && decomposed.frame.None? && Truthy(decomposed.error) ==>
              r.reason == "decomposed_error" && !r.matched
    ensures !(original.frame.None? && Truthy(original.error)) && !(decomposed.frame.None? && Truthy(decomposed.error)) ==>
              (r.matched, r.reason) == CompareDataframes(original.frame, decomposed.frame, vectorsMatch)
    ensures r.matched ==> r.reason in {"both_empty", "match"}
  {
    var base := QueryResult(OrDefault(q.instanceId, "unknown"), OrDefault(q.dbId, ""), false, "",
                            StoredError(original.error), StoredError(decomposed.error));
    if original.frame.None? && Truthy(original.error) then base.(reason := "original_error", matched := false)
    else if decomposed.frame.None? && Truthy(decomposed.error) then base.(reason := "decomposed_error", matched := false)
    else
      var (m, reason) := CompareDataframes(original.frame, decomposed.frame, vectorsMatch);
      base.(matched := m, reason := reason)
  }

  /** Outcomes as the runners produce them carry exactly one of a frame and an error. */
  ghost predicate WellFormedOutcome(o: Outcome) {
    (o.frame.Some? <==> o.error.None?) && (o.error.Some? ==> o.error.value != "")
  }

  /**
   * With runner outcomes, a query matches iff both runs returned frames
   * that compare equal; every error leads to a reason naming the run. The
   * runners report an empty result as the error "No data returned", so the
   * reason "both_empty" never arises.
   */
  lemma MatchNeedsBothFrames(q: QueryInput, original: Outcome, decomposed: Outcome, vectorsMatch: (Column, Column) -> bool)
    requires WellFormedOutcome(original) && WellFormedOutcome(decomposed)
    ensures var r := ProcessSingleQuery(q, original, decomposed, vectorsMatch);
      && (r.matched <==> original.frame.Some? && decomposed.frame.Some?
                          && Covered(decomposed.frame.value.columns, original.frame.value.columns, vectorsMatch))
      && (r.reason in {"original_error", "decomposed_error"} <==> original.error.Some? || decomposed.error.Some?)
      && r.reason != "both_empty"
  {
  }

  // ---------------------------------------------------------------------
  // The summary's tally of reasons
  // ---------------------------------------------------------------------

  function Reasons(results: seq<QueryResult>): (rs: seq<string>)
    ensures |rs| == |results| && forall i | 0 <= i < |results| :: rs[i] == results[i].reason
  {
    seq(|results|, i requires 0 <= i < |results| => results[i].reason)
  }

  /** The counts of `keys`, added up. */
  function SumCounts(keys: seq<string>, counts: map<string, nat>): nat
    requires forall k | k in keys :: k in counts
  {
    if |keys| == 0 then 0 else SumCounts(keys[..|keys| - 1], counts) + counts[keys[|keys| - 1]]
  }

  /**
   * The `reasons` loop of `print_summary`: one entry per distinct reason, in
   * first-seen order, holding how many results carry it.
   */
  method TallyReasons(results: seq<QueryResult>) returns (keys: seq<string>, counts: map<string, nat>)
    ensures keys == Dedup(Reasons(results))
    ensures forall k :: k in counts <==> k in keys
    ensures forall k | k in counts :: counts[k] == Count(Reasons(results), k)
  {
    keys, counts := [], map[];
    var i := 0;
    while i < |results|
      invariant i <= |results|
      invariant keys == Dedup(Reasons(results[..i]))
      invariant forall k :: k in counts <==> k in keys
      invariant forall k | k in counts :: counts[k] == Count(Reasons(results[..i]), k)
    {
      var reason := results[i].reason;
      assert Reasons(results[..i + 1]) == Reasons(results[..i]) + [reason];
      DedupSnoc(Reasons(results[..i]), reason);
      CountSnoc(Reasons(results[..i]), reason);
      var c := if reason in counts then counts[reason] else 0;
      if reason !in counts {
        keys := keys + [reason];
      }
      counts := counts[reason := c + 1];
      i := i + 1;
    }
    assert results[..i] == results;
  }

  /** The tally's counts add up to the number of results. */
  lemma TallySumsToTotal(results: seq<QueryResult>, keys: seq<string>, counts: map<string, nat>)
    requires keys == Dedup(Reasons(results))
    requires forall k | k in keys :: k in counts && counts[k] == Count(Reasons(results), k)
    ensures SumCounts(keys, counts) == |results|
  {
    var rs := Reasons(results);
    SumOfCounts(keys, counts, rs);
    CountsOfDedup(rs);
  }

  /** The sum over `keys` of the counts in `s`. */
  function SumOver(keys: seq<string>, s: seq<string>): nat {
    if |keys| == 0 then 0 else SumOver(keys[..|keys| - 1], s) + Count(s, keys[|keys| - 1])
  }

  lemma {:induction false} SumOfCounts(keys: seq<string>, counts: map<string, nat>, s: seq<string>)
    requires forall k | k in keys :: k in counts && counts[k] == Count(s, k)
    ensures SumCounts(keys, counts) == SumOver(keys, s)
  {
    if |keys| > 0 {
      SumOfCounts(keys[..|keys| - 1], counts, s);
    }
  }

  lemma CountSnoc(s: seq<string>, x: string)
    ensures forall k :: Count(s + [x], k) == Count(s, k) + if k == x then 1 else 0
  {
    assert (s + [x])[..|s|] == s;
  }

  lemma {:induction false} SumOverSnoc(keys: seq<string>, s: seq<string>, x: string)
    ensures SumOver(keys, s + [x]) == SumOver(keys, s) + Count(keys, x)
  {
    CountSnoc(s, x);
    if |keys| > 0 {
      var n := |keys| - 1;
      SumOverSnoc(keys[..n], s, x);
      assert keys == keys[..n] + [keys[n]];
      CountSnoc(keys[..n], keys[n]);
    }
  }

  lemma {:induction false} CountInNoDups(keys: seq<string>, x: string)
    requires NoDups(keys)
    ensures Count(keys, x) == if x in keys then 1 else 0
  {
    if |keys| > 0 {
      var n := |keys| - 1;
      assert keys == keys[..n] + [keys[n]];
      CountInNoDups(keys[..n], x);
      CountSnoc(keys[..n], keys[n]);
    }
  }

  /** Summing, over the distinct elements of `s`, how often each occurs gives |s|. */
  lemma {:induction false} CountsOfDedup(s: seq<string>)
    ensures SumOver(Dedup(s), s) == |s|
  {
    if |s| > 0 {
      var n := |s| - 1;
      var init, x := s[..n], s[n];
      assert s == init + [x];
      CountsOfDedup(init);
      DedupSnoc(init, x);
      var d := Dedup(init);
      SumOverSnoc(Dedup(s), init, x);
      CountInNoDups(Dedup(s), x);
      if x !in init {
        assert Dedup(s) == d + [x];
        assert Dedup(s)[..|d|] == d;
        assert Count(init, x) == 0;
      }
    }
  }
}
