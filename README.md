# Spider2 SQL decomposition, in Dafny

A model of the parts of LY-Tri/Spider2 that take a Snowflake SQL query apart,
run it step by step, and turn an agent's tool-calling transcript into a
submission file:

- **Decompose** (`decompose.py`): `SQLDecomposer` splits a query with CTEs
  into one `CREATE OR REPLACE TEMP TABLE` step per CTE plus a `FINAL_RESULT`
  step, ordered by a topological sort of the CTE dependency graph.
  `TopoSort` is the sort (Kahn's algorithm), standing in for
  `graphlib.TopologicalSorter`.
- **Evaluation** (`execute_sql_snow.py`): the harness that runs every
  benchmark query as written and decomposed, compares the two result frames
  column by column, and tallies the reasons.
- **Submission** (`convert_to_submission_format.py`): the fold over one
  terminated conversation, which keeps the latest successful block for each
  step, moves failed, exploratory and superseded blocks into a commented-out
  history, and lays out the SQL file.
- **StepTool** (the decomposing agent's `snowflake_tool.py`): the session
  registry of connections, `execute_snowflake_sql`, and `execute_sql_step`,
  which turns a named SELECT into a temp table.
- **BatchTool** (the tool-calling agent's `snowflake_tool.py`): the
  one-query tool and the batch tool that stops at the first refused
  statement.
- **CsvDisplay**: how both tools cut a long CSV result to 2000 characters,
  at the last line break.
- **Text**, **Seqs** and **Wrappers** hold the Python string and sequence
  operations these rely on (`strip`, `upper`, `rfind`, `split("\n")`, dict
  insertion order, counting).

The SQL parser (sqlglot), the database and the file system are not
modelled. What they produce is an input to the model:

- a parsed query is a `Query`: its CTEs with their aliases, the tables each
  CTE's body names, and that body's SQL; the tables the main SELECT names;
  and the query's text with the WITH clause removed;
- what the database does with a statement is a `StatementOutcome`,
  `CursorResult` or `Outcome` value.

### Where the code and its descriptions differ

The model follows the code in each case.

- `decompose.py` has no skip analysis, no detection of recursive CTEs, and
  no identifier normalisation. Temp tables are named by the CTE alias
  verbatim, not upper-cased. A table reference counts as a dependency only
  when it equals an alias exactly.
- `FINAL_RESULT` need not be the last step. The graph has no edge from a
  CTE to the final node unless the main SELECT reads that CTE, so any
  topological order may place an unread CTE after it.
  `Decompose.FinalStepNeedNotBeLast` exhibits such an order.
- A query whose parse has no SELECT gets no final step at all.

### Observations the proofs bring out

- Both Snowflake tools prefix every reply with
  `EXECUTION RESULT of [...]:\n`. The converter marks a call as failed only
  when the following tool message *starts* with `SQL Error` or
  `Unexpected error`. So if the agent framework stores the tool's content
  verbatim, no call is ever marked failed (`StepTool.HeaderHidesFailure`).
  The framework is not part of this model, so this is stated as a property
  of the model and not as a defect.
- The evaluation runners return the error `"No data returned"` for an empty
  result. So `process_single_query` reports `original_error` when both runs
  return nothing, and its `both_empty` reason never arises
  (`Evaluation.MatchNeedsBothFrames`).

## Model

| member | source | states |
|---|---|---|
| TopoSort.Sort | decompose.py:75 | on success the order lists every node once, and each node comes after all its dependencies; on failure a set of nodes each waiting on another member of the set is reported, and no topological order exists |
| TopoSort.StuckHasNoOrder | decompose.py:75 | a set of nodes each depending on a member of the set rules out every topological order |
| TopoSort.CycleHasNoOrder | decompose.py:75 | a dependency cycle rules out every topological order |
| Decompose.KeepDeclared | decompose.py:53-55 | the kept table names are all declared CTE names |
| Decompose.KeepDeclaredMembers | decompose.py:53-55 | a name is kept iff it is referenced and declared |
| Decompose.SQLDecomposer.Empty | decompose.py:35-37 | a new decomposer starts with no CTEs, dependencies or queries |
| Decompose.SQLDecomposer.Parse | decompose.py:40-65 | fills `_ctes` with the last body per alias, `cte_names` with the aliases in first-seen order, `_dependencies` with each CTE's and the final query's declared references, then builds the queries; on a cycle no order exists |
| Decompose.SQLDecomposer.BuildQueries | decompose.py:67-97 | leaves CTEs and dependencies unchanged, and sets `_queries` to one step per sorted node, in sort order; on a cycle no order exists |
| Decompose.SQLDecomposer.GetQuery | decompose.py:148-153 | returns a step with the given name when one exists, and nothing iff none does |
| Decompose.NewDecomposer | decompose.py:31-38 | a decomposer for a query is either valid (its plan is the plan of a topological order) or the query's graph has no order |
| Decompose.ExtractCtes | decompose.py:43-47 | the body map (last definition wins), the alias list without duplicates, and the alias set |
| Decompose.BuildDependencies | decompose.py:50-62 | the dependency map: every CTE, plus the final node when there is a SELECT |
| Decompose.BuildGraph | decompose.py:70-73 | the sort graph: every dependency list as a set, plus every CTE name |
| Decompose.CteBodiesLastWins | decompose.py:45-46 | a CTE that is the last with its alias supplies that alias's body |
| Decompose.CteBodiesEntry | decompose.py:45-46 | every alias has an entry, and it holds the body of the alias's last definition |
| Decompose.CteNamesAreTableKeys | decompose.py:109-112 | `cte_names` lists exactly the keys of `_ctes` |
| Decompose.DependenciesKeys | decompose.py:50-62 | the dependency map's keys are the CTE aliases, plus the final node iff there is a SELECT |
| Decompose.CteDependencyList | decompose.py:50-56 | a CTE's dependency list has no duplicates, and holds a name iff the CTE's body reads it, it is declared, and it is not the CTE itself |
| Decompose.FinalDependencyList | decompose.py:59-62 | the final node's list has no duplicates, and holds exactly the declared CTEs the main SELECT reads |
| Decompose.SortGraphShape | decompose.py:70-73 | the sort graph has the dependency map's keys, and each node's set equals its dependency list |
| Decompose.PlanShape | decompose.py:85-97 | the plan has one step per node of the order: the final node gives `FINAL_RESULT` with the stripped query, and a CTE gives its temp-table statement with its dependency list |
| Decompose.PlanNames | decompose.py:85-97 | for an order of graph nodes, the plan has one step per node, named after it (`FINAL_RESULT` for the final node), with that node's dependency list |
| Decompose.PlanMaterializesBeforeUse | decompose.py:75-97 | every dependency of a step is created by an earlier step |
| Decompose.PlanStepNamesDistinct | decompose.py:85-97 | no two steps share a name |
| Decompose.PlanStepNamesComplete | decompose.py:85-97 | the step names are exactly the CTE aliases, plus `FINAL_RESULT` iff there is a SELECT |
| Decompose.ZeroCtesPlan | decompose.py:59-97 | a query without CTEs becomes the single step `FINAL_RESULT` with no dependencies |
| Decompose.FinalStepNeedNotBeLast | decompose.py:75-97 | for any two CTEs of which the final query reads only the first, the order first CTE, final node, second CTE is topological, and its plan has `FINAL_RESULT` second and the unread CTE last |
| Decompose.CteCycleHasNoOrder | decompose.py:53-75 | CTEs that read each other in a cycle leave the graph without a topological order |
| Seqs.Dedup | decompose.py:56 | the result has no duplicates and the same elements as the input |
| Seqs.DedupFirstSeenOrder | methods/spider-agent-tc-decomp/convert_to_submission_format.py:109-112 | dict keys keep the order in which each was first inserted |
| Text.StripQuotesIsTrim | execute_sql_snow.py:189-192 | dropping quotes from either end until neither end is one gives `strip('"')`: the longest quote prefix, then the longest quote suffix, removed |
| Text.LastIndexOf | methods/spider-agent-tc-decomp/servers/tools/snowflake_tool.py:54 | `rfind`: -1 iff the character is absent, otherwise its last index |
| Submission.StepLabel | methods/spider-agent-tc-decomp/convert_to_submission_format.py:59-74 | a missing or empty step name is "", and a truthy one is kept as it is |
| Submission.CallEvent | methods/spider-agent-tc-decomp/convert_to_submission_format.py:49-89 | a call yields at most one event, and exactly: a SQL run, with its message's success verdict and its step name, for either SQL tool with a truthy `sql`; the answer for `terminate` with a truthy answer; nothing otherwise |
| Submission.FoldConversation | methods/spider-agent-tc-decomp/convert_to_submission_format.py:45-89 | the nested loop ends in the state obtained by replaying the conversation's events in order |
| Submission.HandleCalls | methods/spider-agent-tc-decomp/convert_to_submission_format.py:47-89 | the inner loop applies the events of one assistant message in order |
| Submission.RecordRun | methods/spider-agent-tc-decomp/convert_to_submission_format.py:76-84 | a SQL run's block goes to the history as failed or exploratory, or becomes the step's active block, the old one going to the history as superseded |
| Submission.HandleCall | methods/spider-agent-tc-decomp/convert_to_submission_format.py:49-89 | one call changes the state exactly as its event does, and not at all when it has none |
| Submission.ActiveStepsFirstSeen | methods/spider-agent-tc-decomp/convert_to_submission_format.py:81-84 | the active steps are the successfully run step names, in first-seen order |
| Submission.ActiveStepIsLatest | methods/spider-agent-tc-decomp/convert_to_submission_format.py:81-84 | a step is active iff it ever succeeded, and then its block is its latest successful block |
| Submission.FinalAnswerIsLast | methods/spider-agent-tc-decomp/convert_to_submission_format.py:86-89 | the final answer is the last truthy `terminate` answer |
| Submission.HistoryContents | methods/spider-agent-tc-decomp/convert_to_submission_format.py:76-83 | the history's failed and exploratory entries are exactly those runs, in order, and the superseded entries number the successful runs minus the active steps |
| Submission.SupersededHistory | methods/spider-agent-tc-decomp/convert_to_submission_format.py:76-84 | the superseded entries are, in order, the block each repeat success of a step displaced: that step's previous successful block |
| Submission.EveryRunLandsOnce | methods/spider-agent-tc-decomp/convert_to_submission_format.py:76-84 | every SQL run ends up exactly once, in the history or as an active step |
| Submission.SqlBlockBody | methods/spider-agent-tc-decomp/convert_to_submission_format.py:70-74 | a block is its header line followed by the stripped SQL, or by the temp-table statement around it for a named `execute_sql_step` SELECT |
| Submission.CommentOutRoundTrip | methods/spider-agent-tc-decomp/convert_to_submission_format.py:100-102 | every line of a commented-out block starts with `-- `, and removing that prefix gives the block back |
| Submission.OutputLayout | methods/spider-agent-tc-decomp/convert_to_submission_format.py:92-115 | the history section appears iff there is history; then the banner, the active blocks in order, and the answer as the last line |
| Submission.AppendHistory | methods/spider-agent-tc-decomp/convert_to_submission_format.py:94-103 | the loop appends the history section: nothing without history, else the banner and three lines per entry in order |
| Submission.AppendActive | methods/spider-agent-tc-decomp/convert_to_submission_format.py:109-112 | the loop appends one line per active step, in step order |
| Submission.Layout | methods/spider-agent-tc-decomp/convert_to_submission_format.py:92-119 | the loop builds exactly the specified output text, or no file |
| Submission.NoFileIff | methods/spider-agent-tc-decomp/convert_to_submission_format.py:117-119 | no file is written iff no named step ever succeeded and no answer was given |
| Submission.TerminatedRecords | methods/spider-agent-tc-decomp/convert_to_submission_format.py:28 | keeps exactly the terminated records |
| Submission.InstanceId | methods/spider-agent-tc-decomp/convert_to_submission_format.py:34 | the `instance_id` when it is truthy, whatever the `id`; else the `id` when it is truthy; else none |
| Submission.ConvertFile | methods/spider-agent-tc-decomp/convert_to_submission_format.py:19-124 | each skip reason arises exactly in its case, a file is produced exactly when none applies, and it is named after the instance and holds the laid-out fold of the picked record |
| Evaluation.RunSingle | execute_sql_snow.py:97-120 | exactly one of frame and error is set; a non-empty result is returned as the frame, an empty one gives "No data returned", a missing description gives the `NoneType` error, and a raised error gives its formatted message |
| Evaluation.FirstRaised | execute_sql_snow.py:151-152 | the index of the first statement that raises, if any |
| Evaluation.LastRowsIndex | execute_sql_snow.py:150-157 | the index of a described statement after which no statement has a description, or -1 when none has one |
| Evaluation.LastFrame | execute_sql_snow.py:150-157 | the frame of the last statement with a description, if any |
| Evaluation.RunBatch | execute_sql_snow.py:140-170 | the batch's outcome; statements run up to and including the first that raises |
| Evaluation.BatchKeepsLastFrame | execute_sql_snow.py:150-162 | without errors the batch returns the last described result when it is not empty |
| Evaluation.SessionSchema | execute_sql_snow.py:144 | the schema if truthy, else the database name |
| Evaluation.FirstMatch | execute_sql_snow.py:184-194 | from a start index: the index of a table qualified by the current database with none between the start and it, or the length when there is none |
| Evaluation.SchemaFromRefs | execute_sql_snow.py:184-194 | a schema is found iff some table is qualified by the current database, and it comes from such a table |
| Evaluation.ExtractSchema | execute_sql_snow.py:176-196 | no schema when the SQL does not parse; otherwise the first qualifying schema |
| Evaluation.DispatchPlan | execute_sql_snow.py:207-229 | no step runs nothing; one step runs alone; more steps run every step's SQL in plan order as one batch |
| Evaluation.ExecuteDecomposedSql | execute_sql_snow.py:199-232 | a decomposition error runs nothing; otherwise what is sent is the plan's dispatch (nothing, the one step alone, or every step as one batch); the result is well formed, a session schema is chosen only for a batch, and the batch runs its statements up to and including the first that raises |
| Evaluation.AnyMatch | execute_sql_snow.py:73 | true iff some predicted column matches the gold column |
| Evaluation.ComparePandasTable | execute_sql_snow.py:63-80 | the score is 0 or 1, and 1 iff every gold column is matched by some predicted column |
| Evaluation.CoveredByMoreColumns | execute_sql_snow.py:72-74 | adding predicted columns never breaks a match |
| Evaluation.CoveredIgnoresColumnOrder | execute_sql_snow.py:72-74 | reordering the predicted columns never changes a match |
| Evaluation.CompareDataframes | execute_sql_snow.py:235-254 | both missing is a match; one missing is not; otherwise the decomposed frame's columns must all be matched in the original's |
| Evaluation.StoredError | execute_sql_snow.py:278-287 | an error is stored iff it is truthy: whole when it has at most 200 characters, otherwise its first 200 |
| Evaluation.ProcessSingleQuery | execute_sql_snow.py:257-304 | an error of the original run wins, then one of the decomposed run; with neither, match and reason are the frame comparison's, and a match has reason `both_empty` or `match` |
| Evaluation.MatchNeedsBothFrames | execute_sql_snow.py:290-299 | with runner outcomes, a match needs both frames and a column match, and `both_empty` never arises |
| Evaluation.TallyReasons | execute_sql_snow.py:342-345 | the keys are the distinct reasons in first-seen order, and each count is the number of results with that reason |
| Evaluation.TallySumsToTotal | execute_sql_snow.py:331-345 | the counts add up to the number of results |
| CsvDisplay.ShownCsv | methods/spider-agent-tc-decomp/servers/tools/snowflake_tool.py:52-56 | the shown CSV is a prefix of at most 2000 characters; a short CSV is shown whole; a long one stops just before the last newline of its first 2000 characters when that newline is not at index 0, and is otherwise those 2000 characters |
| CsvDisplay.ShownLinesAreWholeLines | methods/spider-agent-tc/servers/tools/snowflake_tool.py:72-75 | after a cut at a newline, the shown lines are the first lines of the CSV, none cut short |
| CsvDisplay.FormatRows | methods/spider-agent-tc-decomp/servers/tools/snowflake_tool.py:47-70 | a short CSV is shown whole in the fence; a long one shows the cut CSV and is followed by the note with the row count and the full length |
| CsvDisplay.FormatSqlResult | methods/spider-agent-tc-decomp/servers/tools/snowflake_tool.py:42-74 | every reply reports success; no description and no rows have their fixed texts; rows show the displayed CSV in a fence, with the note on row count and length exactly when the CSV was cut |
| StepTool.QueryContent | methods/spider-agent-tc-decomp/servers/tools/snowflake_tool.py:97-109 | the text reads as a failure to the converter iff the query did not complete; database errors and others keep their message |
| StepTool.StepSql | methods/spider-agent-tc-decomp/servers/tools/snowflake_tool.py:127-129 | a named SELECT is sent inside the temp-table statement, around the unstripped SQL; anything else is sent as given |
| StepTool.ConverterReplaysStep | methods/spider-agent-tc-decomp/convert_to_submission_format.py:70-74 | the converter wraps exactly when the tool does, and records the statement the tool sends for the stripped SQL |
| StepTool.HeaderHidesFailure | methods/spider-agent-tc-decomp/servers/tools/snowflake_tool.py:118-135 | with the header in front, no reply reads as a failure to the converter, although the bare error text does |
| StepTool.Connection.Open | methods/spider-agent-tc-decomp/servers/tools/snowflake_tool.py:89-93 | a new connection is open and names the database only when it is truthy |
| StepTool.SessionRegistry.constructor | methods/spider-agent-tc-decomp/servers/tools/snowflake_tool.py:21 | the registry starts empty |
| StepTool.SessionRegistry.GetOrCreateConnection | methods/spider-agent-tc-decomp/servers/tools/snowflake_tool.py:76-95 | afterwards the session has an open connection; an open one is reused and the registry left alone, otherwise a fresh one replaces the entry |
| StepTool.SessionRegistry.CloseSession | methods/spider-agent-tc-decomp/servers/tools/snowflake_tool.py:33-40 | only the given session's entry is removed, after its connection is closed; an absent session changes nothing |
| StepTool.SessionRegistry.ExecuteQuery | methods/spider-agent-tc-decomp/servers/tools/snowflake_tool.py:97-109 | the reply is the query's text and the session ends up with an open connection; an open one is reused and the registry left alone, otherwise a fresh connection for the database is registered under the session and no other entry changes |
| StepTool.SessionRegistry.ExecuteSnowflakeSql | methods/spider-agent-tc-decomp/servers/tools/snowflake_tool.py:111-120 | a missing or empty `sql` gets the error, runs nothing and leaves the registry alone; otherwise the SQL is sent as given, the reply carries the tool's header, and the registry changes as for ExecuteQuery |
| StepTool.SessionRegistry.ExecuteSqlStep | methods/spider-agent-tc-decomp/servers/tools/snowflake_tool.py:122-135 | a missing or empty `sql` gets the error, runs nothing and leaves the registry alone; otherwise the step's statement is sent, the reply carries the step tool's header, and the registry changes as for ExecuteQuery |
| BatchTool.SingleCredentials | methods/spider-agent-tc/servers/tools/snowflake_tool.py:36-40 | the database joins the credentials iff it is truthy; all else is kept |
| BatchTool.BatchCredentials | methods/spider-agent-tc/servers/tools/snowflake_tool.py:143-150 | the database joins iff truthy; the schema joins iff the schema or the database is truthy, and defaults to the database |
| BatchTool.ExecuteSnowflakeSql | methods/spider-agent-tc/servers/tools/snowflake_tool.py:24-119 | the reply carries the header, and reads as a success iff the query completed; each exception kind has its text, and a timeout names the timeout in force |
| BatchTool.BatchFormat | methods/spider-agent-tc/servers/tools/snowflake_tool.py:163-181 | the full reply in each case: "." with no description, ", but no rows returned." with no rows, a CSV within the limit fenced with no newline before the closing fence, and a cut CSV fenced and followed by "Note: Truncated to 2000 chars. Total: N rows." |
| BatchTool.FailureTextIsNoSuccess | methods/spider-agent-tc/servers/tools/snowflake_tool.py:97-108 | no exception's text reads as a success |
| BatchTool.EntryFor | methods/spider-agent-tc/servers/tools/snowflake_tool.py:183-190 | an entry's `success` is true iff the statement completed |
| BatchTool.EntryForReads | methods/spider-agent-tc/servers/tools/snowflake_tool.py:183-190 | an entry's text carries the header, and reports success iff its `success` flag is set |
| BatchTool.RunStatement | methods/spider-agent-tc/servers/tools/snowflake_tool.py:160-187 | one statement leaves its entry, and the loop stops after it iff it did not complete |
| BatchTool.StopIndex | methods/spider-agent-tc/servers/tools/snowflake_tool.py:159-187 | the first statement that does not complete, with all earlier ones completed |
| BatchTool.BatchResults | methods/spider-agent-tc/servers/tools/snowflake_tool.py:159-187 | one entry per statement sent, in order; all but the last succeed; a short list ends in a failure; if no statement fails, every statement has an entry |
| BatchTool.SendStatements | methods/spider-agent-tc/servers/tools/snowflake_tool.py:159-187 | the loop sends the statements up to and including the first that fails, and leaves one entry for each |
| BatchTool.ExecuteBatch | methods/spider-agent-tc/servers/tools/snowflake_tool.py:121-195 | a failed connection gives the single "Connection error" entry and sends nothing; otherwise the results are the batch results, and only the statements with an entry were sent |

## Left out

- Parsing: sqlglot's `parse_one`, `find_all(exp.Table)`, pretty-printing and WITH removal. Their results are inputs (`Query`, `TableRef`).
- TopoSort.Sort: graphlib's `static_order` tie-break is not reproduced. The plan lemmas hold for every topological order, which covers the one graphlib picks.
- TopoSort.Sort requires a closed graph (every dependency is a node). graphlib adds missing nodes itself; the decomposer's graph is always closed (`Decompose.SortGraphClosed`).
- Decompose plan lemmas assume no CTE is named `__FINAL__` or `FINAL_RESULT`. The code would mix such a CTE up with the final step.
- Decompose: `graph()` (graphviz drawing), `print_queries` and `__repr__` produce display output only.
- Seqs.Dedup: `list(set(deps))` has an unspecified order in Python. The model picks first-seen order, and the contracts promise only no duplicates and the same elements.
- Text.Upper: upper-cases ASCII letters only; Python's `str.upper` also maps other scripts. The test for a leading `SELECT` and the comparison of a table's catalog with the current database in Evaluation.SchemaMatches and Evaluation.ExtractSchema depend on it, so names outside ASCII may compare differently.
- Submission: JSON values that are not strings or lists (e.g. a numeric `sql`) are not modelled; `arguments` is either parsed fields or unparseable.
- Submission.ConvertFile: `random.choice` is the parameter `pick`. Directory listing, file writes and the skip log are I/O and are left out. The per-file `except Exception` (convert_to_submission_format.py:128-130) also skips a file whose records are malformed, such as `"tool_calls": null`, `arguments` that parse to something other than an object, or the non-string values of the line above; the model cannot express such records, so it never takes that skip.
- Evaluation: cell values are integers, strings or null; the float tolerance of `vectors_match` is left abstract as the parameter `vectorsMatch`, and the model covers `condition_cols == []` only (the one value the caller uses).
- Evaluation.ComparePandasTable: the inner `for`/`break` over the predicted columns (lines 76-78) changes nothing and is not modelled.
- Evaluation.CompareDataframes: the `comparison_error` path is for an exception inside the comparison; the model's comparison does not raise.
- Evaluation.ProcessSingleQuery: the `exception:` reason path is for exceptions outside the runners, which the model does not raise.
- Evaluation: `run_parallel`'s thread pool and progress bar, and `print_summary`'s percentages, sorting and printing. Only the reason tally is modelled.
- Evaluation: credential loading and session parameters, including the statement timeout, are environment and connection setup.
- StepTool.SessionRegistry.GetOrCreateConnection: the `USE DATABASE` switch on a reused connection and its logged failure are not modelled; neither is a connection that fails to open.
- StepTool.SessionRegistry.CloseSession: an exception from `close()` is swallowed in the source; the model's close does not fail.
- BatchTool.ExecuteSnowflakeSql: the timeout is a natural number; other values of the `timeout` keyword are not modelled. Login and network timeouts, `commit()` and the closing of the connection are not modelled.
- The planner and terminator tools and `register_tools` only register fixed message templates.
- Logging, `print` and timing calls in every file.
