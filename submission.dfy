/**
 * The transcript-to-submission conversion of convert_to_submission_format.py:
 * one terminated agent record is folded into the SQL file submitted for its
 * instance. Every SQL tool call is classified as a failed attempt, an
 * exploratory check or a named step; the latest successful version of each
 * step is kept, superseded and discarded blocks go to a commented-out
 * history, and the last `terminate` answer closes the file.
 */
module Submission {
  import opened Wrappers
  import opened Text
  import opened Seqs
  import Decompose

  const ExecuteSqlStep: string := "execute_sql_step"
  const ExecuteSnowflakeSql: string := "execute_snowflake_sql"
  const Terminate: string := "terminate"
  const AssistantRole: string := "assistant"
  const ToolRole: string := "tool"

  // ---------------------------------------------------------------------
  // The record as it is read from the JSON file
  // ---------------------------------------------------------------------

  /**
   * A tool call's `arguments`: a JSON string that does not parse, or the
   * fields the conversion reads (absent ones are None).
   */
  datatype Arguments = Unparseable | Args(sql: Option<string>, stepName: Option<string>, answer: Option<string>)

  datatype ToolCall = ToolCall(name: Option<string>, arguments: Arguments)

  /** A conversation item: its role, its tool calls (`[]` when absent) and its content (`''` when absent). */
  datatype Message = Message(role: Option<string>, toolCalls: seq<ToolCall>, content: string)

  datatype Record = Record(terminated: bool, instanceId: Option<string>, id: Option<string>, conversation: seq<Message>)

  /** The parsed JSON file: a list of records, or anything else. */
  datatype Input = NotAList | Records(records: seq<Record>)

  /** An optional step name as the conversion uses it: "" stands for a missing or empty name. */
  function StepLabel(o: Option<string>): (r: string)
    ensures r != "" <==> Truthy(o)
    ensures Truthy(o) ==> r == o.value
  {
    if o.Some? then o.value else ""
  }

  // ---------------------------------------------------------------------
  // Classifying the calls
  // ---------------------------------------------------------------------

  /** What one tool call contributes: a SQL run, or a final answer. */
  datatype Event =
    | SqlRun(block: string, success: bool, step: string)
    | FinalAnswer(text: string)

  /**
   * A call made in message `i` failed iff the next message is a tool reply
   * whose content starts with "SQL Error" or "Unexpected error".
   */
  predicate Succeeded(conv: seq<Message>, i: nat)
    requires i < |conv|
  {
    !(i + 1 < |conv| && conv[i + 1].role == Some(ToolRole) && FailureReply(conv[i + 1].content))
  }

  /** The text test the conversion applies to a tool reply. */
  predicate FailureReply(content: string) {
    StartsWith(content, "SQL Error") || StartsWith(content, "Unexpected error")
  }

  /** An `execute_sql_step` SELECT with a step name is replayed as the temp table the tool created. */
  predicate Wraps(name: string, sql: string, step: string) {
    name == ExecuteSqlStep && step != "" && StartsWith(Upper(Strip(sql)), "SELECT")
  }

  /** The block recorded for a SQL call: a header line naming tool and step, then the SQL. */
  function SqlBlock(name: string, sql: string, step: string): string {
    var run := if Wraps(name, sql, step) then Decompose.TempTableSql(step, Strip(sql)) else sql;
    "-- [" + name + "] " + (if step != "" then step else "check") + "\n" + Strip(run)
  }

  function FinalAnswerBlock(answer: string): string {
    "-- [final_answer]\n" + Strip(answer)
  }

  /**
   * The event of one call in message `i`. Unparseable arguments, an empty or
   * missing `sql`, an empty answer and every other tool give none.
   */
  function CallEvent(conv: seq<Message>, i: nat, tc: ToolCall): (r: seq<Event>)
    requires i < |conv|
    ensures |r| <= 1
    ensures r != [] && r[0].SqlRun? ==>
      && tc.name in {Some(ExecuteSqlStep), Some(ExecuteSnowflakeSql)}
      && tc.arguments.Args? && Truthy(tc.arguments.sql)
      && r[0].success == Succeeded(conv, i)
      && (r[0].step != "" <==> Truthy(tc.arguments.stepName))
    ensures r != [] && r[0].FinalAnswer? ==> tc.name == Some(Terminate) && tc.arguments.Args? && Truthy(tc.arguments.answer)
    ensures tc.arguments.Args? && tc.name in {Some(ExecuteSqlStep), Some(ExecuteSnowflakeSql)} && Truthy(tc.arguments.sql) ==>
      var step := StepLabel(tc.arguments.stepName);
      r == [SqlRun(SqlBlock(tc.name.value, tc.arguments.sql.value, step), Succeeded(conv, i), step)]
    ensures tc.arguments.Args? && tc.name == Some(Terminate) && Truthy(tc.arguments.answer) ==>
      r == [FinalAnswer(FinalAnswerBlock(tc.arguments.answer.value))]
  {
    match tc.arguments
    case Unparseable => []
    case Args(sql, stepName, answer) =>
      if tc.name == Some(ExecuteSqlStep) || tc.name == Some(ExecuteSnowflakeSql) then
        if Truthy(sql) then
          var step := StepLabel(stepName);
          [SqlRun(SqlBlock(tc.name.value, sql.value, step), Succeeded(conv, i), step)]
        else []
      else if tc.name == Some(Terminate) && Truthy(answer) then
        [FinalAnswer(FinalAnswerBlock(answer.value))]
      else []
  }

  /** The events of the calls `calls` of message `i`, in order. */
  function CallEvents(conv: seq<Message>, i: nat, calls: seq<ToolCall>): seq<Event>
    requires i < |conv|
  {
    if |calls| == 0 then []
    else CallEvents(conv, i, calls[..|calls| - 1]) + CallEvent(conv, i, calls[|calls| - 1])
  }

  /** Only assistant messages carry calls that count. */
  function MessageEvents(conv: seq<Message>, i: nat): seq<Event>
    requires i < |conv|
  {
    if conv[i].role == Some(AssistantRole) then CallEvents(conv, i, conv[i].toolCalls) else []
  }

  /** The events of the first `n` messages. */
  function EventsUpTo(conv: seq<Message>, n: nat): seq<Event>
    requires n <= |conv|
  {
    if n == 0 then [] else EventsUpTo(conv, n - 1) + MessageEvents(conv, n - 1)
  }

  function ConversationEvents(conv: seq<Message>): seq<Event> {
    EventsUpTo(conv, |conv|)
  }

  // ---------------------------------------------------------------------
  // The fold
  // ---------------------------------------------------------------------

  datatype Reason = FailedAttempt | ExploratoryCheck | SupersededVersion

  function ReasonText(r: Reason): string {
    match r
    case FailedAttempt => "FAILED ATTEMPT"
    case ExploratoryCheck => "EXPLORATORY CHECK"
    case SupersededVersion => "SUPERSEDED VERSION"
  }

  datatype HistoryEntry = HistoryEntry(block: string, reason: Reason)

  /**
   * `active_steps` (step name to block) with its insertion order in
   * `stepOrder`, `refinement_history` and `final_answer`.
   */
  datatype FoldState = FoldState(
    stepOrder: seq<string>,
    activeSteps: map<string, string>,
    history: seq<HistoryEntry>,
    finalAnswer: Option<string>)

  const Initial: FoldState := FoldState([], map[], [], None)

  /** One event's effect on the state. */
  function Apply(st: FoldState, e: Event): FoldState {
    match e
    case FinalAnswer(text) => st.(finalAnswer := Some(text))
    case SqlRun(block, success, step) =>
      if !success then st.(history := st.history + [HistoryEntry(block, FailedAttempt)])
      else if step == "" then st.(history := st.history + [HistoryEntry(block, ExploratoryCheck)])
      else if step in st.activeSteps then
        st.(history := st.history + [HistoryEntry(st.activeSteps[step], SupersededVersion)],
            activeSteps := st.activeSteps[step := block])
      else st.(stepOrder := st.stepOrder + [step], activeSteps := st.activeSteps[step := block])
  }

  /** The state after all of `es`, from the empty one. */
  function Replay(es: seq<Event>): FoldState {
    if |es| == 0 then Initial else Apply(Replay(es[..|es| - 1]), es[|es| - 1])
  }

  /** Appending the (at most one) event of a call. */
  lemma ReplayEvent(es: seq<Event>, more: seq<Event>)
    requires |more| <= 1
    ensures Replay(es + more) == if more == [] then Replay(es) else Apply(Replay(es), more[0])
  {
    if more == [] {
      assert es + more == es;
    } else {
      assert es + more == es + [more[0]];
      ReplaySnoc(es, more[0]);
    }
  }

  lemma CallEventsStep(conv: seq<Message>, i: nat, calls: seq<ToolCall>, j: nat)
    requires i < |conv| && j < |calls|
    ensures CallEvents(conv, i, calls[..j + 1]) == CallEvents(conv, i, calls[..j]) + CallEvent(conv, i, calls[j])
  {
    assert calls[..j + 1][..j] == calls[..j];
  }

  lemma ReplaySnoc(es: seq<Event>, e: Event)
    ensures Replay(es + [e]) == Apply(Replay(es), e)
  {
    assert (es + [e])[..|es|] == es;
  }

  /**
   * The loop over `conversation` and each assistant message's `tool_calls`
   * that fills `active_steps`, `refinement_history` and `final_answer`.
   */
  method FoldConversation(conv: seq<Message>) returns (st: FoldState)
    ensures st == Replay(ConversationEvents(conv))
  {
    var stepOrder: seq<string> := [];
    var activeSteps: map<string, string> := map[];
    var history: seq<HistoryEntry> := [];
    var finalAnswer: Option<string> := None;
    var i := 0;
    while i < |conv|
      invariant i <= |conv|
      invariant FoldState(stepOrder, activeSteps, history, finalAnswer) == Replay(EventsUpTo(conv, i))
    {
      ghost var prefix := EventsUpTo(conv, i);
      assert EventsUpTo(conv, i + 1) == prefix + MessageEvents(conv, i);
      if conv[i].role == Some(AssistantRole) {
        stepOrder, activeSteps, history, finalAnswer := HandleCalls(conv, i, prefix, stepOrder, activeSteps, history, finalAnswer);
      } else {
        assert MessageEvents(conv, i) == [];
        assert prefix + [] == prefix;
      }
      i := i + 1;
    }
    st := FoldState(stepOrder, activeSteps, history, finalAnswer);
  }

  /** The inner loop over the tool calls of assistant message `i`. */
  method HandleCalls(conv: seq<Message>, i: nat, ghost prefix: seq<Event>,
                     stepOrder: seq<string>, activeSteps: map<string, string>,
                     history: seq<HistoryEntry>, finalAnswer: Option<string>)
    returns (stepOrder': seq<string>, activeSteps': map<string, string>,
             history': seq<HistoryEntry>, finalAnswer': Option<string>)
    requires i < |conv| && conv[i].role == Some(AssistantRole)
    requires FoldState(stepOrder, activeSteps, history, finalAnswer) == Replay(prefix)
    ensures FoldState(stepOrder', activeSteps', history', finalAnswer') == Replay(prefix + MessageEvents(conv, i))
  {
    stepOrder', activeSteps', history', finalAnswer' := stepOrder, activeSteps, history, finalAnswer;
    var calls := conv[i].toolCalls;
    var j := 0;
    assert prefix + CallEvents(conv, i, calls[..0]) == prefix;
    while j < |calls|
      invariant j <= |calls|
      invariant FoldState(stepOrder', activeSteps', history', finalAnswer') == Replay(prefix + CallEvents(conv, i, calls[..j]))
    {
      ghost var st := FoldState(stepOrder', activeSteps', history', finalAnswer');
      stepOrder', activeSteps', history', finalAnswer' := HandleCall(conv, i, calls[j], stepOrder', activeSteps', history', finalAnswer');
      CallStep(conv, i, prefix, calls, j, st, FoldState(stepOrder', activeSteps', history', finalAnswer'));
      j := j + 1;
    }
    assert calls[..j] == calls;
  }

  /** One more call of message `i` moves the replayed state by that call's event, if it has one. */
  lemma CallStep(conv: seq<Message>, i: nat, prefix: seq<Event>, calls: seq<ToolCall>, j: nat, st: FoldState, st': FoldState)
    requires i < |conv| && j < |calls|
    requires st == Replay(prefix + CallEvents(conv, i, calls[..j]))
    requires CallEvent(conv, i, calls[j]) == [] ==> st' == st
    requires CallEvent(conv, i, calls[j]) != [] ==> st' == Apply(st, CallEvent(conv, i, calls[j])[0])
    ensures st' == Replay(prefix + CallEvents(conv, i, calls[..j + 1]))
  {
    CallEventsStep(conv, i, calls, j);
    ReplayAfter(prefix, CallEvents(conv, i, calls[..j]), CallEvent(conv, i, calls[j]), st, st');
  }

  lemma ReplayAfter(prefix: seq<Event>, xs: seq<Event>, ev: seq<Event>, st: FoldState, st': FoldState)
    requires |ev| <= 1 && st == Replay(prefix + xs)
    requires ev == [] ==> st' == st
    requires ev != [] ==> st' == Apply(st, ev[0])
    ensures st' == Replay(prefix + (xs + ev))
  {
    assert prefix + (xs + ev) == (prefix + xs) + ev;
    ReplayEvent(prefix + xs, ev);
  }

  /** The body of the inner loop: one tool call of message `i` updates the four variables. */
  method HandleCall(conv: seq<Message>, i: nat, tc: ToolCall,
                    stepOrder: seq<string>, activeSteps: map<string, string>,
                    history: seq<HistoryEntry>, finalAnswer: Option<string>)
    returns (stepOrder': seq<string>, activeSteps': map<string, string>,
             history': seq<HistoryEntry>, finalAnswer': Option<string>)
    requires i < |conv|
    ensures CallEvent(conv, i, tc) == [] ==>
      stepOrder' == stepOrder && activeSteps' == activeSteps && history' == history && finalAnswer' == finalAnswer
    ensures CallEvent(conv, i, tc) != [] ==>
      FoldState(stepOrder', activeSteps', history', finalAnswer')
      == Apply(FoldState(stepOrder, activeSteps, history, finalAnswer), CallEvent(conv, i, tc)[0])
  {
    stepOrder', activeSteps', history', finalAnswer' := stepOrder, activeSteps, history, finalAnswer;
    if tc.arguments.Unparseable? {
      return;
    }
    var args := tc.arguments;
    if tc.name == Some(ExecuteSqlStep) || tc.name == Some(ExecuteSnowflakeSql) {
      if !Truthy(args.sql) {
        return;
      }
      var name := tc.name.value;
      var sql := args.sql.value;
      var step := StepLabel(args.stepName);
      var success := true;
      if i + 1 < |conv| {
        var next := conv[i + 1];
        if next.role == Some(ToolRole) {
          var resp := next.content;
          if StartsWith(resp, "SQL Error") || StartsWith(resp, "Unexpected error") {
            success := false;
          }
        }
      }
      if name == ExecuteSqlStep && step != "" && StartsWith(Upper(Strip(sql)), "SELECT") {
        sql := Decompose.TempTableSql(step, Strip(sql));
      }
      var block := "-- [" + name + "] " + (if step != "" then step else "check") + "\n" + Strip(sql);
      assert block == SqlBlock(name, args.sql.value, step);
      stepOrder', activeSteps', history' := RecordRun(block, success, step, stepOrder, activeSteps, history);
    } else if tc.name == Some(Terminate) {
      if Truthy(args.answer) {
        finalAnswer' := Some("-- [final_answer]\n" + Strip(args.answer.value));
      }
    }
  }

  /** How one SQL run's block lands: in the history, or as the step's active version. */
  method RecordRun(block: string, success: bool, step: string,
                   stepOrder: seq<string>, activeSteps: map<string, string>, history: seq<HistoryEntry>)
    returns (stepOrder': seq<string>, activeSteps': map<string, string>, history': seq<HistoryEntry>)
    ensures forall fa ::
      (FoldState(stepOrder', activeSteps', history', fa)
       == Apply(FoldState(stepOrder, activeSteps, history, fa), SqlRun(block, success, step)))
  {
    stepOrder', activeSteps', history' := stepOrder, activeSteps, history;
    if !success {
      history' := history + [HistoryEntry(block, FailedAttempt)];
    } else if step == "" {
      history' := history + [HistoryEntry(block, ExploratoryCheck)];
    } else {
      if step in activeSteps {
        history' := history + [HistoryEntry(activeSteps[step], SupersededVersion)];
      } else {
        stepOrder' := stepOrder + [step];
      }
      activeSteps' := activeSteps[step := block];
    }
  }

  // ---------------------------------------------------------------------
  // Reference definitions over the events
  // ---------------------------------------------------------------------

  /** The step names of the successful named runs, in order, repeats kept. */
  function SuccessfulSteps(es: seq<Event>): seq<string> {
    if |es| == 0 then []
    else
      var e := es[|es| - 1];
      SuccessfulSteps(es[..|es| - 1]) + if e.SqlRun? && e.success && e.step != "" then [e.step] else []
  }

  /** The block of the last successful run for step `k`, if any. */
  function LastBlockOf(es: seq<Event>, k: string): Option<string> {
    if |es| == 0 then None
    else
      var e := es[|es| - 1];
      if e.SqlRun? && e.success && e.step == k && k != "" then Some(e.block)
      else LastBlockOf(es[..|es| - 1], k)
  }

  /** The text of the last final answer, if any. */
  function LastAnswer(es: seq<Event>): Option<string> {
    if |es| == 0 then None
    else if es[|es| - 1].FinalAnswer? then Some(es[|es| - 1].text)
    else LastAnswer(es[..|es| - 1])
  }

  /** The blocks of the failed runs, in order. */
  function FailedBlocks(es: seq<Event>): seq<string> {
    if |es| == 0 then []
    else
      var e := es[|es| - 1];
      FailedBlocks(es[..|es| - 1]) + if e.SqlRun? && !e.success then [e.block] else []
  }

  /** The blocks of the successful runs without a step name, in order. */
  function ExploratoryBlocks(es: seq<Event>): seq<string> {
    if |es| == 0 then []
    else
      var e := es[|es| - 1];
      ExploratoryBlocks(es[..|es| - 1]) + if e.SqlRun? && e.success && e.step == "" then [e.block] else []
  }

  /**
   * The blocks a successful named run displaces, in order: for each such
   * run, the block of the step's previous successful run, if there was one.
   */
  function SupersededBlocks(es: seq<Event>): seq<string> {
    if |es| == 0 then []
    else
      var init, e := es[..|es| - 1], es[|es| - 1];
      SupersededBlocks(init)
      + if e.SqlRun? && e.success && e.step != "" && LastBlockOf(init, e.step).Some?
        then [LastBlockOf(init, e.step).value] else []
  }

  function RunCount(es: seq<Event>): nat {
    if |es| == 0 then 0
    else RunCount(es[..|es| - 1]) + if es[|es| - 1].SqlRun? then 1 else 0
  }

  /** The blocks of the history entries with reason `r`, in order. */
  function HistoryBlocks(h: seq<HistoryEntry>, r: Reason): seq<string> {
    if |h| == 0 then []
    else HistoryBlocks(h[..|h| - 1], r) + if h[|h| - 1].reason == r then [h[|h| - 1].block] else []
  }

  lemma HistoryBlocksSnoc(h: seq<HistoryEntry>, x: HistoryEntry, r: Reason)
    ensures HistoryBlocks(h + [x], r) == HistoryBlocks(h, r) + if x.reason == r then [x.block] else []
  {
    assert (h + [x])[..|h|] == h;
  }

  // ---------------------------------------------------------------------
  // What the fold keeps
  // ---------------------------------------------------------------------

  /** Active steps are listed once each, in the order their names first succeeded. */
  lemma {:induction false} ActiveStepsFirstSeen(es: seq<Event>)
    ensures Replay(es).stepOrder == Dedup(SuccessfulSteps(es))
    ensures forall k :: k in Replay(es).activeSteps <==> k in Replay(es).stepOrder
  {
    if |es| > 0 {
      var init := es[..|es| - 1];
      var e := es[|es| - 1];
      ActiveStepsFirstSeen(init);
      assert es == init + [e];
      if e.SqlRun? && e.success && e.step != "" {
        assert SuccessfulSteps(es) == SuccessfulSteps(init) + [e.step];
        DedupSnoc(SuccessfulSteps(init), e.step);
        assert e.step in Replay(init).activeSteps <==> e.step in SuccessfulSteps(init);
      } else {
        assert SuccessfulSteps(es) == SuccessfulSteps(init);
      }
    }
  }

  /** Each active step holds the block of the last successful run for that name. */
  lemma {:induction false} ActiveStepIsLatest(es: seq<Event>, k: string)
    ensures k in Replay(es).activeSteps <==> LastBlockOf(es, k).Some?
    ensures k in Replay(es).activeSteps ==> Replay(es).activeSteps[k] == LastBlockOf(es, k).value
  {
    if |es| > 0 {
      ActiveStepIsLatest(es[..|es| - 1], k);
    }
  }

  /** The final answer is the last `terminate` call's. */
  lemma {:induction false} FinalAnswerIsLast(es: seq<Event>)
    ensures Replay(es).finalAnswer == LastAnswer(es)
  {
    if |es| > 0 {
      FinalAnswerIsLast(es[..|es| - 1]);
    }
  }

  /**
   * Failed runs and exploratory checks go to the history in order, and every
   * repeat success of a step adds one superseded entry.
   */
  lemma {:induction false} HistoryContents(es: seq<Event>)
    ensures HistoryBlocks(Replay(es).history, FailedAttempt) == FailedBlocks(es)
    ensures HistoryBlocks(Replay(es).history, ExploratoryCheck) == ExploratoryBlocks(es)
    ensures |HistoryBlocks(Replay(es).history, SupersededVersion)| == |SuccessfulSteps(es)| - |Replay(es).stepOrder|
  {
    if |es| > 0 {
      var init := es[..|es| - 1];
      var e := es[|es| - 1];
      var st := Replay(init);
      HistoryContents(init);
      ActiveStepsFirstSeen(init);
      ActiveStepsFirstSeen(es);
      if e.SqlRun? {
        if !e.success {
          HistoryBlocksSnoc(st.history, HistoryEntry(e.block, FailedAttempt), FailedAttempt);
          HistoryBlocksSnoc(st.history, HistoryEntry(e.block, FailedAttempt), ExploratoryCheck);
          HistoryBlocksSnoc(st.history, HistoryEntry(e.block, FailedAttempt), SupersededVersion);
        } else if e.step == "" {
          HistoryBlocksSnoc(st.history, HistoryEntry(e.block, ExploratoryCheck), FailedAttempt);
          HistoryBlocksSnoc(st.history, HistoryEntry(e.block, ExploratoryCheck), ExploratoryCheck);
          HistoryBlocksSnoc(st.history, HistoryEntry(e.block, ExploratoryCheck), SupersededVersion);
        } else if e.step in st.activeSteps {
          var old_ := HistoryEntry(st.activeSteps[e.step], SupersededVersion);
          HistoryBlocksSnoc(st.history, old_, FailedAttempt);
          HistoryBlocksSnoc(st.history, old_, ExploratoryCheck);
          HistoryBlocksSnoc(st.history, old_, SupersededVersion);
        }
      }
    }
  }

  /** The superseded entries are the displaced blocks, in the order they were displaced. */
  lemma {:induction false} SupersededHistory(es: seq<Event>)
    ensures HistoryBlocks(Replay(es).history, SupersededVersion) == SupersededBlocks(es)
  {
    if |es| > 0 {
      var init := es[..|es| - 1];
      var e := es[|es| - 1];
      var st := Replay(init);
      SupersededHistory(init);
      if e.SqlRun? {
        var x :=
          if !e.success then HistoryEntry(e.block, FailedAttempt)
          else if e.step == "" then HistoryEntry(e.block, ExploratoryCheck)
          else if e.step in st.activeSteps then HistoryEntry(st.activeSteps[e.step], SupersededVersion)
          else HistoryEntry("", FailedAttempt);
        if e.success && e.step != "" {
          ActiveStepIsLatest(init, e.step);
        }
        if e.success && e.step != "" && e.step !in st.activeSteps {
          assert Replay(es).history == st.history;
        } else {
          assert Replay(es).history == st.history + [x];
          HistoryBlocksSnoc(st.history, x, SupersededVersion);
        }
      }
    }
  }

  /** Each SQL run lands in exactly one place: a history entry or a new active step. */
  lemma {:induction false} EveryRunLandsOnce(es: seq<Event>)
    ensures |Replay(es).history| + |Replay(es).stepOrder| == RunCount(es)
  {
    if |es| > 0 {
      EveryRunLandsOnce(es[..|es| - 1]);
    }
  }

  /** The block of a SQL call is its header line, then the stripped SQL, wrapped as a temp table iff Wraps holds. */
  lemma SqlBlockBody(name: string, sql: string, step: string)
    ensures SqlBlock(name, sql, step)
         == "-- [" + name + "] " + (if step != "" then step else "check") + "\n"
            + if Wraps(name, sql, step) then Decompose.TempTableSql(step, Strip(sql)) else Strip(sql)
  {
    if Wraps(name, sql, step) {
      var body := Strip(sql);
      StripEnds(sql);
      var run := Decompose.TempTableSql(step, body);
      assert |Upper(body)| >= 6;
      assert run[0] == 'C';
      assert run[|run| - 1] == body[|body| - 1];
      StripKeeps(run);
    }
  }

  // ---------------------------------------------------------------------
  // The output file
  // ---------------------------------------------------------------------

  const Rule: string := "-- ========================================================"
  const HistoryBanner: seq<string> := [Rule, "-- REFINEMENT HISTORY (Exploratory / Failed / Superseded)", Rule]
  const SequenceBanner: seq<string> := [Rule, "-- FINAL EXECUTABLE SEQUENCE", Rule]

  /** Each line of `ls` prefixed with "-- ". */
  function Commented(ls: seq<string>): (r: seq<string>)
    ensures |r| == |ls| && forall i | 0 <= i < |ls| :: r[i] == "-- " + ls[i]
  {
    seq(|ls|, i requires 0 <= i < |ls| => "-- " + ls[i])
  }

  /** A block with every line commented out. */
  function CommentOut(block: string): string {
    JoinLines(Commented(Lines(block)))
  }

  /** Removes the "-- " that CommentOut put in front of each line (the partner of CommentOut). */
  function Uncomment(text: string): string {
    var ls := Lines(text);
    JoinLines(seq(|ls|, i requires 0 <= i < |ls| => if StartsWith(ls[i], "-- ") then ls[i][3..] else ls[i]))
  }

  /** Every line of a commented-out block starts with "-- ", and removing it gives the block back. */
  lemma CommentOutRoundTrip(block: string)
    ensures forall l | l in Lines(CommentOut(block)) :: StartsWith(l, "-- ")
    ensures Uncomment(CommentOut(block)) == block
  {
    var ls := Lines(block);
    var cs := Commented(ls);
    LinesHaveNoNewline(block);
    forall i | 0 <= i < |cs|
      ensures '\n' !in cs[i]
    {
      assert cs[i] == "-- " + ls[i];
    }
    LinesOfJoinLines(cs);
    var back := seq(|cs|, i requires 0 <= i < |cs| => if StartsWith(cs[i], "-- ") then cs[i][3..] else cs[i]);
    assert back == ls by {
      forall i | 0 <= i < |cs|
        ensures back[i] == ls[i]
      {
        assert cs[i][..3] == "-- ";
        assert cs[i][3..] == ls[i];
      }
    }
    JoinLinesOfLines(block);
  }

  /** The lines of the history section. */
  function HistoryLines(h: seq<HistoryEntry>): seq<string> {
    if |h| == 0 then [] else HistoryLines(h[..|h| - 1]) + EntryLines(h[|h| - 1])
  }

  /** The three lines of one history entry: its reason, the commented-out block, and a closing "--;". */
  function EntryLines(e: HistoryEntry): seq<string> {
    ["-- Reason: " + ReasonText(e.reason), CommentOut(e.block), "--;\n"]
  }

  function HistorySection(h: seq<HistoryEntry>): seq<string> {
    if |h| == 0 then []
    else HistoryBanner + HistoryLines(h)
  }

  /** The active blocks, each followed by ";\n", in step order. */
  function ActiveLines(order: seq<string>, active: map<string, string>): (r: seq<string>)
    requires forall k | k in order :: k in active
    ensures |r| == |order| && forall i | 0 <= i < |order| :: r[i] == active[order[i]] + ";\n"
  {
    seq(|order|, i requires 0 <= i < |order| => active[order[i]] + ";\n")
  }

  /** The state's steps are well formed: the order lists each active step once. */
  ghost predicate WellFormed(st: FoldState) {
    forall k :: k in st.stepOrder <==> k in st.activeSteps
  }

  /** `output_lines` */
  function OutputLines(st: FoldState): seq<string>
    requires WellFormed(st)
  {
    HistorySection(st.history)
    + SequenceBanner
    + ActiveLines(st.stepOrder, st.activeSteps)
    + if st.finalAnswer.Some? then [st.finalAnswer.value + ";"] else []
  }

  /** The file text, or None when there is neither an active step nor a final answer. */
  function Output(st: FoldState): Option<string>
    requires WellFormed(st)
  {
    if st.activeSteps == map[] && st.finalAnswer.None? then None
    else Some(JoinLines(OutputLines(st)))
  }

  /**
   * The layout: the history section (only when there is history), the
   * sequence banner, then each active step in step order, then the final
   * answer as the last line.
   */
  lemma OutputLayout(st: FoldState)
    requires WellFormed(st)
    ensures (HistorySection(st.history) == []) <==> st.history == []
    ensures var out, h := OutputLines(st), |HistorySection(st.history)|;
      && |out| == h + 3 + |st.stepOrder| + (if st.finalAnswer.Some? then 1 else 0)
      && out[h + 1] == "-- FINAL EXECUTABLE SEQUENCE"
      && (forall i | 0 <= i < |st.stepOrder| :: out[h + 3 + i] == st.activeSteps[st.stepOrder[i]] + ";\n")
      && (st.finalAnswer.Some? ==> out[|out| - 1] == st.finalAnswer.value + ";")
  {
    var a := ActiveLines(st.stepOrder, st.activeSteps);
    var f := if st.finalAnswer.Some? then [st.finalAnswer.value + ";"] else [];
    BannerBetween(HistorySection(st.history), a, f);
  }

  lemma BannerBetween(hs: seq<string>, a: seq<string>, f: seq<string>)
    ensures var out := hs + SequenceBanner + a + f;
      && |out| == |hs| + 3 + |a| + |f|
      && out[|hs| + 1] == "-- FINAL EXECUTABLE SEQUENCE"
      && (forall i | 0 <= i < |a| :: out[|hs| + 3 + i] == a[i])
      && (|f| > 0 ==> out[|out| - 1] == f[|f| - 1])
  {
  }

  /** The method that appends to `output_lines` and joins them. */
  method Layout(st: FoldState) returns (out: Option<string>)
    requires WellFormed(st)
    ensures out == Output(st)
  {
    var lines := AppendHistory(st.history);
    lines := lines + SequenceBanner;
    var active := AppendActive(st.stepOrder, st.activeSteps);
    lines := lines + active;
    if st.finalAnswer.Some? {
      lines := lines + [st.finalAnswer.value + ";"];
    }
    assert lines == OutputLines(st);
    if st.activeSteps == map[] && st.finalAnswer.None? {
      return None;
    }
    return Some(JoinLines(lines));
  }

  lemma HistoryLinesStep(h: seq<HistoryEntry>, k: nat)
    requires k < |h|
    ensures HistoryLines(h[..k + 1]) == HistoryLines(h[..k]) + EntryLines(h[k])
  {
    assert h[..k + 1][..k] == h[..k];
  }

  /** The history part of Layout: a banner, then three lines per entry. */
  method AppendHistory(h: seq<HistoryEntry>) returns (lines: seq<string>)
    ensures lines == HistorySection(h)
  {
    lines := [];
    if h != [] {
      lines := lines + HistoryBanner;
      var k := 0;
      while k < |h|
        invariant k <= |h|
        invariant lines == HistoryBanner + HistoryLines(h[..k])
      {
        HistoryLinesStep(h, k);
        assert HistoryBanner + HistoryLines(h[..k + 1]) == lines + EntryLines(h[k]);
        lines := AppendEntry(lines, h[k]);
        k := k + 1;
      }
      assert h[..k] == h;
    }
  }

  /** The three appends of one history entry. */
  method AppendEntry(lines: seq<string>, e: HistoryEntry) returns (lines': seq<string>)
    ensures lines' == lines + EntryLines(e)
  {
    lines' := lines + ["-- Reason: " + ReasonText(e.reason)];
    lines' := lines' + [CommentOut(e.block)];
    lines' := lines' + ["--;\n"];
  }

  /** The active part of Layout: each active block in step order. */
  method AppendActive(order: seq<string>, active: map<string, string>) returns (lines: seq<string>)
    requires forall k | k in order :: k in active
    ensures lines == ActiveLines(order, active)
  {
    lines := [];
    var k := 0;
    while k < |order|
      invariant k <= |order|
      invariant lines == ActiveLines(order[..k], active)
    {
      assert ActiveLines(order[..k + 1], active) == ActiveLines(order[..k], active) + [active[order[k]] + ";\n"];
      lines := lines + [active[order[k]] + ";\n"];
      k := k + 1;
    }
    assert order[..k] == order;
  }

  /** A conversation gives no file iff no named step ever succeeded and no answer was given. */
  lemma NoFileIff(conv: seq<Message>)
    ensures var es := ConversationEvents(conv);
      WellFormed(Replay(es))
      && (Output(Replay(es)).None? <==> SuccessfulSteps(es) == [] && LastAnswer(es).None?)
  {
    var es := ConversationEvents(conv);
    ActiveStepsFirstSeen(es);
    FinalAnswerIsLast(es);
    var st := Replay(es);
    var steps := SuccessfulSteps(es);
    if steps != [] {
      assert steps[0] in Dedup(steps);
      assert steps[0] in st.activeSteps;
    }
    if st.activeSteps != map[] {
      var k :| k in st.activeSteps;
      assert k in Dedup(steps);
    }
  }

  // ---------------------------------------------------------------------
  // One input file
  // ---------------------------------------------------------------------

  /** Why a file produced no submission. */
  datatype Skip = NotAListSkip | NoTerminatedRecords | NoInstanceOrConversation | NoSqlFound

  function SkipText(s: Skip): string {
    match s
    case NotAListSkip => "not a list"
    case NoTerminatedRecords => "no terminated records"
    case NoInstanceOrConversation => "no instance_id or conversation"
    case NoSqlFound => "no sql found"
  }

  datatype SqlFile = SqlFile(fileName: string, content: string)

  /** The terminated records, in order. */
  function TerminatedRecords(rs: seq<Record>): (r: seq<Record>)
    ensures forall x :: x in r <==> x in rs && x.terminated
  {
    if |rs| == 0 then []
    else
      assert rs == rs[..|rs| - 1] + [rs[|rs| - 1]];
      TerminatedRecords(rs[..|rs| - 1]) + if rs[|rs| - 1].terminated then [rs[|rs| - 1]] else []
  }

  /** `record.get('instance_id') or record.get('id')`, when that is truthy. */
  function InstanceId(r: Record): (id: Option<string>)
    ensures id.Some? ==> id.value != "" && (id == r.instanceId || id == r.id)
    ensures id.None? <==> !Truthy(r.instanceId) && !Truthy(r.id)
    ensures Truthy(r.instanceId) ==> id == r.instanceId
    ensures !Truthy(r.instanceId) && Truthy(r.id) ==> id == r.id
  {
    if Truthy(r.instanceId) then r.instanceId else if Truthy(r.id) then r.id else None
  }

  /**
   * One file: the record at index `pick` among the terminated ones (the
   * model's stand-in for `random.choice`) is folded and laid out.
   */
  method ConvertFile(input: Input, pick: nat) returns (r: Result<SqlFile, Skip>)
    ensures r == Failure(NotAListSkip) <==> input.NotAList?
    ensures input.Records? ==> (r == Failure(NoTerminatedRecords) <==> TerminatedRecords(input.records) == [])
    ensures input.Records? && TerminatedRecords(input.records) != [] ==>
      var ts := TerminatedRecords(input.records);
      var rec := ts[pick % |ts|];
      var es := ConversationEvents(rec.conversation);
      && WellFormed(Replay(es))
      && (r == Failure(NoInstanceOrConversation) <==> InstanceId(rec).None? || rec.conversation == [])
      && (r == Failure(NoSqlFound) <==> InstanceId(rec).Some? && rec.conversation != [] && Output(Replay(es)).None?)
      && (r.Success? <==> InstanceId(rec).Some? && rec.conversation != [] && Output(Replay(es)).Some?)
      && (r.Success? ==> r.value == SqlFile(InstanceId(rec).value + ".sql", Output(Replay(es)).value))
  {
    if input.NotAList? {
      return Failure(NotAListSkip);
    }
    var terminated := TerminatedRecords(input.records);
    if terminated == [] {
      return Failure(NoTerminatedRecords);
    }
    var rec := terminated[pick % |terminated|];
    var instanceId := InstanceId(rec);
    var conversation := rec.conversation;
    ActiveStepsFirstSeen(ConversationEvents(conversation));
    if instanceId.None? || conversation == [] {
      return Failure(NoInstanceOrConversation);
    }
    var st := FoldConversation(conversation);
    var out := Layout(st);
    if out.None? {
      return Failure(NoSqlFound);
    }
    return Success(SqlFile(instanceId.value + ".sql", out.value));
  }
}
