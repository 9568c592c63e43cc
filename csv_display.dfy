/**
 * How both Snowflake tools show a query's CSV in their reply: a CSV longer
 * than MaxCsvChars is cut to its first MaxCsvChars characters, and then back
 * to the last newline of that window when the newline is not at index 0.
 * The two tool files each spell this out inline; it is defined once here.
 */
module CsvDisplay {
  import opened Text

  const MaxCsvChars: nat := 2000
  const SuccessMessage: string := "Query executed successfully"

  /**
   * The cursor after `execute`: no description (a statement without a
   * result set), a result set without rows, or `rowCount` rows whose
   * `df.to_csv(index=False)` text is `csv`.
   */
  datatype CursorResult = NoDescription | NoRows | Rows(rowCount: nat, csv: string)


  predicate NewlineAfterStart(window: string) {
    LastIndexOf(window, '\n') > 0
  }

  /** The CSV text a reply shows for a result whose full CSV is `csv`. */
  function ShownCsv(csv: string): (r: string)
    ensures StartsWith(csv, r) && |r| <= MaxCsvChars
    ensures |csv| <= MaxCsvChars ==> r == csv
    ensures |csv| > MaxCsvChars && NewlineAfterStart(csv[..MaxCsvChars]) ==>
      0 < |r| < MaxCsvChars && csv[|r|] == '\n' && '\n' !in csv[|r| + 1..MaxCsvChars]
    ensures |csv| > MaxCsvChars && !NewlineAfterStart(csv[..MaxCsvChars]) ==>
      r == csv[..MaxCsvChars]
  {
    if |csv| <= MaxCsvChars then csv
    else
      var window := csv[..MaxCsvChars];
      var k := LastIndexOf(window, '\n');
      if k > 0 then window[..k] else window
  }


  /**
   * When the cut falls on a newline, the reply shows whole lines only: the
   * shown lines are the first lines of the CSV, none of them cut short.
   */
  lemma ShownLinesAreWholeLines(csv: string)
    requires |csv| > MaxCsvChars && NewlineAfterStart(csv[..MaxCsvChars])
    ensures var shown := Lines(ShownCsv(csv));
      |shown| < |Lines(csv)| && shown == Lines(csv)[..|shown|]
  {
    var r := ShownCsv(csv);
    var t := csv[|r| + 1..];
    assert csv == r + "\n" + t;
    LinesOfJoin(r, t);
  }

  /** The fenced CSV block every reply with rows starts with. */
  function CsvBlock(shown: string): string {
    SuccessMessage + ("\n\n```csv\n" + shown + "\n```")
  }

  function TruncationNote(rowCount: nat, csvLength: nat): string {
    "\n\nNote: The result has been truncated to " + NatToString(MaxCsvChars)
    + " characters for display purposes. The complete result set contains "
    + NatToString(rowCount) + " rows and " + NatToString(csvLength) + " characters."
  }

  /** The reply for a result with rows: the fenced CSV, and the note exactly when it was cut. */
  function FormatRows(n: nat, csv: string): (r: string)
    ensures |csv| <= MaxCsvChars ==> r == CsvBlock(csv)
    ensures |csv| > MaxCsvChars ==> r == CsvBlock(ShownCsv(csv)) + TruncationNote(n, |csv|)
  {
    if |csv| > MaxCsvChars then
      var shown := csv[..MaxCsvChars];
      var k := LastIndexOf(shown, '\n');
      var shown := if k > 0 then shown[..k] else shown;
      CsvBlock(shown) + TruncationNote(n, |csv|)
    else CsvBlock(csv)
  }

  /**
   * `_format_sql_result`, and the single-query reply of the other tool:
   * every reply reports success; a result with rows shows the displayed
   * part of its CSV in a fence, followed by a note with the full row count
   * and CSV length exactly when the CSV was cut.
   */
  function FormatSqlResult(c: CursorResult): (r: string)
    ensures StartsWith(r, SuccessMessage)
    ensures c.NoDescription? ==> r == SuccessMessage + "."
    ensures c.NoRows? ==> r == SuccessMessage + ", but no rows returned."
    ensures c.Rows? && |c.csv| <= MaxCsvChars ==> r == CsvBlock(c.csv)
    ensures c.Rows? && |c.csv| > MaxCsvChars ==>
      r == CsvBlock(ShownCsv(c.csv)) + TruncationNote(c.rowCount, |c.csv|)
  {
    match c
    case NoDescription =>
      StartsWithConcat(SuccessMessage, ".");
      SuccessMessage + "."
    case NoRows =>
      StartsWithConcat(SuccessMessage, ", but no rows returned.");
      SuccessMessage + ", but no rows returned."
    case Rows(n, csv) =>
      var r := FormatRows(n, csv);
      var shown := if |csv| > MaxCsvChars then ShownCsv(csv) else csv;
      var note := if |csv| > MaxCsvChars then TruncationNote(n, |csv|) else "";
      assert r == CsvBlock(shown) + note;
      StartsWithConcat(SuccessMessage, "\n\n```csv\n" + shown + "\n```");
      StartsWithConcat(CsvBlock(shown), note);
      StartsWithTrans(r, CsvBlock(shown), SuccessMessage);
      r
  }
}
