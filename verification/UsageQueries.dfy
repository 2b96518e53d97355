/** Usage summaries end to end: the SQL statements with the filter in them against the in-memory recorder
    (`summary` in src/usage/recorder.rs). */
module UsageQueries {
  import opened Basics
  import opened Usage
  import opened Summary
  import SqlFilter

  /** The rows of `SELECT * FROM usage_records WHERE text`, or of the whole table if there is no text. */
  function Selected(text: seq<SqlFilter.Token>, values: seq<SqlFilter.Value>, table: seq<UsageRecord>):
    seq<UsageRecord>
  {
    if table == [] then []
    else
      var init, last := Selected(text, values, table[..|table| - 1]), table[|table| - 1];
      if SqlFilter.Keeps(text, values, last) then init + [last] else init
  }

  /** `MemoryUsageRecorder::filtered` */
  function Filtered(p: SqlFilter.Params, records: seq<UsageRecord>): seq<UsageRecord> {
    if records == [] then []
    else
      var init, last := Filtered(p, records[..|records| - 1]), records[|records| - 1];
      if SqlFilter.Matches(p, last) then init + [last] else init
  }

  /** Summaries filter by time and user only. */
  function SummaryParams(from: Option<int>, to: Option<int>, userId: Option<Uuid>): SqlFilter.Params {
    SqlFilter.Params(from, to, None, None, None, userId, None)
  }

  /** Which records a summary is about: those of its time and, if it is for one user, of that user. */
  lemma {:induction false} SummaryRecords(from: Option<int>, to: Option<int>, userId: Option<Uuid>,
                                          records: seq<UsageRecord>, r: UsageRecord)
    ensures r in Filtered(SummaryParams(from, to, userId), records) <==>
            && r in records
            && (from.Some? ==> from.value <= r.createdAt) && (to.Some? ==> r.createdAt <= to.value)
            && (userId.Some? ==> r.userId == userId)
  {
    if records != [] {
      var init, last := records[..|records| - 1], records[|records| - 1];
      assert records == init + [last];
      SummaryRecords(from, to, userId, init, r);
    }
  }

  lemma {:induction false} SelectedIsFiltered(p: SqlFilter.Params, table: seq<UsageRecord>)
    ensures Selected(SqlFilter.WhereText(p), SqlFilter.WhereValues(p), table) == Filtered(p, table)
  {
    if table != [] {
      SelectedIsFiltered(p, table[..|table| - 1]);
      assert SqlFilter.WhereValues(p) + [] == SqlFilter.WhereValues(p);
      SqlFilter.FilterAgrees(p, [], table[|table| - 1]);
    }
  }

  lemma RowsSnoc(g: Grouping, records: seq<UsageRecord>, r: UsageRecord)
    ensures RowsOf(g, records + [r]) == RowsOf(g, records) + [RowOf(g, r)]
  {
    assert (records + [r])[..|records|] == records;
  }

  lemma KnownCostsSnoc(rows: seq<Row>, row: Row)
    ensures KnownCosts(rows + [row]) ==
            KnownCosts(rows) + if row.currency.Some? && row.amount.Some? then [row] else []
  {
    assert (rows + [row])[..|rows|] == rows;
  }

  /** The cost query reads the filtered records whose costs are known. */
  lemma {:induction false} CostRows(p: SqlFilter.Params, table: seq<UsageRecord>)
    ensures RowsOf(Overall, Selected(SqlFilter.CostText(p), SqlFilter.WhereValues(p), table))
            == KnownCosts(RowsOf(Overall, Filtered(p, table)))
  {
    if table != [] {
      var init, last := table[..|table| - 1], table[|table| - 1];
      CostRows(p, init);
      SqlFilter.CostQueryAgrees(p, last);
      RowsSnoc(Overall, Selected(SqlFilter.CostText(p), SqlFilter.WhereValues(p), init), last);
      RowsSnoc(Overall, Filtered(p, init), last);
      KnownCostsSnoc(RowsOf(Overall, Filtered(p, init)), RowOf(Overall, last));
    }
  }

  datatype Report = Report(totals: Totals, totalCost: map<string, Money>, series: Table, breakdown: Table)

  /** What the database returns for the four statements of one summary, over the table as it is. */
  datatype Answers = Answers(totals: Totals, cost: seq<Row>, series: seq<Row>, breakdown: seq<Row>)
  {
    /** Each statement is answered by some ordering of its groups. */
    ghost predicate To(p: SqlFilter.Params, bucket: Grouping, table: seq<UsageRecord>) {
      var rows := Selected(SqlFilter.WhereText(p), SqlFilter.WhereValues(p), table);
      && totals == SqlTotals(rows)
      && IsGroupBy(cost, RowsOf(Overall, Selected(SqlFilter.CostText(p), SqlFilter.WhereValues(p), table)))
      && IsGroupBy(series, RowsOf(bucket, rows))
      && IsGroupBy(breakdown, RowsOf(ByModel, rows))
    }
  }

  /** The summary of the database recorder: it folds what the statements return. */
  method SqlSummary(p: SqlFilter.Params, bucket: Grouping, answers: Answers, ghost table: seq<UsageRecord>)
    returns (report: Report)
    requires answers.To(p, bucket, table)
    ensures IsReport(report, bucket, Filtered(p, table))
  {
    SelectedIsFiltered(p, table);
    CostRows(p, table);
    var records := Filtered(p, table);
    TotalsAgree(records);
    TotalCostsAgree(answers.cost, records);
    TwoStagesAgree(bucket, answers.series, records);
    TwoStagesAgree(ByModel, answers.breakdown, records);
    var cost := FoldGroups(answers.cost);
    var series := FoldGroups(answers.series);
    var breakdown := FoldGroups(answers.breakdown);
    report := Report(answers.totals, CostAt(cost, All), series, breakdown);
  }

  /** What a summary says about a list of records. */
  ghost predicate IsReport(report: Report, bucket: Grouping, records: seq<UsageRecord>) {
    && report.totals == TotalsOf(records) && report.totalCost == EntryAt(TableOf(Overall, records), All).cost
    && report.series == TableOf(bucket, records) && report.breakdown == TableOf(ByModel, records)
  }

  /** The summary of the in-memory recorder over the same records. */
  method MemorySummary(p: SqlFilter.Params, bucket: Grouping, records: seq<UsageRecord>) returns (report: Report)
    ensures IsReport(report, bucket, Filtered(p, records))
  {
    var totals, totalCost, series, breakdown := OnePass(Filtered(p, records), bucket);
    report := Report(totals, totalCost, series, breakdown);
  }

  /** Both recorders report the same, whatever the parameters, whatever is NULL, and in whatever order the database
      returns its groups. */
  method SummariesAgree(from: Option<int>, to: Option<int>, userId: Option<Uuid>, bucket: Grouping, answers: Answers,
                        table: seq<UsageRecord>) returns (database: Report, memory: Report)
    requires answers.To(SummaryParams(from, to, userId), bucket, table)
    ensures database == memory
  {
    database := SqlSummary(SummaryParams(from, to, userId), bucket, answers, table);
    memory := MemorySummary(SummaryParams(from, to, userId), bucket, table);
  }
}
