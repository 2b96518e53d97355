/** Usage summaries: one pass over the records, and SQL GROUP BY rows folded a second time
    (src/usage/recorder.rs, both `summary` implementations). */
module Summary {
  import opened Basics
  import opened Usage

  // --- groupings and rows ---

  datatype Grouping = Overall | ByHour | ByDay | ByModel

  datatype GroupKey = All | Bucket(start: int) | Model(provider: string, upstream: Option<string>)

  /** The totals are one group, the series groups by truncated time, the breakdown by provider and upstream
      model (NULL included). */
  function KeyOf(g: Grouping, r: UsageRecord): GroupKey {
    match g
    case Overall => All
    case ByHour => Bucket(r.createdAt - r.createdAt % 3600)
    case ByDay => Bucket(r.createdAt - r.createdAt % 86400)
    case ByModel => Model(r.providerId, r.upstreamModel)
  }

  lemma HourContains(t: int)
    ensures t - t % 3600 <= t < t - t % 3600 + 3600 && (t - t % 3600) % 3600 == 0
  {
    assert t - t % 3600 == 3600 * (t / 3600);
  }

  lemma DayContains(t: int)
    ensures t - t % 86400 <= t < t - t % 86400 + 86400 && (t - t % 86400) % 86400 == 0
  {
    assert t - t % 86400 == 86400 * (t / 86400);
  }

  lemma DayOf(day: int, t: int)
    requires 86400 * day <= t < 86400 * day + 86400
    ensures t - t % 86400 == 86400 * day
  {
  }

  lemma HourInDay(day: int, hour: int, t: int)
    requires 86400 * day <= t < 86400 * day + 86400 && 3600 * hour <= t < 3600 * hour + 3600
    ensures 86400 * day <= 3600 * hour < 86400 * day + 86400
  {
    assert 24 * day - 1 < hour < 24 * day + 24;
  }

  lemma DayOfHour(t: int)
    ensures var hour := t - t % 3600; hour - hour % 86400 == t - t % 86400
  {
    var day, hour := t / 86400, t / 3600;
    HourInDay(day, hour, t);
    DayOf(day, t);
    DayOf(day, 3600 * hour);
  }

  /** A bucket is the hour, or the day, that contains the record, and an hour lies within one day. */
  lemma BucketContains(r: UsageRecord)
    ensures KeyOf(ByHour, r).start <= r.createdAt < KeyOf(ByHour, r).start + 3600
    ensures KeyOf(ByDay, r).start <= r.createdAt < KeyOf(ByDay, r).start + 86400
    ensures KeyOf(ByHour, r).start % 3600 == 0 && KeyOf(ByDay, r).start % 86400 == 0
    ensures KeyOf(ByDay, r.(createdAt := KeyOf(ByHour, r).start)) == KeyOf(ByDay, r)
  {
    HourContains(r.createdAt);
    DayContains(r.createdAt);
    DayOfHour(r.createdAt);
  }

  /** What one record, or one row of a GROUP BY query, contributes to a summary. */
  datatype Row = Row(key: GroupKey, currency: Option<string>, requests: nat, tokens: int, amount: Option<Money>)

  function RowOf(g: Grouping, r: UsageRecord): Row {
    Row(KeyOf(g, r), r.currency, 1, r.tokens.total.GetOr(0), r.cost)
  }

  function RowsOf(g: Grouping, records: seq<UsageRecord>): seq<Row> {
    if records == [] then [] else RowsOf(g, records[..|records| - 1]) + [RowOf(g, records[|records| - 1])]
  }

  // --- tables ---

  datatype Entry = Entry(requests: nat, tokens: int, cost: map<string, Money>)

  type Table = map<GroupKey, Entry>

  /** `fold_cost`: only a known amount in a known currency counts. */
  function FoldCost(cost: map<string, Money>, currency: Option<string>, amount: Option<Money>): map<string, Money> {
    if currency.Some? && amount.Some? then
      cost[currency.value := (if currency.value in cost then cost[currency.value] else 0.0) + amount.value]
    else cost
  }

  /** `entry(key).or_default()` */
  function EntryAt(table: Table, k: GroupKey): Entry {
    if k in table then table[k] else Entry(0, 0, map[])
  }

  function FoldRow(table: Table, row: Row): Table {
    var e := EntryAt(table, row.key);
    var cost := FoldCost(e.cost, row.currency, row.amount);
    table[row.key := Entry(e.requests + row.requests, e.tokens + row.tokens, cost)]
  }

  function FoldRows(rows: seq<Row>): Table {
    if rows == [] then map[] else FoldRow(FoldRows(rows[..|rows| - 1]), rows[|rows| - 1])
  }

  /** One record added to its entry, in place. */
  method AddRecord(table: Table, k: GroupKey, r: UsageRecord) returns (t: Table)
    ensures t == FoldRow(table, Row(k, r.currency, 1, r.tokens.total.GetOr(0), r.cost))
  {
    var entry := EntryAt(table, k);
    entry := entry.(requests := entry.requests + 1);
    entry := entry.(tokens := entry.tokens + r.tokens.total.GetOr(0));
    entry := entry.(cost := FoldCost(entry.cost, r.currency, r.cost));
    t := table[k := entry];
  }

  /** The table of the first records, in one grouping. */
  function TableOf(g: Grouping, records: seq<UsageRecord>): Table {
    FoldRows(RowsOf(g, records))
  }

  // --- totals ---

  datatype Column = InputTokens | OutputTokens | TotalTokens

  function ValueOf(c: Column, r: UsageRecord): Option<int> {
    match c
    case InputTokens => r.tokens.input
    case OutputTokens => r.tokens.output
    case TotalTokens => r.tokens.total
  }

  /** The totals next to the costs: requests, failed ones among them, and three sums of tokens. */
  datatype Totals = Totals(requests: nat, errors: nat, input: int, output: int, tokens: int)

  /** What was reported in a column, over all records. */
  function Reported(c: Column, records: seq<UsageRecord>): int {
    if records == [] then 0
    else Reported(c, records[..|records| - 1]) + ValueOf(c, records[|records| - 1]).GetOr(0)
  }

  function Errors(records: seq<UsageRecord>): nat {
    if records == [] then 0
    else Errors(records[..|records| - 1]) + if records[|records| - 1].status >= 400 then 1 else 0
  }

  function TotalsOf(records: seq<UsageRecord>): Totals {
    Totals(|records|, Errors(records), Reported(InputTokens, records), Reported(OutputTokens, records),
           Reported(TotalTokens, records))
  }

  /** `filter_map(column).sum()` */
  method SumReported(c: Column, records: seq<UsageRecord>) returns (sum: int)
    ensures sum == Reported(c, records)
  {
    sum := 0;
    for i := 0 to |records|
      invariant sum == Reported(c, records[..i])
    {
      assert records[..i + 1][..i] == records[..i];
      var value := ValueOf(c, records[i]);
      if value.Some? { sum := sum + value.value; }
    }
    assert records[..|records|] == records;
  }

  /** `filter(status >= 400).count()` */
  method CountErrors(records: seq<UsageRecord>) returns (errors: nat)
    ensures errors == Errors(records)
  {
    errors := 0;
    for i := 0 to |records|
      invariant errors == Errors(records[..i])
    {
      assert records[..i + 1][..i] == records[..i];
      if records[i].status >= 400 { errors := errors + 1; }
    }
    assert records[..|records|] == records;
  }

  /** SQL's `SUM(column)` over all rows: NULLs are skipped, and the sum of nothing is NULL. */
  function SqlColumnSum(c: Column, rows: seq<UsageRecord>): Option<int> {
    if rows == [] then None
    else
      var rest := SqlColumnSum(c, rows[1..]);
      match ValueOf(c, rows[0])
      case None => rest
      case Some(v) => Some(v + rest.GetOr(0))
  }

  /** `COUNT(*) FILTER (WHERE status >= 400)` */
  function SqlErrors(rows: seq<UsageRecord>): nat {
    if rows == [] then 0 else (if rows[0].status >= 400 then 1 else 0) + SqlErrors(rows[1..])
  }

  /** The row of the totals query. */
  function SqlTotals(rows: seq<UsageRecord>): Totals {
    Totals(|rows|, SqlErrors(rows), SqlColumnSum(InputTokens, rows).GetOr(0), SqlColumnSum(OutputTokens, rows).GetOr(0),
           SqlColumnSum(TotalTokens, rows).GetOr(0))
  }

  lemma {:induction false} ReportedConcat(c: Column, a: seq<UsageRecord>, b: seq<UsageRecord>)
    ensures Reported(c, a + b) == Reported(c, a) + Reported(c, b)
    ensures Errors(a + b) == Errors(a) + Errors(b)
  {
    if b == [] {
      assert a + b == a;
    } else {
      assert (a + b)[..|a + b| - 1] == a + b[..|b| - 1];
      ReportedConcat(c, a, b[..|b| - 1]);
    }
  }

  lemma {:induction false} SqlSumsReport(c: Column, rows: seq<UsageRecord>)
    ensures SqlColumnSum(c, rows).GetOr(0) == Reported(c, rows) && SqlErrors(rows) == Errors(rows)
    ensures SqlColumnSum(c, rows).None? <==> forall r :: r in rows ==> ValueOf(c, r).None?
  {
    if rows != [] {
      assert rows == [rows[0]] + rows[1..];
      SqlSumsReport(c, rows[1..]);
      ReportedConcat(c, [rows[0]], rows[1..]);
      assert [rows[0]][..0] == [];
    }
  }

  /** What one more record adds to the totals: itself, itself again if it failed, and the counts it reports. */
  lemma TotalsGrow(records: seq<UsageRecord>, r: UsageRecord)
    ensures TotalsOf([]) == Totals(0, 0, 0, 0, 0)
    ensures var before, after := TotalsOf(records), TotalsOf(records + [r]);
            && after.requests == before.requests + 1
            && after.errors == before.errors + (if r.status >= 400 then 1 else 0)
            && after.input == before.input + r.tokens.input.GetOr(0)
            && after.output == before.output + r.tokens.output.GetOr(0)
            && after.tokens == before.tokens + r.tokens.total.GetOr(0)
  {
    assert (records + [r])[..|records|] == records;
  }

  /** What one more record adds to an entry, in whatever grouping: itself, the tokens it reports in all, and its cost,
      if it has one, in its currency; and it adds that to the entry of its own key only. */
  lemma EntriesGrow(g: Grouping, records: seq<UsageRecord>, r: UsageRecord, k: GroupKey)
    ensures TableOf(g, []) == map[]
    ensures var before, after := EntryAt(TableOf(g, records), k), EntryAt(TableOf(g, records + [r]), k);
            if KeyOf(g, r) != k then after == before
            else
              && after.requests == before.requests + 1
              && after.tokens == before.tokens + r.tokens.total.GetOr(0)
              && after.cost == if r.currency.None? || r.cost.None? then before.cost
                               else before.cost[r.currency.value :=
                                      CostIn(before, r.currency.value) + r.cost.value]
  {
    var n := |records|;
    assert (records + [r])[..n] == records && (records + [r])[..n + 1] == records + [r];
    TableOfSnoc(g, records + [r], n);
  }

  function CostIn(e: Entry, currency: string): Money {
    if currency in e.cost then e.cost[currency] else 0.0
  }

  /** Which records share an entry: all of them in the totals, those of one hour or day in a series, and those of one
      provider and upstream model, known or not, in the breakdown. */
  lemma SameEntry(a: UsageRecord, b: UsageRecord)
    ensures KeyOf(Overall, a) == KeyOf(Overall, b)
    ensures KeyOf(ByHour, a) == KeyOf(ByHour, b) <==> a.createdAt / 3600 == b.createdAt / 3600
    ensures KeyOf(ByDay, a) == KeyOf(ByDay, b) <==> a.createdAt / 86400 == b.createdAt / 86400
    ensures KeyOf(ByModel, a) == KeyOf(ByModel, b) <==>
            a.providerId == b.providerId && a.upstreamModel == b.upstreamModel
  {
    assert a.createdAt - a.createdAt % 3600 == 3600 * (a.createdAt / 3600);
    assert b.createdAt - b.createdAt % 3600 == 3600 * (b.createdAt / 3600);
    assert a.createdAt - a.createdAt % 86400 == 86400 * (a.createdAt / 86400);
    assert b.createdAt - b.createdAt % 86400 == 86400 * (b.createdAt / 86400);
  }

  /** The totals query and the loops over the records count and add up the same, NULL columns included. */
  lemma TotalsAgree(records: seq<UsageRecord>)
    ensures SqlTotals(records) == TotalsOf(records)
  {
    SqlSumsReport(InputTokens, records);
    SqlSumsReport(OutputTokens, records);
    SqlSumsReport(TotalTokens, records);
  }

  /** The totals are what the series and the breakdown group: requests and tokens of the one overall group. */
  lemma {:induction false} OverallIsTotals(records: seq<UsageRecord>)
    ensures EntryAt(TableOf(Overall, records), All).requests == TotalsOf(records).requests
    ensures EntryAt(TableOf(Overall, records), All).tokens == TotalsOf(records).tokens
  {
    if records != [] {
      var n := |records| - 1;
      OverallIsTotals(records[..n]);
      assert records[..n + 1] == records;
      TableOfSnoc(Overall, records, n);
    }
  }

  /** The in-memory summary: the totals first, then series and breakdown in one loop. */
  method OnePass(records: seq<UsageRecord>, bucket: Grouping)
    returns (totals: Totals, totalCost: map<string, Money>, series: Table, breakdown: Table)
    ensures totals == TotalsOf(records)
    ensures totalCost == CostAt(TableOf(Overall, records), All)
    ensures series == TableOf(bucket, records)
    ensures breakdown == TableOf(ByModel, records)
  {
    var errors := CountErrors(records);
    totalCost := TotalCost(records);
    var input := SumReported(InputTokens, records);
    var output := SumReported(OutputTokens, records);
    var tokens := SumReported(TotalTokens, records);
    totals := Totals(|records|, errors, input, output, tokens);
    series, breakdown := map[], map[];
    for i := 0 to |records|
      invariant series == TableOf(bucket, records[..i])
      invariant breakdown == TableOf(ByModel, records[..i])
    {
      TableOfSnoc(bucket, records, i);
      TableOfSnoc(ByModel, records, i);
      series := AddRecord(series, KeyOf(bucket, records[i]), records[i]);
      breakdown := AddRecord(breakdown, KeyOf(ByModel, records[i]), records[i]);
    }
    assert records[..|records|] == records;
  }

  method TotalCost(records: seq<UsageRecord>) returns (cost: map<string, Money>)
    ensures cost == CostAt(TableOf(Overall, records), All)
  {
    cost := map[];
    for i := 0 to |records|
      invariant cost == CostAt(TableOf(Overall, records[..i]), All)
    {
      TableOfSnoc(Overall, records, i);
      FoldRowCost(TableOf(Overall, records[..i]), RowOf(Overall, records[i]), All);
      cost := FoldCost(cost, records[i].currency, records[i].cost);
    }
    assert records[..|records|] == records;
  }

  lemma TableOfSnoc(g: Grouping, records: seq<UsageRecord>, i: nat)
    requires i < |records|
    ensures TableOf(g, records[..i + 1]) == FoldRow(TableOf(g, records[..i]), RowOf(g, records[i]))
  {
    assert records[..i + 1][..i] == records[..i];
    var before := RowsOf(g, records[..i]);
    assert (before + [RowOf(g, records[i])])[..|before|] == before;
  }

  /** The second stage of the SQL summary: group rows, in whatever order they come, folded in Rust. */
  method FoldGroups(groups: seq<Row>) returns (table: Table)
    ensures table == FoldRows(groups)
  {
    table := map[];
    for i := 0 to |groups|
      invariant table == FoldRows(groups[..i])
    {
      assert groups[..i + 1][..i] == groups[..i];
      table := FoldRow(table, groups[i]);
    }
    assert groups[..|groups|] == groups;
  }

  // --- measures ---

  datatype Measure = Requests | Tokens | Cost(currency: string)

  function MeasureOf(m: Measure, row: Row): Money {
    match m
    case Requests => row.requests as real
    case Tokens => row.tokens as real
    case Cost(c) => if row.currency == Some(c) then row.amount.GetOr(0.0) else 0.0
  }

  function Get(m: Measure, e: Entry): Money {
    match m
    case Requests => e.requests as real
    case Tokens => e.tokens as real
    case Cost(c) => if c in e.cost then e.cost[c] else 0.0
  }

  function Total(m: Measure, rows: seq<Row>): Money {
    if rows == [] then 0.0 else MeasureOf(m, rows[0]) + Total(m, rows[1..])
  }

  function KeyTotal(m: Measure, k: GroupKey, rows: seq<Row>): Money {
    if rows == [] then 0.0
    else (if rows[0].key == k then MeasureOf(m, rows[0]) else 0.0) + KeyTotal(m, k, rows[1..])
  }

  lemma {:induction false} KeyTotalSnoc(m: Measure, k: GroupKey, rows: seq<Row>, row: Row)
    ensures KeyTotal(m, k, rows + [row]) == KeyTotal(m, k, rows) + if row.key == k then MeasureOf(m, row) else 0.0
  {
    if rows == [] {
      assert rows + [row] == [row] && [row][1..] == [];
    } else {
      SplitConcat(rows, [row], 1);
      KeyTotalSnoc(m, k, rows[1..], row);
    }
  }

  ghost predicate HasKey(rows: seq<Row>, k: GroupKey) {
    exists row :: row in rows && row.key == k
  }

  /** Some row of the key has a known amount in the currency. */
  ghost predicate HasCost(rows: seq<Row>, k: GroupKey, c: string) {
    exists row :: row in rows && row.key == k && row.currency == Some(c) && row.amount.Some?
  }

  lemma PresenceSnoc(init: seq<Row>, row: Row, k: GroupKey, c: string)
    ensures HasKey(init + [row], k) <==> HasKey(init, k) || row.key == k
    ensures HasCost(init + [row], k, c) <==>
            HasCost(init, k, c) || (row.key == k && row.currency == Some(c) && row.amount.Some?)
  {
    var rows := init + [row];
    assert row in rows;
    if x :| x in init && x.key == k { assert x in rows; }
    if x :| x in init && x.key == k && x.currency == Some(c) && x.amount.Some? { assert x in rows; }
  }

  /** A folded table holds, for each key of the rows, the key's totals; a currency is listed exactly when some
      row of the key has a known amount in it. */
  lemma {:induction false} FoldMeans(rows: seq<Row>, k: GroupKey, m: Measure, c: string)
    ensures k in FoldRows(rows) <==> HasKey(rows, k)
    ensures Get(m, EntryAt(FoldRows(rows), k)) == KeyTotal(m, k, rows)
    ensures c in EntryAt(FoldRows(rows), k).cost <==> HasCost(rows, k, c)
  {
    if rows != [] {
      var n := |rows| - 1;
      assert rows == rows[..n] + [rows[n]];
      FoldMeans(rows[..n], k, m, c);
      KeyTotalSnoc(m, k, rows[..n], rows[n]);
      PresenceSnoc(rows[..n], rows[n], k, c);
    }
  }

  /** Two row lists with the same keys, totals and currencies fold to the same table. */
  lemma FoldsAgree(a: seq<Row>, b: seq<Row>)
    requires forall k :: HasKey(a, k) <==> HasKey(b, k)
    requires forall m, k :: KeyTotal(m, k, a) == KeyTotal(m, k, b)
    requires forall k, c :: HasCost(a, k, c) <==> HasCost(b, k, c)
    ensures FoldRows(a) == FoldRows(b)
  {
    forall k ensures k in FoldRows(a) <==> k in FoldRows(b) {
      FoldMeans(a, k, Requests, "");
      FoldMeans(b, k, Requests, "");
    }
    forall k | k in FoldRows(a) ensures FoldRows(a)[k] == FoldRows(b)[k] {
      EntriesAgree(a, b, k);
    }
  }

  lemma EntriesAgree(a: seq<Row>, b: seq<Row>, k: GroupKey)
    requires forall m :: KeyTotal(m, k, a) == KeyTotal(m, k, b)
    requires forall c :: HasCost(a, k, c) <==> HasCost(b, k, c)
    ensures EntryAt(FoldRows(a), k) == EntryAt(FoldRows(b), k)
  {
    var x, y := EntryAt(FoldRows(a), k), EntryAt(FoldRows(b), k);
    FoldMeans(a, k, Requests, "");
    FoldMeans(b, k, Requests, "");
    FoldMeans(a, k, Tokens, "");
    FoldMeans(b, k, Tokens, "");
    forall c ensures (c in x.cost <==> c in y.cost) && Get(Cost(c), x) == Get(Cost(c), y) {
      FoldMeans(a, k, Cost(c), c);
      FoldMeans(b, k, Cost(c), c);
    }
    assert x.cost.Keys == y.cost.Keys;
    forall c | c in x.cost ensures x.cost[c] == y.cost[c] {
      assert Get(Cost(c), x) == Get(Cost(c), y);
    }
  }

  // --- GROUP BY ---

  type Pair = (GroupKey, Option<string>)

  function PairOf(row: Row): Pair { (row.key, row.currency) }

  function PairTotal(m: Measure, p: Pair, rows: seq<Row>): Money {
    if rows == [] then 0.0
    else (if PairOf(rows[0]) == p then MeasureOf(m, rows[0]) else 0.0) + PairTotal(m, p, rows[1..])
  }

  /** SQL's SUM over a group: NULL amounts are skipped, and a group without any amount sums to NULL. */
  function SqlSum(p: Pair, rows: seq<Row>): Option<Money> {
    if rows == [] then None
    else
      var rest := SqlSum(p, rows[1..]);
      if PairOf(rows[0]) == p && rows[0].amount.Some? then Some(rows[0].amount.value + rest.GetOr(0.0)) else rest
  }

  ghost predicate HasPair(rows: seq<Row>, p: Pair) {
    exists row :: row in rows && PairOf(row) == p
  }

  ghost predicate DistinctPairs(groups: seq<Row>) {
    forall i, j :: 0 <= i < j < |groups| ==> PairOf(groups[i]) != PairOf(groups[j])
  }

  /** The group sums up the rows of its pair, of which there is at least one. */
  ghost predicate SumsUp(g: Row, rows: seq<Row>) {
    && HasPair(rows, PairOf(g))
    && MeasureOf(Requests, g) == PairTotal(Requests, PairOf(g), rows)
    && MeasureOf(Tokens, g) == PairTotal(Tokens, PairOf(g), rows)
    && g.amount == SqlSum(PairOf(g), rows)
  }

  /** `groups` is what `GROUP BY key, currency` may return for the rows, in any order; NULLs group together. */
  ghost predicate IsGroupBy(groups: seq<Row>, rows: seq<Row>) {
    && DistinctPairs(groups)
    && (forall row {:trigger HasPair(groups, PairOf(row))} :: row in rows ==> HasPair(groups, PairOf(row)))
    && (forall g {:trigger SumsUp(g, rows)} :: g in groups ==> SumsUp(g, rows))
  }

  /** A row by itself is a group. */
  lemma OneGroup(row: Row)
    ensures IsGroupBy([row], [row])
  {
    var rows, p := [row], PairOf(row);
    assert rows[1..] == [] && row in rows;
    assert PairTotal(Requests, p, rows) == MeasureOf(Requests, row) + PairTotal(Requests, p, rows[1..]);
    assert PairTotal(Tokens, p, rows) == MeasureOf(Tokens, row) + PairTotal(Tokens, p, rows[1..]);
    assert SqlSum(p, rows[1..]) == None;
  }

  lemma {:induction false} SqlSumMeans(p: Pair, rows: seq<Row>, c: string)
    ensures PairTotal(Cost(c), p, rows) == if p.1 == Some(c) then SqlSum(p, rows).GetOr(0.0) else 0.0
    ensures SqlSum(p, rows).Some? <==> exists row :: row in rows && PairOf(row) == p && row.amount.Some?
  {
    if rows != [] {
      assert rows == [rows[0]] + rows[1..];
      SqlSumMeans(p, rows[1..], c);
    }
  }

  /** Sum of the pairs' totals, over the pairs of one key. */
  function PairsTotal(m: Measure, k: GroupKey, groups: seq<Row>, rows: seq<Row>): Money {
    if groups == [] then 0.0
    else
      (if groups[0].key == k then PairTotal(m, PairOf(groups[0]), rows) else 0.0) + PairsTotal(m, k, groups[1..], rows)
  }

  /** What a single row adds to that sum. */
  function Hits(m: Measure, k: GroupKey, groups: seq<Row>, row: Row): Money {
    if groups == [] then 0.0
    else
      (if groups[0].key == k && PairOf(groups[0]) == PairOf(row) then MeasureOf(m, row) else 0.0)
      + Hits(m, k, groups[1..], row)
  }

  lemma {:induction false} PairsTotalCons(m: Measure, k: GroupKey, groups: seq<Row>, rows: seq<Row>)
    requires rows != []
    ensures PairsTotal(m, k, groups, rows) == Hits(m, k, groups, rows[0]) + PairsTotal(m, k, groups, rows[1..])
  {
    if groups != [] {
      PairsTotalCons(m, k, groups[1..], rows);
    }
  }

  lemma {:induction false} NoHit(m: Measure, k: GroupKey, groups: seq<Row>, row: Row)
    requires forall g :: g in groups ==> PairOf(g) != PairOf(row)
    ensures Hits(m, k, groups, row) == 0.0
  {
    if groups != [] {
      assert groups[0] in groups;
      NoHit(m, k, groups[1..], row);
    }
  }

  /** A row is counted in exactly one group. */
  lemma {:induction false} OneHit(m: Measure, k: GroupKey, groups: seq<Row>, row: Row)
    requires DistinctPairs(groups) && HasPair(groups, PairOf(row))
    ensures Hits(m, k, groups, row) == if row.key == k then MeasureOf(m, row) else 0.0
  {
    if PairOf(groups[0]) == PairOf(row) {
      forall g | g in groups[1..] ensures PairOf(g) != PairOf(row) {
        var i :| 0 <= i < |groups[1..]| && groups[1..][i] == g;
        assert groups[i + 1] == g && PairOf(groups[0]) != PairOf(groups[i + 1]);
      }
      NoHit(m, k, groups[1..], row);
    } else {
      assert groups == [groups[0]] + groups[1..];
      OneHit(m, k, groups[1..], row);
    }
  }

  lemma {:induction false} PairsPartition(m: Measure, k: GroupKey, groups: seq<Row>, rows: seq<Row>)
    requires DistinctPairs(groups)
    requires forall row {:trigger HasPair(groups, PairOf(row))} :: row in rows ==> HasPair(groups, PairOf(row))
    ensures PairsTotal(m, k, groups, rows) == KeyTotal(m, k, rows)
    decreases |rows|
  {
    if rows == [] {
      EmptyPairsTotal(m, k, groups);
    } else {
      assert rows[0] in rows;
      PairsTotalCons(m, k, groups, rows);
      OneHit(m, k, groups, rows[0]);
      PairsPartition(m, k, groups, rows[1..]);
    }
  }

  lemma {:induction false} EmptyPairsTotal(m: Measure, k: GroupKey, groups: seq<Row>)
    ensures PairsTotal(m, k, groups, []) == 0.0
  {
    if groups != [] {
      EmptyPairsTotal(m, k, groups[1..]);
    }
  }

  lemma {:induction false} GroupTotals(m: Measure, k: GroupKey, groups: seq<Row>, rows: seq<Row>)
    requires forall g :: g in groups ==> MeasureOf(m, g) == PairTotal(m, PairOf(g), rows)
    ensures KeyTotal(m, k, groups) == PairsTotal(m, k, groups, rows)
  {
    if groups != [] {
      assert groups[0] in groups;
      GroupTotals(m, k, groups[1..], rows);
    }
  }

  lemma GroupKeyTotal(m: Measure, k: GroupKey, groups: seq<Row>, rows: seq<Row>)
    requires IsGroupBy(groups, rows)
    ensures KeyTotal(m, k, groups) == KeyTotal(m, k, rows)
  {
    forall g | g in groups ensures MeasureOf(m, g) == PairTotal(m, PairOf(g), rows) {
      assert SumsUp(g, rows);
      if m.Cost? { SqlSumMeans(PairOf(g), rows, m.currency); }
    }
    GroupTotals(m, k, groups, rows);
    PairsPartition(m, k, groups, rows);
  }

  lemma GroupKeys(k: GroupKey, groups: seq<Row>, rows: seq<Row>)
    requires IsGroupBy(groups, rows)
    ensures HasKey(groups, k) <==> HasKey(rows, k)
  {
    if g :| g in groups && g.key == k {
      assert SumsUp(g, rows);
      var row :| row in rows && PairOf(row) == PairOf(g);
      assert row.key == k;
    }
    if row :| row in rows && row.key == k {
      assert HasPair(groups, PairOf(row));
      var g :| g in groups && PairOf(g) == PairOf(row);
      assert g.key == k;
    }
  }

  lemma GroupCosts(k: GroupKey, c: string, groups: seq<Row>, rows: seq<Row>)
    requires IsGroupBy(groups, rows)
    ensures HasCost(groups, k, c) <==> HasCost(rows, k, c)
  {
    var p := (k, Some(c));
    SqlSumMeans(p, rows, c);
    if g :| g in groups && g.key == k && g.currency == Some(c) && g.amount.Some? {
      assert SumsUp(g, rows) && PairOf(g) == p;
      var row :| row in rows && PairOf(row) == p && row.amount.Some?;
      assert row.key == k && row.currency == Some(c);
    }
    if row :| row in rows && row.key == k && row.currency == Some(c) && row.amount.Some? {
      assert PairOf(row) == p && HasPair(groups, PairOf(row));
      var g :| g in groups && PairOf(g) == p;
      assert SumsUp(g, rows) && g.key == k && g.currency == Some(c);
    }
  }

  lemma FoldsOfGroups(groups: seq<Row>, rows: seq<Row>)
    requires IsGroupBy(groups, rows)
    ensures FoldRows(groups) == FoldRows(rows)
  {
    forall k ensures HasKey(groups, k) <==> HasKey(rows, k) {
      GroupKeys(k, groups, rows);
    }
    forall k, c ensures HasCost(groups, k, c) <==> HasCost(rows, k, c) {
      GroupCosts(k, c, groups, rows);
    }
    forall m, k ensures KeyTotal(m, k, groups) == KeyTotal(m, k, rows) {
      GroupKeyTotal(m, k, groups, rows);
    }
    FoldsAgree(groups, rows);
  }

  /** Grouping in SQL and folding the groups gives the same table as one pass over the records, with NULL
      currencies and NULL costs, for both the series and the breakdown. */
  lemma TwoStagesAgree(g: Grouping, groups: seq<Row>, records: seq<UsageRecord>)
    requires IsGroupBy(groups, RowsOf(g, records))
    ensures FoldRows(groups) == TableOf(g, records)
  {
    FoldsOfGroups(groups, RowsOf(g, records));
  }

  /** The rows of the totals' cost query: `currency IS NOT NULL AND estimated_cost IS NOT NULL`. */
  function KnownCosts(rows: seq<Row>): seq<Row> {
    if rows == [] then []
    else
      var init, last := KnownCosts(rows[..|rows| - 1]), rows[|rows| - 1];
      if last.currency.Some? && last.amount.Some? then init + [last] else init
  }

  lemma FoldSnoc(rows: seq<Row>, row: Row)
    ensures FoldRows(rows + [row]) == FoldRow(FoldRows(rows), row)
  {
    assert (rows + [row])[..|rows|] == rows;
  }

  function CostAt(table: Table, k: GroupKey): map<string, Money> {
    EntryAt(table, k).cost
  }

  lemma FoldRowCost(table: Table, row: Row, k: GroupKey)
    ensures CostAt(FoldRow(table, row), k) ==
            if row.key == k then FoldCost(CostAt(table, k), row.currency, row.amount) else CostAt(table, k)
  {
  }

  lemma {:induction false} KnownCostsFold(rows: seq<Row>, k: GroupKey)
    ensures CostAt(FoldRows(KnownCosts(rows)), k) == CostAt(FoldRows(rows), k)
  {
    if rows != [] {
      var init, last := rows[..|rows| - 1], rows[|rows| - 1];
      KnownCostsFold(init, k);
      FoldRowCost(FoldRows(init), last, k);
      FoldSnoc(KnownCosts(init), last);
      FoldRowCost(FoldRows(KnownCosts(init)), last, k);
    }
  }

  /** Leaving NULL currencies and NULL costs out of the totals' query loses no cost: its groups fold to the
      per-currency costs of the one pass. */
  lemma TotalCostsAgree(groups: seq<Row>, records: seq<UsageRecord>)
    requires IsGroupBy(groups, KnownCosts(RowsOf(Overall, records)))
    ensures CostAt(FoldRows(groups), All) == CostAt(TableOf(Overall, records), All)
  {
    FoldsOfGroups(groups, KnownCosts(RowsOf(Overall, records)));
    KnownCostsFold(RowsOf(Overall, records), All);
  }

  // --- the parts add up to the totals ---

  /** A measure summed over a table, entry by entry in some order. */
  function TableTotal(m: Measure, table: Table, keys: seq<GroupKey>): Money {
    if keys == [] then 0.0 else Get(m, EntryAt(table, keys[0])) + TableTotal(m, table, keys[1..])
  }

  function KeysTotal(m: Measure, keys: seq<GroupKey>, rows: seq<Row>): Money {
    if keys == [] then 0.0 else KeyTotal(m, keys[0], rows) + KeysTotal(m, keys[1..], rows)
  }

  function KeyHits(m: Measure, keys: seq<GroupKey>, row: Row): Money {
    if keys == [] then 0.0 else (if row.key == keys[0] then MeasureOf(m, row) else 0.0) + KeyHits(m, keys[1..], row)
  }

  lemma {:induction false} KeysTotalCons(m: Measure, keys: seq<GroupKey>, rows: seq<Row>)
    requires rows != []
    ensures KeysTotal(m, keys, rows) == KeyHits(m, keys, rows[0]) + KeysTotal(m, keys, rows[1..])
  {
    if keys != [] { KeysTotalCons(m, keys[1..], rows); }
  }

  lemma {:induction false} KeyHit(m: Measure, keys: seq<GroupKey>, row: Row)
    requires Distinct(keys)
    ensures KeyHits(m, keys, row) == if row.key in keys then MeasureOf(m, row) else 0.0
  {
    if keys != [] {
      assert keys == [keys[0]] + keys[1..];
      assert keys[0] !in keys[1..] by {
        assert forall i :: 0 <= i < |keys[1..]| ==> keys[1..][i] == keys[i + 1] && keys[i + 1] != keys[0];
      }
      KeyHit(m, keys[1..], row);
    }
  }

  lemma {:induction false} KeysPartition(m: Measure, keys: seq<GroupKey>, rows: seq<Row>)
    requires Distinct(keys) && forall row :: row in rows ==> row.key in keys
    ensures KeysTotal(m, keys, rows) == Total(m, rows)
    decreases |rows|
  {
    if rows == [] {
      NoRowsNoTotal(m, keys);
    } else {
      assert rows[0] in rows;
      KeysTotalCons(m, keys, rows);
      KeyHit(m, keys, rows[0]);
      KeysPartition(m, keys, rows[1..]);
    }
  }

  lemma {:induction false} NoRowsNoTotal(m: Measure, keys: seq<GroupKey>)
    ensures KeysTotal(m, keys, []) == 0.0
  {
    if keys != [] { NoRowsNoTotal(m, keys[1..]); }
  }

  lemma {:induction false} TableIsKeys(m: Measure, keys: seq<GroupKey>, rows: seq<Row>)
    ensures TableTotal(m, FoldRows(rows), keys) == KeysTotal(m, keys, rows)
  {
    if keys != [] {
      FoldMeans(rows, keys[0], m, "");
      TableIsKeys(m, keys[1..], rows);
    }
  }

  /** A measure of the totals that are reported. */
  function TotalsMeasure(m: Measure, records: seq<UsageRecord>): Money {
    match m
    case Requests => TotalsOf(records).requests as real
    case Tokens => TotalsOf(records).tokens as real
    case Cost(c) =>
      var cost := CostAt(TableOf(Overall, records), All);
      if c in cost then cost[c] else 0.0
  }

  /** Requests, tokens and the cost in any currency, summed over the series or over the breakdown in whatever
      order its keys are listed, equal the totals. */
  lemma PartsAddUp(m: Measure, g: Grouping, records: seq<UsageRecord>, keys: seq<GroupKey>)
    requires Distinct(keys) && forall k :: k in keys <==> k in TableOf(g, records)
    ensures TableTotal(m, TableOf(g, records), keys) == TotalsMeasure(m, records)
  {
    var rows := RowsOf(g, records);
    forall row | row in rows ensures row.key in keys {
      FoldMeans(rows, row.key, m, "");
      assert HasKey(rows, row.key);
    }
    KeysPartition(m, keys, rows);
    TableIsKeys(m, keys, rows);
    TotalsShared(m, g, Overall, records);
    OverallTotal(m, records);
    FoldMeans(RowsOf(Overall, records), All, m, "");
    OverallIsTotals(records);
  }

  lemma {:induction false} OverallTotal(m: Measure, records: seq<UsageRecord>)
    ensures KeyTotal(m, All, RowsOf(Overall, records)) == Total(m, RowsOf(Overall, records))
  {
    if records != [] {
      var init, last := records[..|records| - 1], RowOf(Overall, records[|records| - 1]);
      OverallTotal(m, init);
      KeyTotalSnoc(m, All, RowsOf(Overall, init), last);
      TotalSnoc(m, RowsOf(Overall, init), last);
    }
  }

  /** The totals do not depend on the grouping. */
  lemma {:induction false} TotalsShared(m: Measure, a: Grouping, b: Grouping, records: seq<UsageRecord>)
    ensures Total(m, RowsOf(a, records)) == Total(m, RowsOf(b, records))
  {
    if records != [] {
      var n := |records| - 1;
      TotalsShared(m, a, b, records[..n]);
      TotalSnoc(m, RowsOf(a, records[..n]), RowOf(a, records[n]));
      TotalSnoc(m, RowsOf(b, records[..n]), RowOf(b, records[n]));
    }
  }

  lemma {:induction false} TotalSnoc(m: Measure, rows: seq<Row>, row: Row)
    ensures Total(m, rows + [row]) == Total(m, rows) + MeasureOf(m, row)
  {
    if rows == [] {
      assert rows + [row] == [row] && [row][1..] == [];
    } else {
      SplitConcat(rows, [row], 1);
      TotalSnoc(m, rows[1..], row);
    }
  }
}
