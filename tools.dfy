/** The tool layer of `src/toolbox.py`: the KPI enum, the run-time enums
    that search a domain vocabulary, and the six tools, each of which runs
    one named query and shapes its rows with a fixed column spec. */
module Tools {
  import opened Common
  import opened Db
  import opened Charts
  import opened AppState

  // ---------------------------------------------------------------------
  // KPI

  datatype KPI = TotalOrders | TotalRevenue | UniqueCustomers | AvgOrderValue

  /** `kpi.name`: an upper-case identifier. */
  function KpiName(k: KPI): (name: string)
    ensures name != []
    ensures forall i :: 0 <= i < |name| ==> ('A' <= name[i] <= 'Z') || name[i] == '_'
  {
    match k
    case TotalOrders => "TOTAL_ORDERS"
    case TotalRevenue => "TOTAL_REVENUE"
    case UniqueCustomers => "UNIQUE_CUSTOMERS"
    case AvgOrderValue => "AVG_ORDER_VALUE"
  }

  /** `words` is `name` written in words: the same letters, ignoring case,
      with a space for each underscore. */
  predicate SpellsName(words: string, name: string)
    decreases |name|
  {
    |words| == |name| &&
    (name == [] ||
     (LowerChar(words[0]) == (if name[0] == '_' then ' ' else LowerChar(name[0])) &&
      SpellsName(words[1..], name[1..])))
  }

  /** `kpi.value`: the label shown for the KPI. It spells the member's name
      in words: the same letters, a space for each underscore. */
  function KpiValue(k: KPI): (shown: string)
  {
    match k
    case TotalOrders => "Total orders"
    case TotalRevenue => "Total revenue"
    case UniqueCustomers => "Unique customers"
    case AvgOrderValue => "Avg order value"
  }

  /** Each KPI's label spells its member name in words. */
  lemma KpiValueSpellsName(k: KPI)
    ensures SpellsName(KpiValue(k), KpiName(k))
  {
    match k
    case TotalOrders => SpellsNameByIndex("Total orders", "TOTAL_ORDERS");
    case TotalRevenue => SpellsNameByIndex("Total revenue", "TOTAL_REVENUE");
    case UniqueCustomers => SpellsNameByIndex("Unique customers", "UNIQUE_CUSTOMERS");
    case AvgOrderValue => SpellsNameByIndex("Avg order value", "AVG_ORDER_VALUE");
  }

  lemma {:induction false} SpellsNameByIndex(words: string, name: string)
    requires |words| == |name|
    requires forall i :: 0 <= i < |name| ==>
      LowerChar(words[i]) == (if name[i] == '_' then ' ' else LowerChar(name[i]))
    ensures SpellsName(words, name)
    decreases |name|
  {
    if name != [] {
      assert forall i :: 0 <= i < |name| - 1 ==> words[1..][i] == words[i + 1] && name[1..][i] == name[i + 1];
      SpellsNameByIndex(words[1..], name[1..]);
    }
  }

  function LowerChar(c: char): char
  {
    if 'A' <= c <= 'Z' then (c as int + 32) as char else c
  }

  /** `str.lower()` on ASCII text. */
  function Lower(s: string): string
  {
    seq(|s|, i requires 0 <= i < |s| => LowerChar(s[i]))
  }

  /** `[kpi.name.lower(), kpi.value]`: the value column of every tool; the
      query names its result column after the KPI. */
  function KpiColumn(k: KPI): (column: ColumnPair)
    ensures column.title == KpiValue(k)
    ensures |column.key| == |KpiName(k)|
    ensures forall i :: 0 <= i < |column.key| ==> ('a' <= column.key[i] <= 'z') || column.key[i] == '_'
    ensures forall i :: 0 <= i < |column.key| ==>
      if KpiName(k)[i] == '_' then column.key[i] == '_'
      else column.key[i] as int == KpiName(k)[i] as int + 32
  {
    ColumnPair(Lower(KpiName(k)), KpiValue(k))
  }

  /** The value column key of the order count is `total_orders`. */
  lemma TotalOrdersColumnKey()
    ensures KpiColumn(TotalOrders).key == "total_orders"
  {
    var k := KpiColumn(TotalOrders).key;
    assert |k| == 12;
    assert k == "total_orders" by {
      forall i | 0 <= i < 12
        ensures k[i] == "total_orders"[i]
      {
        assert k[i] == LowerChar("TOTAL_ORDERS"[i]);
      }
    }
  }

  /** Distinct KPIs read distinct result columns and carry distinct labels. */
  lemma KpiColumnsDistinct(a: KPI, b: KPI)
    requires a != b
    ensures KpiColumn(a).key != KpiColumn(b).key
    ensures KpiColumn(a).title != KpiColumn(b).title
  {
    assert |KpiColumn(a).key| == |KpiName(a)|;
    assert |KpiColumn(b).key| == |KpiName(b)|;
  }

  /** `revenue_by_category`'s chart policy: a pie for the order count, a bar
      for every other KPI. */
  function CategoryChartType(k: KPI): (chart: string)
    ensures chart == "pie" <==> k == TotalOrders
    ensures chart != "pie" ==> chart == "bar"
  {
    if k == TotalOrders then "pie" else "bar"
  }

  // ---------------------------------------------------------------------
  // Run-time enums and their searches

  /** The two DynEnum classes and the query each searches. */
  datatype Domain = Category | JobTitle

  /** The enum queries are not `select_` queries, so `get_queries` never
      lists them. */
  function SearchQuery(d: Domain): (name: string)
    ensures !IsSelectName(name)
    ensures |name| > 5 && name[|name| - 5..] == "_enum"
  {
    match d
    case Category => NotSelectNameByHead("category_enum"); "category_enum"
    case JobTitle => NotSelectNameByHead("job_title_enum"); "job_title_enum"
  }

  /** A name whose first letter is not `s` is not a `select_` name. */
  lemma NotSelectNameByHead(name: string)
    requires name != [] && name[0] != 's'
    ensures !IsSelectName(name)
  {
    if |name| >= 7 {
      assert name[..7][0] == name[0];
    }
  }

  /** `Category.search` / `JobTitle.search` AS WRITTEN: the call
      `state.search(name, query, limit)` is positional, so `limit` lands in
      `use_fuzzy_matching` (tested for truthiness) and `State.search` keeps
      its own limit of 50. */
  function EnumSearchAsWritten(state: State, d: Domain, query: string := "", limit: int := 100): (r: Result<SearchResult>)
    reads state
    ensures r == state.Search(SearchQuery(d), query, limit != 0, 50)
    ensures r.Ok? ==> r.value.Many?
  {
    state.Search(SearchQuery(d), query, limit != 0)
  }

  /** `find_best_match` AS WRITTEN: `search(state, query, limit=1)`. It
      fails exactly when the search query cannot run, and otherwise returns
      every row bound with the fuzzy pattern and limit 50, never one row. */
  function BestMatchAsWritten(state: State, d: Domain, query: string := ""): (r: Result<SearchResult>)
    reads state
    ensures r.Ok? <==> state.pool.Some? && state.queries.Some? && SearchQuery(d) in state.queries.value
    ensures r.Ok? ==> r.value.Many?
    ensures r.Ok? ==>
      (r.value.rows == state.pool.value(state.queries.value[SearchQuery(d)],
                                        map["value" := Text("%" + query + "%"), "limit" := Int(50)]))
  {
    EnumSearchAsWritten(state, d, query, 1)
  }

  /** The enum-level search as intended: fuzzy matching on, and the enum's
      limit (default 100) is the one bound. */
  function EnumSearch(state: State, d: Domain, query: string := "", limit: int := 100): (r: Result<SearchResult>)
    reads state
    ensures r == state.Search(SearchQuery(d), query, true, limit)
    ensures r.Ok? ==> (r.value.One? <==> limit == 1)
  {
    state.Search(SearchQuery(d), query, limit := limit)
  }

  /** `find_best_match` as intended: the single-row path, one row or none. */
  function BestMatch(state: State, d: Domain, query: string := ""): (r: Result<Option<Db.Row>>)
    reads state
    ensures r.Ok? <==> EnumSearch(state, d, query, 1).Ok?
    ensures r.Ok? ==> EnumSearch(state, d, query, 1).value == One(r.value)
  {
    var found :- EnumSearch(state, d, query, 1);
    Ok(found.row)
  }

  /** The discrepancy: wherever both run, the best match as written is a
      list of rows, while the intended best match is a single row or none. */
  lemma BestMatchAsWrittenDiffers(state: State, d: Domain, query: string)
    requires state.pool.Some? && state.queries.Some? && SearchQuery(d) in state.queries.value
    ensures BestMatchAsWritten(state, d, query).Ok? && BestMatch(state, d, query).Ok?
    ensures BestMatchAsWritten(state, d, query).value != One(BestMatch(state, d, query).value)
  {
  }

  /** The intended best match is the first row the statement yields when
      bound with limit 1, and none exactly when it yields no row. */
  lemma BestMatchIsFirstRow(state: State, d: Domain, query: string)
    requires state.pool.Some? && state.queries.Some? && SearchQuery(d) in state.queries.value
    ensures
      var rows := state.pool.value(state.queries.value[SearchQuery(d)],
                                   map["value" := Text("%" + query + "%"), "limit" := Int(1)]);
      && BestMatch(state, d, query).Ok?
      && (BestMatch(state, d, query).value.None? <==> rows == [])
      && (rows != [] ==> BestMatch(state, d, query).value == Some(rows[0]))
  {
  }

  // ---------------------------------------------------------------------
  // The six tools

  /** Tool 1, revenue by category: a group chart of category against the
      KPI's column, a pie for the order count and a bar otherwise. */
  function RevenueByCategory(state: State, startDate: Scalar, endDate: Scalar,
                             kpi: KPI := TotalRevenue, category: ArgValue := Null): (r: Result<GroupChart<Cell>>)
    reads state
    ensures
      var args := map["start_date" := Plain(startDate), "end_date" := Plain(endDate), "category" := category];
      var q := state.SelectMany("revenue_by_category", args);
      && (r.Ok? <==> q.Ok?)
      && (r.Ok? ==>
            && r.value.info.chartType == CategoryChartType(kpi)
            && r.value.info.keyName == "category"
            && r.value.info.valName == KpiColumn(kpi).key
            && r.value.data.cols == [ColumnPair("category", "Category"), KpiColumn(kpi)]
            && r.value.data.rows == ProjectRows(["category", KpiColumn(kpi).key], q.value))
  {
    var rows :- state.SelectMany("revenue_by_category",
      map["start_date" := Plain(startDate), "end_date" := Plain(endDate), "category" := category]);
    var cols := [ColumnPair("category", "Category"), KpiColumn(kpi)];
    assert ColumnKeys(cols) == ["category", KpiColumn(kpi).key];
    CreateGroupChart("Revenue Analysis by product category", cols, rows, chartType := CategoryChartType(kpi))
  }

  /** Tool 2, revenue by category by month: a line series of date, category
      and the KPI's column. */
  function RevenueByCategoryByMonth(state: State, startDate: Scalar, endDate: Scalar,
                                    kpi: KPI := TotalRevenue, category: ArgValue := Null): (r: Result<SeriesChart<Cell>>)
    reads state
    ensures
      var args := map["start_date" := Plain(startDate), "end_date" := Plain(endDate), "category" := category];
      var q := state.SelectMany("revenue_by_category_by_month", args);
      && (r.Ok? <==> q.Ok?)
      && (r.Ok? ==>
            && r.value.chartType == "line"
            && r.value.xCol == "date" && r.value.seriesCol == "category"
            && r.value.pivot == Pivot("category", KpiColumn(kpi).key)
            && r.value.yColTitle == KpiValue(kpi)
            && r.value.rows == ProjectRows(["date", "category", KpiColumn(kpi).key], q.value))
  {
    var rows :- state.SelectMany("revenue_by_category_by_month",
      map["start_date" := Plain(startDate), "end_date" := Plain(endDate), "category" := category]);
    var cols := [ColumnPair("date", "Date"), ColumnPair("category", "Category"), KpiColumn(kpi)];
    assert ColumnKeys(cols) == ["date", "category", KpiColumn(kpi).key];
    CreateSeriesChart("Revenue analysis by product category by month", cols, rows, chartType := "line")
  }

  /** Tool 3, employee performance: a bar chart of employee against the
      KPI's column, whatever the KPI. */
  function EmployeePerformance(state: State, startDate: Scalar, endDate: Scalar,
                               kpi: KPI := TotalRevenue, jobTitle: ArgValue := Null): (r: Result<GroupChart<Cell>>)
    reads state
    ensures
      var args := map["start_date" := Plain(startDate), "end_date" := Plain(endDate), "job_title" := jobTitle];
      var q := state.SelectMany("employee_performance", args);
      && (r.Ok? <==> q.Ok?)
      && (r.Ok? ==>
            && r.value.info.chartType == "bar"
            && r.value.info.keyName == "employee"
            && r.value.info.valName == KpiColumn(kpi).key
            && r.value.data.rows == ProjectRows(["employee", KpiColumn(kpi).key], q.value))
  {
    var rows :- state.SelectMany("employee_performance",
      map["start_date" := Plain(startDate), "end_date" := Plain(endDate), "job_title" := jobTitle]);
    var cols := [ColumnPair("employee", "Employee"), KpiColumn(kpi)];
    assert ColumnKeys(cols) == ["employee", KpiColumn(kpi).key];
    CreateGroupChart("Performance analysis by employee", cols, rows, chartType := "bar")
  }

  /** Tool 4, employee performance by month: a heatmap series of date,
      employee and the KPI's column. */
  function EmployeePerformanceByMonth(state: State, startDate: Scalar, endDate: Scalar,
                                      kpi: KPI := TotalRevenue, jobTitle: ArgValue := Null): (r: Result<SeriesChart<Cell>>)
    reads state
    ensures
      var args := map["start_date" := Plain(startDate), "end_date" := Plain(endDate), "job_title" := jobTitle];
      var q := state.SelectMany("employee_performance_by_month", args);
      && (r.Ok? <==> q.Ok?)
      && (r.Ok? ==>
            && r.value.chartType == "heatmap"
            && r.value.xCol == "date" && r.value.seriesCol == "employee"
            && r.value.pivot == Pivot("employee", KpiColumn(kpi).key)
            && r.value.rows == ProjectRows(["date", "employee", KpiColumn(kpi).key], q.value))
  {
    var rows :- state.SelectMany("employee_performance_by_month",
      map["start_date" := Plain(startDate), "end_date" := Plain(endDate), "job_title" := jobTitle]);
    var cols := [ColumnPair("date", "Date"), ColumnPair("employee", "Employee"), KpiColumn(kpi)];
    assert ColumnKeys(cols) == ["date", "employee", KpiColumn(kpi).key];
    CreateSeriesChart("Performance analysis by employee by month", cols, rows, chartType := "heatmap")
  }

  /** Tool 5, customer geography: the query runs with no arguments, and the
      KPI only picks which column becomes each area's value on the USA map. */
  function CustomerGeographyAnalysis(state: State, kpi: KPI := TotalRevenue): (r: Result<AreaMap<Cell>>)
    reads state
    ensures
      var q := state.SelectMany("customer_geography_analysis", map[]);
      && (r.Ok? <==> q.Ok?)
      && (r.Ok? ==>
            && r.value.mapId == "usa" && r.value.infoId == "usa"
            && |r.value.items| == |q.value|
            && forall i :: 0 <= i < |q.value| ==>
                 r.value.items[i] == Area(Get(q.value[i], "state_province"), Get(q.value[i], KpiColumn(kpi).key)))
  {
    var rows :- state.SelectMany("customer_geography_analysis", map[]);
    CreateAreaMap("Customer geographic distribution",
      [ColumnPair("state_province", "State"), KpiColumn(kpi)], rows, mapType := "usa")
  }

  /** The nine columns of the product table; three of them hidden. */
  function ProductColumns(): (cols: seq<TableColumn>)
    ensures |cols| == 9
  {
    [ TableColumn("product_name", "Product", true),
      TableColumn("category", "Category", true),
      TableColumn("list_price", "List Price", false),
      TableColumn("standard_cost", "Cost", false),
      TableColumn("profit_margin", "Profit Margin", true),
      TableColumn("total_quantity_sold", "Units Sold", true),
      TableColumn("total_revenue", "Revenue", true),
      TableColumn("order_frequency", "Order Frequency", true),
      TableColumn("discontinued", "Discontinued", false) ]
  }

  /** Tool 6, product performance: a table over the nine columns. A row
      without one of them fails the tool, hidden columns included. */
  function ProductPerformanceAnalysis(state: State, startDate: Scalar, endDate: Scalar,
                                      category: ArgValue := Null): (r: Result<Table<Cell>>)
    reads state
    ensures
      var args := map["start_date" := Plain(startDate), "end_date" := Plain(endDate), "category" := category];
      var q := state.SelectMany("product_performance", args);
      && (r.Ok? <==> q.Ok? && forall i :: 0 <= i < |q.value| ==> HasAllIds(ProductColumns(), q.value[i]))
      && (r.Ok? ==>
            && r.value.columns == ProductColumns()
            && |r.value.rows| == |q.value|
            && (forall i :: 0 <= i < |q.value| ==> |r.value.rows[i]| == 9)
            && forall i, j :: 0 <= i < |q.value| && 0 <= j < 9 ==>
                 r.value.rows[i][j] == q.value[i][ProductColumns()[j].id])
  {
    var rows :- state.SelectMany("product_performance",
      map["start_date" := Plain(startDate), "end_date" := Plain(endDate), "category" := category]);
    CreateTable(ProductColumns(), rows)
  }

  // ---------------------------------------------------------------------
  // Worked examples

  /** The order-count KPI in the category tool selects a pie whose value
      column is `total_orders`. */
  lemma RevenueByCategoryTotalOrders(state: State, startDate: Scalar, endDate: Scalar)
    requires state.pool.Some? && state.queries.Some? && "revenue_by_category" in state.queries.value
    ensures RevenueByCategory(state, startDate, endDate, TotalOrders, Null).Ok?
    ensures RevenueByCategory(state, startDate, endDate, TotalOrders, Null).value.info.chartType == "pie"
    ensures RevenueByCategory(state, startDate, endDate, TotalOrders, Null).value.info.valName == "total_orders"
  {
    TotalOrdersColumnKey();
  }

  /** A projected row keeps the spec's fields in the spec's order and drops
      the rest. */
  lemma GroupProjectionExample()
    ensures
      var row := map["category" := Value(Text("Beverages")), "total_revenue" := Value(Int(500)), "extra" := Value(Int(1))];
      var cols := [ColumnPair("category", "Category"), ColumnPair("total_revenue", "Revenue")];
      CreateGroupChart("t", cols, [row]).value.data.rows == [[Some(Value(Text("Beverages"))), Some(Value(Int(500)))]]
  {
    var row := map["category" := Value(Text("Beverages")), "total_revenue" := Value(Int(500)), "extra" := Value(Int(1))];
    var cols := [ColumnPair("category", "Category"), ColumnPair("total_revenue", "Revenue")];
    var g := CreateGroupChart("t", cols, [row]).value;
    assert |g.data.rows| == 1 && |g.data.rows[0]| == 2;
    assert g.data.rows[0][0] == Get(row, "category") == Some(Value(Text("Beverages")));
    assert g.data.rows[0][1] == Get(row, "total_revenue") == Some(Value(Int(500)));
    assert g.data.rows[0] == [Some(Value(Text("Beverages"))), Some(Value(Int(500)))];
  }

  /** The series pivot mirrors the second and third column pairs. */
  lemma SeriesPivotExample(rows: seq<Db.Row>)
    ensures
      var cols := [ColumnPair("date", "Date"), ColumnPair("category", "Category"), ColumnPair("total_revenue", "Revenue")];
      CreateSeriesChart("t", cols, rows).value.pivot == Pivot("category", "total_revenue")
  {
  }

  /** Two-element rows become name/value items in input order. */
  lemma ToAreaExample()
    ensures ToArea([[Text("CA"), Int(1000)], [Text("TX"), Int(800)]])
         == Ok([Area(Text("CA"), Int(1000)), Area(Text("TX"), Int(800))])
  {
    var rows := [[Text("CA"), Int(1000)], [Text("TX"), Int(800)]];
    var r := ToArea(rows);
    assert |rows[0]| >= 2 && |rows[1]| >= 2;
    assert r.Ok? && |r.value| == 2;
    assert r.value[0] == Area(Text("CA"), Int(1000));
    assert r.value[1] == Area(Text("TX"), Int(800));
    assert r.value == [Area(Text("CA"), Int(1000)), Area(Text("TX"), Int(800))];
  }
}
