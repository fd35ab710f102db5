# Northwind explorer: query plumbing and chart shaping, in Dafny

This project models the core of a small analytics extension over the
Northwind sales database. Tools run named SQL queries and shape the rows
into chart payloads. The model covers three parts:

- **Execution layer** (`db.dfy`, module `Db`). Keyword arguments are
  normalised before binding (`to_query_arg`, applied to every argument by
  `with_cursor`). A statement then runs on a pooled connection. The pool, the
  connection and the cursor are collapsed into one `Executor` function from
  (SQL text, bound arguments) to the rows produced. `select_one` is the first
  of those rows, or none.
- **Placeholder rewriting** (`sql_rewrite.dfy`, module `SqlRewrite`).
  `process_sql` rewrites the `named` parameter style (`:name`) into the
  `pyformat` style (`%(name)s`). Both are `paramstyle` values of PEP 249
  (Python DB-API 2.0). It also flags templates that already hold pyformat
  markers. The rewrite is a recursive scan. It is checked against a
  reference definition: a template as a sequence of literal characters and
  parameters, rendered in either style.
- **Shared state** (`state.dfy`, module `AppState`). The class `State` holds
  the pool and the loaded queries. It resolves a query by name and lists the
  `select_` queries as one catalog, in `dir()` order (names sorted by code
  point). `search` wraps the text in `%` and branches on `limit == 1`.
- **Shapers and tools** (`charts.dfy`, module `Charts`; `tools.dfy`, module
  `Tools`). The shapers are the group chart, the series chart, `to_area`, the
  area map and the table. The tool layer holds the `KPI` enum, the two
  run-time enums (category, job title) with their searches, and the six
  tools.

Python exceptions become `Result` values: `IndexError` for short column
specs and short area rows, `KeyError` for the table's subscript, and
`AttributeError` for a missing query or a state that was never set up.
`row.get(key)` becomes `Option`. Row values are an opaque type parameter in
the shapers. In the tools they are `Db.Cell` (SQL NULL or a scalar).

Where this description of the system and the code disagree, the model
follows the code:

- Enum arguments do not depend on the binding context. A run-time enum
  member always binds its name, and a static `Enum` member always binds its
  value (`src/db.py:85-93`).
- The shapers are not total. A group chart needs two column pairs and a
  series chart needs three. The area map needs two pairs once there is a
  row. The table fails on a row that lacks a column id.
- `find_best_match` does not reach the single-row path (see Findings).

## Model

| member | source | states |
|---|---|---|
| `Db.ToQueryArg` | src/db.py:85-93 | A run-time enum member binds its name even though it also carries a display value. A static enum binds its value, not its name. None binds `""`. Anything else passes through. |
| `Db.NullBindsAsEmptyText` | src/db.py:90-91 | A value binds as `""` exactly when it is None, `""` itself, or an enum member whose chosen branch yields `""`. |
| `Db.FalsyValuesPassThrough` | src/db.py:92-93 | `0`, `False` and `""` are returned unchanged: only `is None` is tested. |
| `Db.ToQueryArgIdempotent` | src/db.py:85-93 | Normalising an already normalised value changes nothing. |
| `Db.NormalizeArgs` | src/db.py:79 | The bound map has exactly the argument keys, and each value is the normalised original. |
| `Db.NormalizeArgsUpdate` | src/db.py:79 | Changing one argument changes only that key's bound value. |
| `Db.SelectMany` | src/db.py:78-82 | Without a pool the call fails. Otherwise the statement runs with the normalised arguments and every row is returned. |
| `Db.FirstRow` | src/db.py:52-54 | `fetchone`: none exactly when there is no row, otherwise the first row. |
| `Db.SelectOne` | src/db.py:70-71 | Fails exactly when `select_many` would. Returns none exactly when `select_many` returns no rows, otherwise its first row. |
| `Db.NullAndEmptyTextRunAlike` | src/db.py:79 | Passing None for an argument runs exactly the statement that passing `""` does. |
| `Db.DynEnumRunsAsItsName` | src/db.py:86-87 | Passing a run-time enum member runs the statement its bare name would. |
| `SqlRewrite.Rewrite` | src/db.py:113 | The `re.sub` scan: the output is empty iff the input is. Its first character is the input's first character or the `%` of a new marker. Text with no colon is returned unchanged. |
| `SqlRewrite.HasPyformat` | src/db.py:109 | The `re.search` scan: a marker at the front is found, and nothing is found in a text shorter than the five characters of `%(w)s`. |
| `SqlRewrite.WordRun` | src/db.py:113 | The greedy `\w+`: the returned prefix is all word characters, and the next character, if any, is not one. |
| `SqlRewrite.ProcessSql` | src/db.py:108-114 | The warning fires iff a pyformat marker occurs in the input. The output holds no named placeholder. An input without one is returned unchanged. The output is the pyformat rendering of the input's segments. |
| `SqlRewrite.TokenizeWellFormed` | src/db.py:113 | Reading a template into segments, as the regex scan does, always gives a well-formed template. |
| `SqlRewrite.TokenizeRoundTrip` | src/db.py:113 | Rendering the segments in named style gives the template back. |
| `SqlRewrite.RewriteMatchesTemplate` | src/db.py:113 | For every well-formed template, rewriting its named rendering gives its pyformat rendering. Each parameter keeps its name and every other character is copied. |
| `SqlRewrite.RewriteLeavesNoNamedMarker` | src/db.py:113 | No `:` followed by a word character survives the rewrite. |
| `SqlRewrite.RewriteIdentity` | src/db.py:113 | A template is returned unchanged iff it holds no `:` followed by a word character. |
| `SqlRewrite.RewriteIdempotent` | src/db.py:113 | Rewriting twice equals rewriting once. |
| `SqlRewrite.RewriteAppend` | src/db.py:113 | The scan restarts cleanly before text that does not start with a word character. |
| `SqlRewrite.PyformatMarkerPassesThrough` | src/db.py:109-113 | A `%(w)s` already in the template passes through unchanged. The text on either side is rewritten as if it stood alone. |
| `SqlRewrite.AdjacentPlaceholders` | src/db.py:113 | Matches do not overlap: `:a:b` becomes `%(a)s%(b)s`. |
| `SqlRewrite.LegacyDetection` | src/db.py:109 | The scan fires iff `%(` + one or more word characters + `)s` occurs at some position. |
| `SqlRewrite.LegacyWarningOnPyformat` | src/db.py:109-114 | A template written as `%(x)s` logs the legacy-format warning and is kept unchanged. |
| `SqlRewrite.NoWarningOnNamed` | src/db.py:109-114 | A template written as `:x` logs no warning and becomes `%(x)s`. |
| `Common.Get` | src/toolbox.py:18 | `row.get(key)`: some value iff the key is present, and then the value under it. |
| `Charts.ColumnKeys` | src/toolbox.py:17 | One key per column pair, in spec order. |
| `Charts.Project` | src/toolbox.py:18 | One cell per key, in key order. A cell is present iff the row has the key, and then it holds the row's value. Missing keys give None. |
| `Charts.ProjectRows` | src/toolbox.py:18 | One projected row per input row, in input order. |
| `Charts.ProjectIgnoresOtherFields` | src/toolbox.py:18 | Rows that agree on the spec's keys project alike, so extra row fields are dropped. |
| `Charts.CreateGroupChart` | src/toolbox.py:15-32 | Fails with IndexError iff there are fewer than two pairs. Otherwise: type `group`, `keyName`/`valName` from the first two pairs, `cols` unchanged, and the i-th row is `[row.get(k) for k in keys]` over all pairs. |
| `Charts.GroupChartDefaults` | src/toolbox.py:15 | With no unit or chart type given, the unit is `""` and the chart type is `bar`. |
| `Charts.CreateSeriesChart` | src/toolbox.py:35-61 | Fails iff there are fewer than three pairs. Otherwise: `xCol`/`xColTitle` come from pair 0. `seriesCol` equals `pivot.keyName`, the key of pair 1. `valCols` is `[key of pair 2]`, which is also `pivot.valName`. `yColTitle` is the label of pair 2 and the unit is `#`. Rows are projected through every pair. |
| `Charts.SeriesAndGroupRowsAgree` | src/toolbox.py:40-41 | The series chart projects rows exactly as the group chart does. |
| `Charts.ToArea` | src/toolbox.py:64-66 | Succeeds iff every row has at least two elements. Then it gives one `{name: r[0], value: r[1]}` per row, in order. |
| `Charts.ToAreaIgnoresTrailing` | src/toolbox.py:65 | Elements past index 1 never reach the items. |
| `Charts.CreateAreaMap` | src/toolbox.py:69-81 | Fails iff there are fewer than two pairs and at least one row. Otherwise type is `AreaMap`, `mapId == infoId == map_type`, and item i is the row's `.get` of the first two keys. |
| `Charts.TableRow` | src/toolbox.py:88 | Succeeds iff the row has every column id, giving cells in column order. Otherwise raises KeyError on the first missing id. |
| `Charts.TableRows` | src/toolbox.py:86-92 | Succeeds iff every row has every id. The error is that of the first failing row. |
| `Charts.CreateTable` | src/toolbox.py:84-98 | Succeeds iff every row has every column id. Cell (i, j) is `rows[i][columns[j].id]`, hidden columns included. `columns` is echoed. A failure is a KeyError on a missing id. |
| `Charts.TableAgreesWithProjection` | src/toolbox.py:88 | Where the table succeeds, it holds what `.get` projection would. Where it fails, that projection has a None. |
| `AppState.Before` | src/state.py:23 | The code-point order that `dir()` sorts by is strict: no name comes before itself. |
| `AppState.BeforeTransitive` | src/state.py:23 | The order is transitive. |
| `AppState.BeforeTotal` | src/state.py:23 | Of two distinct names, one comes before the other. |
| `AppState.BeforeAsymmetric` | src/state.py:23 | Two names never each come before the other. |
| `AppState.SortedNames` | src/state.py:23 | The names of a set, each exactly once, strictly sorted by code point, as `dir()` lists them. |
| `AppState.SelectNameIsPrefix` | src/state.py:24 | `IsSelectName` is `startswith("select_")`: it holds iff the name is `select_` followed by anything. |
| `AppState.CatalogEntryReadsBack` | src/state.py:26 | `CatalogEntry`'s block `-- name: n\nsql\n` reads back: when names hold no line break, equal blocks have equal names and equal texts. |
| `AppState.CatalogConcat` | src/state.py:23-26 | The catalog of a concatenation of names is the concatenation of their catalogs. |
| `AppState.Catalog` | src/state.py:22-27 | The text accumulated over the names, in order, is empty iff no name starts with `select_`. |
| `AppState.CatalogSplit` | src/state.py:23-26 | The catalog splits at any name into the names before it, its own block (if listed) and the names after it. |
| `AppState.State.constructor` | src/state.py:10-11 | A new state has no pool and no loaded queries. |
| `AppState.State.Setup` | src/state.py:13-16 | Stores the pool and every loaded text after `process_sql`, and keeps the invariant that no stored text holds a named placeholder. |
| `AppState.State.GetQuery` | src/state.py:18-19 | Returns the stored text iff the name is loaded. Otherwise it fails with AttributeError and never defaults. |
| `AppState.State.GetQueries` | src/state.py:21-27 | Fails iff the queries were never set (`setup` not run); an empty loaded map gives the empty catalog. Otherwise returns the `-- name: n\nsql\n` blocks of the `select_` names in sorted order. |
| `AppState.State.SelectMany` | src/state.py:29-31 | Resolves the name first; a missing name's error is passed on. Then the text and the unchanged keyword arguments go to the execution layer. |
| `AppState.State.SelectOne` | src/state.py:33-35 | Same resolution, then the first row of what `select_many` would return, or none. |
| `AppState.State.Search` | src/state.py:37-50 | Binds only `value` and `limit`. `value` is `%` + text + `%` (unescaped) with fuzzy matching, else the text itself. `limit == 1` takes the single-row path and every other limit (0, negative, 50) the many-row path. |
| `AppState.GetQueriesEmptyIff` | src/state.py:21-27 | The catalog is `""` iff no loaded name starts with `select_`. |
| `AppState.GetQueriesListsEach` | src/state.py:21-27 | Every loaded `select_` query appears in the catalog as its own whole block, between the catalog of the names sorted before it and that of the names sorted after it. |
| `Tools.KpiName` | src/toolbox.py:140-143 | `kpi.name` is a non-empty upper-case identifier (letters and `_`). |
| `Tools.KpiValueSpellsName` | src/toolbox.py:140-143 | `KpiValue`, the label `kpi.value`, spells the member's name in words: the same letters, ignoring case, with a space for each `_`. |
| `Tools.KpiColumn` | src/toolbox.py:196 | The value column pair is `[kpi.name.lower(), kpi.value]`: the key is the name with every letter lowered (code point + 32) and every `_` kept, titled with the label. |
| `Tools.TotalOrdersColumnKey` | src/toolbox.py:140 | The value column of `TOTAL_ORDERS` is `total_orders`. |
| `Tools.KpiColumnsDistinct` | src/toolbox.py:140-143 | Distinct KPIs read distinct columns and carry distinct labels. |
| `Tools.CategoryChartType` | src/toolbox.py:189-192 | Pie iff the KPI is `TOTAL_ORDERS`, bar otherwise. |
| `Tools.SearchQuery` | src/toolbox.py:112 | Each domain searches its `..._enum` query, which is not a `select_` name and so never appears in the catalog. |
| `Tools.EnumSearchAsWritten` | src/toolbox.py:111-112 | As written, `limit` fills the `use_fuzzy_matching` slot. The bound limit is always 50, so the result is never a single row. |
| `Tools.BestMatchAsWritten` | src/toolbox.py:115-116 | `find_best_match` as written fails iff the search query cannot run (no pool, queries not loaded, name missing). Otherwise it never takes the single-row path: it returns every row bound with `%query%` and limit 50. |
| `Tools.EnumSearch` | src/toolbox.py:126-127 | Intended search: fuzzy matching with the enum's own limit, single-row iff that limit is 1. |
| `Tools.BestMatch` | src/toolbox.py:130-131 | Intended best match: exactly the single-row result of the search with limit 1. |
| `Tools.BestMatchAsWrittenDiffers` | src/toolbox.py:115-116 | Wherever both run, the as-written best match is never the single-row result that the intended best match returns. |
| `Tools.BestMatchIsFirstRow` | src/toolbox.py:115-116 | The intended best match is the first row bound with limit 1, and none iff there is no row. |
| `Tools.RevenueByCategory` | src/toolbox.py:161-199 | Fails iff the query fails. Otherwise the chart type follows the KPI policy, key `category`, value column `kpi.name.lower()` labelled `kpi.value`, rows projected through those two keys. |
| `Tools.RevenueByCategoryByMonth` | src/toolbox.py:212-246 | Fails iff the query fails. Otherwise a `line` series with x `date`, pivot (`category`, KPI column), y title `kpi.value`. |
| `Tools.EmployeePerformance` | src/toolbox.py:260-294 | Fails iff the query fails. Otherwise a `bar` group chart keyed by `employee`, whatever the KPI. |
| `Tools.EmployeePerformanceByMonth` | src/toolbox.py:308-342 | Fails iff the query fails. Otherwise a `heatmap` series with pivot (`employee`, KPI column). |
| `Tools.CustomerGeographyAnalysis` | src/toolbox.py:351-366 | The query runs with no arguments. The USA map has one item per row, named by `state_province` with the KPI column as value. |
| `Tools.ProductColumns` | src/toolbox.py:396-406 | The product table has nine columns. |
| `Tools.ProductPerformanceAnalysis` | src/toolbox.py:375-406 | Succeeds iff the query succeeds and every row has all nine ids, hidden ones included. Cell (i, j) is the row's value for column j. |
| `Tools.RevenueByCategoryTotalOrders` | src/toolbox.py:189-198 | With KPI `TOTAL_ORDERS` the category tool draws a pie whose `valName` is `total_orders`. |
| `Tools.GroupProjectionExample` | src/toolbox.py:17-18 | `{category: Beverages, total_revenue: 500, extra: 1}` projects to `[Beverages, 500]`. |
| `Tools.SeriesPivotExample` | src/toolbox.py:54-57 | For `date, category, total_revenue` the pivot is (`category`, `total_revenue`). |
| `Tools.ToAreaExample` | src/toolbox.py:64-66 | `[[CA, 1000], [TX, 800]]` gives the two items in input order. |

## Findings

| source | as written | input that shows it | evidently intended | confidence | as-written member | corrected member |
|---|---|---|---|---|---|---|
| src/toolbox.py:112 | `Category.search` calls `state.search("category_enum", query, limit)` positionally, so `limit` fills `use_fuzzy_matching` and `State.search` binds its default limit 50. The same holds for `JobTitle.search` at line 127. | `find_best_match(state, "bev")` calls `search(limit=1)`, which calls `State.search` with `use_fuzzy_matching=1` and `limit=50`. That takes the many-row path and returns a list. A limit of 0 would also switch fuzzy matching off. | `state.search(..., query, limit=limit)`: the best match takes the single-row path and returns one row or none. | high; not executed | `Tools.BestMatchAsWrittenDiffers` | `Tools.BestMatchIsFirstRow` |

## Left out

- The `Executor` never fails: driver errors are outside the model. That covers a parameter the arguments do not supply, an SQL error and a lost connection. A tool that "fails iff the query fails" therefore fails only on a missing query name, queries never loaded, or no pool.
- Pool lifecycle (`start`, `stop`, `src/db.py:11-49`): environment defaults and `aiomysql.create_pool` are I/O and a foreign library. The pool is the `Executor` handed to `State.Setup`.
- Cursor execution and scoped acquisition (`select_one_cur`, `select_many_cur`, `select_cursor`, `execute`, the `async with` blocks, `src/db.py:52-105`) are driver I/O. Release on failure and concurrency are not modelled.
- `select_one_list` / `select_many_list` (`src/db.py:62-67`) are positional-argument variants that nothing in the core calls.
- `DriverAdapter` / `get_driver_adapter` (`src/db.py:117-127`) are wiring for the query loader.
- `State.Setup`: the loader's parsing of `queries.sql` is a foreign library reading a file. `Setup` takes the name-to-text map as given and applies `process_sql` to each text, as the loader does.
- `AppState.State.GetQueries`: the model lists only the names of the map given to `Setup`. `dir()` on the loader object also lists attributes the loader makes itself, such as the `<name>_cursor` variant it adds for each SELECT query. A `select_x_cursor` name passes the `select_` filter, so the real catalog can list a query twice, and `get_query` resolves names the model's map lacks. Those loader-made attributes are not modelled.
- The `glootil` toolbox, its `DynEnum` class and the `@tb.enum` / `@tb.tool` decorators are foreign registration machinery.
- Logging: `SqlRewrite.ProcessSql` returns the legacy warning as a boolean. `qop` is unused; `query_fqn` appears only in the warning message, which is dropped.
- `async`/`await` scheduling and the SQL meaning of `LIKE` and `LIMIT` are outside the model; the SQL text is not part of this model.
- `\w` and `str.lower()` are Unicode-aware in Python. Here word characters are ASCII letters, digits and `_`, and lowering is ASCII. The KPI names are ASCII.
- `Db.ToQueryArg`: a static enum's value is a scalar. An `Enum` whose value is None or another enum is not modelled.
- `Charts.CreateSeriesChart`: a column entry that is not a two-element list (a ValueError at unpacking) is not modelled. Column pairs are a datatype, and every caller passes literal pairs.
- `Charts.Project`: `row.get(key)` returns None both for a missing key and for a column whose value is NULL, so the payload cannot tell the two apart. The model's `Option` is finer: with `Db.Cell` values a NULL column gives `Some(SqlNull)` and a missing key gives `None`; in the payload both are null.
- The `onClick` lists are always empty and their element type is never fixed, so they are `seq<string>`.
- The `enumerate` index in `to_area` is unused and has no counterpart.
- Tool parameters are scalars (`date` as `Db.Date`). Their mandatory/default handling by the tool layer is out of scope.
