/** The visualization shapers of `src/toolbox.py`: pure functions from
    (title, column spec, rows) to the payloads the front end renders. Row
    values are of an opaque type `V`; `row.get(key)` yields `Option<V>`. */
module Charts {
  import opened Common

  /** One `[key, label]` entry of a column spec (`label` is a Dafny keyword, hence `title`). */
  datatype ColumnPair = ColumnPair(key: string, title: string)

  type ColumnSpec = seq<ColumnPair>

  type Row<V> = map<string, V>

  /** `[col[0] for col in cols]`. */
  function ColumnKeys(cols: ColumnSpec): (keys: seq<string>)
    ensures |keys| == |cols|
    ensures forall i :: 0 <= i < |cols| ==> keys[i] == cols[i].key
  {
    if cols == [] then [] else [cols[0].key] + ColumnKeys(cols[1..])
  }

  /** `[row.get(key) for key in keys]`: one cell per key, in key order; a key
      the row lacks gives None, and fields no key names are dropped. */
  function Project<V>(keys: seq<string>, row: Row<V>): (cells: seq<Option<V>>)
    ensures |cells| == |keys|
    ensures forall i :: 0 <= i < |keys| ==> (cells[i].Some? <==> keys[i] in row)
    ensures forall i :: 0 <= i < |keys| && keys[i] in row ==> cells[i] == Some(row[keys[i]])
  {
    if keys == [] then [] else [Get(row, keys[0])] + Project(keys[1..], row)
  }

  /** The outer comprehension: one projected row per input row, in order. */
  function ProjectRows<V>(keys: seq<string>, rows: seq<Row<V>>): (out: seq<seq<Option<V>>>)
    ensures |out| == |rows|
    ensures forall i :: 0 <= i < |rows| ==> out[i] == Project(keys, rows[i])
  {
    if rows == [] then [] else [Project(keys, rows[0])] + ProjectRows(keys, rows[1..])
  }

  /** Rows that agree on the projected keys project alike: whatever else a
      row carries never reaches the payload. */
  lemma {:induction false} ProjectIgnoresOtherFields<V>(keys: seq<string>, r1: Row<V>, r2: Row<V>)
    requires forall k :: k in keys ==> (k in r1 <==> k in r2)
    requires forall k :: k in keys && k in r1 ==> r1[k] == r2[k]
    ensures Project(keys, r1) == Project(keys, r2)
  {
    if keys != [] {
      assert keys[0] in keys;
      ProjectIgnoresOtherFields(keys[1..], r1, r2);
    }
  }

  // ---------------------------------------------------------------------
  // Group chart

  datatype GroupInfo = GroupInfo(
    kind: string, chartType: string, title: string, unit: string,
    keyName: string, valName: string, onClick: seq<string>)

  datatype GroupData<V> = GroupData(cols: ColumnSpec, rows: seq<seq<Option<V>>>)

  datatype GroupChart<V> = GroupChart(info: GroupInfo, data: GroupData<V>)

  /** `create_group_chart`. The key and value names come from the first two
      column pairs; with fewer than two the subscript fails. */
  function CreateGroupChart<V>(title: string, cols: ColumnSpec, rows: seq<Row<V>>,
                               unit: string := "", chartType: string := "bar"): (r: Result<GroupChart<V>>)
    ensures r.Err? <==> |cols| < 2
    ensures r.Err? ==> r.error == IndexError
    ensures r.Ok? ==>
      var g := r.value;
      && g.info.kind == "group" && g.info.chartType == chartType
      && g.info.title == title && g.info.unit == unit
      && g.info.keyName == cols[0].key && g.info.valName == cols[1].key
      && g.info.onClick == []
      && g.data.cols == cols
      && |g.data.rows| == |rows|
      && (forall i :: 0 <= i < |rows| ==> |g.data.rows[i]| == |cols|)
      && (forall i, j :: 0 <= i < |rows| && 0 <= j < |cols| ==>
            g.data.rows[i][j] == Get(rows[i], cols[j].key))
  {
    var rowLists := ProjectRows(ColumnKeys(cols), rows);
    if |cols| < 2 then Err(IndexError)
    else
      Ok(GroupChart(
        GroupInfo("group", chartType, title, unit, cols[0].key, cols[1].key, []),
        GroupData(cols, rowLists)))
  }

  /** Left to their defaults, the group chart has no unit and draws bars. */
  lemma GroupChartDefaults<V>(title: string, cols: ColumnSpec, rows: seq<Row<V>>)
    requires |cols| >= 2
    ensures CreateGroupChart(title, cols, rows).value.info.unit == ""
    ensures CreateGroupChart(title, cols, rows).value.info.chartType == "bar"
  {
  }

  // ---------------------------------------------------------------------
  // Series chart

  datatype Pivot = Pivot(keyName: string, valName: string)

  datatype SeriesChart<V> = SeriesChart(
    kind: string, chartType: string, title: string, unit: string,
    xColTitle: string, yColTitle: string, seriesCol: string, xCol: string,
    valCols: seq<string>, pivot: Pivot, cols: ColumnSpec,
    rows: seq<seq<Option<V>>>, onClick: seq<string>)

  /** `create_series_chart`. The x column, the series column and the value
      column are the first three pairs (fewer fail at the unpacking); the
      rows are still projected through every pair. */
  function CreateSeriesChart<V>(title: string, cols: ColumnSpec, rows: seq<Row<V>>,
                                chartType: string := "bar"): (r: Result<SeriesChart<V>>)
    ensures r.Err? <==> |cols| < 3
    ensures r.Err? ==> r.error == IndexError
    ensures r.Ok? ==>
      var c := r.value;
      && c.kind == "Series" && c.chartType == chartType && c.title == title
      && c.unit == "#"
      && c.xCol == cols[0].key && c.xColTitle == cols[0].title
      && c.seriesCol == cols[1].key && c.pivot.keyName == cols[1].key
      && c.valCols == [cols[2].key] && c.pivot.valName == cols[2].key
      && c.yColTitle == cols[2].title
      && c.cols == cols && c.onClick == []
      && |c.rows| == |rows|
      && (forall i :: 0 <= i < |rows| ==> |c.rows[i]| == |cols|)
      && (forall i, j :: 0 <= i < |rows| && 0 <= j < |cols| ==>
            c.rows[i][j] == Get(rows[i], cols[j].key))
  {
    if |cols| < 3 then Err(IndexError)
    else
      var x, serie, y := cols[0], cols[1], cols[2];
      var rowLists := ProjectRows(ColumnKeys(cols), rows);
      Ok(SeriesChart(
        "Series", chartType, title, "#", x.title, y.title, serie.key, x.key,
        [y.key], Pivot(serie.key, y.key), cols, rowLists, []))
  }

  /** The series chart and the group chart project rows identically. */
  lemma SeriesAndGroupRowsAgree<V>(title: string, cols: ColumnSpec, rows: seq<Row<V>>, chartType: string)
    requires |cols| >= 3
    ensures CreateSeriesChart(title, cols, rows, chartType).value.rows
         == CreateGroupChart(title, cols, rows, "", chartType).value.data.rows
  {
  }

  // ---------------------------------------------------------------------
  // Area map

  datatype Area<T> = Area(name: T, value: T)

  /** `to_area`: one `{name: row[0], value: row[1]}` per row, in order. A row
      with fewer than two elements fails at its subscript. */
  function ToArea<T>(rows: seq<seq<T>>): (r: Result<seq<Area<T>>>)
    ensures r.Ok? <==> forall i :: 0 <= i < |rows| ==> |rows[i]| >= 2
    ensures r.Err? ==> r.error == IndexError
    ensures r.Ok? ==> |r.value| == |rows|
    ensures r.Ok? ==> forall i :: 0 <= i < |rows| ==> r.value[i] == Area(rows[i][0], rows[i][1])
  {
    if rows == [] then Ok([])
    else if |rows[0]| < 2 then Err(IndexError)
    else
      var rest :- ToArea(rows[1..]);
      Ok([Area(rows[0][0], rows[0][1])] + rest)
  }

  /** Elements past index 1 of a row never reach the items. */
  lemma ToAreaIgnoresTrailing<T>(rows: seq<seq<T>>, extra: seq<seq<T>>)
    requires |extra| == |rows|
    requires forall i :: 0 <= i < |rows| ==> |rows[i]| >= 2
    ensures ToArea(rows) == ToArea(seq(|rows|, i requires 0 <= i < |rows| => rows[i] + extra[i]))
  {
    var longer := seq(|rows|, i requires 0 <= i < |rows| => rows[i] + extra[i]);
    assert forall i :: 0 <= i < |rows| ==> |longer[i]| >= 2;
    var a, b := ToArea(rows), ToArea(longer);
    forall i | 0 <= i < |rows|
      ensures a.value[i] == b.value[i]
    {
      assert longer[i][0] == rows[i][0] && longer[i][1] == rows[i][1];
    }
    assert a.value == b.value;
  }

  datatype AreaMap<V> = AreaMap(
    kind: string, mapId: string, infoId: string, onClick: seq<string>,
    items: seq<Area<Option<V>>>)

  /** `create_area_map`. The title is accepted and not used. The rows are
      projected through the column spec and read by `to_area`, so a spec
      with fewer than two pairs fails only when there is a row. */
  function CreateAreaMap<V>(title: string, cols: ColumnSpec, rows: seq<Row<V>>,
                            mapType: string := "usa"): (r: Result<AreaMap<V>>)
    ensures r.Err? <==> |cols| < 2 && |rows| > 0
    ensures r.Err? ==> r.error == IndexError
    ensures r.Ok? ==>
      var m := r.value;
      && m.kind == "AreaMap" && m.mapId == mapType && m.infoId == mapType
      && m.onClick == []
      && |m.items| == |rows|
      && (forall i :: 0 <= i < |rows| ==>
            m.items[i] == Area(Get(rows[i], cols[0].key), Get(rows[i], cols[1].key)))
  {
    var rowLists := ProjectRows(ColumnKeys(cols), rows);
    assert |rows| > 0 ==> |rowLists[0]| == |cols|;
    var areas :- ToArea(rowLists);
    Ok(AreaMap("AreaMap", mapType, mapType, [], areas))
  }

  // ---------------------------------------------------------------------
  // Table

  /** A table column: the dictionary with keys "id", "label" and "visible". */
  datatype TableColumn = TableColumn(id: string, title: string, visible: bool)

  datatype Table<V> = Table(kind: string, columns: seq<TableColumn>, rows: seq<seq<V>>, onClick: seq<string>)

  predicate HasAllIds<V>(columns: seq<TableColumn>, row: Row<V>)
  {
    forall j :: 0 <= j < |columns| ==> columns[j].id in row
  }

  /** `[row[col["id"]] for col in columns]`: the first id the row lacks
      raises KeyError. */
  function TableRow<V>(columns: seq<TableColumn>, row: Row<V>): (r: Result<seq<V>>)
    ensures r.Ok? <==> HasAllIds(columns, row)
    ensures r.Ok? ==> |r.value| == |columns|
    ensures r.Ok? ==> forall j :: 0 <= j < |columns| ==> r.value[j] == row[columns[j].id]
    ensures r.Err? ==>
      exists j :: (0 <= j < |columns| && columns[j].id !in row &&
                   r.error == KeyError(columns[j].id) &&
                   forall k :: 0 <= k < j ==> columns[k].id in row)
  {
    if columns == [] then Ok([])
    else if columns[0].id !in row then Err(KeyError(columns[0].id))
    else
      var rest :- TableRow(columns[1..], row);
      Ok([row[columns[0].id]] + rest)
  }

  /** The outer comprehension: rows are read in order, and the first row
      that fails decides the error. */
  function TableRows<V>(columns: seq<TableColumn>, rows: seq<Row<V>>): (r: Result<seq<seq<V>>>)
    ensures r.Ok? <==> forall i :: 0 <= i < |rows| ==> HasAllIds(columns, rows[i])
    ensures r.Ok? ==> |r.value| == |rows|
    ensures r.Ok? ==> forall i :: 0 <= i < |rows| ==> Ok(r.value[i]) == TableRow(columns, rows[i])
    ensures r.Err? ==>
      exists i :: (0 <= i < |rows| && TableRow(columns, rows[i]).Err? &&
                   r.error == TableRow(columns, rows[i]).error &&
                   forall k :: 0 <= k < i ==> HasAllIds(columns, rows[k]))
  {
    if rows == [] then Ok([])
    else
      var first := TableRow(columns, rows[0]);
      if first.Err? then first.PropagateFailure()
      else
        var rest := TableRows(columns, rows[1..]);
        if rest.Err? then
          assert forall k :: 1 <= k < |rows| ==> rows[k] == rows[1..][k - 1];
          rest
        else Ok([first.value] + rest.value)
  }

  /** `create_table`. Every column, visible or not, is projected: the
      visibility flag travels in `columns` as display metadata only. */
  function CreateTable<V>(columns: seq<TableColumn>, rows: seq<Row<V>>): (r: Result<Table<V>>)
    ensures r.Ok? <==> forall i :: 0 <= i < |rows| ==> HasAllIds(columns, rows[i])
    ensures r.Err? ==> r.error.KeyError?
    ensures r.Err? ==>
      exists i, j :: (0 <= i < |rows| && 0 <= j < |columns| &&
                      columns[j].id !in rows[i] && r.error.key == columns[j].id)
    ensures r.Ok? ==>
      var t := r.value;
      && t.kind == "Table" && t.columns == columns && t.onClick == []
      && |t.rows| == |rows|
      && (forall i :: 0 <= i < |rows| ==> |t.rows[i]| == |columns|)
      && (forall i, j :: 0 <= i < |rows| && 0 <= j < |columns| ==>
            t.rows[i][j] == rows[i][columns[j].id])
  {
    var rowsValues :- TableRows(columns, rows);
    assert forall i :: 0 <= i < |rows| ==> Ok(rowsValues[i]) == TableRow(columns, rows[i]);
    Ok(Table("Table", columns, rowsValues, []))
  }

  function ColumnIds(columns: seq<TableColumn>): (ids: seq<string>)
    ensures |ids| == |columns|
    ensures forall j :: 0 <= j < |columns| ==> ids[j] == columns[j].id
  {
    if columns == [] then [] else [columns[0].id] + ColumnIds(columns[1..])
  }

  /** Where the table succeeds it holds exactly what the `.get` projection
      of the chart shapers would; where a row lacks an id, the table fails
      and the projection has a None in that place instead. */
  lemma TableAgreesWithProjection<V>(columns: seq<TableColumn>, rows: seq<Row<V>>)
    ensures CreateTable(columns, rows).Ok? ==>
      forall i, j :: 0 <= i < |rows| && 0 <= j < |columns| ==>
        Some(CreateTable(columns, rows).value.rows[i][j]) == ProjectRows(ColumnIds(columns), rows)[i][j]
    ensures CreateTable(columns, rows).Err? ==>
      exists i, j :: 0 <= i < |rows| && 0 <= j < |columns| &&
        ProjectRows(ColumnIds(columns), rows)[i][j] == None
  {
    var r := CreateTable(columns, rows);
    var p := ProjectRows(ColumnIds(columns), rows);
    if r.Err? {
      var i, j :| 0 <= i < |rows| && 0 <= j < |columns| &&
        columns[j].id !in rows[i] && r.error.key == columns[j].id;
      assert p[i][j] == None;
    }
  }
}
