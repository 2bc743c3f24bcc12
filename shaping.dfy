/**
 * Result shaping: how column descriptors and query rows become the columns and rows of a
 * display table (internal/models/table.go, data.go, query.go, info.go).
 */
module Shaping {
  import opened Base
  import opened Text
  import opened Messages
  import opened Widgets

  /** The minimum column width of the data table and of the query result table. */
  const DataMinWidth: int := 10
  const QueryMinWidth: int := 15

  /** A column's display width: the minimum, or the name's byte length plus 2 when the name is longer. */
  function ColumnWidth(name: string, minWidth: int): (w: int)
    ensures w >= minWidth
    ensures ByteLen(name) <= minWidth ==> w == minWidth
    ensures ByteLen(name) > minWidth ==> w == ByteLen(name) + 2 && w > ByteLen(name)
  {
    if ByteLen(name) > minWidth then ByteLen(name) + 2 else minWidth
  }

  /** One display column per name, in order, titled by the name. */
  function DisplayColumns(names: seq<string>, minWidth: int): (cols: seq<TableColumn>)
    ensures |cols| == |names|
    ensures forall i :: 0 <= i < |names| ==>
              cols[i].title == names[i] && cols[i].width == ColumnWidth(names[i], minWidth)
  {
    seq(|names|, i requires 0 <= i < |names| => TableColumn(names[i], ColumnWidth(names[i], minWidth)))
  }

  /** For an ASCII name the width rule reads in characters: `minWidth`, or `len+2` past it. */
  lemma AsciiColumnWidth(name: string, minWidth: int)
    requires IsAscii(name)
    ensures ColumnWidth(name, minWidth) == if |name| > minWidth then |name| + 2 else minWidth
  {
    ByteLenAscii(name);
  }

  /** The column loop of `setDataTable`, `setQueryResult` and `setResults`. */
  method BuildColumns(names: seq<string>, minWidth: int) returns (cols: seq<TableColumn>)
    ensures cols == DisplayColumns(names, minWidth)
  {
    var a := new TableColumn[|names|];
    var i := 0;
    while i < |names|
      invariant 0 <= i <= |names|
      invariant forall j :: 0 <= j < i ==> a[j] == TableColumn(names[j], ColumnWidth(names[j], minWidth))
    {
      var width := minWidth;
      if ByteLen(names[i]) > width {
        width := ByteLen(names[i]) + 2;
      }
      a[i] := TableColumn(names[i], width);
      i := i + 1;
    }
    cols := a[..];
  }

  /** The row loop `tableRows[i] = row`: every row, one for one, in order. */
  method CopyRows(rows: seq<seq<string>>) returns (r: seq<seq<string>>)
    ensures r == rows
  {
    var a := new seq<string>[|rows|];
    var i := 0;
    while i < |rows|
      invariant 0 <= i <= |rows|
      invariant a[..i] == rows[..i]
    {
      a[i] := rows[i];
      i := i + 1;
    }
    r := a[..];
  }

  // ---------------------------------------------------------------- data table

  /**
   * table.go's `setDataTable`: the existing table gets the new columns and rows, back at the
   * top and focused; its other settings (size) stay.
   */
  function DataTableWith(t: Table, columns: seq<Column>, rows: seq<seq<string>>): (r: Table)
    ensures r.columns == DisplayColumns(ColumnNames(columns), DataMinWidth)
    ensures r.rows == rows
    ensures r.focused && r.cursor == 0
    ensures r.width == t.width && r.height == t.height
  {
    t.(columns := DisplayColumns(ColumnNames(columns), DataMinWidth), rows := rows, cursor := 0, focused := true)
  }

  /** data.go's `setDataTable`: the same columns and rows in a table built afresh with `newTable()`. */
  function FreshDataTable(columns: seq<Column>, rows: seq<seq<string>>): (r: Table)
    ensures r.columns == DisplayColumns(ColumnNames(columns), DataMinWidth)
    ensures r.rows == rows
    ensures r.focused && r.cursor == 0
    ensures r.height == 10 && r.width == 0
  {
    DataTableWith(StyledTable(), columns, rows)
  }

  /** One display column per descriptor, titled by its name and at least 10 wide. */
  lemma DataColumnsFollowDescriptors(t: Table, columns: seq<Column>, rows: seq<seq<string>>, i: int)
    requires 0 <= i < |columns|
    ensures |DataTableWith(t, columns, rows).columns| == |columns|
    ensures DataTableWith(t, columns, rows).columns[i].title == columns[i].name
    ensures DataTableWith(t, columns, rows).columns[i].width >= DataMinWidth
    ensures ByteLen(columns[i].name) > DataMinWidth ==>
              DataTableWith(t, columns, rows).columns[i].width == ByteLen(columns[i].name) + 2
  {
  }

  /** A freshly built data table keeps nothing of whatever table was shown before. */
  lemma FreshTableForgetsPrevious(t: Table, columns: seq<Column>, rows: seq<seq<string>>)
    ensures FreshDataTable(columns, rows) == DataTableWith(t, columns, rows).(width := 0, height := 10)
  {
  }

  // ---------------------------------------------------------------- query result table

  /**
   * table.go's `setQueryResult` on the table: replaced only by a successful result with rows,
   * with 15-wide columns; otherwise left as it was.
   */
  function QueryTableWith(t: Table, names: seq<string>, rows: seq<seq<string>>, err: Option<Error>): (r: Table)
    ensures err.None? && |rows| > 0 ==> r == t.(columns := DisplayColumns(names, QueryMinWidth), rows := rows)
    ensures err.Some? || rows == [] ==> r == t
  {
    if err.None? && |rows| > 0 then t.(columns := DisplayColumns(names, QueryMinWidth), rows := rows) else t
  }

  /** query.go's `setResults` on the table: as above, and its height becomes the pane height less 5. */
  function ResultsTableWith(t: Table, names: seq<string>, rows: seq<seq<string>>, err: Option<Error>, height: int): (r: Table)
    ensures err.None? && |rows| > 0 ==> r == QueryTableWith(t, names, rows, err).(height := height - 5)
    ensures err.Some? || rows == [] ==> r == t
  {
    if err.None? && |rows| > 0 then QueryTableWith(t, names, rows, err).(height := height - 5) else t
  }

  // ---------------------------------------------------------------- info table

  /**
   * The six header columns of the column-metadata table, one per cell of an info row: every
   * title fits inside its column, and no two columns share a title.
   */
  function InfoColumns(): (cols: seq<TableColumn>)
    ensures |cols| == 6
    ensures forall i :: 0 <= i < |cols| ==> 5 <= cols[i].width && |cols[i].title| < cols[i].width
    ensures forall i, j :: 0 <= i < j < |cols| ==> cols[i].title != cols[j].title
  {
    [TableColumn("CID", 5), TableColumn("Name", 15), TableColumn("Type", 10),
     TableColumn("NotNull", 10), TableColumn("DefaultValue", 15), TableColumn("PK", 5)]
  }

  /** A missing default shows as "NULL". */
  function DefaultText(d: Option<string>): string
  {
    if d.Some? then d.value else "NULL"
  }

  /** The six cells describing one column. */
  function InfoRow(c: Column): (row: seq<string>)
    ensures |row| == 6
  {
    [Decimal(c.cid), c.name, c.colType, BoolText(c.notNull), DefaultText(c.defaultValue), BoolText(c.pk)]
  }

  function InfoRows(columns: seq<Column>): (rows: seq<seq<string>>)
    ensures |rows| == |columns|
    ensures forall i :: 0 <= i < |columns| ==> rows[i] == InfoRow(columns[i])
  {
    seq(|columns|, i requires 0 <= i < |columns| => InfoRow(columns[i]))
  }

  /** The row loop of `setInfoTable`. */
  method BuildInfoRows(columns: seq<Column>) returns (rows: seq<seq<string>>)
    ensures rows == InfoRows(columns)
  {
    var a := new seq<string>[|columns|];
    var i := 0;
    while i < |columns|
      invariant 0 <= i <= |columns|
      invariant forall j :: 0 <= j < i ==> a[j] == InfoRow(columns[j])
    {
      var col := columns[i];
      var defStr := "NULL";
      if col.defaultValue.Some? {
        defStr := col.defaultValue.value;
      }
      a[i] := [Decimal(col.cid), col.name, col.colType, BoolText(col.notNull), defStr, BoolText(col.pk)];
      i := i + 1;
    }
    rows := a[..];
  }

  /** `setInfoTable`'s table: a fresh `newTable()` with the six headers and one row per descriptor. */
  function InfoTableOf(columns: seq<Column>): (t: Table)
    ensures t.columns == InfoColumns() && t.rows == InfoRows(columns)
    ensures t.focused && t.cursor == 0
  {
    StyledTable().(columns := InfoColumns(), rows := InfoRows(columns), cursor := 0, focused := true)
  }

  /** Each info row reads back as its descriptor: the CID cell parses to the CID, the flags print as `%v`. */
  lemma InfoRowReadsBack(c: Column)
    requires MinInt <= c.cid <= MaxInt
    ensures Atoi(InfoRow(c)[0]) == Some(c.cid)
    ensures InfoRow(c)[1] == c.name && InfoRow(c)[2] == c.colType
    ensures InfoRow(c)[3] == (if c.notNull then "true" else "false")
    ensures InfoRow(c)[5] == (if c.pk then "true" else "false")
    ensures c.defaultValue.Some? ==> InfoRow(c)[4] == c.defaultValue.value
    ensures c.defaultValue.None? ==> InfoRow(c)[4] == "NULL"
  {
    DecimalRoundTrip(c.cid);
  }

  /** An absent default and a literal "NULL" default give the same row. */
  lemma NullDefaultIndistinguishable(c: Column)
    ensures InfoRow(c.(defaultValue := None)) == InfoRow(c.(defaultValue := Some("NULL")))
  {
  }
}
