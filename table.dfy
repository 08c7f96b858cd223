/**
 * The render-prop `Table` of src/routes/render-props/exercise/solution.jsx:
 * it projects column definitions and data rows to headers and cells and
 * hands both to its `children` function.
 */
module Table {
  import opened Wrappers

  /** A column definition: the header text and the key its cells read. */
  datatype Column = Column(header: string, accessor: string)

  /** A data row: an object from keys to values. */
  type Row<V> = map<string, V>

  /** A projected row: one cell per column, `undefined` where the row lacks the key. */
  datatype TableRow<V> = TableRow(cells: seq<Option<V>>)

  /** The argument of the render function: `{ headers, rows }`. */
  datatype TableProps<V> = TableProps(headers: seq<string>, rows: seq<TableRow<V>>)

  /** `row[accessor]`. */
  function Cell<V>(row: Row<V>, accessor: string): (r: Option<V>)
  {
    if accessor in row then Some(row[accessor]) else None
  }

  /** `columns.map((col) => col.header)`. */
  function Headers(columns: seq<Column>): (r: seq<string>)
    ensures |r| == |columns|
    ensures forall i :: 0 <= i < |columns| ==> r[i] == columns[i].header
    decreases |columns|
  {
    if columns == [] then [] else [columns[0].header] + Headers(columns[1..])
  }

  /** `columns.map((col) => row[col.accessor])`. */
  function Cells<V>(columns: seq<Column>, row: Row<V>): (r: seq<Option<V>>)
    ensures |r| == |columns|
    ensures forall j :: 0 <= j < |columns| ==> r[j] == Cell(row, columns[j].accessor)
    decreases |columns|
  {
    if columns == [] then [] else [Cell(row, columns[0].accessor)] + Cells(columns[1..], row)
  }

  /** `data.map((row) => ({ cells: ... }))`. */
  function Rows<V>(columns: seq<Column>, data: seq<Row<V>>): (r: seq<TableRow<V>>)
    ensures |r| == |data|
    ensures forall i :: 0 <= i < |data| ==> r[i].cells == Cells(columns, data[i])
    decreases |data|
  {
    if data == [] then [] else [TableRow(Cells(columns, data[0]))] + Rows(columns, data[1..])
  }

  /** The headers and rows `Table` computes. */
  function Project<V>(columns: seq<Column>, data: seq<Row<V>>): (r: TableProps<V>)
    ensures |r.headers| == |columns| && |r.rows| == |data|
    ensures forall i :: 0 <= i < |data| ==> |r.rows[i].cells| == |columns|
  {
    TableProps(Headers(columns), Rows(columns, data))
  }

  /** `Table`: one call of `children` with the projection, whose result is returned. */
  function Table<V, R>(columns: seq<Column>, data: seq<Row<V>>, children: TableProps<V> -> R): (r: R)
    ensures r == children(TableProps(Headers(columns), Rows(columns, data)))
  {
    children(Project(columns, data))
  }

  /**
   * The projection is a grid: one header per column, one row per data row in
   * data order, and in row `i` column `j` the value of `data[i]` under
   * `columns[j].accessor` (undefined when the key is missing).
   */
  lemma ProjectIsGrid<V>(columns: seq<Column>, data: seq<Row<V>>, i: nat, j: nat)
    requires i < |data| && j < |columns|
    ensures |Project(columns, data).headers| == |columns|
    ensures Project(columns, data).headers[j] == columns[j].header
    ensures |Project(columns, data).rows| == |data|
    ensures |Project(columns, data).rows[i].cells| == |columns|
    ensures Project(columns, data).rows[i].cells[j]
            == if columns[j].accessor in data[i] then Some(data[i][columns[j].accessor]) else None
  {
  }

  /** Row order follows data order: projecting two batches of data and concatenating is projecting them together. */
  lemma RowsDistribute<V>(columns: seq<Column>, a: seq<Row<V>>, b: seq<Row<V>>)
    ensures Rows(columns, a + b) == Rows(columns, a) + Rows(columns, b)
  {
  }

  /** The render function sees exactly the projection `Table` computed. */
  lemma TableHandsProjection<V>(columns: seq<Column>, data: seq<Row<V>>)
    ensures Table(columns, data, (p: TableProps<V>) => p) == Project(columns, data)
  {
  }
}
