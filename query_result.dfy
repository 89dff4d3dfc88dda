/**
 * `neo4j.cypher.QueryResult`: the rows and column names of a Cypher
 * answer, a map from column name to position, and a cursor over the rows.
 */
module QueryResult {
  import opened Wrappers
  import opened JsValue
  import OrderedMaps
  import ResultRow

  /** The position a column name answers to: its last occurrence among the columns. */
  function ColumnPosition(columns: seq<string>, name: string): (r: Option<nat>)
    ensures r.None? <==> name !in columns
    ensures r.Some? ==> r.value < |columns| && columns[r.value] == name
    ensures r.Some? ==> forall j | r.value < j < |columns| :: columns[j] != name
    decreases |columns|
  {
    if |columns| == 0 then None
    else if columns[|columns| - 1] == name then Some(|columns| - 1)
    else ColumnPosition(columns[..|columns| - 1], name)
  }

  /** One more column: its own name now answers with its position, every other name as before. */
  lemma ColumnPositionNext(columns: seq<string>, i: nat, name: string)
    requires i < |columns|
    ensures ColumnPosition(columns[..i + 1], name) == if name == columns[i] then Some(i) else ColumnPosition(columns[..i], name)
  {
    assert columns[..i + 1][..i] == columns[..i];
  }

  /** `columnMap[columns[i]] = i` for each `i` in turn, so a repeated name keeps its last position. */
  method BuildColumnMap(columns: seq<string>) returns (columnMap: OrderedMaps.Entries<nat>)
    ensures forall name :: OrderedMaps.Get(columnMap, name) == ColumnPosition(columns, name)
  {
    columnMap := [];
    var i := 0;
    while i < |columns|
      invariant 0 <= i <= |columns|
      invariant forall name :: OrderedMaps.Get(columnMap, name) == ColumnPosition(columns[..i], name)
    {
      forall name
        ensures OrderedMaps.Get(OrderedMaps.Put<nat>(columnMap, columns[i], i), name) == ColumnPosition(columns[..i + 1], name)
      {
        OrderedMaps.PutGet<nat>(columnMap, columns[i], i, name);
        ColumnPositionNext(columns, i, name);
      }
      columnMap := OrderedMaps.Put<nat>(columnMap, columns[i], i);
      i := i + 1;
    }
    assert columns[..i] == columns;
  }

  class QueryResult {
    /** `data`: the rows, each an array of raw cells. */
    const data: seq<seq<Value>>
    /** `columns`: the column names. */
    const columns: seq<string>
    const columnMap: OrderedMaps.Entries<nat>
    var pointer: nat

    /** `new QueryResult(db, rawResult)`. */
    constructor(data: seq<seq<Value>>, columns: seq<string>)
      ensures this.data == data && this.columns == columns && pointer == 0
      ensures forall name :: OrderedMaps.Get(columnMap, name) == ColumnPosition(columns, name)
    {
      this.data := data;
      this.columns := columns;
      pointer := 0;
      var m := BuildColumnMap(columns);
      columnMap := m;
    }

    /** `size()`. */
    function Size(): (n: nat)
      ensures n == |data|
    {
      |data|
    }

    /** `hasNext()`. */
    function HasNext(): (r: bool)
      reads this
      ensures r <==> pointer < |data|
    {
      pointer < Size()
    }

    /**
     * `next()`: a row object over the row under the cursor, sharing the
     * column map, and the cursor moves on by one. Past the end the row
     * would be built over `undefined`; the model answers `None` there.
     */
    method Next() returns (r: Option<ResultRow.ResultRow>)
      modifies this
      ensures pointer == old(pointer) + 1
      ensures r.Some? <==> old(pointer) < |data|
      ensures r.Some? ==> fresh(r.value) && r.value.row == data[old(pointer)]
                          && r.value.columnMap == columnMap && r.value.pointer == 0
    {
      if pointer < |data| {
        var row := new ResultRow.ResultRow(data[pointer], columnMap);
        r := Some(row);
      } else {
        r := None;
      }
      pointer := pointer + 1;
    }

    /** `reset()`: the cursor goes back to the first row; nothing else changes. */
    method Reset()
      modifies this
      ensures pointer == 0
    {
      pointer := 0;
    }
  }

  /** Reading a result from the start while `hasNext()` holds yields every row, in order. */
  method ReadRows(q: QueryResult) returns (rows: seq<seq<Value>>)
    modifies q
    ensures rows == q.data && q.pointer == |q.data|
  {
    q.Reset();
    rows := [];
    while q.HasNext()
      invariant q.pointer <= |q.data| && rows == q.data[..q.pointer]
      decreases |q.data| - q.pointer
    {
      var r := q.Next();
      rows := rows + [r.value.row];
    }
  }

  /** In a row of a result whose column names are distinct, `get` of a column reads the cell in that column's position. */
  lemma GetByColumn(q: QueryResult, row: ResultRow.ResultRow, j: nat)
    requires forall name :: OrderedMaps.Get(q.columnMap, name) == ColumnPosition(q.columns, name)
    requires row.columnMap == q.columnMap
    requires j < |q.columns|
    requires forall a, b | 0 <= a < b < |q.columns| :: q.columns[a] != q.columns[b]
    ensures row.Get(q.columns[j]) == row.GetByIndex(j)
  {
  }

  /** A name that is no column makes `get` throw. */
  lemma GetUnknownColumn(q: QueryResult, row: ResultRow.ResultRow, name: string)
    requires forall name :: OrderedMaps.Get(q.columnMap, name) == ColumnPosition(q.columns, name)
    requires row.columnMap == q.columnMap
    requires name !in q.columns
    ensures row.Get(name).Failure?
  {
  }
}
