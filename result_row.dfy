/**
 * `neo4j.cypher.ResultRow`: one row of a Cypher result, read cell by cell
 * with a cursor or by column name, each cell converted to the model
 * object its shape calls for.
 */
module ResultRow {
  import opened Wrappers
  import opened JsValue
  import OrderedMaps

  /**
   * A converted cell: a value passed through, or the definition of the
   * relationship or node object built from it, or of the path turned into
   * its JSON text.
   */
  datatype Cell =
    | Plain(value: Value)
    | RelationshipCell(definition: Value)
    | PathText(definition: Value)
    | NodeCell(definition: Value)

  /** `typeof(value[key]) !== "undefined"`. */
  predicate Defines(value: Value, key: string)
  {
    Field(value, key) != Undefined
  }

  /**
   * `_convertValue(value)`: `null` stays `null`; a value with `data` is a
   * relationship when it also has `type`, a path when it has `length`,
   * a node otherwise; anything else is returned as it is. Reading
   * `value.data` of `undefined` throws.
   */
  function ConvertValue(value: Value): (r: Result<Cell, string>)
    ensures r.Failure? <==> value.Undefined?
    ensures value.Null? ==> r == Success(Plain(Null))
    ensures !value.Undefined? && !Defines(value, "data") ==> r == Success(Plain(value))
    ensures r == Success(RelationshipCell(value)) <==> Defines(value, "data") && Defines(value, "type")
    ensures r == Success(PathText(value)) <==> Defines(value, "data") && !Defines(value, "type") && Defines(value, "length")
    ensures r == Success(NodeCell(value)) <==> Defines(value, "data") && !Defines(value, "type") && !Defines(value, "length")
  {
    if value.Null? then Success(Plain(Null))
    else if value.Undefined? then Failure("TypeError: Cannot read property 'data' of undefined")
    else if Defines(value, "data") then
      if Defines(value, "type") then Success(RelationshipCell(value))
      else if Defines(value, "length") then Success(PathText(value))
      else Success(NodeCell(value))
    else Success(Plain(value))
  }

  class ResultRow {
    /** `row`: the raw cells. */
    const row: seq<Value>
    /** `columnMap`: column name to cell position. */
    const columnMap: OrderedMaps.Entries<nat>
    var pointer: nat

    constructor(row: seq<Value>, columnMap: OrderedMaps.Entries<nat>)
      ensures this.row == row && this.columnMap == columnMap && pointer == 0
    {
      this.row := row;
      this.columnMap := columnMap;
      pointer := 0;
    }

    /** `size()`. */
    function Size(): (n: nat)
      ensures n == |row|
    {
      |row|
    }

    /** `getByIndex(index)`: the converted cell; outside the row the cell is `undefined` and reading it throws. */
    function GetByIndex(index: int): (r: Result<Cell, string>)
      ensures 0 <= index < |row| ==> r == ConvertValue(row[index])
      ensures !(0 <= index < |row|) ==> r.Failure?
    {
      ConvertValue(if 0 <= index < |row| then row[index] else Undefined)
    }

    /** `get(name)`: the cell at the column's position; an unknown column throws. */
    function Get(name: string): (r: Result<Cell, string>)
      ensures OrderedMaps.Get(columnMap, name).Some? ==> r == GetByIndex(OrderedMaps.Get(columnMap, name).value)
      ensures OrderedMaps.Get(columnMap, name).None? ==> r.Failure?
    {
      match OrderedMaps.Get(columnMap, name)
      case Some(i) => GetByIndex(i)
      case None => ConvertValue(Undefined)
    }

    /** `hasNext()`. */
    function HasNext(): (r: bool)
      reads this
      ensures r <==> pointer < |row|
    {
      pointer < Size()
    }

    /** `next()`: the cell under the cursor, and the cursor moves on by one. */
    method Next() returns (r: Result<Cell, string>)
      modifies this
      ensures r == GetByIndex(old(pointer)) && pointer == old(pointer) + 1
    {
      r := GetByIndex(pointer);
      pointer := pointer + 1;
    }

    /** `reset()`. */
    method Reset()
      modifies this
      ensures pointer == 0
    {
      pointer := 0;
    }
  }

  /** Reading a row from the start while `hasNext()` holds yields every cell, converted, in order. */
  method ReadCells(r: ResultRow) returns (cells: seq<Result<Cell, string>>)
    modifies r
    ensures |cells| == |r.row| && r.pointer == |r.row|
    ensures forall i | 0 <= i < |cells| :: cells[i] == ConvertValue(r.row[i])
  {
    r.Reset();
    cells := [];
    while r.HasNext()
      invariant r.pointer <= |r.row| && |cells| == r.pointer
      invariant forall i | 0 <= i < |cells| :: cells[i] == ConvertValue(r.row[i])
      decreases |r.row| - r.pointer
    {
      var c := r.Next();
      cells := cells + [c];
    }
  }
}
