/**
 * The read-only schema the DDL generator works on: a database owns an ordered
 * list of tables, and each table an ordered list of columns.
 */
module Schema {
  import opened Wrappers

  /** The database-independent column kinds of empire-db's `DataType`. */
  datatype DataType =
    | Unknown | Integer | AutoInc | Text | Date | DateTime | Char
    | Float | Decimal | Bool | Clob | Blob | UniqueId

  /** A column's default value as the schema holds it; only the driver renders it. */
  type Value = string

  /**
   * A table column. `size` is the declared size or precision (a byte width for
   * auto-increment columns); `required` and `autoGenerated` are the column's flags.
   */
  datatype Column = Column(
    name: string,
    dataType: DataType,
    size: int,
    required: bool,
    autoGenerated: bool,
    defaultValue: Option<Value>)

  datatype Table = Table(name: string, columns: seq<Column>)

  datatype Database = Database(tables: seq<Table>)

  /** Every column of `tables`, in table order and, within a table, column order. */
  function AllColumns(tables: seq<Table>): seq<Column>
  {
    if tables == [] then []
    else AllColumns(tables[..|tables| - 1]) + tables[|tables| - 1].columns
  }

  /** The data types of `cols`, position by position. */
  function TypesOf(cols: seq<Column>): (r: seq<DataType>)
    ensures |r| == |cols|
    ensures forall i :: 0 <= i < |cols| ==> r[i] == cols[i].dataType
  {
    if cols == [] then []
    else TypesOf(cols[..|cols| - 1]) + [cols[|cols| - 1].dataType]
  }
}
