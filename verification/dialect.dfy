/**
 * The PostgreSQL DDL generator as a configuration value: the type-name table
 * it sets up at construction, and the collaborators it consults but whose code
 * is not part of this model (the base generator, the driver, the schema's
 * naming methods), each as an uninterpreted function.
 */
module Dialect {
  import opened Wrappers
  import opened Schema

  /** The SQL keyword the base generator writes for each data type. */
  type TypeNames = DataType -> string

  /** Naming methods of the schema objects. */
  datatype Naming = Naming(
    // the column name as rendered in a column clause
    columnName: Column -> string,
    // the column's table-qualified name, used in comments
    fullName: Column -> string,
    // the name of the sequence backing an auto-increment column
    sequenceName: Column -> string,
    // a name qualified by the database's schema, quoted when the flag says so
    qualifiedName: (Database, string, bool) -> string)

  /** Capabilities of the database driver. */
  datatype Driver = Driver(
    // whether column clauses carry DEFAULT values at all
    ddlColumnDefaults: bool,
    // the SQL literal for a value of the given type
    valueString: (Value, DataType) -> string)

  /** The dialect-independent base generator the PostgreSQL generator extends. */
  datatype Base = Base(
    // the type-name table before any dialect overrides it
    defaultNames: TypeNames,
    // the base type rendering: the keyword for a type, or None for an unknown type
    columnType: (TypeNames, DataType, int, Column) -> Option<string>,
    // whether an identifier needs quoting
    detectQuoteName: string -> bool,
    // the base CREATE TABLE pass: its statements, built with the given column renderer
    createTables: (Database, (Column, bool) -> string) -> seq<string>)

  datatype Generator = Generator(names: TypeNames, base: Base, driver: Driver, naming: Naming)

  /** The types whose keyword the PostgreSQL dialect overrides in the type-name table. */
  predicate Overridden(t: DataType)
  {
    t == Bool || t == Clob || t == Blob
  }

  /** The PostgreSQL overrides of the type-name table. */
  function InitDataTypes(names: TypeNames): (r: TypeNames)
    ensures r(Bool) == "BOOLEAN"
    ensures r(Clob) == "TEXT"
    ensures r(Blob) == "BYTEA"
    ensures forall t :: !Overridden(t) ==> r(t) == names(t)
  {
    t => if t == Bool then "BOOLEAN"
         else if t == Clob then "TEXT"
         else if t == Blob then "BYTEA"
         else names(t)
  }

  /** Constructs the PostgreSQL generator: the base's table, then the dialect's overrides. */
  function NewGenerator(base: Base, driver: Driver, naming: Naming): (g: Generator)
    ensures g.names(Bool) == "BOOLEAN" && g.names(Clob) == "TEXT" && g.names(Blob) == "BYTEA"
    ensures forall t :: !Overridden(t) ==> g.names(t) == base.defaultNames(t)
    ensures g.base == base && g.driver == driver && g.naming == naming
  {
    Generator(InitDataTypes(base.defaultNames), base, driver, naming)
  }
}
