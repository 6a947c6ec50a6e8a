# PostgreSQL DDL generator — a Dafny model

This project models empire-db's PostgreSQL DDL generator (`PostgreDDLGenerator`).
The generator turns a read-only schema (a database, its tables and their columns)
into DDL statement text. The model covers its three pieces of logic:

- **Type resolution** (`appendColumnDataType`). The dialect checks its own cases
  first, in a fixed order:
  - auto-increment columns become `BIGSERIAL` when `|size| >= 8` and `SERIAL` otherwise;
  - floating-point columns always become `DOUBLE PRECISION`;
  - binary large objects get the type-name table's keyword, which the constructor
    (`initDataTypes`) sets to `BYTEA`.

  Every other type goes to the base generator. The constructor also sets
  `BOOLEAN` → `BOOLEAN` and `CLOB` → `TEXT` for the base generator to consult.
  A failed resolution (`appendColumnDataType`'s `false` return) is `None`.
- **The sequence pre-pass** (`createDatabase`, `createSequence`). It appends one
  `CREATE SEQUENCE … INCREMENT BY 1 START WITH 1 MINVALUE 0` statement per
  auto-increment column, in table-then-column order. Then it hands over to the
  base generator's CREATE TABLE pass. The script is append-only.
- **The column clause** (`appendColumnDesc`). It consists of these parts, in order:
  - the column name;
  - `" TYPE "` (ALTER) or `" "`;
  - the type, stopping right there when the type is unknown;
  - `" DEFAULT "` and a literal, only when the driver wants defaults, the column
    is not auto-generated and it has a default;
  - `" NOT NULL"` for required or auto-generated columns.

Everything is a pure function over immutable datatypes, except the two loops of
the pre-pass, which are methods. The statement buffer is modelled as the list of
fragments appended to it, one per append call. That lets the clause be read back
exactly (`Parse`/`Render`); its text is the concatenation of the fragments.

Collaborators whose code is not part of this model are uninterpreted functions
held in the generator value (`Dialect.Generator`):

- the base generator `DBDDLGenerator`: its default type-name table, its type
  rendering, `detectQuoteName`, and its CREATE TABLE pass;
- the driver: `isDDLColumnDefaults` and `getValueString`;
- the schema's naming methods: `addSQL` with the name context, `getFullName`,
  `getSequenceName`, and `appendQualifiedName`.

The base CREATE TABLE pass is given the PostgreSQL column renderer
(`ColumnDesc.ColumnRenderer`). This mirrors the virtual call back into
`appendColumnDesc`.

Files: `wrappers.dfy` (Option), `schema.dfy` (data types, columns, tables,
database), `dialect.dfy` (the generator value and its construction),
`type_resolver.dfy`, `column_desc.dfy`, `database_script.dfy`.

Two behaviours of the code worth noting:

- For an unknown type, the code keeps the column name and separator in the buffer.
  It does not leave the clause empty.
- An auto-increment size of 0 gives `SERIAL`. Every magnitude below 8 does.

## Model

| member | source | states |
|---|---|---|
| Dialect.InitDataTypes | empire-db/src/main/java/org/apache/empire/db/postgresql/PostgreDDLGenerator.java:45-50 | the dialect's table maps booleans to BOOLEAN, character large objects to TEXT and binary large objects to BYTEA, and leaves every other type's keyword as the base had it |
| Dialect.NewGenerator | empire-db/src/main/java/org/apache/empire/db/postgresql/PostgreDDLGenerator.java:34-39 | a constructed generator carries the three overridden keywords, the base's keywords for all other types, and the given base, driver and naming collaborators |
| TypeResolver.ResolveType | empire-db/src/main/java/org/apache/empire/db/postgresql/PostgreDDLGenerator.java:52-82 | auto-increment gives BIGSERIAL exactly when the size's magnitude is at least 8 and SERIAL exactly when it is below; floating point always gives DOUBLE PRECISION; binary large objects give the table's keyword; every other type gives exactly the base's answer; only a base type can be unresolved |
| TypeResolver.AutoIncSignIgnored | empire-db/src/main/java/org/apache/empire/db/postgresql/PostgreDDLGenerator.java:57-64 | negating an auto-increment size does not change its keyword |
| TypeResolver.AutoIncWidthMonotone | empire-db/src/main/java/org/apache/empire/db/postgresql/PostgreDDLGenerator.java:59-64 | a column at least as wide as one that gets BIGSERIAL also gets BIGSERIAL |
| TypeResolver.FloatIgnoresSize | empire-db/src/main/java/org/apache/empire/db/postgresql/PostgreDDLGenerator.java:69-73 | any two floating-point resolutions agree, on DOUBLE PRECISION, whatever their sizes |
| TypeResolver.PostgreBlobIsBytea | empire-db/src/main/java/org/apache/empire/db/postgresql/PostgreDDLGenerator.java:74-76 | a constructed generator renders binary large objects as BYTEA for every size |
| TypeResolver.PostgreOverridesReachBase | empire-db/src/main/java/org/apache/empire/db/postgresql/PostgreDDLGenerator.java:45-50 | if the base renders booleans and character large objects from the type-name table, a constructed generator yields BOOLEAN and TEXT for them, whatever the size |
| TypeResolver.DelegatesToBase | empire-db/src/main/java/org/apache/empire/db/postgresql/PostgreDDLGenerator.java:77-79 | for every type the dialect does not handle itself, the result is the base's result with the overridden type-name table |
| ColumnDesc.ColumnPieces | empire-db/src/main/java/org/apache/empire/db/postgresql/PostgreDDLGenerator.java:131-153 | the appended fragments start with the name and the ALTER or CREATE separator, and read back as the intended clause: the resolved type; a DEFAULT literal exactly when the type is known, defaults are on, the column is not auto-generated and has a default; NOT NULL exactly when the type is known and the column is required or auto-generated |
| ColumnDesc.ColumnText | empire-db/src/main/java/org/apache/empire/db/postgresql/PostgreDDLGenerator.java:134-153 | the clause text is the concatenation of the appended fragments, so every fragment-level fact reaches the text the CREATE TABLE pass receives; it starts with the name and separator, is exactly that prefix when the type is unknown, and ends in " NOT NULL" when the type is known and the column is required or auto-generated |
| ColumnDesc.UnresolvedStopsAfterSeparator | empire-db/src/main/java/org/apache/empire/db/postgresql/PostgreDDLGenerator.java:142-144 | the type is unresolved if and only if the clause is just the name and separator |
| ColumnDesc.RequiredEndsNotNull | empire-db/src/main/java/org/apache/empire/db/postgresql/PostgreDDLGenerator.java:150-152 | a required column with a known type always ends in NOT NULL, with or without a default |
| ColumnDesc.AutoGeneratedSuppressesDefault | empire-db/src/main/java/org/apache/empire/db/postgresql/PostgreDDLGenerator.java:145-152 | an auto-generated column with a known type is exactly name, separator, type, NOT NULL: never a DEFAULT |
| ColumnDesc.OptionalColumnHasNoNullKeyword | empire-db/src/main/java/org/apache/empire/db/postgresql/PostgreDDLGenerator.java:145-152 | an optional, non-generated column gets no nullability keyword: two, three or five fragments, depending only on type resolution and the DEFAULT condition |
| DatabaseScript.SequenceStatementShape | empire-db/src/main/java/org/apache/empire/db/postgresql/PostgreDDLGenerator.java:114-126 | a sequence statement is a comment line naming the column (its full name between the fixed comment markers), followed by CREATE SEQUENCE, the qualified and quote-checked sequence name, and the fixed options " INCREMENT BY 1 START WITH 1 MINVALUE 0", with nothing after them |
| DatabaseScript.CreateSequence | empire-db/src/main/java/org/apache/empire/db/postgresql/PostgreDDLGenerator.java:112-129 | the script gains exactly one statement, at its end, and keeps every earlier statement |
| DatabaseScript.CreateSequenceTwice | empire-db/src/main/java/org/apache/empire/db/postgresql/PostgreDDLGenerator.java:112-129 | creating the same sequence twice adds two identical statements: nothing is reconciled |
| DatabaseScript.AutoIncColumnsIsFilter | empire-db/src/main/java/org/apache/empire/db/postgresql/PostgreDDLGenerator.java:88-101 | visiting tables in order and then their columns in order selects exactly the auto-increment columns of the flattened column list, in order |
| DatabaseScript.AutoIncColumnsOfSpec | empire-db/src/main/java/org/apache/empire/db/postgresql/PostgreDDLGenerator.java:92-100 | a column is selected if and only if it is an auto-increment column of the list, and as many are selected as the list has auto-increment positions |
| DatabaseScript.SequenceStatements | empire-db/src/main/java/org/apache/empire/db/postgresql/PostgreDDLGenerator.java:98 | one statement per selected column, the i-th creating the i-th column's sequence |
| DatabaseScript.SequencePass | empire-db/src/main/java/org/apache/empire/db/postgresql/PostgreDDLGenerator.java:88-101 | the pre-pass has as many statements as the database has auto-increment columns, and the i-th creates the sequence of the i-th auto-increment column in table-then-column order |
| DatabaseScript.SequencePassSound | empire-db/src/main/java/org/apache/empire/db/postgresql/PostgreDDLGenerator.java:88-101 | every pre-pass statement creates the sequence of some auto-increment column of the database |
| DatabaseScript.CreateTableSequences | empire-db/src/main/java/org/apache/empire/db/postgresql/PostgreDDLGenerator.java:92-100 | the column loop appends the sequence statements of the table's auto-increment columns, in column order, after the existing script |
| DatabaseScript.CreateDatabase | empire-db/src/main/java/org/apache/empire/db/postgresql/PostgreDDLGenerator.java:84-104 | the result is the original script, then the whole pre-pass, then the base CREATE TABLE statements; every sequence statement comes before every table statement |
| DatabaseScript.OneTableScenarioSequences | empire-db/src/main/java/org/apache/empire/db/postgresql/PostgreDDLGenerator.java:85-101 | for T(id auto-increment size 4, name text required), the pre-pass is exactly one statement, the one for id |
| DatabaseScript.OneTableScenarioColumns | empire-db/src/main/java/org/apache/empire/db/postgresql/PostgreDDLGenerator.java:132-153 | in that table, id renders as name, " ", SERIAL, " NOT NULL", and name renders as name, " ", the base's text keyword, " NOT NULL" |

## Left out

- The `double` size and its truncating `(int)` cast are not modelled; the size is a mathematical integer. `Math.abs(Integer.MIN_VALUE)` staying negative is not modelled either; the absolute value is mathematical.
- The base generator `DBDDLGenerator` is not part of this model. Its default type-name table, its type rendering, `detectQuoteName` and its CREATE TABLE pass are uninterpreted functions. When the base rendering returns `false`, the model assumes it appended nothing.
- Driver and schema methods are uninterpreted functions: `isDDLColumnDefaults`, `getValueString`, `addSQL` with the name context, `getFullName`, `getSequenceName`, `appendQualifiedName`.
- `DataType.java` is not part of this model. Its constants are listed as empire-db names them; only AUTOINC, FLOAT, BLOB, BOOL and CLOB are distinguished here.
- `DBTableColumn.isAutoGenerated` is not part of this model. It is a column flag of its own, not derived from the data type.
- The commented-out `nextval(...)` wiring and the commented-out `setval` are not live code. The sequence stays disconnected from the column's default, as in the source.
- `StringBuilder` and `DBSQLScript` mutation become pure values: a list of appended fragments, and a list of statements.
- Executing the script, checking SQL validity, and thread-safety are not modelled.
