/**
 * The PostgreSQL "create database" script: one CREATE SEQUENCE statement per
 * auto-increment column, in table-then-column order, followed by the base
 * generator's CREATE TABLE pass. The script is append-only.
 */
module DatabaseScript {
  import opened Wrappers
  import opened Schema
  import opened Dialect
  import opened ColumnDesc

  const CommentStart := "-- creating sequence for column "
  const CommentEnd := " --\r\n"
  const CreateSequenceKeyword := "CREATE SEQUENCE "
  /** The fixed parameters of every sequence: increment 1, start 1, minimum 0. */
  const SequenceOptions := " INCREMENT BY 1 START WITH 1 MINVALUE 0"

  /** The sequence name of column `c`, qualified and quoted as the database requires. */
  function QualifiedSequenceName(g: Generator, db: Database, c: Column): string
  {
    var seqName := g.naming.sequenceName(c);
    g.naming.qualifiedName(db, seqName, g.base.detectQuoteName(seqName))
  }

  /**
   * The statement creating the sequence of column `c`: a comment line naming
   * the column, then the CREATE SEQUENCE command.
   */
  function SequenceStatement(g: Generator, db: Database, c: Column): string
  {
    CommentStart + g.naming.fullName(c) + CommentEnd
    + CreateSequenceKeyword + QualifiedSequenceName(g, db, c) + SequenceOptions
  }

  /**
   * A sequence statement is a comment line naming the column, followed by
   * CREATE SEQUENCE, the qualified sequence name and the fixed options, and
   * nothing else.
   */
  lemma SequenceStatementShape(g: Generator, db: Database, c: Column)
    ensures var s := SequenceStatement(g, db, c);
      var cmd := CreateSequenceKeyword + QualifiedSequenceName(g, db, c) + SequenceOptions;
      && |CommentStart| + |g.naming.fullName(c)| + |CommentEnd| + |cmd| == |s|
      && s[|CommentStart|..|CommentStart| + |g.naming.fullName(c)|] == g.naming.fullName(c)
      && s[|s| - |cmd|..] == cmd
      && s[..|CommentStart|] == CommentStart
      && s[|s| - |cmd| - |CommentEnd|..|s| - |cmd|] == CommentEnd
  {
  }

  /** Appends the sequence statement of column `c` to `script`: exactly one statement, at the end. */
  function CreateSequence(g: Generator, db: Database, c: Column, script: seq<string>): (r: seq<string>)
    ensures |r| == |script| + 1
    ensures r[..|script|] == script
    ensures r[|script|] == SequenceStatement(g, db, c)
  {
    script + [SequenceStatement(g, db, c)]
  }

  /** Appending a sequence twice gives two identical statements: the script is not reconciled. */
  lemma CreateSequenceTwice(g: Generator, db: Database, c: Column, script: seq<string>)
    ensures var r := CreateSequence(g, db, c, CreateSequence(g, db, c, script));
      |r| == |script| + 2 && r[|script|] == r[|script| + 1] == SequenceStatement(g, db, c)
  {
  }

  /** The auto-increment columns of `cols`, in order. */
  function AutoIncColumnsOf(cols: seq<Column>): seq<Column>
  {
    if cols == [] then []
    else
      var last := cols[|cols| - 1];
      AutoIncColumnsOf(cols[..|cols| - 1]) + (if last.dataType == AutoInc then [last] else [])
  }

  /** The auto-increment columns of `tables`, table by table, as the pre-pass visits them. */
  function AutoIncColumns(tables: seq<Table>): seq<Column>
  {
    if tables == [] then []
    else AutoIncColumns(tables[..|tables| - 1]) + AutoIncColumnsOf(tables[|tables| - 1].columns)
  }

  lemma {:induction false} AutoIncColumnsOfAppend(a: seq<Column>, b: seq<Column>)
    ensures AutoIncColumnsOf(a + b) == AutoIncColumnsOf(a) + AutoIncColumnsOf(b)
    decreases |b|
  {
    if b == [] {
      assert a + b == a;
    } else {
      var b' := b[..|b| - 1];
      assert (a + b)[..|a + b| - 1] == a + b';
      AutoIncColumnsOfAppend(a, b');
    }
  }

  /** The table-by-table pass selects exactly the auto-increment columns of all columns, in order. */
  lemma {:induction false} AutoIncColumnsIsFilter(tables: seq<Table>)
    ensures AutoIncColumns(tables) == AutoIncColumnsOf(AllColumns(tables))
    decreases |tables|
  {
    if tables != [] {
      var init := tables[..|tables| - 1];
      AutoIncColumnsIsFilter(init);
      AutoIncColumnsOfAppend(AllColumns(init), tables[|tables| - 1].columns);
    }
  }

  /**
   * A column is selected exactly when it is an auto-increment column of
   * `cols`, and as many are selected as `cols` has auto-increment positions.
   */
  lemma {:induction false} AutoIncColumnsOfSpec(cols: seq<Column>)
    ensures forall c :: c in AutoIncColumnsOf(cols) <==> c in cols && c.dataType == AutoInc
    ensures |AutoIncColumnsOf(cols)| == multiset(TypesOf(cols))[AutoInc]
    decreases |cols|
  {
    if cols != [] {
      var init := cols[..|cols| - 1];
      AutoIncColumnsOfSpec(init);
      assert cols == init + [cols[|cols| - 1]];
      assert TypesOf(cols) == TypesOf(init) + [cols[|cols| - 1].dataType];
    }
  }

  /** The sequence statements of `cols`, one per column, in order. */
  function SequenceStatements(g: Generator, db: Database, cols: seq<Column>): (r: seq<string>)
    ensures |r| == |cols|
    ensures forall i :: 0 <= i < |cols| ==> r[i] == SequenceStatement(g, db, cols[i])
  {
    if cols == [] then []
    else SequenceStatements(g, db, cols[..|cols| - 1]) + [SequenceStatement(g, db, cols[|cols| - 1])]
  }

  /**
   * The pre-pass's statements: one per auto-increment column of the database,
   * in table-then-column order.
   */
  function SequencePass(g: Generator, db: Database): (r: seq<string>)
    ensures |r| == multiset(TypesOf(AllColumns(db.tables)))[AutoInc]
    ensures |r| == |AutoIncColumnsOf(AllColumns(db.tables))|
    ensures forall i :: (0 <= i < |r|
      ==> r[i] == SequenceStatement(g, db, AutoIncColumnsOf(AllColumns(db.tables))[i]))
  {
    AutoIncColumnsIsFilter(db.tables);
    AutoIncColumnsOfSpec(AllColumns(db.tables));
    SequenceStatements(g, db, AutoIncColumns(db.tables))
  }

  /** Every statement of the pre-pass creates the sequence of some auto-increment column of the database. */
  lemma SequencePassSound(g: Generator, db: Database, i: int)
    requires 0 <= i < |SequencePass(g, db)|
    ensures exists c :: c in AllColumns(db.tables) && c.dataType == AutoInc
                        && SequencePass(g, db)[i] == SequenceStatement(g, db, c)
  {
    var cols := AutoIncColumnsOf(AllColumns(db.tables));
    AutoIncColumnsOfSpec(AllColumns(db.tables));
    assert cols[i] in cols;
  }

  lemma SequenceStatementsAppend(g: Generator, db: Database, a: seq<Column>, b: seq<Column>)
    ensures SequenceStatements(g, db, a + b) == SequenceStatements(g, db, a) + SequenceStatements(g, db, b)
  {
  }

  /** A sequence that keeps `s` as its prefix and adds exactly `x` is `s + [x]`. */
  lemma AppendedOne(s: seq<string>, r: seq<string>, x: string)
    requires |r| == |s| + 1 && r[..|s|] == s && r[|s|] == x
    ensures r == s + [x]
  {
  }

  /** One more column visited adds its sequence statement exactly when it is an auto-increment column. */
  lemma SequenceStatementsStep(g: Generator, db: Database, cols: seq<Column>, j: int)
    requires 0 <= j < |cols|
    ensures SequenceStatements(g, db, AutoIncColumnsOf(cols[..j + 1]))
         == SequenceStatements(g, db, AutoIncColumnsOf(cols[..j]))
            + (if cols[j].dataType == AutoInc then [SequenceStatement(g, db, cols[j])] else [])
  {
    assert cols[..j + 1][..j] == cols[..j];
    SequenceStatementsAppend(g, db, AutoIncColumnsOf(cols[..j]),
                             if cols[j].dataType == AutoInc then [cols[j]] else []);
  }

  /** The sequence statements of one table's auto-increment columns, appended to `script`. */
  method CreateTableSequences(g: Generator, db: Database, t: Table, script: seq<string>) returns (out: seq<string>)
    ensures out == script + SequenceStatements(g, db, AutoIncColumnsOf(t.columns))
  {
    var cols := t.columns;
    out := script;
    var j := 0;
    while j < |cols|
      invariant 0 <= j <= |cols|
      invariant out == script + SequenceStatements(g, db, AutoIncColumnsOf(cols[..j]))
    {
      SequenceStatementsStep(g, db, cols, j);
      if cols[j].dataType == AutoInc {
        var before := out;
        out := CreateSequence(g, db, cols[j], out);
        AppendedOne(before, out, SequenceStatement(g, db, cols[j]));
      }
      j := j + 1;
    }
    assert cols[..j] == cols;
  }

  /** One more table visited adds the sequence statements of its auto-increment columns. */
  lemma SequenceStatementsTableStep(g: Generator, db: Database, tables: seq<Table>, i: int)
    requires 0 <= i < |tables|
    ensures SequenceStatements(g, db, AutoIncColumns(tables[..i + 1]))
         == SequenceStatements(g, db, AutoIncColumns(tables[..i]))
            + SequenceStatements(g, db, AutoIncColumnsOf(tables[i].columns))
  {
    assert tables[..i + 1][..i] == tables[..i];
    SequenceStatementsAppend(g, db, AutoIncColumns(tables[..i]), AutoIncColumnsOf(tables[i].columns));
  }

  /** Associativity of concatenation, stated so that the loop in CreateDatabase stays within its resource budget. */
  lemma AppendAssoc(a: seq<string>, b: seq<string>, c: seq<string>)
    ensures (a + b) + c == a + (b + c)
  {
  }

  /** The three consecutive parts of a script can be read back by position. */
  lemma ThreeParts(a: seq<string>, b: seq<string>, c: seq<string>)
    ensures var s := a + b + c;
      && |s| == |a| + |b| + |c|
      && s[..|a|] == a
      && s[|a|..|a| + |b|] == b
      && s[|a| + |b|..] == c
  {
  }

  /**
   * The PostgreSQL createDatabase: sequence statements for every
   * auto-increment column, then the base pass's CREATE TABLE statements,
   * appended to `script`.
   */
  method CreateDatabase(g: Generator, db: Database, script: seq<string>) returns (out: seq<string>)
    ensures var seqs := SequencePass(g, db);
      var tables := g.base.createTables(db, ColumnRenderer(g));
      && |out| == |script| + |seqs| + |tables|
      && out[..|script|] == script
      && out[|script|..|script| + |seqs|] == seqs
      && out[|script| + |seqs|..] == tables
  {
    out := script;
    var i := 0;
    while i < |db.tables|
      invariant 0 <= i <= |db.tables|
      invariant out == script + SequenceStatements(g, db, AutoIncColumns(db.tables[..i]))
    {
      SequenceStatementsTableStep(g, db, db.tables, i);
      AppendAssoc(script, SequenceStatements(g, db, AutoIncColumns(db.tables[..i])),
                  SequenceStatements(g, db, AutoIncColumnsOf(db.tables[i].columns)));
      out := CreateTableSequences(g, db, db.tables[i], out);
      i := i + 1;
    }
    assert db.tables[..i] == db.tables;
    var tables := g.base.createTables(db, ColumnRenderer(g));
    ThreeParts(script, SequencePass(g, db), tables);
    out := out + tables;
  }

  /**
   * A database with one table T(id: auto-increment, size 4; name: text,
   * required) gets exactly one sequence statement, the one for id.
   */
  lemma OneTableScenarioSequences(g: Generator)
    ensures var id := Column("id", AutoInc, 4, false, true, None);
      var name := Column("name", Text, 50, true, false, None);
      var db := Database([Table("T", [id, name])]);
      SequencePass(g, db) == [SequenceStatement(g, db, id)]
  {
  }

  /**
   * In that table, id renders as SERIAL NOT NULL and name as the base's text
   * keyword followed by NOT NULL.
   */
  lemma OneTableScenarioColumns(g: Generator, textKeyword: string)
    requires g.base.columnType(g.names, Text, 50, Column("name", Text, 50, true, false, None)) == Some(textKeyword)
    ensures var id := Column("id", AutoInc, 4, false, true, None);
      ColumnPieces(g, id, false) == [g.naming.columnName(id), " ", "SERIAL", " NOT NULL"]
    ensures var name := Column("name", Text, 50, true, false, None);
      ColumnPieces(g, name, false) == [g.naming.columnName(name), " ", textKeyword, " NOT NULL"]
  {
  }
}
