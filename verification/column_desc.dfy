/**
 * The PostgreSQL column clause: name, separator, type, an optional DEFAULT and
 * an optional NOT NULL, appended to the statement buffer in that order.
 *
 * The buffer is modelled by the list of fragments appended to it, one per
 * append, so that the clause's structure can be read back exactly; the text
 * is their concatenation.
 */
module ColumnDesc {
  import opened Wrappers
  import opened Schema
  import opened Dialect
  import opened TypeResolver

  const AlterSeparator := " TYPE "
  const CreateSeparator := " "
  const DefaultKeyword := " DEFAULT "
  const NotNullKeyword := " NOT NULL"

  /** What follows the name: the ALTER COLUMN form changes the type, the CREATE form just names it. */
  function Separator(alter: bool): string
  {
    if alter then AlterSeparator else CreateSeparator
  }

  /** The strings appended to a buffer, in order. */
  type Fragments = seq<string>

  /** The buffer's text after the appends. */
  function Concat(fs: Fragments): string
  {
    if fs == [] then "" else Concat(fs[..|fs| - 1]) + fs[|fs| - 1]
  }

  lemma {:induction false} ConcatAppend(a: Fragments, b: Fragments)
    ensures Concat(a + b) == Concat(a) + Concat(b)
    decreases |b|
  {
    if b == [] {
      assert a + b == a;
    } else {
      var b' := b[..|b| - 1];
      assert (a + b)[..|a + b| - 1] == a + b';
      ConcatAppend(a, b');
    }
  }

  /** The structure of a column clause: which parts are present, and what they say. */
  datatype ClauseShape = ClauseShape(
    name: string,
    alter: bool,
    typeName: Option<string>,
    defaultLiteral: Option<string>,
    notNull: bool)

  /** Without a type the clause stops after the separator. */
  predicate WellFormed(s: ClauseShape)
  {
    s.typeName.None? ==> s.defaultLiteral.None? && !s.notNull
  }

  /** The fragments a clause of shape `s` consists of. */
  function Render(s: ClauseShape): Fragments
  {
    [s.name, Separator(s.alter)]
    + (if s.typeName.Some? then [s.typeName.value] else [])
    + (if s.defaultLiteral.Some? then [DefaultKeyword, s.defaultLiteral.value] else [])
    + (if s.notNull then [NotNullKeyword] else [])
  }

  /** Reads a clause's shape back from its fragments, or None when they are not a clause. */
  function Parse(fs: Fragments): Option<ClauseShape>
  {
    if |fs| < 2 || (fs[1] != AlterSeparator && fs[1] != CreateSeparator) then None
    else
      var alter := fs[1] == AlterSeparator;
      if |fs| == 2 then Some(ClauseShape(fs[0], alter, None, None, false))
      else
        var rest := fs[3..];
        var hasDefault := |rest| >= 2 && rest[0] == DefaultKeyword;
        var tail := if hasDefault then rest[2..] else rest;
        var dflt := if hasDefault then Some(rest[1]) else None;
        if tail == [] then Some(ClauseShape(fs[0], alter, Some(fs[2]), dflt, false))
        else if tail == [NotNullKeyword] then Some(ClauseShape(fs[0], alter, Some(fs[2]), dflt, true))
        else None
  }

  /** Every well-formed shape is read back from its rendering. */
  lemma ParseRender(s: ClauseShape)
    requires WellFormed(s)
    ensures Parse(Render(s)) == Some(s)
  {
  }

  /** Whatever parses is the rendering of a well-formed shape, so parsing loses nothing. */
  lemma RenderParse(fs: Fragments)
    requires Parse(fs).Some?
    ensures WellFormed(Parse(fs).value)
    ensures Render(Parse(fs).value) == fs
  {
  }

  /** The DEFAULT clause is written only when the driver wants defaults, the column is not auto-generated and has one. */
  predicate EmitsDefault(g: Generator, c: Column)
  {
    g.driver.ddlColumnDefaults && !c.autoGenerated && c.defaultValue.Some?
  }

  /** NOT NULL is written for required and for auto-generated columns. */
  predicate EmitsNotNull(c: Column)
  {
    c.required || c.autoGenerated
  }

  /**
   * The clause the generator should produce for column `c`: everything after
   * the separator depends on the type being known.
   */
  function Intended(g: Generator, c: Column, alter: bool): (s: ClauseShape)
  {
    var t := ResolveType(g, c.dataType, c.size, c);
    ClauseShape(
      g.naming.columnName(c),
      alter,
      t,
      if t.Some? && EmitsDefault(g, c)
      then Some(g.driver.valueString(c.defaultValue.value, c.dataType))
      else None,
      t.Some? && EmitsNotNull(c))
  }

  /** The fragments appended for column `c`, in the order the generator appends them. */
  function ColumnPieces(g: Generator, c: Column, alter: bool): (r: Fragments)
    ensures |r| >= 2 && r[0] == g.naming.columnName(c) && r[1] == Separator(alter)
    ensures Parse(r) == Some(Intended(g, c, alter))
  {
    var head := [g.naming.columnName(c), Separator(alter)];
    match ResolveType(g, c.dataType, c.size, c)
    case None => head
    case Some(k) =>
      var r := head + [k]
        + (if EmitsDefault(g, c)
           then [DefaultKeyword, g.driver.valueString(c.defaultValue.value, c.dataType)]
           else [])
        + (if EmitsNotNull(c) then [NotNullKeyword] else []);
      assert r == Render(Intended(g, c, alter));
      ParseRender(Intended(g, c, alter));
      r
  }

  /** The text of fragments is their first two, then the concatenation of the rest. */
  lemma ConcatHeadTwo(fs: Fragments)
    requires |fs| >= 2
    ensures Concat(fs) == fs[0] + fs[1] + Concat(fs[2..])
  {
    var head := fs[..2];
    assert head[..1] == [fs[0]];
    assert [fs[0]][..0] == [];
    assert Concat([fs[0]]) == fs[0];
    assert Concat(head) == fs[0] + fs[1];
    ConcatAppend(head, fs[2..]);
    assert fs == head + fs[2..];
  }

  /** The text appended for column `c`. */
  function ColumnText(g: Generator, c: Column, alter: bool): (r: string)
    ensures r == Concat(ColumnPieces(g, c, alter))
    ensures var prefix := g.naming.columnName(c) + Separator(alter);
      |prefix| <= |r| && r[..|prefix|] == prefix
    ensures ResolveType(g, c.dataType, c.size, c).None?
      ==> r == g.naming.columnName(c) + Separator(alter)
    ensures ResolveType(g, c.dataType, c.size, c).Some? && EmitsNotNull(c)
      ==> |NotNullKeyword| <= |r| && r[|r| - |NotNullKeyword|..] == NotNullKeyword
  {
    var fs := ColumnPieces(g, c, alter);
    ConcatHeadTwo(fs);
    Concat(fs)
  }

  /** The renderer the base CREATE TABLE pass uses for each column. */
  function ColumnRenderer(g: Generator): (Column, bool) -> string
  {
    (c: Column, alter: bool) => ColumnText(g, c, alter)
  }

  /** An unknown type leaves exactly the name and separator in the buffer, and nothing else. */
  lemma UnresolvedStopsAfterSeparator(g: Generator, c: Column, alter: bool)
    ensures ResolveType(g, c.dataType, c.size, c).None?
      <==> ColumnPieces(g, c, alter) == [g.naming.columnName(c), Separator(alter)]
  {
  }

  /** A required column with a known type always ends in NOT NULL, default or not. */
  lemma RequiredEndsNotNull(g: Generator, c: Column, alter: bool)
    requires c.required
    requires ResolveType(g, c.dataType, c.size, c).Some?
    ensures var r := ColumnPieces(g, c, alter); r[|r| - 1] == NotNullKeyword
  {
  }

  /** An auto-generated column never carries DEFAULT: its clause is name, separator, type, NOT NULL. */
  lemma AutoGeneratedSuppressesDefault(g: Generator, c: Column, alter: bool)
    requires c.autoGenerated
    requires ResolveType(g, c.dataType, c.size, c).Some?
    ensures ColumnPieces(g, c, alter) == [g.naming.columnName(c), Separator(alter),
                                          ResolveType(g, c.dataType, c.size, c).value, NotNullKeyword]
  {
  }

  /**
   * Only two kinds of fragment follow the type: the DEFAULT keyword with its
   * literal, and NOT NULL; an optional column gets no nullability keyword.
   */
  lemma OptionalColumnHasNoNullKeyword(g: Generator, c: Column, alter: bool)
    requires !c.required && !c.autoGenerated
    ensures !Parse(ColumnPieces(g, c, alter)).value.notNull
    ensures var r := ColumnPieces(g, c, alter);
      |r| == (if ResolveType(g, c.dataType, c.size, c).None? then 2
              else if EmitsDefault(g, c) then 5 else 3)
  {
  }
}
