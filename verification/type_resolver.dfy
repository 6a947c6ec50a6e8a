/**
 * The PostgreSQL type resolution step: the dialect handles auto-increment,
 * floating-point and binary-large-object columns itself, in that order, and
 * hands every other type to the base generator.
 */
module TypeResolver {
  import opened Wrappers
  import opened Schema
  import opened Dialect

  /** Auto-increment columns at least this many bytes wide become BIGSERIAL. */
  const BigSerialBytes := 8

  /** The magnitude of a size; its sign carries no meaning for a width. */
  function Abs(x: int): (r: nat)
    ensures r == x || r == -x
  {
    if x < 0 then -x else x
  }

  /** The types the PostgreSQL dialect renders without asking the base generator. */
  predicate DialectType(t: DataType)
  {
    t == AutoInc || t == Float || t == Blob
  }

  /**
   * The SQL type keyword for a column of type `t` and size `size`, or None
   * when the type is unknown (`appendColumnDataType`'s `false` return, with
   * nothing appended).
   */
  function ResolveType(g: Generator, t: DataType, size: int, c: Column): (r: Option<string>)
    ensures t == AutoInc ==> (r == Some("BIGSERIAL") <==> Abs(size) >= BigSerialBytes)
    ensures t == AutoInc ==> (r == Some("SERIAL") <==> Abs(size) < BigSerialBytes)
    ensures t == Float ==> r == Some("DOUBLE PRECISION")
    ensures t == Blob ==> r == Some(g.names(Blob))
    ensures !DialectType(t) ==> r == g.base.columnType(g.names, t, size, c)
    ensures r == None ==> !DialectType(t)
  {
    match t
    case AutoInc => Some(if Abs(size) >= BigSerialBytes then "BIGSERIAL" else "SERIAL")
    case Float => Some("DOUBLE PRECISION")
    case Blob => Some(g.names(Blob))
    case _ => g.base.columnType(g.names, t, size, c)
  }

  /** The sign of an auto-increment size does not change its keyword. */
  lemma AutoIncSignIgnored(g: Generator, size: int, c1: Column, c2: Column)
    ensures ResolveType(g, AutoInc, -size, c1) == ResolveType(g, AutoInc, size, c2)
  {
  }

  /** A wider auto-increment column never gets a narrower keyword. */
  lemma AutoIncWidthMonotone(g: Generator, a: int, b: int, c: Column)
    requires Abs(a) <= Abs(b)
    requires ResolveType(g, AutoInc, a, c) == Some("BIGSERIAL")
    ensures ResolveType(g, AutoInc, b, c) == Some("BIGSERIAL")
  {
  }

  /** Floating-point columns get the same keyword whatever their size. */
  lemma FloatIgnoresSize(g: Generator, s1: int, s2: int, c1: Column, c2: Column)
    ensures ResolveType(g, Float, s1, c1) == ResolveType(g, Float, s2, c2) == Some("DOUBLE PRECISION")
  {
  }

  /** A constructed PostgreSQL generator renders binary large objects as BYTEA, whatever the size. */
  lemma PostgreBlobIsBytea(base: Base, driver: Driver, naming: Naming, size: int, c: Column)
    ensures ResolveType(NewGenerator(base, driver, naming), Blob, size, c) == Some("BYTEA")
  {
  }

  /** The base generator renders type `t` with the type-name table's keyword. */
  ghost predicate UsesTypeName(base: Base, t: DataType)
  {
    forall names, size, c :: base.columnType(names, t, size, c) == Some(names(t))
  }

  /**
   * When the base generator renders booleans and character large objects from
   * the type-name table, a constructed PostgreSQL generator yields the
   * dialect's keywords for them, whatever the size.
   */
  lemma PostgreOverridesReachBase(base: Base, driver: Driver, naming: Naming, size: int, c: Column)
    requires UsesTypeName(base, Bool) && UsesTypeName(base, Clob)
    ensures ResolveType(NewGenerator(base, driver, naming), Bool, size, c) == Some("BOOLEAN")
    ensures ResolveType(NewGenerator(base, driver, naming), Clob, size, c) == Some("TEXT")
  {
  }

  /**
   * For every type it does not handle itself, the PostgreSQL generator gives
   * exactly what the base generator gives with the overridden type-name table.
   */
  lemma DelegatesToBase(base: Base, driver: Driver, naming: Naming, t: DataType, size: int, c: Column)
    requires !DialectType(t)
    ensures ResolveType(NewGenerator(base, driver, naming), t, size, c)
         == base.columnType(InitDataTypes(base.defaultNames), t, size, c)
  {
  }
}
