/**
 * The pure naming helpers of the base migration class: table-name wrapping,
 * long-name truncation, column imploding, generated index and foreign-key
 * names, and the ENUM column type builder.
 */
module MigrationNames {
  import opened Wrappers
  import opened PhpStrings
  import opened PhpValues

  /** Longest identifier a generated name may have. */
  const MaxNameLength: nat := 64
  /** Length of a SHA-1 digest written in hexadecimal. */
  const HashLength: nat := 40
  /** How many characters of a long name survive truncation: 64 - 3 - 40. */
  const KeptLength: nat := MaxNameLength - 3 - HashLength

  const PrefixForeignKey := "fk_"
  const PrefixForeignKeyIndex := "fkidx_"
  const PrefixIndex := "idx_"
  const PrefixUniqueIndex := "uidx_"
  const PrefixPrimaryKey := "pk_"

  const FkRestrict := "RESTRICT"
  const FkCascade := "CASCADE"
  const FkNoAction := "NO ACTION"
  const FkSetDefault := "SET DEFAULT"
  const FkSetNull := "SET NULL"

  const NotNull := " NOT NULL"
  const DefaultNull := " DEFAULT NULL"
  const DefaultPrefix := " DEFAULT "

  /** A SHA-1 digest in hexadecimal: all the model assumes of `sha1`. */
  type Sha1Hex = s: string | |s| == 40 witness "0000000000000000000000000000000000000000"

  /**
   * The database connection and PHP built-ins the helpers call but do not
   * define: the driver name and charset, the schema's `getRawTableName` and
   * `quoteValue`, the query builder's `buildColumns`, and `sha1`.
   */
  datatype Db = Db(
    driverName: string,
    charset: string,
    rawTableName: string -> string,
    buildColumns: Value -> string,
    quoteValue: string -> string,
    sha1: string -> Sha1Hex)

  const WrapStartChars: set<char> := {'{', '%'}
  const WrapEndChars: set<char> := {'}'}

  /** A table name that wrapping keeps as it is: it neither starts with `{` or `%` nor ends with `}`. */
  predicate IsBareTableName(name: string)
  {
    name == [] || (name[0] !in WrapStartChars && name[|name| - 1] !in WrapEndChars)
  }

  /** The name inside the wrapping: leading `{`/`%` and trailing `}` trimmed off. */
  function BareTableName(table: string): string
  {
    RTrim(LTrim(table, WrapStartChars), WrapEndChars)
  }

  /** `wrapTableName`: the bare name wrapped as `{{%name}}`. */
  function WrapTableName(table: string): string
  {
    "{{%" + BareTableName(table) + "}}"
  }

  /** Trimming leaves a name with no wrapping marks at either end. */
  lemma BareTableNameIsBare(table: string)
    ensures IsBareTableName(BareTableName(table))
  {
    var s := LTrim(table, WrapStartChars);
    LTrimDropsLongestPrefix(table, WrapStartChars);
    RTrimDropsLongestSuffix(s, WrapEndChars);
    var r := RTrim(s, WrapEndChars);
    assert r != [] ==> r[0] == s[0];
  }

  /** A wrapped name is `{{%`, then a name with no wrapping marks at its ends, then `}}`. */
  lemma WrapTableNameShape(table: string)
    ensures var r := WrapTableName(table);
      && |r| >= 5 && r[..3] == "{{%" && r[|r| - 2..] == "}}"
      && IsBareTableName(r[3..|r| - 2])
      && r[3..|r| - 2] == BareTableName(table)
  {
    BareTableNameIsBare(table);
    var bare := BareTableName(table);
    var r := WrapTableName(table);
    assert r[3..|r| - 2] == bare;
  }

  /** A name that carries no wrapping marks is its own bare name. */
  lemma BareTableNameOfBare(name: string)
    requires IsBareTableName(name)
    ensures BareTableName(name) == name
  {
    assert LTrim(name, WrapStartChars) == name;
  }

  /** A name that carries no wrapping marks is wrapped exactly as `{{%name}}`. */
  lemma BareTableNameIsWrappedAsIs(name: string)
    requires IsBareTableName(name)
    ensures WrapTableName(name) == "{{%" + name + "}}"
  {
    BareTableNameOfBare(name);
  }

  /** `ltrim` of a wrapped bare name removes exactly the opening `{{%`. */
  lemma LTrimOfWrapped(bare: string)
    requires IsBareTableName(bare)
    ensures LTrim("{{%" + bare + "}}", WrapStartChars) == bare + "}}"
  {
    var tail := bare + "}}";
    assert "{{%" + bare + "}}" == "{{%" + tail;
    LTrimSkipsPrefix("{{%", tail, WrapStartChars);
    LTrimStops(tail, WrapStartChars);
  }

  /** `rtrim` of a bare name followed by `}}` removes exactly the `}}`. */
  lemma RTrimOfWrapped(bare: string)
    requires IsBareTableName(bare)
    ensures RTrim(bare + "}}", WrapEndChars) == bare
  {
    RTrimSkipsSuffix(bare, "}}", WrapEndChars);
    RTrimStops(bare, WrapEndChars);
  }

  /** Wrapping a wrapped name changes nothing. */
  lemma WrapTableNameIdempotent(table: string)
    ensures WrapTableName(WrapTableName(table)) == WrapTableName(table)
  {
    var bare := BareTableName(table);
    var w := WrapTableName(table);
    BareTableNameIsBare(table);
    LTrimOfWrapped(bare);
    RTrimOfWrapped(bare);
    assert BareTableName(w) == bare;
  }

  /** `autoWrappedTableName`: wraps only while `$autoWrapTableNames` is on. */
  function AutoWrappedTableName(autoWrap: bool, table: string): string
  {
    if autoWrap then WrapTableName(table) else table
  }

  /** Every table operation may wrap a name that was wrapped already: the result is the same. */
  lemma AutoWrappedTableNameIdempotent(autoWrap: bool, table: string)
    ensures AutoWrappedTableName(autoWrap, AutoWrappedTableName(autoWrap, table))
         == AutoWrappedTableName(autoWrap, table)
    ensures !autoWrap ==> AutoWrappedTableName(autoWrap, table) == table
  {
    if autoWrap {
      WrapTableNameIdempotent(table);
    }
  }

  /**
   * `truncateLongName`: a name over 64 characters becomes its first 21
   * characters, `___` and the SHA-1 digest of the whole name.
   */
  function TruncateLongName(db: Db, name: string): (r: string)
    ensures |r| <= MaxNameLength
    ensures |name| <= MaxNameLength ==> r == name
    ensures |name| > MaxNameLength ==>
              |r| == MaxNameLength && r[..KeptLength] == name[..KeptLength]
              && r[KeptLength..KeptLength + 3] == "___" && r[KeptLength + 3..] == db.sha1(name)
  {
    if |name| > MaxNameLength then
      var hash := db.sha1(name);
      name[..MaxNameLength - 3 - |hash|] + "___" + hash
    else name
  }

  /** Truncating a truncated name changes nothing. */
  lemma TruncateLongNameIdempotent(db: Db, name: string)
    ensures TruncateLongName(db, TruncateLongName(db, name)) == TruncateLongName(db, name)
  {
  }

  /** Two long names truncate to the same name only if their digests collide. */
  lemma TruncatedNamesCollideOnlyOnDigest(db: Db, a: string, b: string)
    requires |a| > MaxNameLength && |b| > MaxNameLength
    requires TruncateLongName(db, a) == TruncateLongName(db, b)
    ensures a[..KeptLength] == b[..KeptLength] && db.sha1(a) == db.sha1(b)
  {
    var r := TruncateLongName(db, a);
    assert r[KeptLength + 3..] == db.sha1(a) && r[KeptLength + 3..] == db.sha1(b);
  }

  /** Quoting and bracket characters that `implodeColumns` deletes. */
  const ColumnJunkChars: set<char> := {'{', '}', '[', ']', '"', '\'', '(', ')', ' ', '`'}

  /**
   * `implodeColumns`: the query builder's column list with quoting, brackets
   * and spaces deleted, its comma-separated pieces joined with `__`.
   */
  function ImplodeColumns(db: Db, columns: Value): (r: string)
    ensures forall i :: 0 <= i < |r| ==> r[i] !in ColumnJunkChars && r[i] != ','
    ensures r == ReplaceChar(DeleteChars(db.buildColumns(columns), ColumnJunkChars), ',', "__")
  {
    var stripped := DeleteChars(db.buildColumns(columns), ColumnJunkChars);
    ImplodeExplodeReplaces(',', "__", stripped);
    Implode("__", Explode(',', stripped))
  }

  /** Each column name quoted between `open` and `close`, as drivers quote column names. */
  function QuoteEach(names: seq<string>, open: char, close: char): (r: seq<string>)
    ensures |r| == |names|
    ensures forall k :: 0 <= k < |names| ==> r[k] == [open] + names[k] + [close]
  {
    seq(|names|, k requires 0 <= k < |names| => [open] + names[k] + [close])
  }

  /** Column names without quoting characters, spaces or commas. */
  predicate PlainColumnNames(names: seq<string>)
  {
    forall k, i :: 0 <= k < |names| && 0 <= i < |names[k]| ==>
      names[k][i] !in ColumnJunkChars && names[k][i] != ','
  }

  /** Deleting quotes and spaces from a quoted `, `-separated list leaves the `,`-separated names. */
  lemma {:induction false} StripQuotedList(names: seq<string>, open: char, close: char)
    requires |names| >= 1 && PlainColumnNames(names)
    requires open in ColumnJunkChars && close in ColumnJunkChars
    ensures DeleteChars(Implode(", ", QuoteEach(names, open, close)), ColumnJunkChars) == Implode(",", names)
    decreases |names|
  {
    var q := QuoteEach(names, open, close);
    var n := names[0];
    DeleteCharsAppend([open], n, ColumnJunkChars);
    DeleteCharsAppend([open] + n, [close], ColumnJunkChars);
    DeleteCharsKeepsClean(n, ColumnJunkChars);
    assert DeleteChars([open], ColumnJunkChars) == [];
    assert DeleteChars([close], ColumnJunkChars) == [];
    assert DeleteChars(q[0], ColumnJunkChars) == n;
    if |names| > 1 {
      var tail := QuoteEach(names[1..], open, close);
      assert q[1..] == tail;
      StripQuotedList(names[1..], open, close);
      DeleteCharsAppend(q[0], ", ", ColumnJunkChars);
      DeleteCharsAppend(q[0] + ", ", Implode(", ", tail), ColumnJunkChars);
      assert DeleteChars(", ", ColumnJunkChars) == ",";
    }
  }

  /**
   * Whatever quoting characters the driver puts around column names, the
   * imploded form of a column list is the plain names joined with `__`.
   */
  lemma QuotedColumnListImplodes(db: Db, columns: Value, names: seq<string>, open: char, close: char)
    requires |names| >= 1 && PlainColumnNames(names)
    requires open in ColumnJunkChars && close in ColumnJunkChars
    requires db.buildColumns(columns) == Implode(", ", QuoteEach(names, open, close))
    ensures ImplodeColumns(db, columns) == Implode("__", names)
  {
    StripQuotedList(names, open, close);
    ExplodeImplode(',', names);
  }

  /** The prefix `generateIndexName` uses: the given one, or `idx_` for `null`. */
  function IndexPrefix(prefix: Option<string>): string
  {
    if prefix.Some? then prefix.value else PrefixIndex
  }

  /** A short prefix survives truncation at the head of the name. */
  lemma TruncatedNameKeepsPrefix(db: Db, p: string, rest: string)
    ensures |p| <= KeptLength ==>
              var r := TruncateLongName(db, p + rest); |p| <= |r| && r[..|p|] == p
  {
    if |p| > KeptLength { return; }
    var name := p + rest;
    var r := TruncateLongName(db, name);
    if |name| > MaxNameLength {
      assert r[..|p|] == r[..KeptLength][..|p|];
      assert name[..KeptLength][..|p|] == p;
    } else {
      assert name[..|p|] == p;
    }
  }

  /**
   * `generateIndexName`: prefix, raw table name, `___`, imploded columns,
   * truncated to 64 characters; the prefix stays visible at the head.
   */
  function GenerateIndexName(db: Db, table: string, columns: Value, prefix: Option<string>): (r: string)
    ensures |r| <= MaxNameLength
    ensures |IndexPrefix(prefix)| <= KeptLength ==>
              |IndexPrefix(prefix)| <= |r| && r[..|IndexPrefix(prefix)|] == IndexPrefix(prefix)
  {
    var p := IndexPrefix(prefix);
    var rest := db.rawTableName(table) + "___" + ImplodeColumns(db, columns);
    TruncatedNameKeepsPrefix(db, p, rest);
    TruncateLongName(db, p + rest)
  }

  /**
   * `generateForeignKeyName`: `fk_`, table, `__`, columns, `___`, referenced
   * table, `__`, referenced columns, truncated to 64 characters.
   */
  function GenerateForeignKeyName(db: Db, table: string, columns: Value, refTable: string, refColumns: Value): (r: string)
    ensures |r| <= MaxNameLength
    ensures |PrefixForeignKey| <= |r| && r[..|PrefixForeignKey|] == PrefixForeignKey
  {
    var rest := db.rawTableName(table) + "__" + ImplodeColumns(db, columns) + "___"
                + db.rawTableName(refTable) + "__" + ImplodeColumns(db, refColumns);
    TruncatedNameKeepsPrefix(db, PrefixForeignKey, rest);
    TruncateLongName(db, PrefixForeignKey + rest)
  }

  /** The failures `typeEnum` throws. */
  datatype EnumError = NotNullWithDefaultNull | DefaultNotInValues(default: string)

  /** The values quoted by the schema, in order. */
  function QuoteAll(db: Db, values: seq<string>): (r: seq<string>)
    ensures |r| == |values|
    ensures forall k :: 0 <= k < |values| ==> r[k] == db.quoteValue(values[k])
  {
    seq(|values|, k requires 0 <= k < |values| => db.quoteValue(values[k]))
  }

  /** The ` DEFAULT ...` clause that ends an ENUM type. */
  function DefaultClause(db: Db, default: Option<string>): string
  {
    if default.None? then DefaultNull else DefaultPrefix + db.quoteValue(default.value)
  }

  /**
   * `typeEnum`: `ENUM(v1, v2, ...)`, then ` NOT NULL` if asked for, then the
   * default clause. A `null` default on a NOT NULL column, or a default that
   * is not one of the values, is refused.
   */
  function TypeEnum(db: Db, values: seq<string>, default: Option<string>, notNull: bool): (r: Result<string, EnumError>)
    ensures r.Failure? <==> (default.None? && notNull) || (default.Some? && default.value !in values)
    ensures r.Failure? && default.None? ==> r.error == NotNullWithDefaultNull
    ensures r.Failure? && default.Some? ==> r.error == DefaultNotInValues(default.value)
    ensures r.Success? ==>
              var head := "ENUM(" + Implode(", ", QuoteAll(db, values)) + ")";
              var tail := (if notNull then NotNull else "") + DefaultClause(db, default);
              |r.value| == |head| + |tail| && r.value[..|head|] == head && r.value[|head|..] == tail
  {
    if default.None? && notNull then Failure(NotNullWithDefaultNull)
    else if default.Some? && default.value !in values then Failure(DefaultNotInValues(default.value))
    else
      var result := "ENUM(" + Implode(", ", QuoteAll(db, values)) + ")";
      var result := if notNull then result + NotNull else result;
      Success(result + DefaultClause(db, default))
  }
}
