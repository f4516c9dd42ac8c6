/**
 * The declarative table description of a create-table migration and the
 * checks it must pass before any operation is issued.
 */
module TableConfigs {
  import opened Wrappers
  import opened PhpStrings
  import opened PhpValues
  import opened MigrationNames

  /** Keys of one foreign-key entry. */
  const CfgColumns := "columns"
  const CfgRefTable := "refTable"
  const CfgRefColumns := "refColumns"
  const CfgOnDelete := "onDelete"
  const CfgOnUpdate := "onUpdate"
  const CfgUnique := "unique"

  /** What a create-table migration declares: `tableName()`, `tableColumns()`, `tableForeignKeys()`, `tableIndexes()`. */
  datatype TableConfig = TableConfig(
    tableName: string,
    columns: PhpArray,
    foreignKeys: PhpArray,
    indexes: PhpArray)

  /** The configuration errors, one per message the validators throw. */
  datatype ConfigError =
    | ColumnsNotNamed
    | ForeignKeyNameTooLong
    | ForeignKeyIncomplete
    | ForeignKeyBadAction(property: string)
    | ForeignKeyBadUnique
    | ForeignKeyUnknownKey(key: Key)
    | IndexFieldsNotString
    | IndexUniqueNotBool

  /** The failure of the first element that fails `check`, scanning in order. */
  function FirstFailure<T>(xs: seq<T>, check: T -> Option<ConfigError>): (r: Option<ConfigError>)
    ensures r.None? <==> forall i :: 0 <= i < |xs| ==> check(xs[i]).None?
    ensures r.Some? ==> exists i :: 0 <= i < |xs| && check(xs[i]) == r
                                    && forall j :: 0 <= j < i ==> check(xs[j]).None?
    decreases |xs|
  {
    if xs == [] then None
    else if check(xs[0]).Some? then check(xs[0])
    else
      var r := FirstFailure(xs[1..], check);
      assert forall i :: 1 <= i < |xs| ==> xs[i] == xs[1..][i - 1];
      r
  }

  /** A scan that stops at the first failing element reports what `FirstFailure` reports. */
  lemma FirstFailureAt<T>(xs: seq<T>, check: T -> Option<ConfigError>, i: nat)
    requires i < |xs| && check(xs[i]).Some?
    requires forall k :: 0 <= k < i ==> check(xs[k]).None?
    ensures FirstFailure(xs, check) == check(xs[i])
  {
    var r := FirstFailure(xs, check);
    var i' :| 0 <= i' < |xs| && check(xs[i']) == r && forall j :: 0 <= j < i' ==> check(xs[j]).None?;
    assert i' == i;
  }

  /** A column declared by position rather than by name. */
  function ColumnError(e: Entry): Option<ConfigError>
  {
    if e.key.IntKey? then Some(ColumnsNotNamed) else None
  }

  /** `validateTableColumns`: every column must be declared under a name. */
  function ValidateTableColumns(columns: PhpArray): (r: Option<ConfigError>)
    ensures r.None? <==> forall i :: 0 <= i < |columns| ==> columns[i].key.StrKey?
    ensures r.Some? ==> r.value == ColumnsNotNamed
  {
    FirstFailure(columns, ColumnError)
  }

  /** The five referential actions, as `strtoupper` leaves them. */
  const ReferentialActions: set<string> := {FkRestrict, FkSetNull, FkCascade, FkNoAction, FkSetDefault}

  /** An `onDelete`/`onUpdate` value the validator accepts: `null`, or a string naming an action in any case. */
  predicate AllowedAction(v: Value)
  {
    v.Null? || (v.Str? && ToUpper(v.s) in ReferentialActions)
  }

  /** The keys a foreign-key entry may have. */
  predicate KnownForeignKeyKey(k: Key)
  {
    k.StrKey? && k.s in {CfgColumns, CfgRefTable, CfgRefColumns, CfgOnDelete, CfgOnUpdate, CfgUnique}
  }

  /** The first key of a foreign-key entry that is not a known one (`array_diff_key` then `key`). */
  function FirstUnknownKey(a: PhpArray): (r: Option<Key>)
    ensures r.None? <==> forall i :: 0 <= i < |a| ==> KnownForeignKeyKey(a[i].key)
    ensures r.Some? ==> exists i :: 0 <= i < |a| && a[i].key == r.value && !KnownForeignKeyKey(r.value)
                                    && forall j :: 0 <= j < i ==> KnownForeignKeyKey(a[j].key)
    decreases |a|
  {
    if a == [] then None
    else if !KnownForeignKeyKey(a[0].key) then Some(a[0].key)
    else
      var r := FirstUnknownKey(a[1..]);
      assert forall i :: 1 <= i < |a| ==> a[i] == a[1..][i - 1];
      r
  }

  /** The checks of one foreign-key entry, in the order `validateForeignKeys` makes them. */
  function ForeignKeyError(e: Entry): Option<ConfigError>
  {
    var fk := e.value;
    if e.key.StrKey? && |e.key.s| > MaxNameLength then Some(ForeignKeyNameTooLong)
    else if !fk.Arr? || !IsSet(fk, CfgColumns) || !IsSet(fk, CfgRefTable) || !IsSet(fk, CfgRefColumns) then
      Some(ForeignKeyIncomplete)
    else if HasField(fk, CfgOnDelete) && !AllowedAction(Field(fk, CfgOnDelete)) then
      Some(ForeignKeyBadAction(CfgOnDelete))
    else if HasField(fk, CfgOnUpdate) && !AllowedAction(Field(fk, CfgOnUpdate)) then
      Some(ForeignKeyBadAction(CfgOnUpdate))
    else if IsSet(fk, CfgUnique) && !Field(fk, CfgUnique).Bool? then Some(ForeignKeyBadUnique)
    else
      match FirstUnknownKey(fk.entries)
      case Some(k) => Some(ForeignKeyUnknownKey(k))
      case None => None
  }

  /** A well-formed foreign-key entry, stated declaratively. */
  predicate WellFormedForeignKey(e: Entry)
  {
    && (e.key.StrKey? ==> |e.key.s| <= MaxNameLength)
    && e.value.Arr?
    && IsSet(e.value, CfgColumns) && IsSet(e.value, CfgRefTable) && IsSet(e.value, CfgRefColumns)
    && (HasField(e.value, CfgOnDelete) ==> AllowedAction(Field(e.value, CfgOnDelete)))
    && (HasField(e.value, CfgOnUpdate) ==> AllowedAction(Field(e.value, CfgOnUpdate)))
    && (IsSet(e.value, CfgUnique) ==> Field(e.value, CfgUnique).Bool?)
    && forall i :: 0 <= i < |e.value.entries| ==> KnownForeignKeyKey(e.value.entries[i].key)
  }

  /** The ordered checks accept exactly the well-formed entries. */
  lemma ForeignKeyErrorAcceptsWellFormed(e: Entry)
    ensures ForeignKeyError(e).None? <==> WellFormedForeignKey(e)
  {
  }

  /** The name length is checked before anything else: an over-long name is reported even for a non-array entry. */
  lemma ForeignKeyNameCheckedFirst(name: string, fk: Value)
    requires |name| > MaxNameLength
    ensures ForeignKeyError(Entry(StrKey(name), fk)) == Some(ForeignKeyNameTooLong)
  {
  }

  /** An unknown key is reported by the first such key of the entry. */
  lemma ForeignKeyUnknownKeyIsFirst(e: Entry, k: Key)
    requires ForeignKeyError(e) == Some(ForeignKeyUnknownKey(k))
    ensures e.value.Arr?
    ensures exists i :: 0 <= i < |e.value.entries| && e.value.entries[i].key == k && !KnownForeignKeyKey(k)
                        && forall j :: 0 <= j < i ==> KnownForeignKeyKey(e.value.entries[j].key)
  {
  }

  /** `validateForeignKeys`: the first entry that fails its checks decides the error. */
  function ValidateForeignKeys(fks: PhpArray): (r: Option<ConfigError>)
    ensures r.None? <==> forall i :: 0 <= i < |fks| ==> WellFormedForeignKey(fks[i])
    ensures r.Some? ==> exists i :: 0 <= i < |fks| && ForeignKeyError(fks[i]) == r
                                    && forall j :: 0 <= j < i ==> WellFormedForeignKey(fks[j])
  {
    var r := FirstFailure(fks, ForeignKeyError);
    assert forall i :: 0 <= i < |fks| ==> (ForeignKeyError(fks[i]).None? <==> WellFormedForeignKey(fks[i]));
    r
  }

  /** One index entry: its key must be a string and its value a boolean, in that order. */
  function IndexError(e: Entry): Option<ConfigError>
  {
    if !e.key.StrKey? then Some(IndexFieldsNotString)
    else if !e.value.Bool? then Some(IndexUniqueNotBool)
    else None
  }

  /** `validateIndexes`: field names as string keys, uniqueness as boolean values. */
  function ValidateIndexes(indexes: PhpArray): (r: Option<ConfigError>)
    ensures r.None? <==> forall i :: 0 <= i < |indexes| ==> indexes[i].key.StrKey? && indexes[i].value.Bool?
    ensures r == Some(IndexFieldsNotString) ==>
              exists i :: 0 <= i < |indexes| && indexes[i].key.IntKey?
    ensures r == Some(IndexUniqueNotBool) ==>
              exists i :: 0 <= i < |indexes| && indexes[i].key.StrKey? && !indexes[i].value.Bool?
    ensures r.Some? ==> r.value == IndexFieldsNotString || r.value == IndexUniqueNotBool
    ensures r.Some? ==> exists i :: 0 <= i < |indexes| && IndexError(indexes[i]) == r
                                    && forall j :: 0 <= j < i ==> indexes[j].key.StrKey? && indexes[j].value.Bool?
  {
    FirstFailure(indexes, IndexError)
  }

  /** `validateTableConfig`: columns, then foreign keys, then indexes; the first failure wins. */
  function ValidateTableConfig(config: TableConfig): (r: Option<ConfigError>)
    ensures r.None? <==> ValidateTableColumns(config.columns).None? && ValidateForeignKeys(config.foreignKeys).None?
                         && ValidateIndexes(config.indexes).None?
    ensures ValidateTableColumns(config.columns).Some? ==> r == Some(ColumnsNotNamed)
    ensures ValidateTableColumns(config.columns).None? && ValidateForeignKeys(config.foreignKeys).Some? ==>
              r == ValidateForeignKeys(config.foreignKeys)
    ensures ValidateTableColumns(config.columns).None? && ValidateForeignKeys(config.foreignKeys).None? ==>
              r == ValidateIndexes(config.indexes)
  {
    if ValidateTableColumns(config.columns).Some? then ValidateTableColumns(config.columns)
    else if ValidateForeignKeys(config.foreignKeys).Some? then ValidateForeignKeys(config.foreignKeys)
    else ValidateIndexes(config.indexes)
  }

  /** A column declared by position is reported before any foreign-key or index problem. */
  lemma ColumnErrorReportedFirst(config: TableConfig, i: nat)
    requires i < |config.columns| && config.columns[i].key.IntKey?
    ensures ValidateTableConfig(config) == Some(ColumnsNotNamed)
  {
  }

  /** The action check ignores case: a value passes exactly when its upper-case form does. */
  lemma AllowedActionIgnoresCase(s: string)
    ensures AllowedAction(Str(s)) <==> AllowedAction(Str(ToUpper(s)))
  {
    ToUpperIdempotent(s);
  }
}
