/**
 * A migration that creates one table from a declarative description: its
 * columns, its indexes and its foreign keys, each foreign key preceded by a
 * supporting index on the same columns unless one was already created for
 * them. `down` drops the foreign keys and then the table.
 */
module CreateTableMigrations {
  import opened Wrappers
  import opened PhpStrings
  import opened PhpValues
  import opened MigrationNames
  import opened MigrationOps
  import opened TableConfigs

  /** `$fk['columns']`. */
  function FkColumns(fk: Value): Value
  {
    Field(fk, CfgColumns)
  }

  /** `$fk['refColumns']`. */
  function FkRefColumns(fk: Value): Value
  {
    Field(fk, CfgRefColumns)
  }

  /**
   * `$fk['refTable']`, wrapped when auto-wrapping is on. A value that is not
   * a string is taken through PHP's string conversion; for an array this
   * departs from the source, where `ltrim` refuses it and the loop stops.
   */
  function FkRefTable(autoWrap: bool, fk: Value): string
  {
    AutoWrappedTableName(autoWrap, StringOf(Field(fk, CfgRefTable)))
  }

  /** `onDelete`/`onUpdate`: the configured value as written when the key exists, `RESTRICT` otherwise. */
  function FkAction(fk: Value, property: string): Value
  {
    if HasField(fk, property) then Field(fk, property) else Str(FkRestrict)
  }

  /** `@$fk['unique'] ?: false`. */
  predicate FkUnique(fk: Value)
  {
    Truthy(Field(fk, CfgUnique))
  }

  /**
   * What `up` and `down` compute for one foreign-key entry before issuing
   * anything: the names, the columns and tables, the actions, the uniqueness
   * of the supporting index, and the key under which its columns are
   * remembered.
   */
  datatype ForeignKeyPlan = ForeignKeyPlan(
    indexName: string,
    name: string,
    columns: Value,
    refTable: string,
    refColumns: Value,
    onDelete: Value,
    onUpdate: Value,
    unique: bool,
    columnKey: string)

  /** The plan of one entry: a string key names both the index and the foreign key, otherwise both names are generated. */
  function Plan(db: Db, autoWrap: bool, table: string, e: Entry): ForeignKeyPlan
  {
    var fk := e.value;
    var columns := FkColumns(fk);
    var refTable := FkRefTable(autoWrap, fk);
    var refColumns := FkRefColumns(fk);
    ForeignKeyPlan(
      if e.key.StrKey? then e.key.s else GenerateIndexName(db, table, columns, Some(PrefixForeignKeyIndex)),
      if e.key.StrKey? then e.key.s else GenerateForeignKeyName(db, table, columns, refTable, refColumns),
      columns, refTable, refColumns,
      FkAction(fk, CfgOnDelete), FkAction(fk, CfgOnUpdate), FkUnique(fk),
      ImplodeColumns(db, columns))
  }

  /** The plans of all foreign-key entries, in order. */
  function Plans(db: Db, autoWrap: bool, table: string, fks: PhpArray): (r: seq<ForeignKeyPlan>)
    ensures |r| == |fks|
    decreases |fks|
  {
    if fks == [] then []
    else Plans(db, autoWrap, table, fks[..|fks| - 1]) + [Plan(db, autoWrap, table, fks[|fks| - 1])]
  }

  /** Plan `j` is computed from foreign-key entry `j` alone. */
  lemma {:induction false} PlansAt(db: Db, autoWrap: bool, table: string, fks: PhpArray, j: nat)
    requires j < |fks|
    ensures Plans(db, autoWrap, table, fks)[j] == Plan(db, autoWrap, table, fks[j])
    decreases |fks|
  {
    var init := fks[..|fks| - 1];
    if j < |init| {
      PlansAt(db, autoWrap, table, init, j);
      assert init[j] == fks[j];
    }
  }

  /** The referenced table of a plan is already wrapped: wrapping it again changes nothing. */
  lemma PlanRefTableIsWrapped(db: Db, autoWrap: bool, table: string, e: Entry)
    ensures var p := Plan(db, autoWrap, table, e);
            AutoWrappedTableName(autoWrap, p.refTable) == p.refTable
  {
    AutoWrappedTableNameIdempotent(autoWrap, StringOf(Field(e.value, CfgRefTable)));
  }

  /** The referenced table of plan `j` is already wrapped. */
  lemma PlansRefTableIsWrapped(db: Db, autoWrap: bool, table: string, fks: PhpArray, j: nat)
    requires j < |fks|
    ensures var p := Plans(db, autoWrap, table, fks)[j];
            AutoWrappedTableName(autoWrap, p.refTable) == p.refTable
  {
    PlansAt(db, autoWrap, table, fks, j);
    PlanRefTableIsWrapped(db, autoWrap, table, fks[j]);
  }

  /** Plan `j` is the first over its set of columns. */
  predicate FirstOverColumns(plans: seq<ForeignKeyPlan>, j: nat)
    requires j < |plans|
  {
    forall i :: 0 <= i < j ==> plans[i].columnKey != plans[j].columnKey
  }

  /** The column keys of the first `n` plans. */
  function SeenColumnKeys(plans: seq<ForeignKeyPlan>, n: nat): set<string>
    requires n <= |plans|
  {
    if n == 0 then {} else SeenColumnKeys(plans, n - 1) + {plans[n - 1].columnKey}
  }

  /** A column key has been seen before plan `n` exactly when an earlier plan has it. */
  lemma {:induction false} SeenColumnKeysMembers(plans: seq<ForeignKeyPlan>, n: nat, x: string)
    requires n <= |plans|
    ensures x in SeenColumnKeys(plans, n) <==> exists i :: 0 <= i < n && plans[i].columnKey == x
  {
    if n > 0 {
      SeenColumnKeysMembers(plans, n - 1, x);
    }
  }

  /** A plan is the first over its columns exactly when its key is not yet remembered. */
  lemma FirstOverColumnsIsUnseen(plans: seq<ForeignKeyPlan>, j: nat)
    requires j < |plans|
    ensures FirstOverColumns(plans, j) <==> plans[j].columnKey !in SeenColumnKeys(plans, j)
  {
    SeenColumnKeysMembers(plans, j, plans[j].columnKey);
  }

  /** The index `up` creates before a foreign key. */
  function SupportingIndex(table: string, p: ForeignKeyPlan): Op
  {
    CreateIndex(p.indexName, table, p.columns, p.unique)
  }

  /** The foreign key `up` adds for a plan. */
  function ForeignKeyOp(table: string, p: ForeignKeyPlan): Op
  {
    AddForeignKey(p.name, table, p.columns, p.refTable, p.refColumns, p.onDelete, p.onUpdate)
  }

  /** The auto-named indexes of the index configuration, one per entry in order. */
  function IndexUpOps(db: Db, autoWrap: bool, table: string, indexes: PhpArray): (r: seq<Op>)
    ensures |r| == |indexes|
    decreases |indexes|
  {
    if indexes == [] then []
    else
      var init := indexes[..|indexes| - 1];
      var e := indexes[|indexes| - 1];
      IndexUpOps(db, autoWrap, table, init) + CreateIndexAutoNamedOps(db, autoWrap, table, KeyValue(e.key), Truthy(e.value))
  }

  /** The `i`-th index `up` creates is `createIndexAutoNamed` for the `i`-th index entry. */
  lemma {:induction false} IndexUpOpsAt(db: Db, autoWrap: bool, table: string, indexes: PhpArray, i: nat)
    requires i < |indexes|
    ensures IndexUpOps(db, autoWrap, table, indexes)[i]
         == CreateIndexAutoNamedOps(db, autoWrap, table, KeyValue(indexes[i].key), Truthy(indexes[i].value))[0]
    decreases |indexes|
  {
    var init := indexes[..|indexes| - 1];
    if i < |init| {
      IndexUpOpsAt(db, autoWrap, table, init, i);
      assert init[i] == indexes[i];
    }
  }

  /** Every auto-generated index name of `up` fits the identifier limit. */
  lemma IndexUpOpsNamesFit(db: Db, autoWrap: bool, table: string, indexes: PhpArray)
    ensures NamesFit(IndexUpOps(db, autoWrap, table, indexes))
  {
    forall i | 0 <= i < |indexes|
      ensures IsNamed(IndexUpOps(db, autoWrap, table, indexes)[i]) ==> |IndexUpOps(db, autoWrap, table, indexes)[i].name| <= MaxNameLength
    {
      IndexUpOpsAt(db, autoWrap, table, indexes, i);
    }
  }

  /**
   * What `up` does for plan `j`: with supporting indexes on, the first
   * foreign key over a set of columns is preceded by its index.
   */
  function ForeignKeyStep(table: string, withIndexes: bool, plans: seq<ForeignKeyPlan>, j: nat): seq<Op>
    requires j < |plans|
  {
    (if withIndexes && FirstOverColumns(plans, j) then [SupportingIndex(table, plans[j])] else [])
    + [ForeignKeyOp(table, plans[j])]
  }

  /** The operations of the first `n` foreign keys of `up`. */
  function ForeignKeySteps(table: string, withIndexes: bool, plans: seq<ForeignKeyPlan>, n: nat): seq<Op>
    requires n <= |plans|
  {
    if n == 0 then []
    else ForeignKeySteps(table, withIndexes, plans, n - 1) + ForeignKeyStep(table, withIndexes, plans, n - 1)
  }

  /** Two appends to a log in a row append their concatenation (a proof hint for the loops of `up`). */
  lemma LogAppendsTwice(log: seq<Op>, a: seq<Op>, b: seq<Op>)
    ensures log + a + b == log + (a + b)
  {
  }

  /** Three appends to a log in a row append their concatenation (a proof hint for `up`). */
  lemma LogAppendsInOrder(log: seq<Op>, a: seq<Op>, b: seq<Op>, c: seq<Op>)
    ensures log + a + b + c == log + (a + b + c)
  {
  }

  /** Everything a successful `up` hands to the framework. */
  function UpOps(db: Db, autoWrap: bool, config: TableConfig, withIndexes: bool): seq<Op>
  {
    var t := AutoWrappedTableName(autoWrap, config.tableName);
    var plans := Plans(db, autoWrap, t, config.foreignKeys);
    [CreateTable(t, config.columns, TableOptions(db, None))]
    + IndexUpOps(db, autoWrap, t, config.indexes)
    + ForeignKeySteps(t, withIndexes, plans, |plans|)
  }

  /** The foreign-key drops of the first `n` plans of `down`, in configuration order. */
  function ForeignKeyDownOps(table: string, plans: seq<ForeignKeyPlan>, n: nat): (r: seq<Op>)
    requires n <= |plans|
    ensures |r| == n
    ensures forall i :: 0 <= i < n ==> r[i] == DropForeignKey(plans[i].name, table)
  {
    if n == 0 then [] else ForeignKeyDownOps(table, plans, n - 1) + [DropForeignKey(plans[n - 1].name, table)]
  }

  /** Everything a successful `down` hands to the framework. */
  function DownOps(db: Db, autoWrap: bool, config: TableConfig): seq<Op>
  {
    var t := AutoWrappedTableName(autoWrap, config.tableName);
    var plans := Plans(db, autoWrap, t, config.foreignKeys);
    ForeignKeyDownOps(t, plans, |plans|) + [DropTable(t)]
  }

  /** Every plan has a first plan at or before it over the same columns. */
  lemma {:induction false} FirstOverSameColumns(plans: seq<ForeignKeyPlan>, j: nat)
    requires j < |plans|
    ensures exists i :: 0 <= i <= j && FirstOverColumns(plans, i) && plans[i].columnKey == plans[j].columnKey
    decreases j
  {
    if !FirstOverColumns(plans, j) {
      var i :| 0 <= i < j && plans[i].columnKey == plans[j].columnKey;
      FirstOverSameColumns(plans, i);
    }
  }

  /** The first plan over the columns of plan `j`. */
  lemma FirstOverSameColumnsAt(plans: seq<ForeignKeyPlan>, j: nat) returns (i: nat)
    requires j < |plans|
    ensures i <= j && FirstOverColumns(plans, i) && plans[i].columnKey == plans[j].columnKey
  {
    FirstOverSameColumns(plans, j);
    i :| i <= j && FirstOverColumns(plans, i) && plans[i].columnKey == plans[j].columnKey;
  }

  /** The operations of fewer foreign keys are a prefix of those of more. */
  lemma {:induction false} ForeignKeyStepsPrefix(table: string, withIndexes: bool, plans: seq<ForeignKeyPlan>, n: nat, m: nat)
    requires n <= m <= |plans|
    ensures ForeignKeySteps(table, withIndexes, plans, n) <= ForeignKeySteps(table, withIndexes, plans, m)
    decreases m - n
  {
    if n < m {
      ForeignKeyStepsPrefix(table, withIndexes, plans, n, m - 1);
    }
  }

  /** With supporting indexes on, the first foreign key over its columns adds its index, then itself. */
  lemma FirstOverColumnsStep(table: string, plans: seq<ForeignKeyPlan>, i: nat)
    requires i < |plans| && FirstOverColumns(plans, i)
    ensures ForeignKeySteps(table, true, plans, i + 1)
         == ForeignKeySteps(table, true, plans, i) + [SupportingIndex(table, plans[i]), ForeignKeyOp(table, plans[i])]
  {
  }

  /** The last operation for the first `j + 1` foreign keys is foreign key `j` itself. */
  lemma ForeignKeyStepsLast(table: string, withIndexes: bool, plans: seq<ForeignKeyPlan>, j: nat)
    requires j < |plans|
    ensures var ops := ForeignKeySteps(table, withIndexes, plans, j + 1);
            |ops| >= 1 && ops[|ops| - 1] == ForeignKeyOp(table, plans[j])
  {
  }

  /** An operation that is not last in a prefix of a log is not last in the log. */
  lemma NotLastInPrefix(ops: seq<Op>, upTo: seq<Op>, before: seq<Op>, op: Op, next: Op)
    requires upTo == before + [op, next] && upTo <= ops
    ensures |before| < |ops| - 1 && ops[|before|] == op
  {
    assert ops[|before|] == upTo[|before|];
  }

  /**
   * With supporting indexes on, every foreign key is preceded in what `up`
   * issues by an index over its columns: the one created for the first
   * foreign key over the same columns, on the same table.
   */
  lemma SupportingIndexExists(table: string, plans: seq<ForeignKeyPlan>, j: nat)
    requires j < |plans|
    ensures var ops := ForeignKeySteps(table, true, plans, j + 1);
            && ops[|ops| - 1] == ForeignKeyOp(table, plans[j])
            && exists i, k :: 0 <= i <= j && 0 <= k < |ops| - 1
                              && plans[i].columnKey == plans[j].columnKey
                              && ops[k] == SupportingIndex(table, plans[i])
  {
    ForeignKeyStepsLast(table, true, plans, j);
    var i := FirstOverSameColumnsAt(plans, j);
    ForeignKeyStepsPrefix(table, true, plans, i + 1, j + 1);
    FirstOverColumnsStep(table, plans, i);
    var ops := ForeignKeySteps(table, true, plans, j + 1);
    var k := |ForeignKeySteps(table, true, plans, i)|;
    NotLastInPrefix(ops, ForeignKeySteps(table, true, plans, i + 1),
                    ForeignKeySteps(table, true, plans, i), SupportingIndex(table, plans[i]), ForeignKeyOp(table, plans[i]));
    assert 0 <= i <= j && 0 <= k < |ops| - 1 && plans[i].columnKey == plans[j].columnKey
           && ops[k] == SupportingIndex(table, plans[i]);
  }

  /**
   * Each step adds its foreign key last, and creates an index first exactly
   * when supporting indexes are on and no earlier step remembered its
   * columns; two steps that both create an index are over different columns.
   */
  lemma ForeignKeyStepShape(table: string, withIndexes: bool, plans: seq<ForeignKeyPlan>, j: nat)
    requires j < |plans|
    ensures var step := ForeignKeyStep(table, withIndexes, plans, j);
            && 1 <= |step| <= 2
            && step[|step| - 1] == ForeignKeyOp(table, plans[j])
            && (|step| == 2 <==> withIndexes && plans[j].columnKey !in SeenColumnKeys(plans, j))
            && (|step| == 2 ==> step[0].CreateIndex? && step[0].columns == step[1].columns && step[0].table == step[1].table)
            && (forall i :: 0 <= i < j && |ForeignKeyStep(table, withIndexes, plans, i)| == 2 && |step| == 2 ==>
                  plans[i].columnKey != plans[j].columnKey)
  {
    FirstOverColumnsIsUnseen(plans, j);
  }

  /** The foreign-key part of `up` has one operation per entry plus, with indexes on, one per distinct set of columns. */
  lemma {:induction false} ForeignKeyStepsLength(table: string, withIndexes: bool, plans: seq<ForeignKeyPlan>, n: nat)
    requires n <= |plans|
    ensures |ForeignKeySteps(table, withIndexes, plans, n)| == n + if withIndexes then |SeenColumnKeys(plans, n)| else 0
  {
    if n > 0 {
      ForeignKeyStepsLength(table, withIndexes, plans, n - 1);
      FirstOverColumnsIsUnseen(plans, n - 1);
      var seen := SeenColumnKeys(plans, n - 1);
      var k := plans[n - 1].columnKey;
      if k in seen {
        assert seen + {k} == seen;
      } else {
        assert |seen + {k}| == |seen| + 1;
      }
    }
  }

  /**
   * `up` creates the table, one index per index entry, one foreign key per
   * foreign-key entry and, when asked for, one supporting index per distinct
   * set of foreign-key columns.
   */
  lemma UpOpsCount(db: Db, autoWrap: bool, config: TableConfig, withIndexes: bool)
    ensures var t := AutoWrappedTableName(autoWrap, config.tableName);
            var plans := Plans(db, autoWrap, t, config.foreignKeys);
            |UpOps(db, autoWrap, config, withIndexes)|
            == 1 + |config.indexes| + |config.foreignKeys| + if withIndexes then |SeenColumnKeys(plans, |plans|)| else 0
  {
    var t := AutoWrappedTableName(autoWrap, config.tableName);
    var plans := Plans(db, autoWrap, t, config.foreignKeys);
    ForeignKeyStepsLength(t, withIndexes, plans, |plans|);
  }

  /** The `j`-th drop of `down` undoes the foreign key of the `j`-th step of `up`: same name, same table. */
  lemma ForeignKeyDownUndoesStep(table: string, withIndexes: bool, plans: seq<ForeignKeyPlan>, j: nat)
    requires j < |plans|
    ensures var step := ForeignKeyStep(table, withIndexes, plans, j);
            ForeignKeyDownOps(table, plans, |plans|)[j] == Inverse(step[|step| - 1])
  {
  }

  /** The first operation of `up` creates the table. */
  lemma UpOpsStart(db: Db, autoWrap: bool, config: TableConfig, withIndexes: bool)
    ensures UpOps(db, autoWrap, config, withIndexes)[0]
         == CreateTable(AutoWrappedTableName(autoWrap, config.tableName), config.columns, TableOptions(db, None))
  {
  }

  /**
   * `down` drops one foreign key per entry, in configuration order, and then
   * undoes the first operation of `up` by dropping the table; it drops no
   * index itself.
   */
  lemma DownShape(db: Db, autoWrap: bool, config: TableConfig, withIndexes: bool)
    ensures var t := AutoWrappedTableName(autoWrap, config.tableName);
            var plans := Plans(db, autoWrap, t, config.foreignKeys);
            var down := DownOps(db, autoWrap, config);
            && down == ForeignKeyDownOps(t, plans, |plans|) + [Inverse(UpOps(db, autoWrap, config, withIndexes)[0])]
            && (forall i :: 0 <= i < |down| ==> !down[i].DropIndex?)
  {
    UpOpsStart(db, autoWrap, config, withIndexes);
  }

  /** Every name in the log fits the identifier limit. */
  predicate NamesFit(ops: seq<Op>)
  {
    forall i :: 0 <= i < |ops| ==> IsNamed(ops[i]) ==> |ops[i].name| <= MaxNameLength
  }

  /** Fitting names survive appending logs (a proof hint for the names-fit lemmas). */
  lemma NamesFitAppend(a: seq<Op>, b: seq<Op>)
    requires NamesFit(a) && NamesFit(b)
    ensures NamesFit(a + b)
  {
    assert forall i :: |a| <= i < |a + b| ==> (a + b)[i] == b[i - |a|];
  }

  predicate PlanNamesFit(p: ForeignKeyPlan)
  {
    |p.indexName| <= MaxNameLength && |p.name| <= MaxNameLength
  }

  /** A well-formed entry's plan has names that fit the identifier limit. */
  lemma PlanOfWellFormedFits(db: Db, autoWrap: bool, table: string, e: Entry)
    requires WellFormedForeignKey(e)
    ensures PlanNamesFit(Plan(db, autoWrap, table, e))
  {
  }

  lemma {:induction false} ForeignKeyStepsNamesFit(table: string, withIndexes: bool, plans: seq<ForeignKeyPlan>, n: nat)
    requires n <= |plans|
    requires forall i :: 0 <= i < |plans| ==> PlanNamesFit(plans[i])
    ensures NamesFit(ForeignKeySteps(table, withIndexes, plans, n))
  {
    if n > 0 {
      ForeignKeyStepsNamesFit(table, withIndexes, plans, n - 1);
      assert PlanNamesFit(plans[n - 1]);
      NamesFitAppend(ForeignKeySteps(table, withIndexes, plans, n - 1), ForeignKeyStep(table, withIndexes, plans, n - 1));
    }
  }

  /** For a configuration that validates, the plan of every foreign key has names that fit 64 characters. */
  lemma ValidPlansFit(db: Db, autoWrap: bool, table: string, fks: PhpArray)
    requires ValidateForeignKeys(fks).None?
    ensures forall j :: 0 <= j < |fks| ==> PlanNamesFit(Plans(db, autoWrap, table, fks)[j])
  {
    forall j | 0 <= j < |fks|
      ensures PlanNamesFit(Plans(db, autoWrap, table, fks)[j])
    {
      PlanOfWellFormedFits(db, autoWrap, table, fks[j]);
      PlansAt(db, autoWrap, table, fks, j);
    }
  }

  /** For a configuration that validates, every index and constraint name `up` uses fits 64 characters. */
  lemma UpNamesFitIdentifierLimit(db: Db, autoWrap: bool, config: TableConfig, withIndexes: bool)
    requires ValidateTableConfig(config).None?
    ensures NamesFit(UpOps(db, autoWrap, config, withIndexes))
  {
    var t := AutoWrappedTableName(autoWrap, config.tableName);
    var plans := Plans(db, autoWrap, t, config.foreignKeys);
    ValidPlansFit(db, autoWrap, t, config.foreignKeys);
    ForeignKeyStepsNamesFit(t, withIndexes, plans, |plans|);
    var head := [CreateTable(t, config.columns, TableOptions(db, None))];
    var indexes := IndexUpOps(db, autoWrap, t, config.indexes);
    IndexUpOpsNamesFit(db, autoWrap, t, config.indexes);
    NamesFitAppend(head, indexes);
    NamesFitAppend(head + indexes, ForeignKeySteps(t, withIndexes, plans, |plans|));
  }

  /** For a configuration that validates, every constraint name `down` uses fits 64 characters. */
  lemma DownNamesFitIdentifierLimit(db: Db, autoWrap: bool, config: TableConfig)
    requires ValidateTableConfig(config).None?
    ensures NamesFit(DownOps(db, autoWrap, config))
  {
    var t := AutoWrappedTableName(autoWrap, config.tableName);
    ValidPlansFit(db, autoWrap, t, config.foreignKeys);
  }

  /**
   * For an entry that validates, the planned actions are ones the validator
   * accepts, and are the configured values exactly as written (not
   * upper-cased), or `RESTRICT` when the key is absent.
   */
  lemma PlanPassesActionsAsWritten(db: Db, autoWrap: bool, table: string, e: Entry)
    requires WellFormedForeignKey(e)
    ensures var p := Plan(db, autoWrap, table, e);
            && AllowedAction(p.onDelete) && AllowedAction(p.onUpdate)
            && (HasField(e.value, CfgOnDelete) ==> p.onDelete == Field(e.value, CfgOnDelete))
            && (!HasField(e.value, CfgOnDelete) ==> p.onDelete == Str(FkRestrict))
            && (HasField(e.value, CfgOnUpdate) ==> p.onUpdate == Field(e.value, CfgOnUpdate))
            && (!HasField(e.value, CfgOnUpdate) ==> p.onUpdate == Str(FkRestrict))
  {
    assert ToUpper(FkRestrict) == FkRestrict;
  }

  /**
   * A string key names both the supporting index and the foreign key;
   * otherwise the index name starts with `fkidx_` and the foreign-key name
   * with `fk_`, both within 64 characters.
   */
  lemma PlanNaming(db: Db, autoWrap: bool, table: string, e: Entry)
    ensures var p := Plan(db, autoWrap, table, e);
            && (e.key.StrKey? ==> p.indexName == e.key.s && p.name == e.key.s)
            && (e.key.IntKey? ==>
                  && |PrefixForeignKeyIndex| <= |p.indexName| <= MaxNameLength
                  && p.indexName[..|PrefixForeignKeyIndex|] == PrefixForeignKeyIndex
                  && |PrefixForeignKey| <= |p.name| <= MaxNameLength
                  && p.name[..|PrefixForeignKey|] == PrefixForeignKey)
  {
  }

  /** For an entry that validates, the supporting index is unique exactly when `unique` is given as `true`. */
  lemma PlanUniqueOfWellFormed(db: Db, autoWrap: bool, table: string, e: Entry)
    requires WellFormedForeignKey(e)
    ensures Plan(db, autoWrap, table, e).unique <==> Field(e.value, CfgUnique) == Bool(true)
  {
  }

  /**
   * A create-table migration: the base migration it extends, the table it
   * describes, and whether a supporting index is created before each
   * foreign key.
   */
  class CreateTableMigration {
    const migration: Migration
    const config: TableConfig
    var createIndexesBeforeAddingFK: bool

    constructor (migration: Migration, config: TableConfig)
      ensures this.migration == migration && this.config == config && createIndexesBeforeAddingFK
    {
      this.migration := migration;
      this.config := config;
      createIndexesBeforeAddingFK := true;
    }

    /** `validateTableColumns`: stops at the first column declared by position. */
    method ValidateTableColumns() returns (error: Option<ConfigError>)
      ensures error == TableConfigs.ValidateTableColumns(config.columns)
    {
      var columns := config.columns;
      var i := 0;
      while i < |columns|
        invariant 0 <= i <= |columns|
        invariant forall k :: 0 <= k < i ==> columns[k].key.StrKey?
      {
        if columns[i].key.IntKey? {
          return Some(ColumnsNotNamed);
        }
        i := i + 1;
      }
      return None;
    }

    /** `validateForeignKeys`: stops at the first entry that fails its checks. */
    method ValidateForeignKeys() returns (error: Option<ConfigError>)
      ensures error == TableConfigs.ValidateForeignKeys(config.foreignKeys)
    {
      var fks := config.foreignKeys;
      var i := 0;
      while i < |fks|
        invariant 0 <= i <= |fks|
        invariant forall k :: 0 <= k < i ==> ForeignKeyError(fks[k]).None?
      {
        var failure := ForeignKeyError(fks[i]);
        if failure.Some? {
          FirstFailureAt(fks, ForeignKeyError, i);
          return failure;
        }
        i := i + 1;
      }
      return None;
    }

    /** `validateIndexes`: stops at the first entry whose key or value is of the wrong kind. */
    method ValidateIndexes() returns (error: Option<ConfigError>)
      ensures error == TableConfigs.ValidateIndexes(config.indexes)
    {
      var indexes := config.indexes;
      var i := 0;
      while i < |indexes|
        invariant 0 <= i <= |indexes|
        invariant forall k :: 0 <= k < i ==> IndexError(indexes[k]).None?
      {
        if !indexes[i].key.StrKey? {
          FirstFailureAt(indexes, IndexError, i);
          return Some(IndexFieldsNotString);
        }
        if !indexes[i].value.Bool? {
          FirstFailureAt(indexes, IndexError, i);
          return Some(IndexUniqueNotBool);
        }
        i := i + 1;
      }
      return None;
    }

    /** `validateTableConfig`: columns, then foreign keys, then indexes. */
    method ValidateTableConfig() returns (error: Option<ConfigError>)
      ensures error == TableConfigs.ValidateTableConfig(config)
    {
      error := ValidateTableColumns();
      if error.None? {
        error := ValidateForeignKeys();
        if error.None? {
          error := ValidateIndexes();
        }
      }
    }

    /**
     * `up`: validate, create the table, create the configured indexes, then
     * add each foreign key, preceded by a supporting index the first time its
     * columns come up. A failed validation issues nothing.
     */
    method Up() returns (error: Option<ConfigError>)
      modifies migration`ops
      ensures error == TableConfigs.ValidateTableConfig(config)
      ensures migration.ops == old(migration.ops)
                + if error.None? then UpOps(migration.db, migration.autoWrapTableNames, config, createIndexesBeforeAddingFK) else []
    {
      error := ValidateTableConfig();
      if error.None? {
        CreateTableWithKeys();
      }
    }

    /** What `up` does once the configuration is valid. */
    method CreateTableWithKeys()
      modifies migration`ops
      ensures migration.ops == old(migration.ops) + UpOps(migration.db, migration.autoWrapTableNames, config, createIndexesBeforeAddingFK)
    {
      var t := AutoWrappedTableName(migration.autoWrapTableNames, config.tableName);
      AutoWrappedTableNameIdempotent(migration.autoWrapTableNames, config.tableName);
      ghost var start := migration.ops;
      migration.CreateTable(t, config.columns, None);
      CreateConfiguredIndexes(t);
      AddConfiguredForeignKeys(t);
      LogAppendsInOrder(start, [CreateTable(t, config.columns, TableOptions(migration.db, None))],
                        IndexUpOps(migration.db, migration.autoWrapTableNames, t, config.indexes),
                        ForeignKeySteps(t, createIndexesBeforeAddingFK, Plans(migration.db, migration.autoWrapTableNames, t, config.foreignKeys),
                                        |config.foreignKeys|));
    }

    /** The index loop of `up`: one auto-named index per index entry, in order. */
    method CreateConfiguredIndexes(t: string)
      requires AutoWrappedTableName(migration.autoWrapTableNames, t) == t
      modifies migration`ops
      ensures migration.ops == old(migration.ops) + IndexUpOps(migration.db, migration.autoWrapTableNames, t, config.indexes)
    {
      var indexes := config.indexes;
      var i := 0;
      while i < |indexes|
        invariant 0 <= i <= |indexes|
        invariant migration.autoWrapTableNames == old(migration.autoWrapTableNames)
        invariant migration.ops == old(migration.ops) + IndexUpOps(migration.db, migration.autoWrapTableNames, t, indexes[..i])
      {
        CreateIndexStep(t, old(migration.ops), indexes, i);
        i := i + 1;
      }
      assert indexes[..i] == indexes;
    }

    /** One pass of the index loop of `up`: the log grows from the first `i` entries to the first `i + 1`. */
    method CreateIndexStep(t: string, ghost log: seq<Op>, indexes: PhpArray, i: nat)
      requires AutoWrappedTableName(migration.autoWrapTableNames, t) == t
      requires i < |indexes|
      requires migration.ops == log + IndexUpOps(migration.db, migration.autoWrapTableNames, t, indexes[..i])
      modifies migration`ops
      ensures migration.ops == log + IndexUpOps(migration.db, migration.autoWrapTableNames, t, indexes[..i + 1])
    {
      migration.CreateIndexAutoNamed(t, KeyValue(indexes[i].key), Truthy(indexes[i].value));
      ghost var created := CreateIndexAutoNamedOps(migration.db, migration.autoWrapTableNames, t, KeyValue(indexes[i].key), Truthy(indexes[i].value));
      ghost var done := IndexUpOps(migration.db, migration.autoWrapTableNames, t, indexes[..i]);
      assert indexes[..i + 1][..i] == indexes[..i];
      assert IndexUpOps(migration.db, migration.autoWrapTableNames, t, indexes[..i + 1]) == done + created;
      LogAppendsTwice(log, done, created);
    }

    /**
     * The foreign-key loop of `up`: `generatedColumns` remembers the column
     * sets that already have a supporting index.
     */
    method AddConfiguredForeignKeys(t: string)
      requires AutoWrappedTableName(migration.autoWrapTableNames, t) == t
      modifies migration`ops
      ensures migration.ops == old(migration.ops)
                + ForeignKeySteps(t, createIndexesBeforeAddingFK, Plans(migration.db, migration.autoWrapTableNames, t, config.foreignKeys), |config.foreignKeys|)
    {
      var plans := Plans(migration.db, migration.autoWrapTableNames, t, config.foreignKeys);
      var generatedColumns: map<string, bool> := map[];
      var j := 0;
      while j < |plans|
        invariant 0 <= j <= |plans|
        invariant migration.autoWrapTableNames == old(migration.autoWrapTableNames)
        invariant generatedColumns.Keys == if createIndexesBeforeAddingFK then SeenColumnKeys(plans, j) else {}
        invariant migration.ops == old(migration.ops) + ForeignKeySteps(t, createIndexesBeforeAddingFK, plans, j)
      {
        PlansRefTableIsWrapped(migration.db, migration.autoWrapTableNames, t, config.foreignKeys, j);
        generatedColumns := AddForeignKeyStep(t, old(migration.ops), plans, j, plans[j], generatedColumns);
        j := j + 1;
      }
    }

    /**
     * One pass of the foreign-key loop of `up`, for plan `j`: the log grows
     * from the first `j` steps to the first `j + 1`.
     */
    method AddForeignKeyStep(t: string, ghost log: seq<Op>, ghost plans: seq<ForeignKeyPlan>, j: nat, p: ForeignKeyPlan,
                             generatedColumns: map<string, bool>)
      returns (generated: map<string, bool>)
      requires AutoWrappedTableName(migration.autoWrapTableNames, t) == t
      requires j < |plans| && p == plans[j]
      requires AutoWrappedTableName(migration.autoWrapTableNames, p.refTable) == p.refTable
      requires generatedColumns.Keys == if createIndexesBeforeAddingFK then SeenColumnKeys(plans, j) else {}
      requires migration.ops == log + ForeignKeySteps(t, createIndexesBeforeAddingFK, plans, j)
      modifies migration`ops
      ensures generated.Keys == if createIndexesBeforeAddingFK then SeenColumnKeys(plans, j + 1) else {}
      ensures migration.ops == log + ForeignKeySteps(t, createIndexesBeforeAddingFK, plans, j + 1)
    {
      FirstOverColumnsIsUnseen(plans, j);
      ghost var done := ForeignKeySteps(t, createIndexesBeforeAddingFK, plans, j);
      ghost var step := ForeignKeyStep(t, createIndexesBeforeAddingFK, plans, j);
      generated := generatedColumns;
      if createIndexesBeforeAddingFK && p.columnKey !in generated {
        migration.CreateIndex(p.indexName, t, p.columns, p.unique);
        generated := generated[p.columnKey := true];
        migration.AddForeignKey(p.name, t, p.columns, p.refTable, p.refColumns, p.onDelete, p.onUpdate);
        assert step == [SupportingIndex(t, p), ForeignKeyOp(t, p)];
        assert migration.ops == log + done + [SupportingIndex(t, p)] + [ForeignKeyOp(t, p)];
      } else {
        migration.AddForeignKey(p.name, t, p.columns, p.refTable, p.refColumns, p.onDelete, p.onUpdate);
        assert step == [ForeignKeyOp(t, p)];
        assert migration.ops == log + done + [ForeignKeyOp(t, p)];
      }
      LogAppendsTwice(log, done, step);
    }

    /** `down`: validate, drop every foreign key in configuration order, then drop the table. */
    method Down() returns (error: Option<ConfigError>)
      modifies migration`ops
      ensures error == TableConfigs.ValidateTableConfig(config)
      ensures migration.ops == old(migration.ops) + if error.None? then DownOps(migration.db, migration.autoWrapTableNames, config) else []
    {
      error := ValidateTableConfig();
      if error.None? {
        DropKeysAndTable();
      }
    }

    /** What `down` does once the configuration is valid. */
    method DropKeysAndTable()
      modifies migration`ops
      ensures migration.ops == old(migration.ops) + DownOps(migration.db, migration.autoWrapTableNames, config)
    {
      var t := AutoWrappedTableName(migration.autoWrapTableNames, config.tableName);
      AutoWrappedTableNameIdempotent(migration.autoWrapTableNames, config.tableName);
      DropConfiguredForeignKeys(t);
      migration.DropTable(t);
    }

    /** The loop of `down`: drops the foreign keys by the names `up` gave them, in order. */
    method DropConfiguredForeignKeys(t: string)
      requires AutoWrappedTableName(migration.autoWrapTableNames, t) == t
      modifies migration`ops
      ensures migration.ops == old(migration.ops)
                + ForeignKeyDownOps(t, Plans(migration.db, migration.autoWrapTableNames, t, config.foreignKeys), |config.foreignKeys|)
    {
      var plans := Plans(migration.db, migration.autoWrapTableNames, t, config.foreignKeys);
      var j := 0;
      while j < |plans|
        invariant 0 <= j <= |plans|
        invariant migration.autoWrapTableNames == old(migration.autoWrapTableNames)
        invariant migration.ops == old(migration.ops) + ForeignKeyDownOps(t, plans, j)
      {
        DropForeignKeyStep(t, old(migration.ops), plans, j);
        j := j + 1;
      }
    }

    /** One pass of the loop of `down`: the log grows from the first `j` drops to the first `j + 1`. */
    method DropForeignKeyStep(t: string, ghost log: seq<Op>, plans: seq<ForeignKeyPlan>, j: nat)
      requires AutoWrappedTableName(migration.autoWrapTableNames, t) == t
      requires j < |plans|
      requires migration.ops == log + ForeignKeyDownOps(t, plans, j)
      modifies migration`ops
      ensures migration.ops == log + ForeignKeyDownOps(t, plans, j + 1)
    {
      migration.DropForeignKey(plans[j].name, t);
      LogAppendsTwice(log, ForeignKeyDownOps(t, plans, j), [DropForeignKey(plans[j].name, t)]);
    }
  }
}
