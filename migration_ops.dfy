/**
 * The base migration class as a log of schema operations: each table
 * operation wraps its table names and hands one operation to the framework,
 * and the auto-named operations generate the name first.
 */
module MigrationOps {
  import opened Wrappers
  import opened PhpValues
  import opened MigrationNames

  /** One schema operation handed to the framework's migration base class. */
  datatype Op =
    | CreateTable(table: string, definitions: PhpArray, options: Option<string>)
    | RenameTable(table: string, newName: string)
    | DropTable(table: string)
    | TruncateTable(table: string)
    | AddColumn(table: string, column: string, columnType: string)
    | DropColumn(table: string, column: string)
    | RenameColumn(table: string, column: string, newName: string)
    | AlterColumn(table: string, column: string, columnType: string)
    | AddPrimaryKey(name: string, table: string, columns: Value)
    | DropPrimaryKey(name: string, table: string)
    | AddForeignKey(name: string, table: string, columns: Value, refTable: string,
                    refColumns: Value, onDelete: Value, onUpdate: Value)
    | DropForeignKey(name: string, table: string)
    | CreateIndex(name: string, table: string, columns: Value, unique: bool)
    | DropIndex(name: string, table: string)

  /** Operations that create a named constraint or index. */
  predicate IsNamed(op: Op)
  {
    op.AddPrimaryKey? || op.DropPrimaryKey? || op.AddForeignKey? || op.DropForeignKey?
    || op.CreateIndex? || op.DropIndex?
  }

  /** Operations that have an undoing counterpart. */
  predicate Invertible(op: Op)
  {
    op.CreateTable? || op.AddColumn? || op.AddPrimaryKey? || op.AddForeignKey? || op.CreateIndex?
  }

  /** The operation that undoes `op`: drop what was created, under the same name and table. */
  function Inverse(op: Op): (r: Op)
    requires Invertible(op)
    ensures IsNamed(op) ==> IsNamed(r) && r.name == op.name && r.table == op.table
  {
    match op
    case CreateTable(t, _, _) => DropTable(t)
    case AddColumn(t, c, _) => DropColumn(t, c)
    case AddPrimaryKey(n, t, _) => DropPrimaryKey(n, t)
    case AddForeignKey(n, t, _, _, _, _, _) => DropForeignKey(n, t)
    case CreateIndex(n, t, _, _) => DropIndex(n, t)
  }

  /** Undoing a sequence of operations: the inverses, last operation first. */
  function Undo(ops: seq<Op>): (r: seq<Op>)
    requires forall i :: 0 <= i < |ops| ==> Invertible(ops[i])
    ensures |r| == |ops|
    ensures forall i :: 0 <= i < |ops| ==> r[i] == Inverse(ops[|ops| - 1 - i])
  {
    if ops == [] then [] else Undo(ops[1..]) + [Inverse(ops[0])]
  }

  /** The options `createTable` passes on: MySQL gets the connection's charset and InnoDB when none are given. */
  function TableOptions(db: Db, options: Option<string>): (r: Option<string>)
    ensures options.Some? ==> r == options
    ensures r.None? <==> options.None? && db.driverName != "mysql"
  {
    if options.None? && db.driverName == "mysql" then
      Some("CHARACTER SET " + db.charset + " COLLATE " + db.charset + "_unicode_ci ENGINE=InnoDB")
    else options
  }

  /** The prefix of an auto-named index: `uidx_` for a unique one, `idx_` otherwise. */
  function AutoIndexPrefix(unique: bool): string
  {
    if unique then PrefixUniqueIndex else PrefixIndex
  }

  /** What `createIndexAutoNamed` hands to the framework. */
  function CreateIndexAutoNamedOps(db: Db, autoWrap: bool, table: string, columns: Value, unique: bool): (ops: seq<Op>)
    ensures |ops| == 1 && ops[0].CreateIndex? && ops[0].unique == unique
    ensures ops[0].table == AutoWrappedTableName(autoWrap, table) && ops[0].columns == columns
    ensures |ops[0].name| <= MaxNameLength && AutoIndexPrefix(unique) <= ops[0].name
  {
    var t := AutoWrappedTableName(autoWrap, table);
    [CreateIndex(GenerateIndexName(db, t, columns, Some(AutoIndexPrefix(unique))), t, columns, unique)]
  }

  /** What `dropIndexAutoNamed` hands to the framework. */
  function DropIndexAutoNamedOps(db: Db, autoWrap: bool, table: string, columns: Value, unique: bool): (ops: seq<Op>)
    ensures |ops| == 1 && ops[0].DropIndex? && ops[0].table == AutoWrappedTableName(autoWrap, table)
    ensures |ops[0].name| <= MaxNameLength && AutoIndexPrefix(unique) <= ops[0].name
  {
    var t := AutoWrappedTableName(autoWrap, table);
    [DropIndex(GenerateIndexName(db, t, columns, Some(AutoIndexPrefix(unique))), t)]
  }

  /** What `addForeignKeyAutoNamed` hands to the framework: the `fkidx_` index first when asked for. */
  function AddForeignKeyAutoNamedOps(db: Db, autoWrap: bool, table: string, columns: Value, refTable: string,
                                     refColumns: Value, createIndex: bool, delete: Value, update: Value): (ops: seq<Op>)
    ensures |ops| == if createIndex then 2 else 1
    ensures var fk := ops[|ops| - 1];
            && fk.AddForeignKey?
            && fk.table == AutoWrappedTableName(autoWrap, table) && fk.columns == columns
            && fk.refTable == AutoWrappedTableName(autoWrap, refTable) && fk.refColumns == refColumns
            && fk.onDelete == delete && fk.onUpdate == update
            && |fk.name| <= MaxNameLength && PrefixForeignKey <= fk.name
    ensures createIndex ==>
              && ops[0].CreateIndex? && !ops[0].unique
              && ops[0].table == AutoWrappedTableName(autoWrap, table) && ops[0].columns == columns
              && |ops[0].name| <= MaxNameLength && PrefixForeignKeyIndex <= ops[0].name
  {
    var t := AutoWrappedTableName(autoWrap, table);
    var rt := AutoWrappedTableName(autoWrap, refTable);
    var index := if createIndex
                 then [CreateIndex(GenerateIndexName(db, t, columns, Some(PrefixForeignKeyIndex)), t, columns, false)]
                 else [];
    index + [AddForeignKey(GenerateForeignKeyName(db, t, columns, rt, refColumns), t, columns, rt, refColumns, delete, update)]
  }

  /** What `dropForeignKeyAutoNamed` hands to the framework: the `fkidx_` index last when asked for. */
  function DropForeignKeyAutoNamedOps(db: Db, autoWrap: bool, table: string, columns: Value, refTable: string,
                                      refColumns: Value, dropCreatedIndex: bool): (ops: seq<Op>)
    ensures |ops| == if dropCreatedIndex then 2 else 1
    ensures && ops[0].DropForeignKey? && ops[0].table == AutoWrappedTableName(autoWrap, table)
            && |ops[0].name| <= MaxNameLength && PrefixForeignKey <= ops[0].name
    ensures dropCreatedIndex ==>
              && ops[1].DropIndex? && ops[1].table == AutoWrappedTableName(autoWrap, table)
              && |ops[1].name| <= MaxNameLength && PrefixForeignKeyIndex <= ops[1].name
  {
    var t := AutoWrappedTableName(autoWrap, table);
    var rt := AutoWrappedTableName(autoWrap, refTable);
    [DropForeignKey(GenerateForeignKeyName(db, t, columns, rt, refColumns), t)]
    + if dropCreatedIndex then [DropIndex(GenerateIndexName(db, t, columns, Some(PrefixForeignKeyIndex)), t)] else []
  }

  /** What `addPrimaryKeyAutoNamed` hands to the framework. */
  function AddPrimaryKeyAutoNamedOps(db: Db, autoWrap: bool, table: string, columns: Value): (ops: seq<Op>)
    ensures |ops| == 1 && ops[0].AddPrimaryKey?
    ensures ops[0].table == AutoWrappedTableName(autoWrap, table) && ops[0].columns == columns
    ensures |ops[0].name| <= MaxNameLength && PrefixPrimaryKey <= ops[0].name
  {
    var t := AutoWrappedTableName(autoWrap, table);
    [AddPrimaryKey(GenerateIndexName(db, t, columns, Some(PrefixPrimaryKey)), t, columns)]
  }

  /**
   * What `dropPrimaryKeyAutoNamed` hands to the framework. The `dropPrimaryKey`
   * override forwards to the parent's `dropForeignKey`, so the operation is a
   * foreign-key drop.
   */
  function DropPrimaryKeyAutoNamedOps(db: Db, autoWrap: bool, table: string, columns: Value): (ops: seq<Op>)
    ensures |ops| == 1 && ops[0].DropForeignKey? && ops[0].table == AutoWrappedTableName(autoWrap, table)
    ensures |ops[0].name| <= MaxNameLength && PrefixPrimaryKey <= ops[0].name
  {
    var t := AutoWrappedTableName(autoWrap, table);
    [DropForeignKey(GenerateIndexName(db, t, columns, Some(PrefixPrimaryKey)), t)]
  }

  /** Dropping an auto-named index undoes creating it: same name, same table. */
  lemma IndexAutoNamedDropUndoesCreate(db: Db, autoWrap: bool, table: string, columns: Value, unique: bool)
    ensures DropIndexAutoNamedOps(db, autoWrap, table, columns, unique)
         == Undo(CreateIndexAutoNamedOps(db, autoWrap, table, columns, unique))
  {
  }

  /**
   * Dropping an auto-named foreign key (with its index when it was created)
   * undoes adding it: the same two names, in reverse order.
   */
  lemma ForeignKeyAutoNamedDropUndoesAdd(db: Db, autoWrap: bool, table: string, columns: Value, refTable: string,
                                         refColumns: Value, withIndex: bool, delete: Value, update: Value)
    ensures DropForeignKeyAutoNamedOps(db, autoWrap, table, columns, refTable, refColumns, withIndex)
         == Undo(AddForeignKeyAutoNamedOps(db, autoWrap, table, columns, refTable, refColumns, withIndex, delete, update))
  {
  }

  /**
   * Dropping an auto-named primary key targets the name and table it was
   * added under, but as a foreign-key drop, so it is not the undo of the add.
   */
  lemma PrimaryKeyAutoNamedDropTargetsSameName(db: Db, autoWrap: bool, table: string, columns: Value)
    ensures var add := AddPrimaryKeyAutoNamedOps(db, autoWrap, table, columns)[0];
            DropPrimaryKeyAutoNamedOps(db, autoWrap, table, columns) == [DropForeignKey(add.name, add.table)]
    ensures DropPrimaryKeyAutoNamedOps(db, autoWrap, table, columns)
         != Undo(AddPrimaryKeyAutoNamedOps(db, autoWrap, table, columns))
  {
    var undo := Undo(AddPrimaryKeyAutoNamedOps(db, autoWrap, table, columns));
    assert undo[0].DropPrimaryKey?;
  }

  /** The base migration: the auto-wrap switch and the log of operations handed to the framework. */
  class Migration {
    const db: Db
    var autoWrapTableNames: bool
    var ops: seq<Op>

    constructor (db: Db)
      ensures this.db == db && autoWrapTableNames && ops == []
    {
      this.db := db;
      autoWrapTableNames := true;
      ops := [];
    }

    method CreateTable(table: string, definitions: PhpArray, options: Option<string>)
      modifies this`ops
      ensures ops == old(ops) + [Op.CreateTable(AutoWrappedTableName(autoWrapTableNames, table), definitions,
                                                 TableOptions(db, options))]
    {
      var opts := TableOptions(db, options);
      var t := AutoWrappedTableName(autoWrapTableNames, table);
      ops := ops + [Op.CreateTable(t, definitions, opts)];
    }

    method RenameTable(table: string, newName: string)
      modifies this`ops
      ensures ops == old(ops) + [Op.RenameTable(AutoWrappedTableName(autoWrapTableNames, table),
                                                 AutoWrappedTableName(autoWrapTableNames, newName))]
    {
      var t := AutoWrappedTableName(autoWrapTableNames, table);
      var n := AutoWrappedTableName(autoWrapTableNames, newName);
      ops := ops + [Op.RenameTable(t, n)];
    }

    method DropTable(table: string)
      modifies this`ops
      ensures ops == old(ops) + [Op.DropTable(AutoWrappedTableName(autoWrapTableNames, table))]
    {
      var t := AutoWrappedTableName(autoWrapTableNames, table);
      ops := ops + [Op.DropTable(t)];
    }

    method TruncateTable(table: string)
      modifies this`ops
      ensures ops == old(ops) + [Op.TruncateTable(AutoWrappedTableName(autoWrapTableNames, table))]
    {
      var t := AutoWrappedTableName(autoWrapTableNames, table);
      ops := ops + [Op.TruncateTable(t)];
    }

    method AddColumn(table: string, column: string, columnType: string)
      modifies this`ops
      ensures ops == old(ops) + [Op.AddColumn(AutoWrappedTableName(autoWrapTableNames, table), column, columnType)]
    {
      var t := AutoWrappedTableName(autoWrapTableNames, table);
      ops := ops + [Op.AddColumn(t, column, columnType)];
    }

    method DropColumn(table: string, column: string)
      modifies this`ops
      ensures ops == old(ops) + [Op.DropColumn(AutoWrappedTableName(autoWrapTableNames, table), column)]
    {
      var t := AutoWrappedTableName(autoWrapTableNames, table);
      ops := ops + [Op.DropColumn(t, column)];
    }

    method RenameColumn(table: string, column: string, newName: string)
      modifies this`ops
      ensures ops == old(ops) + [Op.RenameColumn(AutoWrappedTableName(autoWrapTableNames, table), column, newName)]
    {
      var t := AutoWrappedTableName(autoWrapTableNames, table);
      ops := ops + [Op.RenameColumn(t, column, newName)];
    }

    /** The override wraps the table name but then passes the column type where the table belongs. */
    method AlterColumn(table: string, column: string, columnType: string)
      modifies this`ops
      ensures ops == old(ops) + [Op.AlterColumn(columnType, column, columnType)]
    {
      var t := AutoWrappedTableName(autoWrapTableNames, table);
      ops := ops + [Op.AlterColumn(columnType, column, columnType)];
    }

    method AddPrimaryKey(name: string, table: string, columns: Value)
      modifies this`ops
      ensures ops == old(ops) + [Op.AddPrimaryKey(name, AutoWrappedTableName(autoWrapTableNames, table), columns)]
    {
      var t := AutoWrappedTableName(autoWrapTableNames, table);
      ops := ops + [Op.AddPrimaryKey(name, t, columns)];
    }

    /** The override forwards to the parent's `dropForeignKey`, not `dropPrimaryKey`. */
    method DropPrimaryKey(name: string, table: string)
      modifies this`ops
      ensures ops == old(ops) + [Op.DropForeignKey(name, AutoWrappedTableName(autoWrapTableNames, table))]
    {
      var t := AutoWrappedTableName(autoWrapTableNames, table);
      ops := ops + [Op.DropForeignKey(name, t)];
    }

    method AddForeignKey(name: string, table: string, columns: Value, refTable: string, refColumns: Value,
                         delete: Value, update: Value)
      modifies this`ops
      ensures ops == old(ops) + [Op.AddForeignKey(name, AutoWrappedTableName(autoWrapTableNames, table), columns,
                                                   AutoWrappedTableName(autoWrapTableNames, refTable), refColumns,
                                                   delete, update)]
    {
      var t := AutoWrappedTableName(autoWrapTableNames, table);
      var rt := AutoWrappedTableName(autoWrapTableNames, refTable);
      ops := ops + [Op.AddForeignKey(name, t, columns, rt, refColumns, delete, update)];
    }

    method DropForeignKey(name: string, table: string)
      modifies this`ops
      ensures ops == old(ops) + [Op.DropForeignKey(name, AutoWrappedTableName(autoWrapTableNames, table))]
    {
      var t := AutoWrappedTableName(autoWrapTableNames, table);
      ops := ops + [Op.DropForeignKey(name, t)];
    }

    method CreateIndex(name: string, table: string, columns: Value, unique: bool)
      modifies this`ops
      ensures ops == old(ops) + [Op.CreateIndex(name, AutoWrappedTableName(autoWrapTableNames, table), columns, unique)]
    {
      var t := AutoWrappedTableName(autoWrapTableNames, table);
      ops := ops + [Op.CreateIndex(name, t, columns, unique)];
    }

    method DropIndex(name: string, table: string)
      modifies this`ops
      ensures ops == old(ops) + [Op.DropIndex(name, AutoWrappedTableName(autoWrapTableNames, table))]
    {
      var t := AutoWrappedTableName(autoWrapTableNames, table);
      ops := ops + [Op.DropIndex(name, t)];
    }

    method CreateIndexAutoNamed(table: string, columns: Value, unique: bool)
      modifies this`ops
      ensures ops == old(ops) + CreateIndexAutoNamedOps(db, autoWrapTableNames, table, columns, unique)
    {
      var t := AutoWrappedTableName(autoWrapTableNames, table);
      var name := GenerateIndexName(db, t, columns, Some(if unique then PrefixUniqueIndex else PrefixIndex));
      AutoWrappedTableNameIdempotent(autoWrapTableNames, table);
      CreateIndex(name, t, columns, unique);
    }

    method DropIndexAutoNamed(table: string, columns: Value, unique: bool)
      modifies this`ops
      ensures ops == old(ops) + DropIndexAutoNamedOps(db, autoWrapTableNames, table, columns, unique)
    {
      var t := AutoWrappedTableName(autoWrapTableNames, table);
      var name := GenerateIndexName(db, t, columns, Some(if unique then PrefixUniqueIndex else PrefixIndex));
      AutoWrappedTableNameIdempotent(autoWrapTableNames, table);
      DropIndex(name, t);
    }

    method AddForeignKeyAutoNamed(table: string, columns: Value, refTable: string, refColumns: Value,
                                  createIndex: bool, delete: Value, update: Value)
      modifies this`ops
      ensures ops == old(ops) + AddForeignKeyAutoNamedOps(db, autoWrapTableNames, table, columns, refTable,
                                                          refColumns, createIndex, delete, update)
    {
      var t := AutoWrappedTableName(autoWrapTableNames, table);
      var rt := AutoWrappedTableName(autoWrapTableNames, refTable);
      AutoWrappedTableNameIdempotent(autoWrapTableNames, table);
      AutoWrappedTableNameIdempotent(autoWrapTableNames, refTable);
      if createIndex {
        var name := GenerateIndexName(db, t, columns, Some(PrefixForeignKeyIndex));
        CreateIndex(name, t, columns, false);
      }
      var name := GenerateForeignKeyName(db, t, columns, rt, refColumns);
      AddForeignKey(name, t, columns, rt, refColumns, delete, update);
    }

    method DropForeignKeyAutoNamed(table: string, columns: Value, refTable: string, refColumns: Value,
                                   dropCreatedIndex: bool)
      modifies this`ops
      ensures ops == old(ops) + DropForeignKeyAutoNamedOps(db, autoWrapTableNames, table, columns, refTable,
                                                           refColumns, dropCreatedIndex)
    {
      var t := AutoWrappedTableName(autoWrapTableNames, table);
      var rt := AutoWrappedTableName(autoWrapTableNames, refTable);
      AutoWrappedTableNameIdempotent(autoWrapTableNames, table);
      var name := GenerateForeignKeyName(db, t, columns, rt, refColumns);
      DropForeignKey(name, t);
      if dropCreatedIndex {
        name := GenerateIndexName(db, t, columns, Some(PrefixForeignKeyIndex));
        DropIndex(name, t);
      }
    }

    method AddPrimaryKeyAutoNamed(table: string, columns: Value)
      modifies this`ops
      ensures ops == old(ops) + AddPrimaryKeyAutoNamedOps(db, autoWrapTableNames, table, columns)
    {
      var t := AutoWrappedTableName(autoWrapTableNames, table);
      var name := GenerateIndexName(db, t, columns, Some(PrefixPrimaryKey));
      AutoWrappedTableNameIdempotent(autoWrapTableNames, table);
      AddPrimaryKey(name, t, columns);
    }

    method DropPrimaryKeyAutoNamed(table: string, columns: Value)
      modifies this`ops
      ensures ops == old(ops) + DropPrimaryKeyAutoNamedOps(db, autoWrapTableNames, table, columns)
    {
      var t := AutoWrappedTableName(autoWrapTableNames, table);
      var name := GenerateIndexName(db, t, columns, Some(PrefixPrimaryKey));
      AutoWrappedTableNameIdempotent(autoWrapTableNames, table);
      DropPrimaryKey(name, t);
    }
  }
}
