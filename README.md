# Verified model of the migration helpers of `flexibuild/migrate`

This project models the two classes that give Yii 2 migrations their extra
behaviour, and proves properties of the model in Dafny.

- **`db/Migration.php`** is the base migration class.
  - **Naming helpers.** Table names are wrapped as `{{%name}}`. Long identifiers are truncated to 64 characters with a SHA-1 suffix. Column lists are imploded with `__`. Index and foreign-key names are generated from these, and `typeEnum` builds an ENUM column type.
  - **Table-operation overrides.** Each one wraps its table name and hands one operation to the framework.
  - **Auto-named pairs.** `createIndexAutoNamed`/`dropIndexAutoNamed`, `addForeignKeyAutoNamed`/`dropForeignKeyAutoNamed` and `addPrimaryKeyAutoNamed`/`dropPrimaryKeyAutoNamed`. Each regenerates a name before issuing its operations.
- **`db/CreateTableMigration.php`** is a migration that creates one table from a declarative description of its columns, foreign keys and indexes.
  - **Validation.** The description is checked in a fixed order, and the first failure is reported.
  - **`up`.** Creates the table, then the auto-named indexes, then each foreign key. When `createIndexesBeforeAddingFK` is on (the default), a foreign key is preceded by a supporting index the first time its column set comes up.
  - **`down`.** Drops the foreign keys under the names `up` gave them, then drops the table.

The model is organised as follows:

- **Framework calls as an operation log.** Every call into the framework becomes an `Op` record. It is appended to the `ops` field of a `Migration` object, whose `autoWrapTableNames` field is the source's switch.
- **Pure helpers.** The naming helpers are pure functions.
- **`CreateTableMigration` class.** It holds the base `Migration` it extends, its table description, and the `createIndexesBeforeAddingFK` flag. Its `up` and `down` methods loop over the configured entries, as the source does. Each method is proved against a specification function (`UpOps`, `DownOps`) whose properties are proved as lemmas.
- **Validation functions.** The `validate*` methods are specified by functions returning the first error, or none.

Files:

- `wrappers.dfy`: `Option` and `Result`.
- `php_strings.dfy`: the PHP string built-ins the helpers use: `ltrim`, `rtrim`, character deletion with `strtr`, `explode`, `implode`, `strtoupper`.
- `php_values.dfy`: PHP values and ordered arrays, `isset`, `array_key_exists`, truthiness and the `(string)` cast.
- `migration_names.dfy`: wrapping, truncation, column imploding, name generation and `typeEnum`.
- `migration_ops.dfy`: the `Op` log, the `Migration` class with its overrides and auto-named methods, and the add/drop symmetry lemmas.
- `table_config.dfy`: the table description and its validation.
- `create_table_migration.dfy`: foreign-key plans, the specification of `up` and `down`, their lemmas, and the `CreateTableMigration` class.

Behaviour of the code that the model keeps:

- **Order of the foreign-key checks.** The name-length check of a foreign-key entry runs before the check for required fields (`db/CreateTableMigration.php:127-133`). So an over-long key is reported even for an entry that is not an array.
- **`unique` set to `null`.** A `unique` field that is present but `null` is accepted (`isset`, line 147).
- **Empty column list.** Nothing checks that the column list is non-empty (`db/CreateTableMigration.php:109-117`).
- **Index names.** Indexes from `tableIndexes()` are always auto-named. Their key is the column list, never a name (line 211).

Source quirks reproduced as written:

- `alterColumn` passes the column type where the table belongs (`db/Migration.php:270`).
- `dropPrimaryKey` forwards to the parent's `dropForeignKey` (`db/Migration.php:290`). As a result, the auto-named primary-key drop is not the undo of the add.
- Validation upper-cases only a local copy of `onDelete`/`onUpdate` (line 140). `up` passes the value as configured (lines 219-220).

## Model

| member | source | states |
|---|---|---|
| PhpStrings.LTrim | db/Migration.php:86 | `ltrim`: drops leading characters of the set one at a time. Its characterisation is `LTrimDropsLongestPrefix`. |
| PhpStrings.RTrim | db/Migration.php:86 | `rtrim`: drops trailing characters of the set one at a time. Its characterisation is `RTrimDropsLongestSuffix`. |
| PhpStrings.LTrimDropsLongestPrefix | db/Migration.php:86 | `ltrim` keeps a suffix of its input. Every dropped character is one of the trimmed set, and the kept part does not start with one. |
| PhpStrings.RTrimDropsLongestSuffix | db/Migration.php:86 | `rtrim` keeps a prefix of its input. Every dropped character is one of the trimmed set, and the kept part does not end with one. |
| PhpStrings.LTrimSkipsPrefix | db/Migration.php:86 | A leading run of trimmed characters is skipped entirely by `ltrim`. |
| PhpStrings.RTrimSkipsSuffix | db/Migration.php:86 | A trailing run of trimmed characters is skipped entirely by `rtrim`. |
| PhpStrings.DeleteChars | db/Migration.php:342-343 | After `strtr` with the deletion map, no deleted character remains, and every remaining character comes from the input. |
| PhpStrings.Implode | db/Migration.php:344 | `implode`: the pieces joined by the glue, with no glue for one piece or none. |
| PhpStrings.Explode | db/Migration.php:344 | `explode` on one character: at least one piece, and no piece holds the separator. |
| PhpStrings.ImplodeExplodeReplaces | db/Migration.php:344 | `implode('__', explode(',', s))` is `s` with every comma replaced by `__`. |
| PhpStrings.ExplodeImplode | db/Migration.php:344 | For at least one piece, exploding on a separator undoes imploding with it when no piece contains it. |
| PhpStrings.ToUpper | db/CreateTableMigration.php:139-140 | `strtoupper` keeps the length and upper-cases byte by byte. |
| PhpStrings.ToUpperIdempotent | db/CreateTableMigration.php:139-140 | Upper-casing twice is upper-casing once. |
| PhpValues.Lookup | db/CreateTableMigration.php:216-221 | Reading `$fk[name]`: the value of the first entry under the string key, or nothing. Characterised by `LookupFindsFirst`. |
| PhpValues.HasField | db/CreateTableMigration.php:136 | `array_key_exists(name, $v)`: `$v` is an array with an entry under the key, even a `null` one. |
| PhpValues.Field | db/CreateTableMigration.php:216-221 | `$v[name]` read without a notice: the entry's value, or `null` when `$v` is not an array or lacks the key. |
| PhpValues.IsSet | db/CreateTableMigration.php:131 | `isset($v[name])`: present and not `null` (also used at line 147). |
| PhpValues.Truthy | db/CreateTableMigration.php:221 | PHP's conversion to boolean, as `?:` applies it: `null`, `false`, `0`, `""`, `"0"` and the empty array are false. |
| PhpValues.StringOf | db/CreateTableMigration.php:217 | PHP's conversion to string: `null` and `false` give `""`, `true` gives `"1"`, integers their decimal form, arrays `Array`. |
| PhpValues.LookupFindsFirst | db/CreateTableMigration.php:131-136 | Reading a key yields the first entry under that key, and fails exactly when no entry has it. |
| MigrationNames.BareTableName | db/Migration.php:86 | `rtrim(ltrim($tableName, '{%'), '}')`. Its shape is proved in `BareTableNameIsBare`. |
| MigrationNames.WrapTableName | db/Migration.php:84-88 | `wrapTableName`: `{{%`, the bare name, `}}`. Its shape is proved in `WrapTableNameShape`. |
| MigrationNames.AutoWrappedTableName | db/Migration.php:98-104 | `autoWrappedTableName`: wraps when the switch is on, returns the name unchanged otherwise. |
| MigrationNames.BareTableNameIsBare | db/Migration.php:86 | After trimming, the name neither starts with `{`/`%` nor ends with `}`. |
| MigrationNames.WrapTableNameShape | db/Migration.php:84-88 | `wrapTableName` returns `{{%`, the trimmed name, then `}}`. The part inside carries no wrapping marks at its ends. |
| MigrationNames.BareTableNameIsWrappedAsIs | db/Migration.php:84-88 | A name without wrapping marks is wrapped as exactly `{{%name}}`. |
| MigrationNames.WrapTableNameIdempotent | db/Migration.php:84-88 | Wrapping a wrapped name changes nothing. |
| MigrationNames.AutoWrappedTableNameIdempotent | db/Migration.php:98-104 | Auto-wrapping is idempotent, and it leaves the name unchanged when the switch is off. |
| MigrationNames.TruncateLongName | db/Migration.php:353-360 | The result has at most 64 characters. A name of at most 64 characters is unchanged. A longer one becomes its first 21 characters, then `___`, then its 40-character digest. |
| MigrationNames.TruncateLongNameIdempotent | db/Migration.php:353-360 | Truncating a truncated name changes nothing. |
| MigrationNames.TruncatedNamesCollideOnlyOnDigest | db/Migration.php:353-360 | Two long names truncate alike only if they share their first 21 characters and their digests. |
| MigrationNames.TruncatedNameKeepsPrefix | db/Migration.php:355-357 | A prefix of at most 21 characters survives truncation at the head of the name. |
| MigrationNames.ImplodeColumns | db/Migration.php:340-345 | The result contains no quoting, bracket, space or comma characters. It is the built column list with those characters deleted and each comma replaced by `__`. |
| MigrationNames.QuotedColumnListImplodes | db/Migration.php:340-345 | For quote characters among those `implodeColumns` deletes (`` ` ``, `"`, `'`, `[`, `]`, `{`, `}`, `(`, `)`, space), a quoted column list implodes to the plain names joined by `__`. |
| MigrationNames.IndexPrefix | db/Migration.php:371 | The prefix `generateIndexName` starts from: the given one, or `idx_` for `null`. |
| MigrationNames.GenerateIndexName | db/Migration.php:369-375 | The name has at most 64 characters. When the prefix (the given one, or `idx_` when none is given) has at most 21 characters, the name starts with it. |
| MigrationNames.GenerateForeignKeyName | db/Migration.php:384-392 | The name has at most 64 characters and starts with `fk_`. |
| MigrationNames.DefaultClause | db/Migration.php:135-139 | ` DEFAULT NULL` for a `null` default, otherwise ` DEFAULT ` and the quoted value. |
| MigrationNames.QuoteAll | db/Migration.php:127-130 | Each ENUM value is quoted by the schema, in order. |
| MigrationNames.TypeEnum | db/Migration.php:115-142 | Fails exactly when the default is null on a NOT NULL column, or is not one of the values, with the matching error. On success the result is `ENUM(...)` over the quoted values, then ` NOT NULL` if asked for, then the default clause. |
| MigrationOps.TableOptions | db/Migration.php:190-197 | Given options pass through unchanged. Options are absent exactly when none were given and the driver is not MySQL. |
| MigrationOps.AutoIndexPrefix | db/Migration.php:406 | `uidx_` for a unique index, `idx_` otherwise. |
| MigrationOps.CreateIndexAutoNamedOps | db/Migration.php:403-408 | One index with the requested uniqueness, on the wrapped table and the given columns. Its name has at most 64 characters and starts with `uidx_` for a unique index, `idx_` otherwise. |
| MigrationOps.DropIndexAutoNamedOps | db/Migration.php:419-424 | One index drop on the wrapped table. Its name has at most 64 characters and starts with `uidx_` or `idx_` according to the uniqueness. |
| MigrationOps.AddForeignKeyAutoNamedOps | db/Migration.php:439-451 | A non-unique companion index on the wrapped table and the given columns comes first, only when asked for. Its name starts with `fkidx_`. The foreign key comes last, from the wrapped table and columns to the wrapped referenced table and columns, with the given actions. Its name starts with `fk_`. Both names have at most 64 characters. |
| MigrationOps.DropForeignKeyAutoNamedOps | db/Migration.php:463-475 | The foreign-key drop on the wrapped table comes first, under an `fk_` name. The companion index drop follows, under an `fkidx_` name, only when asked for. Both names have at most 64 characters. |
| MigrationOps.AddPrimaryKeyAutoNamedOps | db/Migration.php:485-490 | One primary key on the wrapped table and the given columns. Its name has at most 64 characters and starts with `pk_`. |
| MigrationOps.DropPrimaryKeyAutoNamedOps | db/Migration.php:499-504 | One foreign-key drop, as `dropPrimaryKey` issues it, on the wrapped table. Its name has at most 64 characters and starts with `pk_`. |
| MigrationOps.IndexAutoNamedDropUndoesCreate | db/Migration.php:403-424 | For equal arguments, the auto-named index drop is exactly the undo of the create: same name, same table. |
| MigrationOps.ForeignKeyAutoNamedDropUndoesAdd | db/Migration.php:439-475 | For equal arguments, the auto-named foreign-key drop is exactly the undo of the add. The foreign key is dropped first and then the companion index, with the same names. |
| MigrationOps.PrimaryKeyAutoNamedDropTargetsSameName | db/Migration.php:485-504 | The auto-named primary-key drop targets the add's name and table, but as a foreign-key drop, so it is not the undo of the add. |
| MigrationOps.Migration.constructor | db/Migration.php:77 | Auto-wrapping starts on and the log starts empty. |
| MigrationOps.Migration.CreateTable | db/Migration.php:190-200 | Appends one table creation on the wrapped name, with the MySQL options filled in. |
| MigrationOps.Migration.RenameTable | db/Migration.php:206-211 | Appends one rename, with both names wrapped. |
| MigrationOps.Migration.DropTable | db/Migration.php:217-221 | Appends one drop of the wrapped table. |
| MigrationOps.Migration.TruncateTable | db/Migration.php:227-231 | Appends one truncation of the wrapped table. |
| MigrationOps.Migration.AddColumn | db/Migration.php:237-241 | Appends one column addition on the wrapped table. |
| MigrationOps.Migration.DropColumn | db/Migration.php:247-251 | Appends one column drop on the wrapped table. |
| MigrationOps.Migration.RenameColumn | db/Migration.php:257-261 | Appends one column rename on the wrapped table. |
| MigrationOps.Migration.AlterColumn | db/Migration.php:267-271 | Appends one column change whose table is the column type, as written. |
| MigrationOps.Migration.AddPrimaryKey | db/Migration.php:277-281 | Appends one primary key on the wrapped table. |
| MigrationOps.Migration.DropPrimaryKey | db/Migration.php:287-291 | Appends a foreign-key drop, as written, on the wrapped table. |
| MigrationOps.Migration.AddForeignKey | db/Migration.php:297-302 | Appends one foreign key, with the table and the referenced table both wrapped. |
| MigrationOps.Migration.DropForeignKey | db/Migration.php:308-312 | Appends one foreign-key drop on the wrapped table. |
| MigrationOps.Migration.CreateIndex | db/Migration.php:318-322 | Appends one index on the wrapped table. |
| MigrationOps.Migration.DropIndex | db/Migration.php:328-332 | Appends one index drop on the wrapped table. |
| MigrationOps.Migration.CreateIndexAutoNamed | db/Migration.php:403-408 | Appends exactly what `CreateIndexAutoNamedOps` describes. |
| MigrationOps.Migration.DropIndexAutoNamed | db/Migration.php:419-424 | Appends the undo of what `CreateIndexAutoNamed` appends for the same arguments. |
| MigrationOps.Migration.AddForeignKeyAutoNamed | db/Migration.php:439-451 | Appends exactly what `AddForeignKeyAutoNamedOps` describes. |
| MigrationOps.Migration.DropForeignKeyAutoNamed | db/Migration.php:463-475 | Appends the undo of what `AddForeignKeyAutoNamed` appends for the same arguments. |
| MigrationOps.Migration.AddPrimaryKeyAutoNamed | db/Migration.php:485-490 | Appends exactly what `AddPrimaryKeyAutoNamedOps` describes. |
| MigrationOps.Migration.DropPrimaryKeyAutoNamed | db/Migration.php:499-504 | Appends a foreign-key drop under the primary key's generated name. |
| TableConfigs.FirstFailure | db/CreateTableMigration.php:126-164 | The scan reports nothing exactly when every element passes. Otherwise it reports the failure of the first failing element. |
| TableConfigs.ColumnError | db/CreateTableMigration.php:112-114 | A column keyed by an integer fails with the columns error. |
| TableConfigs.ValidateTableColumns | db/CreateTableMigration.php:109-117 | Fails exactly when some column is keyed by an integer, and then with the columns error. |
| TableConfigs.AllowedAction | db/CreateTableMigration.php:139-144 | An action passes when it is `null`, or a string whose upper-cased form is `RESTRICT`, `SET NULL`, `CASCADE`, `NO ACTION` or `SET DEFAULT`. |
| TableConfigs.KnownForeignKeyKey | db/CreateTableMigration.php:151-159 | The keys a foreign-key entry may have: `columns`, `refTable`, `refColumns`, `onDelete`, `onUpdate`, `unique`. |
| TableConfigs.FirstUnknownKey | db/CreateTableMigration.php:151-162 | Finds nothing exactly when every key is known. Otherwise it finds the first unknown key. |
| TableConfigs.ForeignKeyError | db/CreateTableMigration.php:127-163 | The checks of one foreign-key entry, in the source's order: name length, required fields, `onDelete`, `onUpdate`, `unique`, unknown keys. |
| TableConfigs.WellFormedForeignKey | db/CreateTableMigration.php:124-166 | The same conditions stated declaratively, without an order. |
| TableConfigs.ForeignKeyErrorAcceptsWellFormed | db/CreateTableMigration.php:124-166 | The ordered checks pass exactly the well-formed entries. An entry is well-formed when its name fits 64 characters, it has all required fields, its actions pass upper-cased, `unique` is boolean when set, and it has no other key. |
| TableConfigs.ForeignKeyNameCheckedFirst | db/CreateTableMigration.php:127-133 | An over-long name is reported before anything else, even for an entry that is not an array. |
| TableConfigs.ForeignKeyUnknownKeyIsFirst | db/CreateTableMigration.php:151-163 | An unknown-key error names the first unknown key of the entry. |
| TableConfigs.ValidateForeignKeys | db/CreateTableMigration.php:124-166 | Fails exactly when some entry is not well-formed. The error is the one of the first failing entry. |
| TableConfigs.IndexError | db/CreateTableMigration.php:176-181 | One index entry: a key that is not a string fails first, then a value that is not a boolean. |
| TableConfigs.ValidateIndexes | db/CreateTableMigration.php:173-184 | Fails exactly when some key is not a string or some value is not a boolean. The error is the one of the first failing entry, and it has a witness entry. |
| TableConfigs.ValidateTableConfig | db/CreateTableMigration.php:191-198 | Passes exactly when all three checks pass. A column error wins, then a foreign-key error, then an index error. |
| TableConfigs.ColumnErrorReportedFirst | db/CreateTableMigration.php:191-198 | A positional column is reported whatever the foreign keys and indexes hold. |
| TableConfigs.AllowedActionIgnoresCase | db/CreateTableMigration.php:139-144 | An action passes exactly when its upper-cased form passes. |
| CreateTableMigrations.FkColumns | db/CreateTableMigration.php:216 | `$fk['columns']`. |
| CreateTableMigrations.FkRefColumns | db/CreateTableMigration.php:218 | `$fk['refColumns']`. |
| CreateTableMigrations.FkRefTable | db/CreateTableMigration.php:217 | `refTable`, auto-wrapped. A value that is not a string is converted as by `(string)` (see "## Left out" for arrays). |
| CreateTableMigrations.FkAction | db/CreateTableMigration.php:219-220 | The configured action when the key exists, even when it is `null`, and `RESTRICT` otherwise. |
| CreateTableMigrations.FkUnique | db/CreateTableMigration.php:221 | `@$fk['unique'] ?: false`: the truthiness of the field, false when it is missing. |
| CreateTableMigrations.Plan | db/CreateTableMigration.php:216-233 | What one loop pass of `up` computes: a string key names both the index and the foreign key, an integer key has both names generated. Also the columns, the wrapped referenced table, the actions, the uniqueness and the imploded column key. |
| CreateTableMigrations.Plans | db/CreateTableMigration.php:215-229 | One plan per foreign-key entry, in order. |
| CreateTableMigrations.PlansAt | db/CreateTableMigration.php:215-229 | Plan `j` is computed from foreign-key entry `j` alone. |
| CreateTableMigrations.PlanNaming | db/CreateTableMigration.php:223-229 | A string key names both the index and the foreign key. Otherwise the generated names start with `fkidx_` and `fk_` and have at most 64 characters. |
| CreateTableMigrations.PlanUniqueOfWellFormed | db/CreateTableMigration.php:221 | For a valid entry, the supporting index is unique exactly when `unique` is `true`, and missing means false. |
| CreateTableMigrations.PlanPassesActionsAsWritten | db/CreateTableMigration.php:219-220 | For a valid entry, the actions passed on are the configured values as written, or `RESTRICT` when absent, and they pass the validator. |
| CreateTableMigrations.PlanRefTableIsWrapped | db/CreateTableMigration.php:217 | The referenced table is wrapped already, so `addForeignKey` wrapping it again changes nothing. |
| CreateTableMigrations.FirstOverColumns | db/CreateTableMigration.php:233 | An entry is the first over its imploded column set: no earlier entry has the same one. Tied to the `isset` by `FirstOverColumnsIsUnseen`. |
| CreateTableMigrations.SeenColumnKeys | db/CreateTableMigration.php:214-235 | The keys of `$generatedColumns` after `n` entries: the imploded column sets of those entries. |
| CreateTableMigrations.SeenColumnKeysMembers | db/CreateTableMigration.php:231-236 | A column set is remembered before entry `n` exactly when an earlier entry has it. |
| CreateTableMigrations.FirstOverColumnsIsUnseen | db/CreateTableMigration.php:233 | An entry is the first over its column set exactly when its imploded columns are not yet remembered. |
| CreateTableMigrations.IndexUpOps | db/CreateTableMigration.php:210-212 | One index operation per index entry. |
| CreateTableMigrations.IndexUpOpsAt | db/CreateTableMigration.php:210-212 | The `i`-th index is `createIndexAutoNamed` for the `i`-th entry, with its key as the columns and its value as the uniqueness. |
| CreateTableMigrations.IndexUpOpsNamesFit | db/CreateTableMigration.php:210-212 | Every index name `up` generates has at most 64 characters. |
| CreateTableMigrations.SupportingIndex | db/CreateTableMigration.php:234 | The `createIndex` issued before a foreign key: the plan's index name, the table, the columns and the uniqueness. |
| CreateTableMigrations.ForeignKeyOp | db/CreateTableMigration.php:238 | The `addForeignKey` for a plan: its name, the table, the columns, the referenced table and columns, and the actions. |
| CreateTableMigrations.ForeignKeyStep | db/CreateTableMigration.php:215-238 | One pass of the foreign-key loop: the supporting index when the flag is on and the entry is the first over its columns, then the foreign key. Its shape is `ForeignKeyStepShape`. |
| CreateTableMigrations.ForeignKeySteps | db/CreateTableMigration.php:215-239 | The passes for the first `n` entries, in order. Their length is `ForeignKeyStepsLength`. |
| CreateTableMigrations.UpOps | db/CreateTableMigration.php:203-240 | Everything a successful `up` issues: the table, the auto-named indexes, then each foreign key preceded by its supporting index when that is due. Its properties are the lemmas below. |
| CreateTableMigrations.DownOps | db/CreateTableMigration.php:245-265 | Everything a successful `down` issues: the foreign-key drops under the planned names, then the table drop. |
| CreateTableMigrations.ForeignKeyDownOps | db/CreateTableMigration.php:250-262 | One foreign-key drop per entry, in order, under the planned name. |
| CreateTableMigrations.FirstOverSameColumns | db/CreateTableMigration.php:231-236 | Every entry has an entry at or before it that is the first over the same imploded column set. |
| CreateTableMigrations.ForeignKeyStepsPrefix | db/CreateTableMigration.php:215-239 | The operations the foreign-key loop issues for the first `n` entries are a prefix of those for the first `m >= n`. |
| CreateTableMigrations.ForeignKeyStepsLast | db/CreateTableMigration.php:238 | After entry `j` the last operation issued is entry `j`'s foreign key. |
| CreateTableMigrations.SupportingIndexExists | db/CreateTableMigration.php:231-238 | With `createIndexesBeforeAddingFK` on, the operations issued up to foreign key `j` end with that foreign key. Before it they contain the `createIndex` of an entry at or before `j` with the same imploded column set, on the same table. |
| CreateTableMigrations.ForeignKeyStepShape | db/CreateTableMigration.php:231-238 | Each entry issues its foreign key last. An index comes first exactly when the flag is on and the column set is new, and it has the same table and columns. No two created indexes share a column set. |
| CreateTableMigrations.ForeignKeyStepsLength | db/CreateTableMigration.php:214-239 | The foreign-key part issues one operation per entry, plus one per distinct column set when the flag is on. |
| CreateTableMigrations.UpOpsCount | db/CreateTableMigration.php:203-240 | `up` issues 1 + indexes + foreign keys + (distinct column sets when the flag is on) operations. |
| CreateTableMigrations.UpOpsStart | db/CreateTableMigration.php:206-208 | The first operation of `up` creates the wrapped table. |
| CreateTableMigrations.ForeignKeyDownUndoesStep | db/CreateTableMigration.php:238-261 | The `j`-th drop of `down` undoes the foreign key added for entry `j`: same name, same table. |
| CreateTableMigrations.DownShape | db/CreateTableMigration.php:245-265 | `down` is the foreign-key drops in configuration order, then the undo of the table creation. It drops none of the indexes `up` creates, so whenever `up` creates one, `down` is not its full undo. |
| CreateTableMigrations.PlanOfWellFormedFits | db/CreateTableMigration.php:127-129 | A valid entry's index and foreign-key names have at most 64 characters. |
| CreateTableMigrations.ForeignKeyStepsNamesFit | db/CreateTableMigration.php:231-238 | If every plan's names fit, every name in the foreign-key part fits. |
| CreateTableMigrations.ValidPlansFit | db/CreateTableMigration.php:124-166 | Valid foreign keys give plans whose names fit 64 characters. |
| CreateTableMigrations.UpNamesFitIdentifierLimit | db/CreateTableMigration.php:203-240 | For a valid configuration, every name `up` uses has at most 64 characters. |
| CreateTableMigrations.DownNamesFitIdentifierLimit | db/CreateTableMigration.php:245-265 | For a valid configuration, every name `down` uses has at most 64 characters. |
| CreateTableMigrations.CreateTableMigration.constructor | db/CreateTableMigration.php:43 | Supporting indexes are on by default. |
| CreateTableMigrations.CreateTableMigration.ValidateTableColumns | db/CreateTableMigration.php:109-117 | The early-exit loop returns the error the column check specifies. |
| CreateTableMigrations.CreateTableMigration.ValidateForeignKeys | db/CreateTableMigration.php:124-166 | The early-exit loop returns the error of the first failing entry. |
| CreateTableMigrations.CreateTableMigration.ValidateIndexes | db/CreateTableMigration.php:173-184 | The early-exit loop returns the error of the first failing entry. |
| CreateTableMigrations.CreateTableMigration.ValidateTableConfig | db/CreateTableMigration.php:191-198 | Columns, then foreign keys, then indexes. It returns the configuration's error. |
| CreateTableMigrations.CreateTableMigration.Up | db/CreateTableMigration.php:203-240 | Returns the validation error and appends nothing when there is one. Otherwise it appends exactly `UpOps`. |
| CreateTableMigrations.CreateTableMigration.CreateTableWithKeys | db/CreateTableMigration.php:206-239 | Appends the table, the index loop's operations and the foreign-key loop's operations, in that order. |
| CreateTableMigrations.CreateTableMigration.CreateConfiguredIndexes | db/CreateTableMigration.php:210-212 | The index loop appends one auto-named index per entry, in order. |
| CreateTableMigrations.CreateTableMigration.CreateIndexStep | db/CreateTableMigration.php:211 | One pass of the index loop extends the log by the next entry's index. |
| CreateTableMigrations.CreateTableMigration.AddConfiguredForeignKeys | db/CreateTableMigration.php:214-239 | The foreign-key loop appends the steps of all entries. `$generatedColumns` holds exactly the column sets seen so far. |
| CreateTableMigrations.CreateTableMigration.AddForeignKeyStep | db/CreateTableMigration.php:216-238 | One pass of that loop appends the supporting index only for a new column set, then the foreign key. It remembers the column set. |
| CreateTableMigrations.CreateTableMigration.Down | db/CreateTableMigration.php:245-265 | Returns the validation error and appends nothing when there is one. Otherwise it appends exactly `DownOps`. |
| CreateTableMigrations.CreateTableMigration.DropKeysAndTable | db/CreateTableMigration.php:248-264 | Appends the foreign-key drops, then the table drop. |
| CreateTableMigrations.CreateTableMigration.DropConfiguredForeignKeys | db/CreateTableMigration.php:250-262 | The loop of `down` appends one drop per entry, in order, under the name `up` used. |
| CreateTableMigrations.CreateTableMigration.DropForeignKeyStep | db/CreateTableMigration.php:251-261 | One pass of that loop extends the log by the next drop. |

## Left out

- Row operations `insert`, `batchInsert`, `update` and `delete` (`db/Migration.php:148-182`): they only wrap the table name and delegate to the framework, which adds nothing beyond the wrapping property.
- The console controller (`controllers/MigrateController.php`) and the view templates: they are file generation and text output around the framework.
- What the framework does with each operation: building and running SQL, quoting, and database errors. Each call is one `Op` appended to the log.
- `getRawTableName`, `buildColumns`, `quoteValue` and `sha1` are uninterpreted function fields of `Db`, because the model cannot see them. The only assumption about `sha1` is that it returns 40 characters. SHA-1 itself (FIPS 180-4) is not modelled.
- The connection's driver name and charset are fields of `Db`, read by `createTable` as in the source.
- Exceptions. A validation failure, or a refusal by `typeEnum`, is a returned error value, and nothing is appended to the log. In the source the exception leaves `up`/`down` before any operation is issued, so the log is the same.
- PHP values other than null, booleans, integers, strings and arrays (floats, objects, closures) are not modelled.
- CreateTableMigrations.FkRefTable: an array `refTable` is not modelled faithfully. In the source, `up` and `down` (`db/CreateTableMigration.php:217`, `:252`) pass it through `autoWrappedTableName`. With auto-wrapping on, its `ltrim` refuses an array with an error, and the loop stops at that entry after the earlier operations were issued. With auto-wrapping off, the array is returned unchanged (`db/Migration.php:100-103`), and the failure comes later, from framework code that expects a string (`getRawTableName` in `generateForeignKeyName`, `db/Migration.php:388`). The model converts the array to `Array` and carries on, so `Up` and `Down` match the source only for configurations without an array `refTable`.
- Arrays are entry lists with keys as PHP has already normalised them: a numeric string key is an integer key. A list with a repeated key is read at its first entry, which a PHP array cannot hold.
- `generatedColumns` is keyed by the imploded column string. PHP would turn a numeric imploded string into an integer key, but that conversion is injective, so which column sets are seen is unchanged.
- Strings are byte strings, one `char` per byte. `strtoupper` upper-cases ASCII letters only.
- `MigrationNames.TypeEnum`: takes the values and the default as strings, so the strict `in_array` comparison is string equality. Values of other types are not modelled.
- `CreateTableMigrations.CreateTableMigration.AddConfiguredForeignKeys`: computes the plans (names, columns, actions) of all foreign-key entries before the loop. The source computes each inside the loop. Naming is pure, so the appended operations are the same. `DropConfiguredForeignKeys` does the same.
- Class constants are fixed at their base values. The source reads `MAX_NAME_LENGTH`, the `PREFIX_*` name prefixes and the `FK_*` actions through `static::` (declared at `db/Migration.php:57-72`, read at `:355-357`, `:371`, `:386`, `:406-502`, and at `db/CreateTableMigration.php:127`, `:142`, `:219-220`), so a subclass may redefine them. The model does not cover subclasses that do.
- The default arguments of the source methods (`$unique = false`, `$createIndex = true`, the `RESTRICT` actions, `$prefix = null`) are explicit parameters. A `null` prefix is `None`.
- The methods of `Migration` and `CreateTableMigration` that change the log state their effect with `old(...)`. Their properties are proved about the specification functions they are tied to.
