# table_migrator in Dafny

table_migrator migrates a large MySQL table with little downtime. It does not run
`ALTER TABLE` on the live table. Instead it works in these steps:

- It creates an empty copy `new_<table>` and applies the schema changes to it.
- It copies the rows over in pages of ids.
- It copies again, in one or more delta passes, the rows whose delta column (`updated_at`)
  changed since the copy began.
- Under a write lock on both tables, it renames the table to its old name and the copy to
  the table's name.

`down!` swaps the names back and drops the copy. This project models that planner: the
statements each step sends, in order, and the little state it keeps between them.

The database is a `Connection` object. It records a log of everything sent to it and answers
queries from fixed oracle inputs:

- the statements it rejects;
- its column names;
- whether the table has a row;
- the successive `max(id)` replies;
- the successive epoch replies;
- the successive lists of changed ids.

An engine keeps a ghost list `issued` of every `execute` and `select_all` it makes, plus the
settle pauses. What reaches the connection is `Sent(dry, issued)`: nothing under a dry run,
and otherwise everything but the pauses. A statement the database rejects raises in Ruby; here
it ends the step with `Fail(ExecutionFailed(sql))`, and nothing after it runs.

Each step is written twice:

- as a function over values, which returns the events it issues, the state it leaves and its
  outcome (`CopyRuns` for `CopyEngine`, `LegacyRuns` for the older `TableMigrator`);
- as a method of the engine class, whose `ensures` ties the new `issued`, the connection log,
  the epoch field, the read counters and the result to that function.

Lemmas about the functions then state what the program promises: lock discipline, rename
order, dry-run behaviour, the paging and pass bounds, and the id grouping.

Modules:

| Module | Source | Contents |
|---|---|---|
| `Wrappers` | | Option, Result, Outcome. |
| `Text` | | `join`, `gsub` on literal patterns, integer rendering. |
| `Config` | | Option hashes, defaults, `dry_run?`. |
| `Db` | | The connection oracle, events, and statement runs that stop at the first rejected statement. |
| `Names` | `CopyStrategy` | Table names. |
| `Projection` | | The renames map and `copy_sql_for`. |
| `ChangeTable` | `ChangeTableStrategy` | |
| `Migration` | `MigrationStrategy` | |
| `RawSql` | `RawSqlStrategy` | |
| `SqlStatements` | `SqlStatementsStrategy` | |
| `Base` | `TableMigrator::Base` | |
| `Plan` | | Statement runs, `in_table_lock`, the page loop, `in_groups_of`. |
| `CopyRuns` / `CopyEngine` | `TableMigrator::CopyEngine` | |
| `LegacyRuns` / `Legacy` | the older `TableMigrator` class in `lib/table_migrator.rb` | |

## Model

| member | source | states |
|---|---|---|
| Config.Merge | lib/table_migrator/base.rb:10-11 | `defaults.merge(config)`: every supplied key overrides its default, the others keep it |
| Config.BaseConfig | lib/table_migrator/base.rb:10-11 | Base defaults: `dry_run` false, `create_temp_table` true, `delta_column` `updated_at`, each overridden by a supplied key; other keys as supplied |
| Config.LegacyConfig | lib/table_migrator.rb:18-19 | the older class defaults only `dry_run`, to true; every other key as supplied |
| Config.BaseDryRunOnlyWhenAsked | lib/table_migrator/base.rb:53-55 | with Base defaults a dry run happens exactly when the caller passed `dry_run: true` |
| Config.LegacyDryRunByDefault | lib/table_migrator.rb:236-238 | the older class runs dry unless told otherwise, and when told it runs dry exactly for `true` |
| Config.LegacyDeltaColumn | lib/table_migrator.rb:218-220 | `config[:delta_column] \|\| "updated_at"`: `updated_at` when the option is falsy, the option's own text when it is a string, `true` for the boolean true |
| Config.DeltaColumnDefaults | lib/table_migrator.rb:218-220 | the older class and `Base` (whose defaults give `updated_at`) use the same delta column when the option is absent or a string; only the older one replaces a falsy option by `updated_at` |
| Names.MigrationName | lib/table_migrator/copy_strategy.rb:17 | a migration name is present exactly when `config[:migration_name]` is truthy |
| Names.NewTable | lib/table_migrator/copy_strategy.rb:12-14 | the new table is `new_` followed by the table name, nothing else |
| Names.OldTable | lib/table_migrator/copy_strategy.rb:16-22 | the old table is the table name followed by `_old`, or by `_pre_` and the migration name when one is given |
| Names.NewTableInjective | lib/table_migrator/copy_strategy.rb:12-14 | `new_<table>` determines the table: distinct tables never share a copy |
| Names.OldTableInjective | lib/table_migrator/copy_strategy.rb:16-22 | with the same migration name, `<table>_pre_<name>` or `<table>_old` determines the table |
| Names.NamesDistinct | lib/table_migrator/copy_strategy.rb:12-22 | table, new table and old table are pairwise distinct, for every table and migration name |
| Text.JoinAvoids | lib/table_migrator/base.rb:50 | a character in no part and not in the separator is not in the joined text |
| Text.OccursLength | lib/table_migrator/raw_sql_strategy.rb:28-34 | an occurrence of a pattern needs a text at least as long |
| Text.OccursInSuffix | lib/table_migrator/raw_sql_strategy.rb:28-34 | an occurrence in a suffix is an occurrence in the text |
| Text.OccursPastPrefix | lib/table_migrator/raw_sql_strategy.rb:28-34 | an occurrence cannot start in a prefix lacking the pattern's first character |
| Text.ReplaceAllSkips | lib/table_migrator/raw_sql_strategy.rb:28-34 | `gsub` leaves text before the pattern's first character untouched |
| Text.ReplaceAllAt | lib/table_migrator/raw_sql_strategy.rb:28-34 | `gsub` turns an occurrence after placeholder-free text into the replacement and goes on after it |
| Text.ReplaceAllAbsent | lib/table_migrator/raw_sql_strategy.rb:28-34 | `gsub` on text without the pattern changes nothing |
| Text.StartsWithBack | lib/table_migrator/raw_sql_strategy.rb:28-34 | a prefix of the output that the replacement cannot start was a prefix of the input |
| Text.ReplaceAllClears | lib/table_migrator/raw_sql_strategy.rb:28-34 | after `gsub(p, r)` no `p` is left when `r` cannot take part in an occurrence of `p` |
| Text.ReplaceAllNoNew | lib/table_migrator/raw_sql_strategy.rb:28-34 | `gsub(p, r)` creates no new occurrence of another pattern `r` cannot take part in |
| Text.DigitChar | lib/table_migrator.rb:196 | a decimal digit's character stands for that digit |
| Text.NatToString | lib/table_migrator.rb:196 | a natural number renders as a non-empty string of digits |
| Text.ParseNatToString | lib/table_migrator.rb:196 | reading the rendered digits back gives the number |
| Text.NegativeRendering | lib/table_migrator.rb:196 | a negative number renders as `-` followed by its magnitude |
| Text.NotNegativeRendering | lib/table_migrator.rb:196 | a number that is not negative renders without `-` |
| Text.NatToStringInjective | lib/table_migrator.rb:209 | distinct natural numbers render differently |
| Text.IntToStringInjective | lib/table_migrator.rb:209 | distinct ids render differently, so an id list names exactly its ids |
| Db.Attempted | lib/table_migrator/raw_sql_strategy.rb:12-16 | statements run one after another stop at the first rejected one: no more are attempted than given |
| Db.FirstRejected | lib/table_migrator/raw_sql_strategy.rb:12-16 | none is found exactly when no statement is rejected; a found one is rejected and among the statements |
| Db.AttemptedStopsAtFirstRejected | lib/table_migrator/raw_sql_strategy.rb:12-16 | all statements are attempted when none is rejected, and otherwise the last attempted is the first rejected |
| Db.AfterClean | lib/table_migrator/raw_sql_strategy.rb:12-16 | past a prefix of accepted statements, the run continues with the rest |
| Db.FirstAfterClean | lib/table_migrator/raw_sql_strategy.rb:12-16 | an accepted prefix does not change which statement is rejected first |
| Db.AttemptedAfterClean | lib/table_migrator/raw_sql_strategy.rb:12-16 | an accepted prefix is attempted whole, then the rest as before |
| Db.HaltsAt | lib/table_migrator/raw_sql_strategy.rb:12-16 | when the statement at `i` is the first rejected one, the run attempts exactly the statements up to and including it, and that statement is the first rejection |
| Db.AllClean | lib/table_migrator/raw_sql_strategy.rb:12-16 | with nothing rejected every statement is attempted and no rejection is found |
| Db.RunHaltsAt | lib/table_migrator/raw_sql_strategy.rb:12-16 | a statement run halts after the first rejected statement: the execute events go up to and including it, and the run fails with `ExecutionFailed` of it |
| Db.RunAllClean | lib/table_migrator/copy_engine.rb:233-244 | a statement run with nothing rejected issues one execute event per statement and passes |
| Db.ExecEvents | lib/table_migrator/copy_engine.rb:233-244 | one `execute` event per statement, in order |
| Db.ExecEventsAppend | lib/table_migrator/copy_engine.rb:233-244 | the events of two lists are the events of the first, then of the second |
| Db.ExecEventsExtend | lib/table_migrator/copy_engine.rb:233-244 | one more statement adds exactly its event |
| Db.Sent | lib/table_migrator/copy_engine.rb:233-253 | the dry-run gate: nothing reaches the connection under a dry run; otherwise everything but the settle pauses, in order |
| Db.SentAppend | lib/table_migrator/copy_engine.rb:233-253 | the gate works event by event: sending two stretches is sending each |
| Db.Connection.constructor | lib/table_migrator/copy_engine.rb:233-259 | a fresh connection has an empty log and has read no reply |
| Db.Connection.Execute | lib/table_migrator/copy_engine.rb:236 | `connection.execute` logs the statement and fails exactly when the database rejects it |
| Db.Connection.SendOperation | lib/table_migrator/migration_strategy.rb:31 | `connection.send(op, table, *args)` logs the call, and fails with `OperationFailed` of that call exactly when the adapter refuses it |
| Db.Connection.SelectMaxId | lib/table_migrator/copy_engine.rb:251 | the `max(id)` query is logged and yields the next reply, or fails when rejected without using a reply |
| Db.Connection.SelectEpoch | lib/table_migrator/copy_engine.rb:251 | the epoch query is logged and yields the next reply, or fails when rejected |
| Db.Connection.SelectIds | lib/table_migrator/copy_engine.rb:251 | the changed-ids query is logged and yields the next id list, or fails when rejected |
| Db.Connection.ExecuteEach | lib/table_migrator/raw_sql_strategy.rb:12-16 | `each { execute }`: the log gains exactly the statements up to the first rejected one, and the run fails with that one |
| Plan.ExecAll | lib/table_migrator/copy_engine.rb:233-244 | a run of statements through the dry-run gate issues no pause |
| Plan.ExecAllEnds | lib/table_migrator/copy_engine.rb:233-244 | a run passes exactly under a dry run or with nothing rejected, issuing all statements; a failing run is not dry and ends with the rejected statement |
| Plan.Flatten | lib/table_migrator/copy_engine.rb:129 | an id is in the flattened groups exactly when it is in one of the groups |
| Plan.InGroupsOf | lib/table_migrator/copy_engine.rb:129 | `in_groups_of(n, false)`: groups are non-empty, at most `n` long, all but the last exactly `n`, unpadded, and their concatenation is the id list |
| Plan.GroupsExample | lib/table_migrator/copy_engine.rb:129 | 1500 ids make two groups, the first 1000 ids and the last 500 |
| Plan.LockStatementText | lib/table_migrator/copy_engine.rb:265-266 | the lock statement is ``LOCK TABLES `t1` WRITE, `t2` WRITE`` |
| Plan.LockPrelude | lib/table_migrator/copy_engine.rb:264-266 | before the block, `in_table_lock` turns autocommit off and write-locks both tables, in that order |
| Plan.LockedEnsure | lib/table_migrator/copy_engine.rb:261-276 | the copy engine's lock adds no pause to its block |
| Plan.Locked | lib/table_migrator/copy_engine.rb:261-276 | the locked block passes exactly when the prelude, the block and the postlude all pass; then it issues the prelude, the block and the postlude in order; a postlude failure after a passing block is the outcome |
| Plan.LockedEnsureRestoresLast | lib/table_migrator/copy_engine.rb:272-273 | `SET autocommit=1` is the last statement on every path, a failing prelude or block included |
| Plan.LockedEnsureSuccess | lib/table_migrator/copy_engine.rb:261-276 | on success: autocommit off, LOCK, the block, COMMIT, UNLOCK, autocommit on, nothing else |
| Plan.LockedEnsureFailingBody | lib/table_migrator/copy_engine.rb:261-276 | a block failing after the prelude skips COMMIT and UNLOCK; the restore follows it directly |
| Plan.LockedRunSuccess | lib/table_migrator/copy_engine.rb:261-276 | a successful locked run of a statement list issues the prelude, the statements and the postlude, flat and in order |
| Plan.PagedLoop | lib/table_migrator/copy_engine.rb:93-107 | the page loop always issues the page from its start first, issues no pause, uses replies only forward, and stops within twice the id range |
| Plan.PagedDryRunOnePage | lib/table_migrator/copy_engine.rb:99-100 | under a dry run exactly one page statement, the page after id 0, is issued and no `max(id)` is read |
| Plan.PagedLastPageAddsNothing | lib/table_migrator/copy_engine.rb:105 | a successful loop ends with a page from the last reply followed by a `max(id)` query returning that same start |
| Plan.PagedAdvances | lib/table_migrator/copy_engine.rb:97-106 | when `max(id)` moves, the start strictly advances and the loop continues from the reply |
| Projection.LookupDefault | lib/table_migrator/change_table_strategy.rb:12 | a column nobody renamed or removed projects to itself |
| Projection.RenameColumn | lib/table_migrator/change_table_strategy.rb:58-61 | `renames[col] = new`: that column now maps to the new name, overriding earlier mappings; every other column is unchanged |
| Projection.RemoveColumns | lib/table_migrator/change_table_strategy.rb:63-67 | every named column maps to nil; the others are unchanged |
| Projection.RemoveTimestamps | lib/table_migrator/change_table_strategy.rb:69-71 | `created_at` and `updated_at` map to nil; the others are unchanged |
| Projection.Register | lib/table_migrator/change_table_strategy.rb:52-54 | an operation without a `register_` hook leaves the map alone; a hook with the wrong arity fails; otherwise the hook's effect |
| Projection.HookOn | lib/table_migrator/change_table_strategy.rb:52-54 | one declaration sets exactly the columns it touches, and leaves the others as they were |
| Projection.ReplayStep | lib/table_migrator/change_table_strategy.rb:52-55 | replaying one more declaration applies its hook to the map so far |
| Projection.ReplayAppend | lib/table_migrator/change_table_strategy.rb:52-55 | replaying two lists is replaying the first and then the second |
| Projection.ReplayUntouched | lib/table_migrator/change_table_strategy.rb:52-55 | declarations that do not touch a column keep its mapping |
| Projection.ReplayLastWins | lib/table_migrator/change_table_strategy.rb:58-67 | the last declaration touching a column decides its mapping |
| Projection.Copied | lib/table_migrator/change_table_strategy.rb:28 | the source list keeps exactly the columns not mapped to nil, all from the input |
| Projection.CopiedAppend | lib/table_migrator/change_table_strategy.rb:28 | the filter keeps the order: filtering a concatenation is concatenating the filtered parts |
| Projection.CopiedUntouched | lib/table_migrator/change_table_strategy.rb:28 | with no column mentioned in the map every column is copied |
| Projection.Renamed | lib/table_migrator/change_table_strategy.rb:29 | the destination list has one name per copied column: the column's mapped name |
| Projection.ProjectionPairs | lib/table_migrator/change_table_strategy.rb:28-32 | the lists of `copy_sql_for` have equal length, pair each copied column with its new name, drop exactly the nil-mapped columns, and keep unmapped names |
| Projection.CopySqlFor | lib/table_migrator/change_table_strategy.rb:25-33 | when no column is renamed or removed, the copy statement is the plain one over the same columns on both sides |
| Projection.UntouchedProjection | lib/table_migrator/change_table_strategy.rb:28-29 | when no column is renamed or removed, both the copied columns and their destinations are the columns themselves |
| Projection.SendEvents | lib/table_migrator/change_table_strategy.rb:19-23 | one connection call per recorded change, in order, against the given table |
| Projection.UsersExample | lib/table_migrator/change_table_strategy.rb:24-33 | users(id, name, email, created_at, updated_at), with email renamed and created_at removed, copies (id, name, email, updated_at) into (id, name, email_address, updated_at) |
| Projection.UsersRenames | lib/table_migrator/change_table_strategy.rb:58-67 | those two declarations give the map email→email_address, created_at→nil |
| Projection.UsersCopied | lib/table_migrator/change_table_strategy.rb:28-32 | under that map the source and destination lists are as in the example |
| Projection.FourOfFive | lib/table_migrator/change_table_strategy.rb:28-32 | of five columns with the fourth dropped, both lists hold the other four in order |
| Projection.CopiedFour | lib/table_migrator/change_table_strategy.rb:28 | the source list of five columns with the fourth dropped |
| Projection.RenamedFour | lib/table_migrator/change_table_strategy.rb:29 | the destination list of four copied columns |
| ChangeTable.Strategy.constructor | lib/table_migrator/change_table_strategy.rb:8-15 | no change recorded and the identity map |
| ChangeTable.Strategy.Declare | lib/table_migrator/change_table_strategy.rb:46-56 | another table fails with TableNameMismatch and records nothing; a wrong arity fails and records nothing; otherwise exactly one `[op, args]` is appended and the hook is applied |
| ChangeTable.Strategy.ApplyChanges | lib/table_migrator/change_table_strategy.rb:19-23 | the recorded changes are sent against the given table, in recorded order, up to and including the first one the adapter refuses; that refusal is the outcome, and with none the call passes |
| ChangeTable.Strategy.CopySqlFor | lib/table_migrator/change_table_strategy.rb:25-33 | the copy statement projects the columns through the renames and removals the recorded changes make; with no change recorded it is the plain copy |
| Migration.ReplayedArgs | lib/table_migrator/migration_strategy.rb:31 | `\|m, args\|` on `[m, *args]` passes only the first argument on |
| Migration.ReplayEvents | lib/table_migrator/migration_strategy.rb:29-33 | one call per recorded change, in order, with the operation and only its first argument |
| Migration.Strategy.constructor | lib/table_migrator/migration_strategy.rb:7-13 | no change recorded and the identity map |
| Migration.Strategy.RegisterChange | lib/table_migrator/migration_strategy.rb:15-26 | another table fails with TableNameMismatch and records nothing; otherwise `[op, args]` is appended; as written the map never changes |
| Migration.Strategy.RenameColumn | lib/table_migrator/migration_strategy.rb:47-49 | the private hook maps the column to its new name |
| Migration.Strategy.RemoveColumn | lib/table_migrator/migration_strategy.rb:51-55 | the private hook maps each named column to nil |
| Migration.Strategy.RemoveTimestamps | lib/table_migrator/migration_strategy.rb:57-59 | the private hook maps both timestamps to nil |
| Migration.Strategy.ReplayChanges | lib/table_migrator/migration_strategy.rb:29-33 | one call per recorded change goes out, in order, up to and including the first one the adapter refuses; that refusal is the outcome, and with none the call passes |
| Migration.Strategy.CopySqlFor | lib/table_migrator/migration_strategy.rb:35-41 | with an empty rename map the copy statement is the plain copy over the same columns |
| Migration.IdentityProjection | lib/table_migrator/migration_strategy.rb:35-41 | with the map never written, `copy_sql_for` copies every column under its own name |
| Migration.ReplayDropsArguments | lib/table_migrator/migration_strategy.rb:29-33 | a recorded `rename_column(col, new)` is replayed as `rename_column(table, col)` |
| RawSql.SpacePrefix | lib/table_migrator/raw_sql_strategy.rb:20 | `\A\s*`: the longest white-space prefix |
| RawSql.SpacePrefixOf | lib/table_migrator/raw_sql_strategy.rb:20 | white space followed by a non-space character has exactly that prefix |
| RawSql.ReplaceLeadingInsert | lib/table_migrator/raw_sql_strategy.rb:20 | text without a leading `INSERT` (any case, after white space) is left alone |
| RawSql.LeadingInsertReplaced | lib/table_migrator/raw_sql_strategy.rb:20 | white space and a leading `INSERT` in any case become the verb, and the rest is kept |
| RawSql.RewriteIdempotent | lib/table_migrator/raw_sql_strategy.rb:20 | rewriting the verb twice is rewriting it once, for INSERT and REPLACE |
| RawSql.VerbStays | lib/table_migrator/raw_sql_strategy.rb:20 | a statement that already begins with `INSERT` or `REPLACE` is left as it is by the rewrite to that verb |
| RawSql.SubNewTableAll | lib/table_migrator/raw_sql_strategy.rb:12-16 | each schema change with `:new_table_name` substituted, in order |
| RawSql.BacktickAvoids | lib/table_migrator/raw_sql_strategy.rb:29 | backticks add no other character to a name |
| RawSql.SubTable | lib/table_migrator/raw_sql_strategy.rb:28-30 | text without `:table_name` is unchanged; for a table name without `:` or `\` no `:table_name` is left |
| RawSql.SubNewTable | lib/table_migrator/raw_sql_strategy.rb:32-34 | text without `:new_table_name` is unchanged; for a name without `:` or `\` no `:new_table_name` is left |
| RawSql.QuotedSubstitution | lib/table_migrator/raw_sql_strategy.rb:28-34 | replacing a `:` placeholder by a backquoted name leaves text without it unchanged, and leaves none behind when the name has no `:` |
| RawSql.Substituted | lib/table_migrator/raw_sql_strategy.rb:19-24 | a template with no leading `INSERT` and neither placeholder is used unchanged |
| RawSql.NoPlaceholderSurvives | lib/table_migrator/raw_sql_strategy.rb:19-34 | for names without `:` or `\`, no `:new_table_name` and no `:table_name` is left in the copy statement |
| RawSql.ChangeKeepsTablePlaceholder | lib/table_migrator/raw_sql_strategy.rb:12-16 | `apply_changes` substitutes only `:new_table_name`: `:table_name` stays |
| RawSql.Strategy.constructor | lib/table_migrator/raw_sql_strategy.rb:5-10 | the strategy keeps table, options, connection, template and schema changes |
| RawSql.Strategy.ApplyChanges | lib/table_migrator/raw_sql_strategy.rb:12-16 | the substituted schema changes reach the connection in list order, up to the first rejected one, which fails the call |
| RawSql.Strategy.CopyQuery | lib/table_migrator/raw_sql_strategy.rb:19-24 | for a table name without `:` or `\`, the copy statement for any verb holds no `:new_table_name` and no `:table_name` |
| RawSql.Strategy.ChangeStatements | lib/table_migrator/raw_sql_strategy.rb:12-16 | one statement per schema change, each without `:new_table_name` left unchanged, and none left with `:new_table_name` for a table name without `:` or `\` |
| SqlStatements.Strategy.constructor | lib/table_migrator/sql_statements_strategy.rb:5-7 | no schema change list and no template yet |
| SqlStatements.Strategy.SchemaChanges | lib/table_migrator/sql_statements_strategy.rb:5-7 | empty until populated, then the same list on every call |
| SqlStatements.Strategy.AddSchemaChange | lib/table_migrator/sql_statements_strategy.rb:5-7 | a statement pushed on the returned list is appended to the memo |
| SqlStatements.Strategy.ApplyChanges | lib/table_migrator/sql_statements_strategy.rb:9-13 | the memoised changes (an empty list on first use, so nothing runs), with `:new_table_name` substituted, run in order up to the first rejected one |
| SqlStatements.Strategy.CopySqlFor | lib/table_migrator/sql_statements_strategy.rb:16-21 | without a template it fails; otherwise the template with the verb and both placeholders substituted |
| SqlStatements.Strategy.CopySqlForIgnoresColumns | lib/table_migrator/sql_statements_strategy.rb:16-21 | the columns argument never changes the statement |
| Base.Quote | lib/table_migrator/base.rb:38-40 | each column name in backticks, in order |
| Base.Template | lib/table_migrator/base.rb:50 | the default copy template begins with `INSERT`, holds both placeholders, and the verb rewrite replaces exactly that leading `INSERT` |
| Base.CopyStatementShape | lib/table_migrator/base.rb:42-51 | the default template, after the raw strategy's rewriting, is `<verb> INTO `new` (cols) SELECT cols FROM `table``, with the same quoted list on both sides |
| Base.SubstitutedTemplate | lib/table_migrator/base.rb:42-51 | for names and columns without `:`, the substituted template is `<verb> INTO` the backquoted new table, the column list twice, and `FROM` the backquoted table |
| Base.Migrator.constructor | lib/table_migrator/base.rb:7-12 | the caller's options over the defaults; no memo and no strategy yet |
| Base.Migrator.SchemaChanges | lib/table_migrator/base.rb:24-26 | `@schema_changes \|\|= []`: empty at first, then the same list |
| Base.Migrator.ColumnNames | lib/table_migrator/base.rb:34-36 | the connection's column names, in its order, read once and memoised |
| Base.Migrator.QuotedColumnNames | lib/table_migrator/base.rb:38-40 | the quoted names, computed once; an existing memo is returned unchanged and the column names are left alone, otherwise the column-names memo is filled from the connection if it was empty |
| Base.Migrator.BaseCopyQuery | lib/table_migrator/base.rb:42-51 | columns passed in are quoted, discard the memo and stand on both sides; without columns an existing memo is returned unchanged, else the template over the quoted names is built and kept; the quoted and column-names memos change only as `quoted_column_names` changes them |
| Base.Migrator.ChangeTable | lib/table_migrator/base.rb:28-30 | `ChangeTableStrategy.new` is called with three arguments and raises ArgumentError |
| Base.Migrator.Strategy | lib/table_migrator/base.rb:59-62 | falls back to the raw strategy over the current template and schema changes on first use, leaving the template and change memos holding exactly what the strategy holds and the name memos as `base_copy_query` fills them; afterwards it is the same object and no memo changes |
| Base.Migrator.Engine | lib/table_migrator/base.rb:68-70 | a fresh copy engine over the strategy, or the missing-delta-column error |
| Base.Migrator.Up | lib/table_migrator/base.rb:14-16 | the connection receives exactly what the copy engine's `up!` sends from a fresh state, and the result is its result, unless the engine cannot be built |
| Base.Migrator.Down | lib/table_migrator/base.rb:18-20 | likewise for `down!` |
| CopyRuns.DeltaStatements | lib/table_migrator/copy_engine.rb:129-131 | one delta statement per id group, in order |
| CopyRuns.EpochQueryShape | lib/table_migrator/copy_engine.rb:168-169 | the epoch query selects the backquoted delta column from the backquoted table and ends in `DESC LIMIT 1` |
| CopyRuns.PagedCopyQuery | lib/table_migrator/copy_engine.rb:181-183 | the page query is the copy statement, then ``WHERE `id` >`` and the start, and ends in `LIMIT` and the page size |
| CopyRuns.PagedCopyQueryInjective | lib/table_migrator/copy_engine.rb:181-183 | two page queries are equal only for equal starts, so every page is a different statement |
| CopyRuns.FullDeltaQuery | lib/table_migrator/copy_engine.rb:185-187 | the full delta query is the copy statement restricted to rows whose delta column is at or after the epoch |
| CopyRuns.UpdatedIdsQueryShape | lib/table_migrator/copy_engine.rb:189-191 | the id query selects `id` from the bare table name and ends in the delta condition for the epoch |
| CopyRuns.PagedDeltaQuery | lib/table_migrator/copy_engine.rb:193-195 | the paged delta query is the copy statement restricted to `id in (...)` over exactly the given ids |
| CopyRuns.SwapStatements | lib/table_migrator/copy_engine.rb:44-48 | under the lock: the full delta copy, then the table renamed to the old name, then the new table renamed to the table |
| CopyRuns.DownStatements | lib/table_migrator/copy_engine.rb:62-66 | the table renamed back to the new name, the old table renamed to the table, and the new table dropped, in that order |
| CopyRuns.NextEpoch | lib/table_migrator/copy_engine.rb:165-172 | a dry run issues nothing and gives `Time.at(0)`; otherwise exactly the epoch query; only the epoch reply counter moves |
| CopyRuns.FlopEpoch | lib/table_migrator/copy_engine.rb:154-159 | on success returns the epoch stored before and stores a new one; on failure the stored epoch is kept; a dry run stores `Time.at(0)` |
| CopyRuns.NextEpochReads | lib/table_migrator/copy_engine.rb:165-172 | outside a dry run: a rejected epoch query fails with it and changes nothing; otherwise the next epoch reply is consumed and returned, and an empty reply fails with `NoEpochRow` |
| CopyRuns.FlopEpochStores | lib/table_migrator/copy_engine.rb:154-159 | the flop issues what `next_epoch` issues; on success it stores the captured epoch and returns the one stored before; on failure it keeps the stored epoch and passes the error on |
| CopyRuns.FlopEpochCaptures | lib/table_migrator/copy_engine.rb:154-172 | outside a dry run a flop succeeds exactly when the epoch query is accepted and a reply is there; then `last_epoch` is that reply, and the next flop returns it |
| CopyRuns.PagedCopy | lib/table_migrator/copy_engine.rb:87-108 | the paged copy issues no pause |
| CopyRuns.PagedDeltaCopy | lib/table_migrator/copy_engine.rb:125-133 | a delta pass issues no pause and does not read the clock |
| CopyRuns.Prepare | lib/table_migrator/copy_engine.rb:25-28 | creation and the row probe issue no pause |
| CopyRuns.Copies | lib/table_migrator/copy_engine.rb:31-34 | with neither option set the copy phase issues nothing |
| CopyRuns.CopyAndSwap | lib/table_migrator/copy_engine.rb:31-48 | a pause is issued only with `create_temp_table` or `multi_pass`, and always with one of them when the phase succeeds |
| CopyRuns.Up | lib/table_migrator/copy_engine.rb:22-59 | a settle pause happens only for a table with rows (or a dry run) and only when a copy was asked for; a failing preparation ends `up!`; an empty table keeps the state |
| CopyRuns.Down | lib/table_migrator/copy_engine.rb:61-67 | `down!` issues no pause |
| CopyRuns.EmptySwap | lib/table_migrator/copy_engine.rb:53-57 | the empty-table swap issues no pause |
| CopyRuns.DryRunUpSucceeds | lib/table_migrator/copy_engine.rb:22-59 | a dry run of `up!` cannot fail, and nothing of it reaches the connection |
| CopyRuns.MultiPassDry | lib/table_migrator/copy_engine.rb:110-123 | dry delta passes never fail |
| CopyRuns.PauseOnlyWithOptions | lib/table_migrator/copy_engine.rb:36-41 | `up!` pauses only with `create_temp_table` or `multi_pass`, and does pause when one is set and the copy succeeded |
| CopyRuns.UpSwapsUnderOneLock | lib/table_migrator/copy_engine.rb:44-48 | a successful `up!` on a table with rows ends with one lock on table and copy, in which the final delta copy, table→old and new→table run, then COMMIT, UNLOCK and the restore |
| CopyRuns.UpHead | lib/table_migrator/copy_engine.rb:22-48 | a successful `up!` is some prefix followed by the locked swap |
| CopyRuns.CopyAndSwapTail | lib/table_migrator/copy_engine.rb:31-48 | the copy-and-swap phase ends with the locked swap |
| CopyRuns.UpEmptyTable | lib/table_migrator/copy_engine.rb:50-57 | on an empty table `up!` issues the creation, the probe, then under one lock the whole copy and both renames (the first missing its closing backtick), and reads no reply |
| CopyRuns.PrepareSuccess | lib/table_migrator/copy_engine.rb:25-28 | a successful preparation issues the creation statements when asked, then the probe |
| CopyRuns.DownShape | lib/table_migrator/copy_engine.rb:61-67 | `down!` restores autocommit last, and on success runs table→new, old→table and the drop under a lock on table and old table |
| CopyRuns.PagedCopyFlopsFirst | lib/table_migrator/copy_engine.rb:87-97 | `paged_copy` flops the epoch once, before the first page; a dry run issues just the page after 0 and stores `Time.at(0)` |
| CopyRuns.PassCountBounds | lib/table_migrator/copy_engine.rb:113-122 | between 1 and `MAX_DELTA_PASSES` passes; every pass but the last took longer than the threshold; the last is quick or the fifth |
| CopyRuns.MultiPassCount | lib/table_migrator/copy_engine.rb:113-122 | a successful multi-pass copy times exactly that many passes |
| CopyRuns.MultiPassStep | lib/table_migrator/copy_engine.rb:114-122 | a failing pass ends the loop; a quick or fifth pass stops it; otherwise the next pass follows |
| CopyRuns.PassCountStep | lib/table_migrator/copy_engine.rb:113-122 | one pass is counted when it was quick or the last allowed; otherwise one more than the passes that follow |
| CopyRuns.AfterPassStep | lib/table_migrator/copy_engine.rb:114-122 | after a pass: a failure ends the loop; a quick or last pass only advances the clock; otherwise the remaining passes run and their events follow |
| CopyRuns.AfterPassCount | lib/table_migrator/copy_engine.rb:113-122 | a successful run of the remaining passes advances the clock by exactly the number of passes it makes |
| CopyRuns.MultiPassStops | lib/table_migrator/copy_engine.rb:121 | the loop stops after a quick or a fifth pass |
| CopyRuns.MultiPassGoesOn | lib/table_migrator/copy_engine.rb:121 | after a slow pass before the fifth, the loop goes on |
| CopyEngine.Engine.constructor | lib/table_migrator/copy_engine.rb:13-20 | the engine reads its settings from the strategy; no epoch stored |
| CopyEngine.Engine.New | lib/table_migrator/copy_engine.rb:13-20 | built exactly when dry-run is on or the strategy's columns hold the delta column; otherwise the missing-delta-column error |
| CopyEngine.Engine.Execute | lib/table_migrator/copy_engine.rb:233-244 | always issued, sent only outside a dry run, failing exactly when sent and rejected |
| CopyEngine.Engine.ExecuteAll | lib/table_migrator/copy_engine.rb:233-244 | the statements issued and sent up to the first failure, as `Plan.ExecAll` says |
| CopyEngine.Engine.NextEpoch | lib/table_migrator/copy_engine.rb:165-172 | issues, sends and returns what `CopyRuns.NextEpoch` says |
| CopyEngine.Engine.FlopEpoch | lib/table_migrator/copy_engine.rb:154-159 | `CopyRuns.FlopEpoch`: the old epoch returned, the new one stored |
| CopyEngine.Engine.SelectMaxId | lib/table_migrator/copy_engine.rb:102 | outside a dry run the query is issued and sent, and yields the next reply or fails |
| CopyEngine.Engine.PagedCopy | lib/table_migrator/copy_engine.rb:87-108 | issues, sends and ends as `CopyRuns.PagedCopy` |
| CopyEngine.Engine.CopyPages | lib/table_migrator/copy_engine.rb:93-107 | the page loop issues, sends and ends as `Plan.PagedLoop` from start 0 |
| CopyEngine.Engine.CopyPage | lib/table_migrator/copy_engine.rb:97-106 | one round of the loop, the page statement then the `max(id)` read (none under a dry run): it stops as the loop would, or resumes from the reply |
| CopyEngine.Engine.ReadMaxId | lib/table_migrator/copy_engine.rb:102-106 | the `max(id)` read of a round: it stops when the query fails or the reply equals the start, and otherwise resumes from the larger reply |
| CopyEngine.Engine.SelectIds | lib/table_migrator/copy_engine.rb:127 | issued always; under a dry run nothing is sent and no id is found; otherwise the next id list, or the failure when rejected |
| CopyEngine.Engine.PagedDeltaCopy | lib/table_migrator/copy_engine.rb:125-133 | issues, sends and ends as `CopyRuns.PagedDeltaCopy` |
| CopyEngine.Engine.TimedPass | lib/table_migrator/copy_engine.rb:117-119 | one delta pass, then one more reading of the clock |
| CopyEngine.Engine.MultiPassDeltaCopy | lib/table_migrator/copy_engine.rb:110-123 | issues, sends and ends as `CopyRuns.MultiPass` from pass 1 |
| CopyEngine.Engine.Round | lib/table_migrator/copy_engine.rb:114-121 | one pass of the loop: it stops as the loop would, or goes on with the next pass |
| CopyEngine.ContinuesAfter | lib/table_migrator/copy_engine.rb:114-121 | once a pass is done, the engine's remaining run is the rest of the specified run of passes |
| CopyEngine.Engine.FullDeltaCopy | lib/table_migrator/copy_engine.rb:135-140 | the rows changed since the stored epoch are copied again; the state is unchanged |
| CopyEngine.Engine.CreateNewTable | lib/table_migrator/copy_engine.rb:79-85 | `CREATE TABLE new LIKE table`, then the schema changes outside a dry run, up to the first failure |
| CopyEngine.Engine.LockedBlock | lib/table_migrator/copy_engine.rb:263-271 | the `begin` part of the lock, as `Plan.Locked` says |
| CopyEngine.Engine.InTableLock | lib/table_migrator/copy_engine.rb:261-276 | the whole lock with its `ensure`, as `Plan.LockedEnsure` says |
| CopyEngine.Engine.Prepare | lib/table_migrator/copy_engine.rb:25-28 | the creation when asked, then the row probe outside a dry run |
| CopyEngine.Engine.PagedCopyIfTemp | lib/table_migrator/copy_engine.rb:31 | `paged_copy` exactly when `create_temp_table` is set |
| CopyEngine.Engine.MultiPassIfAsked | lib/table_migrator/copy_engine.rb:34 | the delta passes exactly when `multi_pass` is set |
| CopyEngine.Engine.Copies | lib/table_migrator/copy_engine.rb:31-34 | issues, sends and ends as `CopyRuns.Copies` |
| CopyEngine.Engine.Settle | lib/table_migrator/copy_engine.rb:36-41 | one pause exactly when either option is set, sent nowhere |
| CopyEngine.Engine.CopyAndSwap | lib/table_migrator/copy_engine.rb:31-48 | issues, sends and ends as `CopyRuns.CopyAndSwap` |
| CopyEngine.Engine.EmptySwap | lib/table_migrator/copy_engine.rb:53-57 | issues, sends and ends as `CopyRuns.EmptySwap` |
| CopyEngine.Engine.Up | lib/table_migrator/copy_engine.rb:22-59 | issues, sends, leaves its state and ends exactly as `CopyRuns.Up` |
| CopyEngine.Engine.Down | lib/table_migrator/copy_engine.rb:61-67 | issues, sends and ends as `CopyRuns.Down` |
| LegacyRuns.NamesDistinct | lib/table_migrator.rb:222-232 | table, `new_<table>` and `old<table>` or `<table>_pre_<name>` are pairwise distinct |
| LegacyRuns.OldTableName | lib/table_migrator.rb:226-232 | with a migration name the old table is the same as the copy engine's; without one it is not `<table>_old` |
| LegacyRuns.PrepareSqlClears | lib/table_migrator.rb:247-252 | for names without `:` or `\`, no `:table_name`, `:old_table_name` or `:new_table_name` is left |
| LegacyRuns.PrepareSqlKeeps | lib/table_migrator.rb:247-252 | text without `:` is sent as written |
| LegacyRuns.PrepareSqlUntouched | lib/table_migrator.rb:247-252 | text holding none of the three placeholders is unchanged |
| LegacyRuns.PrepareSqlFillsTable | lib/table_migrator.rb:249 | a `:table_name` placeholder becomes the backticked table, and the text around it is kept |
| LegacyRuns.PrepareSqlKeepsLater | lib/table_migrator.rb:250-251 | the later substitutions leave text without `:` alone |
| LegacyRuns.NoColonNoPlaceholder | lib/table_migrator.rb:247-252 | text without `:` holds no placeholder |
| LegacyRuns.PrepareAll | lib/table_migrator.rb:247-252 | each statement prepared, in order |
| LegacyRuns.PrepareAllAppend | lib/table_migrator.rb:247-252 | preparing a concatenation is concatenating the prepared parts |
| LegacyRuns.Execs | lib/table_migrator.rb:254-265 | a run of prepared statements issues no pause |
| LegacyRuns.UpdateMap | lib/table_migrator.rb:41-45 | without an assigned map, `common_cols` raises NameError; with one, that map |
| LegacyRuns.EpochQueryShape | lib/table_migrator.rb:180-190 | the epoch query selects the backquoted delta column from the backquoted table and ends in `DESC LIMIT 1`; for names without `:` preparing it changes nothing |
| LegacyRuns.PagedCopyQuery | lib/table_migrator.rb:195-197 | the page query is the copy template, then ``WHERE `id` >`` and the start, and ends in `LIMIT` and the page size |
| LegacyRuns.PagedCopyQueryInjective | lib/table_migrator.rb:195-197 | two page queries are equal only for equal starts |
| LegacyRuns.UpdatedIdsQueryShape | lib/table_migrator.rb:204-206 | the id query selects `id` from the bare table name and ends in the delta condition for the epoch |
| LegacyRuns.PagedDeltaQuery | lib/table_migrator.rb:208-211 | the template, `` WHERE `id` in (ids) ``, then `ON DUPLICATE KEY UPDATE` and the map; NameError exactly when there is no map |
| LegacyRuns.FullDeltaQuery | lib/table_migrator.rb:199-202 | the template, `` WHERE `delta` >= 'epoch' ``, then the update clause; NameError exactly when there is no map |
| LegacyRuns.DeltaStatements | lib/table_migrator.rb:146-149 | one delta statement per id group, in order |
| LegacyRuns.NextEpoch | lib/table_migrator.rb:180-190 | the prepared epoch query is issued even in a dry run, which reads the clock instead of the database; only the epoch reply counter or the clock count moves |
| LegacyRuns.FlopEpoch | lib/table_migrator.rb:169-174 | returns the stored epoch and stores a new one on success; a dry run stores the clock's reading |
| LegacyRuns.NextEpochReads | lib/table_migrator.rb:180-190 | outside a dry run: a rejected prepared epoch query fails with it and changes nothing; otherwise the next epoch reply is consumed and returned, and an empty reply fails with `NoEpochRow` |
| LegacyRuns.FlopEpochStores | lib/table_migrator.rb:169-174 | the flop issues what `next_epoch` issues; on success it stores the captured epoch and returns the one stored before; on failure it keeps the stored epoch and passes the error on |
| LegacyRuns.FlopEpochCaptures | lib/table_migrator.rb:169-190 | outside a dry run a flop succeeds exactly when the prepared epoch query is accepted and a reply is there; then that reply is stored, and the next flop returns it |
| LegacyRuns.PagedCopy | lib/table_migrator.rb:105-125 | the paged copy issues no pause |
| LegacyRuns.DeltaGroups | lib/table_migrator.rb:146-149 | the group statements issue no pause |
| LegacyRuns.PagedDeltaCopy | lib/table_migrator.rb:142-150 | a delta pass issues no pause, does not time itself, and issues only queries when no update map is assigned |
| LegacyRuns.MultiPass | lib/table_migrator.rb:127-140 | the delta passes issue no pause, and only queries without an update map |
| LegacyRuns.AfterPass | lib/table_migrator.rb:136-139 | what follows a pass adds no pause, and only queries without an update map |
| LegacyRuns.InTableLock | lib/table_migrator.rb:282-294 | the legacy lock issues no pause |
| LegacyRuns.Bracketed | lib/table_migrator.rb:282-294 | statements run between a prelude and a postlude issue no pause |
| LegacyRuns.Setup | lib/table_migrator.rb:50-53 | creation and the row probe issue no pause |
| LegacyRuns.Copies | lib/table_migrator.rb:56-59 | the copy phase issues no pause |
| LegacyRuns.EmptySwap | lib/table_migrator.rb:76-80 | the empty-table swap issues no pause |
| LegacyRuns.SwapStatements | lib/table_migrator.rb:67-70 | under the lock: the table renamed to the old name (as written, without its closing backtick), then the new table renamed to the table |
| LegacyRuns.CopyAndSwap | lib/table_migrator.rb:55-71 | when the copies pass, a settle pause follows; a failing copy ends the step with its result |
| LegacyRuns.Swap | lib/table_migrator.rb:53-81 | a pause happens only for a table with rows or a dry run; an empty table outside a dry run keeps the state |
| LegacyRuns.Up | lib/table_migrator.rb:47-82 | a failing setup ends `up!`; a pause happens only for a table with rows or a dry run, and always once the copies pass |
| LegacyRuns.Down | lib/table_migrator.rb:84-90 | `down!` issues no pause |
| LegacyRuns.DownStatements | lib/table_migrator.rb:84-90 | the table renamed back to the new name, the old table renamed to the table, and the new table dropped, in that order |
| LegacyRuns.ExecsEnds | lib/table_migrator.rb:254-265 | a passing run issues every prepared statement; a failing one is not dry and ends with the rejected statement |
| LegacyRuns.Issued3 | lib/table_migrator.rb:254-265 | the prepared events of three lists are those of their concatenation |
| LegacyRuns.InTableLockShape | lib/table_migrator.rb:282-294 | on success: autocommit off, LOCK, body, COMMIT, UNLOCK, autocommit on; with no `ensure`, a failure ends with the rejected statement, and a failing body is followed by nothing |
| LegacyRuns.BracketedShape | lib/table_migrator.rb:282-294 | on success the statements before, in and after the block are issued in order; a failure is the last event; a failing block after a passing prelude stops there |
| LegacyRuns.DryRunUpSucceeds | lib/table_migrator.rb:47-82 | a dry run of `up!` cannot fail |
| LegacyRuns.MultiPassDry | lib/table_migrator.rb:127-140 | dry delta passes never fail |
| LegacyRuns.PagedCopyDry | lib/table_migrator.rb:105-125 | a dry paged copy issues the epoch query and one page after 0, and stores the clock's reading |
| LegacyRuns.DeltaPassNameError | lib/table_migrator.rb:41-45 | without an assigned update map, a delta pass that finds changed ids fails with NameError for `common_cols` |
| LegacyRuns.AfterPassStep | lib/table_migrator.rb:136-139 | a failing pass ends the loop; a quick or fifth pass stops it; otherwise the next pass follows |
| LegacyRuns.MultiPassCount | lib/table_migrator.rb:127-140 | a successful run of the delta passes reads the clock exactly as many times as the copy engine's pass count |
| LegacyRuns.AfterPassCount | lib/table_migrator.rb:131-139 | from any pass on, the remaining passes read the clock once each, as the pass count says |
| LegacyRuns.PassCountBounds | lib/table_migrator.rb:127-140 | between 1 and `MAX_DELTA_PASSES` passes; every pass but the last took longer than the threshold; the last is quick or the fifth |
| LegacyRuns.UpSwapsUnderOneLock | lib/table_migrator.rb:61-71 | a successful `up!` on a table with rows ends with the pause and one lock on table and copy, holding only the two renames (the first missing its closing backtick) |
| LegacyRuns.UpEmptyTable | lib/table_migrator.rb:73-80 | a successful `up!` on an empty table issues the creation, the probe, then under one lock the whole copy and both renames; the read state is unchanged |
| LegacyRuns.DownShape | lib/table_migrator.rb:84-90 | `down!` runs table→new, old→table and the drop under a lock on table and old table; a failure ends with the rejected statement |
| Legacy.Migrator.constructor | lib/table_migrator.rb:13-25 | the caller's options over `dry_run: true`, empty schema changes, no memo, no epoch |
| Legacy.Migrator.New | lib/table_migrator.rb:21-24 | built exactly when dry-run is on or the table has the delta column; otherwise the missing-delta-column error |
| Legacy.Migrator.SetSchemaChanges | lib/table_migrator.rb:15 | the assigned statements become the schema changes a run applies |
| Legacy.Migrator.SetOnDuplicateUpdateMap | lib/table_migrator.rb:41-45 | an assigned update map is the one the delta queries use |
| Legacy.Migrator.BaseCopyQuery | lib/table_migrator.rb:35-39 | columns passed in stand as given on both sides and replace the memo; without columns an existing memo is kept and the run settings stay the same |
| Legacy.Migrator.OnDuplicateUpdateMap | lib/table_migrator.rb:41-45 | columns passed in discard the memo and raise NameError; without columns, the memo or NameError |
| Legacy.Migrator.Execute | lib/table_migrator.rb:254-265 | prepared and issued always, sent only outside a dry run, failing exactly when sent and rejected |
| Legacy.Migrator.Issue | lib/table_migrator.rb:254-265 | a prepared statement issued through the dry-run gate |
| Legacy.Migrator.ExecuteAll | lib/table_migrator.rb:254-265 | prepared statements up to the first failure, as `LegacyRuns.Execs` says |
| Legacy.Migrator.IssueAll | lib/table_migrator.rb:254-265 | the loop over prepared statements, up to the first failure |
| Legacy.Migrator.NextEpoch | lib/table_migrator.rb:180-190 | issues, sends and returns what `LegacyRuns.NextEpoch` says |
| Legacy.Migrator.FlopEpoch | lib/table_migrator.rb:169-174 | `LegacyRuns.FlopEpoch`: the old epoch returned, the new one stored |
| Legacy.Migrator.SelectMaxId | lib/table_migrator.rb:119 | outside a dry run the prepared query is issued and sent, and yields the next reply or fails |
| Legacy.Migrator.PagedCopy | lib/table_migrator.rb:105-125 | issues, sends and ends as `LegacyRuns.PagedCopy` |
| Legacy.Migrator.CopyPages | lib/table_migrator.rb:111-124 | the page loop issues, sends and ends as `Plan.PagedLoop` from start 0 |
| Legacy.Migrator.CopyPage | lib/table_migrator.rb:114-123 | one round of the loop, the page statement then the `max(id)` read (none under a dry run): it stops as the loop would, or resumes from the reply |
| Legacy.Migrator.ReadMaxId | lib/table_migrator.rb:119-123 | the `max(id)` read of a round: it stops when the query fails or the reply equals the start, and otherwise resumes from the larger reply |
| Legacy.Migrator.SelectIds | lib/table_migrator.rb:144 | issued always; under a dry run nothing is sent and no id is found; otherwise the next id list, or the failure when rejected |
| Legacy.Migrator.DeltaGroups | lib/table_migrator.rb:146-149 | as `LegacyRuns.DeltaGroups` |
| Legacy.Migrator.PagedDeltaCopy | lib/table_migrator.rb:142-150 | issues, sends and ends as `LegacyRuns.PagedDeltaCopy` |
| Legacy.Migrator.TimedPass | lib/table_migrator.rb:134-136 | one delta pass, then one more reading of the clock |
| Legacy.Migrator.MultiPassDeltaCopy | lib/table_migrator.rb:127-140 | issues, sends and ends as `LegacyRuns.MultiPass` from pass 1 |
| Legacy.Migrator.Round | lib/table_migrator.rb:131-139 | one pass of the loop: it stops as the loop would, or goes on with the next pass |
| Legacy.Migrator.CreateNewTable | lib/table_migrator.rb:94-103 | as `LegacyRuns.Execs` over the creation statements |
| Legacy.Migrator.InTableLock | lib/table_migrator.rb:282-294 | as `LegacyRuns.InTableLock` |
| Legacy.Migrator.Setup | lib/table_migrator.rb:50-53 | as `LegacyRuns.Setup` |
| Legacy.Migrator.MultiPassIfAsked | lib/table_migrator.rb:59 | the delta passes exactly when `multi_pass` is set |
| Legacy.Migrator.Copies | lib/table_migrator.rb:56-59 | as `LegacyRuns.Copies` |
| Legacy.Migrator.Settle | lib/table_migrator.rb:61-64 | one pause, sent nowhere |
| Legacy.Migrator.CopyAndSwap | lib/table_migrator.rb:55-71 | as `LegacyRuns.CopyAndSwap` |
| Legacy.Migrator.EmptySwap | lib/table_migrator.rb:73-80 | as `LegacyRuns.EmptySwap` |
| Legacy.Migrator.Swap | lib/table_migrator.rb:53-81 | the branch on the row probe, as `LegacyRuns.Swap` |
| Legacy.Migrator.Migrate | lib/table_migrator.rb:47-82 | `up!` on given settings, as `LegacyRuns.Up` |
| Legacy.Migrator.Up | lib/table_migrator.rb:47-82 | issues, sends, leaves its state and ends exactly as `LegacyRuns.Up` on the migrator's settings |
| Legacy.Migrator.Down | lib/table_migrator.rb:84-90 | issues, sends and ends as `LegacyRuns.Down` |

## Left out

- **I/O.** Logging and console output are I/O and issue no statement: `info`, `info_with_time`, `say`, `say_with_time`, `puts`, `p` and `$stdout.flush`.
  - The block the older class hands to `info` in `full_delta_copy` never runs, so that method issues nothing.
- **Wall-clock time.** `sleep` in the settle pause is the `Pause` event, which never reaches the connection. `Time.now` is the elapsed-seconds input `elapsedAt`.
  - The older class's dry-run epochs `Time.now.utc` are the input `nowAt`.
  - How an epoch is rendered is not modelled. `Time.at(0)` is a local time, and the model assumes the process runs in UTC, where it prints as `1970-01-01 00:00:00 +0000`. The dependence of the dry-run epoch text on the host's time zone is not captured.
- **The database.** `ActiveRecord::Base.connection`, `connection.columns`, and the rows and replies are oracle inputs of `Connection`. A NULL delta value is not distinguished from an epoch.
- **Helpers outside the core:**
  - `in_global_lock` (a server-wide lock the algorithms do not use);
  - `create_table_and_copy_info` (not called by `up!`);
  - lib/table_migration.rb (the ActiveRecord migration hook);
  - the `ActiveRecord::ConnectionAdapters::Table` helpers used by `ChangeTableStrategy`.
- **Case folding.** The `/\A\s*INSERT/i` match in `RawSql.ReplaceLeadingInsert` folds ASCII letters only. Ruby's `/i` also matches some non-ASCII characters, such as `ſ` (U+017F) for `s`; those are not modelled.
- **Configuration values.** Option values are nil, booleans or strings. `HashWithIndifferentAccess` is not modelled: keys are strings.
- **The older class's memos.** Its `column_names` and `quoted_column_names` memos are not kept, and the connection's column names are read directly. They cannot change during a run.
- Legacy.Migrator.Up: does not store the `base_copy_query` memo that the source fills on first use. The template it runs with is the one the memo would hold, so the statements are the same.
- **Private methods take a settings snapshot.** The private methods of `Legacy.Migrator` take that snapshot of the migrator's settings as a parameter, and require its connection to be the migrator's.
- **Fixed strategy base.** `RawSqlStrategy#initialize` calls `super` with no matching superclass. The model takes the strategy to behave as a `CopyStrategy` over the stored table, options and connection.
  - `base_copy_query(verb)` shadows its own reader and would call itself. The model uses the stored `@base_copy_query` template.
- **No fix applied.** These defects are modelled as written:
  - the renames missing their closing backtick at lib/table_migrator/copy_engine.rb:55 and lib/table_migrator.rb:69,78;
  - the undefined `common_cols` at lib/table_migrator.rb:44;
  - `MigrationStrategy`'s private hooks, which `respond_to?` never finds, so its map stays the identity;
  - the replay that passes only each change's first argument;
  - `Base#change_table` calling `ChangeTableStrategy.new` with one argument too many.
- **`Sane` connection precondition.** The `max(id)` replies lie between 0 and a bound and never decrease. This is what makes the page loop terminate. A connection whose replies go backwards may loop forever in the source, and is outside the model. `Sane` also excludes some non-monotone connections on which the source does terminate, because its loop stops as soon as a reply equals the page start (replies 10, 5, 5, for example).
- Text.ReplaceAll: copies the replacement text literally. Ruby's `gsub` with a string replacement reads `\0`, `\&`, `\\`, `` \` ``, `\'` and `\1`… in it as back-references, so the placeholder lemmas (`RawSql.SubTable`, `RawSql.SubNewTable`, `RawSql.NoPlaceholderSurvives`, `LegacyRuns.PrepareSqlClears`) assume names without `\`.
- Base.Migrator.Strategy: hands the raw-SQL strategy a copy of the memoised `schema_changes` list. In the source it is the same array, so a change pushed after the strategy exists reaches it; here it does not.
- **Adapter refusals.** Which `connection.send` calls the adapter raises on (a rejected DDL, a wrong arity) is the oracle input `refusedSends` of `Connection`; the reason for the refusal is not modelled.
