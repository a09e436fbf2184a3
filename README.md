# sql-migrate in Dafny

A model of the core of sql-migrate, a schema-migration library for Go with
two small command-line front ends. It covers:

- the id order on migrations;
- the planner, which decides which migrations a run applies, in which
  order and direction;
- the executor, which runs a plan against a database and records each
  migration in the migration table;
- the package-wide settings;
- the level-filtered logger;
- the configuration checks of the `sql-migrate` and `gorp-migrate` commands.

Layout, one module per concern:

- `ordering.dfy` (`Ordering`) is the hybrid id order.
  - An id with a leading run of ASCII digits (the pattern `^(\d+).*$`, so
    no newline anywhere) compares by the integer value of that run.
  - Such ids come before all others.
  - Everything else compares as Go strings compare, bytewise.
- `migration.dfy` (`Migrations`) holds the migration values.
  - Lazy loading is a pending/loaded variant, and the planned form is bound
    to a direction.
  - The id sort is an insertion sort. `sort.Sort` is the library's
    unstable sort; with distinct ids there is only one sorted
    arrangement, so the two agree.
  - Also here: the in-memory source, and the name filter of the packr source.
- `planner.dfy` (`Planner`) models `ToApply`, `ToCatchup` and
  `planMigrationCommon`.
  - Each is a method with the source's loops, proved equal to a
    specification function.
  - The planner's promises are lemmas about those functions.
- `executor.dfy` (`Executor`) models `applyMigrations`, `SkipMax`,
  `ExecMax` and `ExecVersion`.
  - They are methods of a `Database` class whose fields are the migration
    table's ids, in row order, and the statements whose effects the
    database keeps.
  - Each method is proved equal to a specification function.
  - Which database operation fails, and with what error, is an oracle
    given as a parameter.
  - A transactional step that fails rolls back to a saved snapshot.
- `settings.dfy` (`Settings`) is the `MigrationSet` record, the table-name
  default, and the package's global settings as a class with its setters.
- `logger.dfy` (`Log`) is the logger as two classes: a logger with a level
  and a writer, and a writer that appends each message to a log.
- `config.dfy` (`SqlMigrateConfig`, `GorpMigrateConfig`) covers both
  commands.
  - The parsed configuration file is a map from environment names to
    entries.
  - Each command's environment checks and defaults are a method proved
    equal to a function.
  - So are the dialect and TLS checks made before connecting.
- `plan_examples.dfy` (`PlanExamples`) is the plan for the "database with
  holes" scenario of the source's tests.
- `wrappers.dfy` (`Wrappers`) holds `Option` and `Result`.

One behaviour the model makes explicit is stated by
`Executor.DownCatchupUnrecorded`.

- A down plan may start with catch-up entries. These carry the
  migration's up statements.
- `applyMigrations` books every entry with the run's direction. A
  completed catch-up entry in a down run therefore runs its up statements
  and then deletes a record that does not exist.
- So the migration is in effect but not recorded.
- The source's tests check only the plan, not what running it records.

Repeated runs are covered by lemmas in `Executor`.

- After an unlimited up run that completes, migrating up again applies
  nothing (`Executor.ExecMaxIdempotent`). The same holds after an
  unlimited skip (`Executor.SkipMaxThenExec`).
- An unlimited down run that completes empties the table, and a second
  one does nothing (`Executor.ExecMaxDownAll`, `Executor.UpThenDownEmpties`).
- These lemmas require that the candidates are sorted, that their ids are
  distinct and non-empty, and that every recorded id belongs to a
  candidate.
- The source does not check that ids are distinct. The lemmas say nothing
  about a source with two migrations under one id.
- Non-empty ids are needed because of the source's own behaviour. The
  selection walk treats an empty last applied id as "nothing applied"
  and starts before the first migration (migrate.go:778-779). The empty
  id sorts after the numeric ids and before the other non-numeric ones.
  So when the empty id is the last applied one, which happens when every
  other recorded id is numeric, its migration is planned again on the next
  up run, and for such a database the source is not idempotent
  (`Planner.EmptyIdReplanned` shows the case of a single migration). With
  a non-numeric id such as "abc" also recorded, "abc" is the last applied
  id and nothing is planned again.
- With a repeated id, the source's table, keyed on the id, refuses the
  second insert. `Executor.DuplicateIdStopsRun` shows a run stopping
  there after one step.

## Model

| member | source | states |
|---|---|---|
| Ordering.LessCases | migrate.go:150-161 | a numeric id with the smaller leading integer is below the other; a numeric id is below a non-numeric one and not the other way; otherwise the order is exactly the string order |
| Ordering.LessIrreflexive | migrate.go:150-161 | no id is below itself |
| Ordering.LessAsymmetric | migrate.go:150-161 | if a is below b then b is not below a |
| Ordering.LessTransitive | migrate.go:150-161 | the id order is transitive |
| Ordering.LessConnected | migrate.go:150-161 | any two distinct ids are ordered one way or the other, so the order is a strict total order |
| Ordering.StrLessIsLexBefore | migrate.go:159-160 | the string comparison holds exactly when a is a proper prefix of b or the first differing character of a is smaller |
| Ordering.VersionIntOfDigits | migrate.go:163-178 | an id made of digits followed by a non-digit, with no newline, matches the prefix pattern, and its version is the value of those digits |
| Ordering.VersionIntOfRendered | migrate.go:57 | the decimal rendering of n followed by anything that does not extend the digit run (and has no newline) matches the pattern and has version n |
| Ordering.DecimalRoundTrip | migrate.go:171-178 | parsing the decimal rendering of n gives n back |
| Ordering.LessSameLeadingDigits | migrate.go:150-161 | ids with the same leading digits compare by what follows the digits |
| Ordering.LessExamplesShort | migrate_test.go:485-493 | 1 < 2, 1 < a, 1 < 10, a is not below a, and the reverse comparisons fail |
| Ordering.LessExamplesSameVersion | migrate_test.go:490-491 | 1-a < 1-b and not the reverse |
| Ordering.LessExamplesSuffix | migrate_test.go:494-495 | 1_foo < 10_bar and not the reverse |
| Ordering.LessExamplesTimestamp | migrate_test.go:496-501 | 20160126_1100 < 20160126_1200 and not the reverse |
| Migrations.Load | migrate.go:181-203 | a loaded migration comes back unchanged; otherwise loading succeeds exactly when the file opens and parses, and yields a loaded migration with the same id and the parsed statements and flags; failures carry the source's two messages |
| Migrations.LoadIdempotent | migrate.go:182-184 | loading a migration that was loaded changes nothing, whatever the file system now says |
| Migrations.Planned | migrate.go:709-720 | the planned form keeps the migration and takes the up statements and up flag going up, the down ones going down |
| Migrations.SortByIdCorrect | migrate.go:212-216 | the id sort returns the same migrations (as a multiset), ordered so that no later id is below an earlier one |
| Migrations.SortedArrangementUnique | migrate.go:212-216 | two sorted permutations of migrations with distinct ids are equal, so any correct sort agrees with the model's |
| Migrations.FindMigrations | migrate.go:263-271 | the in-memory source returns its migrations sorted by id and as a permutation of the stored list, which is a value and stays as it was |
| Migrations.ExamplePairs | sort_test.go:25-34 | the expected output 1_abc, 2_cde, 3_efg, 4_abc, 10_abc, 35_cde, 120_cde, efg has each id below the next |
| Migrations.BareMigrations | migrate.go:640-645 | one id-only migration per applied record, in record order |
| Migrations.BoxPrefix | migrate.go:418-422 | the item prefix is empty for the directory "." and the directory followed by "/" otherwise |
| Migrations.PackrSelectedMeans | migrate.go:424-433 | an item is kept with name n exactly when it is in the listing, starts with the prefix, ends in ".sql" with no "/" after the prefix, and is the prefix followed by n |
| Migrations.PackrFindNames | migrate.go:414-433 | the selection loop yields the kept items with their names, in listing order |
| Planner.FirstMatch | migrate.go:779-787 | the walk stops at the first migration with the current id, at the last migration when none has it, at -1 only for an empty list |
| Planner.ApplicableFromScratch | migrate.go:777-804 | with nothing applied, up selects every migration and down selects none |
| Planner.ApplicableAt | migrate.go:777-804 | when the last applied id first occurs at i, up selects what follows i, and down selects i and everything before it, latest first |
| Planner.ApplicableUnknownCurrent | migrate.go:779-787 | an applied id that is not among the migrations makes up select nothing and down select all of them, reversed |
| Planner.ApplicableSplit | migrate.go:788-800 | the down selection, reversed back, followed by the up selection, is the whole list |
| Planner.ToApply | migrate.go:777-804 | the index walk and the backwards fill compute the selection |
| Planner.LoadAll | migrate.go:703-721 | loading succeeds exactly when every migration loads, planning each in order; otherwise the error is that of the first one that fails |
| Planner.LoadAllLoaded | migrate.go:703-721 | migrations that are already loaded are planned as they are |
| Planner.MissingMeans | migrate.go:806-829 | a migration is owed by catch-up exactly when it is a candidate, its id is not applied and it sorts below the last applied id |
| Planner.MissingSorted | migrate.go:806-829 | the catch-up list keeps the candidates' id order |
| Planner.IsApplied | migrate.go:808-815 | the inner search finds the migration exactly when its id is among the applied ones |
| Planner.ToCatchup | migrate.go:806-829 | the catch-up list is the owed migrations, in source order, loaded and planned with their up statements; the first load failure is the result |
| Planner.FirstUnknown | migrate.go:650-660 | no unknown id exactly when every applied id is a candidate id; a reported id is applied and not a candidate |
| Planner.FirstUnknownAt | migrate.go:655-659 | the guard reports the first applied migration, in id order, that is not a candidate |
| Planner.CheckKnown | migrate.go:650-660 | the search set and the walk over the applied migrations compute the guard |
| Planner.SortedRecordIds | migrate.go:639-646 | the sorted applied migrations carry exactly the recorded ids |
| Planner.UnknownMigrationRejected | migrate.go:650-660 | unless unknown ids are ignored, an applied id that no candidate has gives an "unknown migration in database" plan error about such an id, in either direction and with any limit or target |
| Planner.KnownMigrationsPass | migrate.go:650-660 | with every applied id known, or unknown ones ignored, planning goes past the guard |
| Planner.MaxCount | migrate.go:700-702 | the limit lets through at most the number of selected migrations |
| Planner.VersionCountHit | migrate.go:684-699 | a successful target walk ends on a migration at the target version, having passed migrations that were numeric, not at the target and not beyond it |
| Planner.VersionCountExhausted | migrate.go:697-699 | running out of migrations before the target is the version plan error |
| Planner.VersionCountReaches | migrate.go:686-696 | after migrations it passes over, the walk ends on the first one at the target, and fails on the first one that it neither passes nor stops at |
| Planner.VersionCountPanics | migrate.go:171-178 | the walk aborts only at a selected id without a leading number |
| Planner.TargetCount | migrate.go:684-699 | the target-version loop computes the walk |
| Planner.SelectCount | migrate.go:682-702 | the truncation step uses the target walk when a version is given, and the limit otherwise |
| Planner.AppendPlanned | migrate.go:703-721 | the loading loop appends the loaded, planned selection to the plan so far, or stops at the first load error |
| Planner.PlanMigrationCommon | migrate.go:622-725 | plan composition (guard, catch-up, selection, truncation, loading) computes the plan function |
| Planner.PlanKnown | migrate.go:662-724 | the composition after the guard computes the plan from the sorted applied migrations |
| Planner.PlanWithLimit | migrate.go:668-702 | with loaded candidates and no target, the plan is the whole catch-up list with up statements (only when something is applied), then the first max selected migrations (all when max is not between 0 and their number): the limit never cuts the catch-up list |
| Planner.PlanFromScratch | migrate.go:622-725 | on an empty database, up plans the first max candidates (all with 0) and down plans nothing |
| Planner.PlanToVersionEndsAtTarget | migrate.go:684-699 | a plan for a target version ends with a migration at that version, planned in the run's direction |
| Planner.PlanToVersionUnreached | migrate.go:697-699 | when the guard passes, the catch-up list loads and every selected migration is passed over, the plan is the version error "unknown migration with version id <v> in database" |
| Planner.LastRunIsMax | migrate.go:639-648 | the last applied id is one of the recorded ids, and no recorded id sorts above it |
| Planner.LastRunAt | migrate.go:639-648 | with sorted, distinct candidates and only known records, the last applied id is a candidate's id; every candidate before it sorts below it, and no candidate after it is recorded |
| Planner.NothingLeftToApply | migrate.go:662-724 | when the table records exactly the candidate ids, an up plan is empty, whatever the limit |
| Planner.NothingToUndo | migrate.go:662-724 | with an empty table, a down plan is empty, whatever the limit |
| Planner.EmptyIdReplanned | migrate.go:777-792 | when the empty id is the only recorded one (so it is the last applied id), its migration counts as not applied: the next up plan selects it again |
| Planner.IntText | migrate.go:689 | a non-negative number prints as its decimal rendering |
| Executor.TrimSuffix | migrate.go:549-551 | a string that ends with the suffix loses exactly that suffix; any other string is unchanged |
| Executor.TrimStatementPrefix | migrate.go:549-551 | the statement sent is a prefix of the statement written, at most three characters shorter |
| Executor.TrimStatementRoundTrip | migrate.go:549-551 | a statement written with the terminator ";", " ", "\n" is sent as it was before the terminator |
| Executor.TrimStatementUnchanged | migrate.go:549-551 | a statement ending in none of the three characters is sent unchanged |
| Executor.TrimStatementExamples | migrate.go:549-551 | at most one of each character goes, newline first, then space, then semicolon: a second semicolon, a space before the semicolon and a second newline stay |
| Executor.WithoutMeans | migrate.go:571-574 | after a delete, an id is in the table exactly when it was there and is not the deleted id |
| Executor.TxErrorText | migrate.go:94-96 | the step error of migration 123 with cause "syntax error" reads "syntax error handling 123": the cause, " handling ", the id |
| Executor.UnknownMigrationText | migrate.go:74-77 | the unknown-migration plan error about migration 3 reads "Unable to create migration plan because of 3: unknown migration in database" |
| Executor.NegativeVersionText | migrate.go:506-509 | a negative target reads "target version -1 should not be negative" |
| Executor.RunStatementsMeans | migrate.go:547-558 | running statements never touches the table; it completes exactly when every trimmed statement succeeds, with their effects appended in order; a failure at statement k keeps the effects of exactly the k statements before it |
| Executor.StepFailure | migrate.go:532-596 | a failed step leaves the table as it was, a failed transactional step leaves the whole database as it was, and the error names the step's migration |
| Executor.StepWithoutTransactionFails | migrate.go:547-558 | without a transaction, a failing statement stops the step with the statements before it in effect and nothing recorded |
| Executor.StepSuccess | migrate.go:547-575 | a completed step has run all its statements, trimmed and in order; up appends its id to the table and down removes every row with its id |
| Executor.StepCompletes | migrate.go:532-596 | a step completes exactly when begin and commit (in a transaction), every statement, and the insert going up or the delete going down all succeed |
| Executor.DownCatchupUnrecorded | migrate.go:560-575 | a catch-up entry run in a down plan takes effect with its up statements and leaves its id out of the table |
| Executor.ApplyCount | migrate.go:532-599 | the count is the number of steps completed before the first failure; it equals the plan's length exactly when there is no error, and an error is the failing step's, naming its migration |
| Executor.ApplyUpRecords | migrate.go:560-570 | going up, the table gains the ids of the completed steps, appended in plan order |
| Executor.ApplyDownRecords | migrate.go:571-581 | going down, an id stays in the table exactly when it was there and no completed step had it |
| Executor.ApplyEffects | migrate.go:547-558 | a run without error has run every statement of the plan, trimmed, in plan order |
| Executor.ApplyNeverFails | migrate.go:532-599 | when no operation fails, the run completes |
| Executor.DuplicateIdStopsRun | migrate.go:560-570 | a plan holding one id twice, run up on an empty table keyed on the id, records the id once, then fails at the second insert: one step completed, the second rolled back, and the error names the id |
| Executor.StepFailedEffects | migrate.go:534-596 | a failed step keeps the effects of a leading part of its trimmed statements, and none of them in a transaction |
| Executor.ApplyFailedEffects | migrate.go:532-599 | a failed run keeps every trimmed statement of the steps it completed, then a leading part of the failing step's statements, none when that step ran in a transaction |
| Executor.SkipRecords | migrate.go:738-773 | skipping runs no statement and appends the ids of the completed steps in plan order; the count is the plan's length exactly when there is no error |
| Executor.ExecRejectsUnknown | migrate.go:514-529 | an applied id that no candidate has stops ExecMax, ExecVersion (to any non-negative version) and SkipMax with a plan error, nothing applied and the database unchanged |
| Executor.ExecVersionNegative | migrate.go:506-509 | a negative target version is refused with nothing applied, before any planning |
| Executor.ExecMaxFromScratch | migrate.go:514-520 | migrating an empty database up with nothing failing applies the first max candidates (all with 0) and records them in order |
| Executor.LoadAllIds | migrate.go:703-721 | loading and planning keeps the migrations' ids, in order |
| Executor.FullPlanIds | migrate.go:662-724 | an unlimited plan runs the catch-up ids (when something is applied), then the selected ids |
| Executor.FullPlanKnown | migrate.go:662-724 | an unlimited plan runs only candidates |
| Executor.UpCandidatesCovered | migrate.go:777-829 | every candidate is recorded, owed by catch-up or after the last applied one |
| Executor.FullUpPlanCovers | migrate.go:662-724 | an unlimited up plan covers every candidate the table does not record |
| Executor.FullDownPlanCovers | migrate.go:662-724 | an unlimited down plan covers every recorded id |
| Executor.ExecMaxUpRecordsAll | migrate.go:514-520 | after an unlimited up run without error, the table records exactly the candidate ids |
| Executor.SkipMaxRecordsAll | migrate.go:732-774 | after an unlimited skip without error, the table records exactly the candidate ids and no statement has run |
| Executor.ExecMaxIdempotent | migrate_test.go:60-63 | once an unlimited up run completes, planning up again gives the empty plan, and a second run applies nothing and changes nothing |
| Executor.SkipMaxThenExec | migrate_test.go:395-411 | once an unlimited skip completes, no statement has run, and migrating up afterwards applies nothing and changes nothing |
| Executor.ExecMaxDownAll | migrate_test.go:289-301 | an unlimited down run that completes empties the table, and a second one applies nothing and changes nothing |
| Executor.UpThenDownEmpties | migrate_test.go:280-296 | migrating all the way up and then all the way down, both without error, leaves the table empty |
| Executor.Database.ExecStatements | migrate.go:547-558 | the statement loop leaves the database as the statement-run function says, with its error |
| Executor.Database.RecordMigration | migrate.go:560-581 | inserting (up) or deleting (down) the record changes the table as the record step says |
| Executor.Database.ApplyStep | migrate.go:534-596 | one step, with its snapshot restored on a transactional failure, agrees with the step function |
| Executor.Database.ApplyMigrations | migrate.go:532-599 | the step loop leaves the database, count and error that the run function gives |
| Executor.Database.SkipMigrations | migrate.go:738-773 | the skip loop leaves the database, count and error that the skip function gives |
| Executor.Database.ExecMax | migrate.go:514-520 | plan with a limit, then run: a planning failure changes nothing |
| Executor.Database.ExecVersion | migrate.go:506-509 | a negative version is refused first; otherwise plan to the version and run |
| Executor.Database.SkipMax | migrate.go:732-774 | plan with a limit, then record the plan without running it |
| Settings.TableName | migrate.go:50-55 | the table name is never empty: the configured one, or "gorp_migrations" when none is configured |
| Settings.Package.constructor | migrate.go:47 | the package starts with every setting empty or off |
| Settings.Package.SetTable | migrate.go:101-105 | a non-empty name replaces the table name and nothing else; an empty name changes nothing |
| Settings.Package.SetSchema | migrate.go:108-112 | a non-empty name replaces the schema name and nothing else; an empty name changes nothing |
| Settings.Package.SetDisableCreateTable | migrate.go:115-117 | sets only the table-creation switch |
| Settings.Package.SetIgnoreUnknown | migrate.go:123-125 | sets only the unknown-migration switch |
| Settings.Package.SetLazyLoad | migrate.go:128-130 | sets only the lazy-load switch |
| Log.Emitted | log/log.go:65-70 | a message is written, once, exactly when the logger's level is at least the required level, and nothing is written otherwise |
| Log.EmittedMonotone | log/log.go:11-16 | raising the level never drops a message that was written |
| Log.SilentWritesNothing | log/log.go:11-16 | a silent logger writes no info, warning or error |
| Log.Writer.Printf | log/log_test.go:15-17 | the writer appends the message to its log |
| Log.DefaultLogger.constructor | log/log.go:36-41 | a new logger is silent and has a writer of its own with nothing written |
| Log.DefaultLogger.WithLevel | log/log.go:43-46 | sets the level, keeps the writer, returns the same logger |
| Log.DefaultLogger.WithWriter | log/log.go:48-51 | sets the writer, keeps the level, returns the same logger |
| Log.DefaultLogger.LogIfPermittedByLevel | log/log.go:65-70 | the writer's log grows by the message exactly when the level permits it |
| Log.DefaultLogger.Info | log/log.go:53-55 | writes the message when the level is at least info |
| Log.DefaultLogger.Warn | log/log.go:57-59 | writes the message when the level is at least warn |
| Log.DefaultLogger.Error | log/log.go:61-63 | writes the message when the level is at least error |
| Log.LogThree | log/log.go:53-70 | one info, one warning and one error through the builder chain write the permitted messages in call order |
| Log.LevelInfoScenario | log/log_test.go:19-42 | at info level all three messages are written, in order |
| Log.LevelSilentScenario | log/log_test.go:44-55 | at silent level nothing is written |
| Log.LevelWarnScenario | log/log_test.go:57-79 | at warn level the info message is dropped and the other two are written in order |
| SqlMigrateConfig.EnvironmentErrors | sql-migrate/config.go:78-89 | a missing environment is reported before its fields, a missing dialect before a missing data source; the environment is accepted exactly when it exists with a dialect and a data source |
| SqlMigrateConfig.EnvironmentDefaults | sql-migrate/config.go:90-98 | an accepted environment keeps its dialect, table, schema and flag, has its data source and certificate paths expanded, and keeps its directory or gets "migrations" |
| SqlMigrateConfig.ForwardedMeans | sql-migrate/config.go:100-108 | the table in use becomes the environment's when it names one and stays otherwise; a non-empty schema replaces the schema and an empty one leaves it; the unknown-migration flag is always forwarded; nothing else changes |
| SqlMigrateConfig.GetEnvironment | sql-migrate/config.go:72-111 | the checks and defaults give the environment function's result; on success the package settings are the forwarded ones and on failure they are unchanged |
| SqlMigrateConfig.TlsCustomExamples | sql-migrate/config.go:166-168 | a data source mentioning "tls=custom" asks for custom TLS and one with "tls=true" does not |
| SqlMigrateConfig.ConnectionNeedsCa | sql-migrate/config.go:115-118 | mysql with custom TLS and no CA file is refused with "file CA is not set" |
| SqlMigrateConfig.ConnectionTlsRegistration | sql-migrate/config.go:120-123 | mysql with custom TLS whose CA file fails to register is refused with "cannot register TLS config: " and the error, whatever opening would do |
| SqlMigrateConfig.ConnectionOpenFails | sql-migrate/config.go:126-129 | once the TLS checks pass, a database that does not open is refused with "Cannot connect to database: " and the error, whatever the dialect |
| SqlMigrateConfig.ConnectionDialect | sql-migrate/config.go:126-137 | a connection is handed out only for a compiled-in dialect; once the database opens (and no custom TLS is involved) it succeeds exactly for those, and otherwise fails with "Unsupported dialect: " and the dialect |
| GorpMigrateConfig.EnvironmentChecks | gorp-migrate/config.go:59-74 | the same checks in the same order; an accepted environment equals its entry but for a defaulted directory |
| GorpMigrateConfig.GetEnvironment | gorp-migrate/config.go:53-77 | the checks and defaults give the environment function's result |
| GorpMigrateConfig.ConnectionDialect | gorp-migrate/config.go:79-89 | once the database opens, the connection succeeds exactly for a dialect in the map, and otherwise fails with "Unsupported dialect: " and the dialect |
| PlanExamples.HolesExisting | migrate.go:639-646 | the applied records 1 and 3 sort to 1, 3 |
| PlanExamples.HolesMissing | migrate_test.go:452-461 | with 1 and 3 applied and candidates 1 to 5, only 2 is owed by catch-up |
| PlanExamples.HolesUp | migrate_test.go:452-461 | going up with no limit plans 2, 4 and 5, each with its up statements |
| PlanExamples.HolesDownOne | migrate_test.go:463-470 | going down with limit 1 plans 2 with its up statements and then 3 with its down statements |
| PlanExamples.HolesDownTwo | migrate_test.go:472-481 | going down with limit 2 plans 2 up, 3 down and 2 down |

## Left out

- Database plumbing is not modelled: connections, the gorp table map, table creation, the mysql time-parsing probe and the Oracle error handling. The database is two sequences, and an oracle decides which begin, statement, insert, delete or commit fails. An insert is also given the rows the table holds, since the table is keyed on the id (migrate.go:879); a duplicate-key failure is an oracle that refuses an id already in those rows (`Executor.DuplicateIdStopsRun`). Only the insert sees the database: the begin, statement, delete and commit answers depend on the id (and the statement) alone, so the model cannot have a statement fail because of an earlier statement's effect.
- The SELECT of applied records is an input: the planner receives the recorded ids in row order.
- `GetMigrationRecords` is not modelled.
- `ExecWithLock` is not modelled. Its only purpose is locking across processes.
- File-system, HTTP, bindata and packr I/O are not modelled. Opening and parsing a migration file is the `Loader` oracle. The external statement parser (`sqlparse`) is not part of this model. `path.Clean` is applied before the packr filter sees the directory.
- `time.Now` for the applied-at column is not modelled; only ids are recorded. Context timeouts are not modelled.
- YAML parsing of the configuration file is not modelled, and neither are reading it from disk or the flag wiring. `os.ExpandEnv` is a parameter.
- Registering the TLS CA and `sql.Open` are oracles in `GetConnection`. The connection object is not modelled: a successful connection returns the dialect name.
- The command-line layers, `version.go`, the logger interface file and `ParseAlterQuery` are not modelled.
- The `DefaultLogWriter` that prints to standard output is not modelled. A new logger gets a fresh in-memory writer.
- Format arguments in the logger are not modelled: the format string is the message.
- Ordering.VersionInt: the source parses into a 64-bit integer and panics on overflow. The model parses without bound, so ids whose leading digits exceed 2^63-1 compare by value, where the source would panic.
- Planner.VersionCount: a non-numeric id in the target walk is a panic in the source. The model returns it as the `Panic` outcome, which no error text covers.
- Migrations.SortById: the source uses the library's unstable sort. The model uses an insertion sort. Both return the unique sorted arrangement when ids are distinct (`Migrations.SortedArrangementUnique`). Equal ids may be ordered differently.
- Migrations.Load: the source loads in place through a shared reference, so a migration loaded while planning stays loaded in the source's list. The model returns the loaded value, and the candidate list keeps the pending one.
- SqlMigrateConfig.GetEnvironment: the source mutates the environment record held by the parsed map. The model returns the checked copy and leaves the map as it is.
- Executor.ErrorText: only the messages built in the migration package are spelled out (plan errors, step errors, the negative version). The texts of database errors come from the oracle.
- Executor.Database.ExecVersion: this models the package-level `ExecVersion`, which refuses a negative version. `MigrationSet.ExecVersion` does not refuse one; with a negative version it plans without a target and without a limit. That path is not modelled separately.
- The config tests expect lower-case error messages and a field that the configuration record does not have. The model follows the code's messages.
- `getMigrationDbMap` reads the table-creation switch from the global settings rather than from the receiver. It is database plumbing and is not modelled.
