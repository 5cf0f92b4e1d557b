# Catalog schema, query dispatcher and DDL execution of a time-series database

This project models three pieces of the query layer of a distributed
time-series database and proves properties of them in Dafny.

* **Table and database schema.** `TskvTableSchema` is an ordered list of
  columns (tag, time or typed field columns) kept together with a
  name->position index. The model covers the schema's in-place `add_column`,
  its lookups, and the field-only views `fields`, `field_num` and
  `fields_id`. It also covers the column type encodings: the Arrow physical
  type, the numeric tag and the display name. Beside these sit the
  permissive text parsers for retention `Duration` and timestamp
  `Precision`, and the default database options.
* **Query dispatcher.** This part covers the builder that checks the
  required collaborators in a fixed order. It covers the non-blocking
  admission permits. It also covers `execute_query`, which parses a query
  and runs its statements one after another, each against the catalog the
  statements before it left, stopping at the first error.
  It wraps each statement's planning in the analyze markers of the
  statement's state machine.
* **DDL execution.** Each of the eight administrative plan variants selects
  its own task. A task's error is wrapped as an execution error.

Files: `wrappers.dfy` (Option/Result), `collections.dfy` (the index map a
`HashMap` collect builds, and the ascending sort of ids),
`column_type.dfy`, `database_schema.dfy`, `table_schema.dfy`, `ast.dfy`,
`logical_plan.dfy`, `query_types.dfy`, `dispatcher.dfy`,
`ddl_execution.dfy`.

The schema invariant is `TskvTableSchema.Valid()`. It says the index
always equals the map built from the column list position by position, with
a later duplicate name overwriting an earlier one. `new` builds exactly that
map. `add_column` preserves it. So every index value is a proven in-bounds
position, and the model needs no unchecked list access where the source
uses one in `column`.

Collaborators whose code lies outside this model are function values handed
to the model. These are the SQL parser, the session factory, the logical
planner, the execution factory built from the optimizer and scheduler, and
the bodies of the DDL tasks. The catalog behind the metadata handle is an
opaque state: the planner reads it, and an execution or DDL task takes it
and returns the catalog it leaves, so a statement sees what earlier
statements of the same query created or dropped. The permit pool is a
counter of free permits.

The model follows the code, including these behaviours a reader may not
expect:
- A `Tag` column maps to Arrow `Utf8`, so converting back yields
  `Field(String)`, not an error. Only `Time` and `Field(Unknown)` fail to
  convert back.
- `Duration::new` accepts a zero magnitude ("0d"), and `+` before the
  number ("+5m"), because Rust's `u64` parser accepts it.
- `new` keeps the LAST position of a repeated name, while `add_column`
  keeps the existing entry. With distinct names the two agree.

## Model

| member | source | states |
|---|---|---|
| `ColumnTypes.TryFromArrow` | common/models/src/schema.rs:329-342 | only the five supported field types convert back from Arrow, and a converted type maps back to the same Arrow type; anything else gives the "not supported" error |
| `ColumnTypes.ArrowRoundTrip` | common/models/src/schema.rs:314-342 | a supported field type survives the trip to Arrow and back; `Tag` comes back as `Field(String)`; `Time` and `Field(Unknown)` do not come back |
| `ColumnTypes.ToArrowInjectiveOnFields` | common/models/src/schema.rs:314-327 | distinct supported field types have distinct Arrow types |
| `ColumnTypes.ToArrow` | common/models/src/schema.rs:314-327 | the Arrow type is a timestamp exactly for the time column, `Null` exactly for the unknown field type, `Utf8` exactly for tags and string fields, and never a type outside the mapping; `ArrowRoundTrip` and `ToArrowInjectiveOnFields` give its partner |
| `ColumnTypes.FromI32` | common/models/src/schema.rs:375-385 | tags 0..4 decode to the supported field types and encode back to the same tag, 5 decodes to `Time`, every other value to `Field(Unknown)` |
| `ColumnTypes.FieldTypeRoundTrip` | common/models/src/schema.rs:364-385 | the numeric tag of a supported field type is below 5 and decodes back to that type |
| `ColumnTypes.FieldType` | common/models/src/schema.rs:364-373 | the tag is below 5, and it is 0 exactly for `Field(Float)` and for every type that is not a supported field; `FieldTypeRoundTrip` proves it is undone by `from_i32` |
| `ColumnTypes.AsStr` | common/models/src/schema.rs:352-363 | the name is non-empty, and it is the "not supported" text exactly for the unknown field type; `AsStrInjective` proves the other names distinct |
| `ColumnTypes.AsStrInjective` | common/models/src/schema.rs:352-363 | every column type other than `Field(Unknown)` has its own display name |
| `ColumnTypes.NullableUnlessTimestamp` | common/models/src/schema.rs:308-311 | a column is non-nullable exactly when it is the time column, which is exactly when its Arrow type is the nanosecond timestamp |
| `ColumnTypes.Nullable` | common/models/src/schema.rs:308-311 | a column is nullable exactly when its Arrow type is not the nanosecond timestamp; `NullableUnlessTimestamp` ties that to the time column |
| `DatabaseSchemas.ParseU64` | common/models/src/schema.rs:514-523 | Rust's `u64` parse as `Duration::new` uses it: after one optional leading `+` (a `-` is rejected), the text is accepted exactly when it is a non-empty digit string whose value is below 2^64, and it then reads as that value; larger values are rejected, not wrapped; `ParseDecimal` is its round trip |
| `DatabaseSchemas.ParseDecimal` | common/models/src/schema.rs:514-523 | the `u64` text parser reads canonical decimal text back to its number |
| `DatabaseSchemas.PrecisionNew` | common/models/src/schema.rs:463-472 | yields a precision exactly when the upper-cased text is that precision's canonical form, `None` otherwise |
| `DatabaseSchemas.PrecisionText` | common/models/src/schema.rs:474-482 | the displayed form is two characters ending in `S` and is already upper case; `PrecisionRoundTrip` proves `Precision::new` reads it back |
| `DatabaseSchemas.PrecisionRoundTrip` | common/models/src/schema.rs:463-482 | parsing the displayed form of a precision gives that precision back |
| `DatabaseSchemas.PrecisionCaseInsensitive` | common/models/src/schema.rs:464-471 | mixed-case spellings are accepted; empty, longer or other texts give `None` |
| `DatabaseSchemas.DurationNew` | common/models/src/schema.rs:509-539 | a text that parses whole as a `u64` is that many days; otherwise a text is accepted exactly when it ends in a unit letter (`d`/`h`/`m` in either case) after a `u64` text, and it is that many of that unit; every accepted text is non-empty; `DurationTextRoundTrip` gives the written forms that parse back |
| `DatabaseSchemas.DurationTextRoundTrip` | common/models/src/schema.rs:509-539 | a number followed by `d`/`h`/`m` in either case parses to that duration, and a bare number parses to that many days |
| `DatabaseSchemas.DurationExamples` | common/models/src/schema.rs:509-539 | "" and "7x" and "d" and "-5d" give `None`; "7" is 7 days, "3h" 3 hours, "10D" 10 days, "+5m" 5 minutes |
| `DatabaseSchemas.DefaultOptions` | common/models/src/schema.rs:438-454 | default retention and vnode coverage are the durations "365" and "365d" parse to; 1 shard, 1 replica, the precision "ns" parses to |
| `DatabaseSchemas.NewDatabaseSchema` | common/models/src/schema.rs:415-422 | a new database gets its name and the default options |
| `Collections.LastIndexSpec` | common/models/src/schema.rs:145-150 | the map collected from an enumerated list has the list's elements as keys, maps each key to an in-bounds position holding it, and no later position holds it |
| `Collections.Sort` | common/models/src/schema.rs:225 | the id sort returns a sorted permutation of its input |
| `Collections.RankMapSpec` | common/models/src/schema.rs:225-230 | the position map filled from sorted ids has exactly the ids as keys, values below their count, is strictly monotone, and uses every position when the ids are distinct |
| `TableSchemas.FieldColumnsConcat` | common/models/src/schema.rs:193-204 | the field-column filter keeps order: the field columns of `a + b` are those of `a` followed by those of `b` |
| `TableSchemas.FieldColumnsMembers` | common/models/src/schema.rs:193-204 | the field columns are exactly the list's columns of type `Field(_)` |
| `TableSchemas.TskvTableSchema.constructor` | common/models/src/schema.rs:145-159 | `new` stores db, name, schema id 0 and the list unchanged, with the index consistent with it |
| `TableSchemas.TskvTableSchema.Default` | common/models/src/schema.rs:126-136 | the default schema is db "public", empty name, schema id 0, no columns, consistent index |
| `TableSchemas.TskvTableSchema.AddColumn` | common/models/src/schema.rs:161-170 | a new name is appended and indexed at the old length; an existing name changes nothing; the index stays consistent and distinct names stay distinct |
| `TableSchemas.TskvTableSchema.ColumnIndex` | common/models/src/schema.rs:179-182 | defined exactly for the column names; the position is in bounds, holds that name, and is the last such position |
| `TableSchemas.TskvTableSchema.Column` | common/models/src/schema.rs:172-177 | defined exactly for the column names and returns a column of the list with that name |
| `TableSchemas.TskvTableSchema.ColumnByIndex` | common/models/src/schema.rs:184-187 | `None` exactly when the position is past the end, otherwise the column there |
| `TableSchemas.TskvTableSchema.Columns` | common/models/src/schema.rs:189-191 | the list every index entry points into, at a column of the entry's name |
| `TableSchemas.TskvTableSchema.ColumnThroughIndex` | common/models/src/schema.rs:172-187 | `column(name)` is the column at `column_index(name)` |
| `TableSchemas.TskvTableSchema.DistinctNamesIndex` | common/models/src/schema.rs:145-182 | with distinct names, `column_index(columns[i].name)` is `i` and `column` finds `columns[i]` |
| `TableSchemas.TskvTableSchema.Fields` | common/models/src/schema.rs:193-204 | returns the columns that are neither tag nor time, in original order |
| `TableSchemas.TskvTableSchema.FieldNum` | common/models/src/schema.rs:206-215 | counts exactly the columns `fields` returns |
| `TableSchemas.TskvTableSchema.FieldsId` | common/models/src/schema.rs:217-231 | keys are exactly the field ids; values are below the field count; a smaller id gets a smaller position whatever the column order; with distinct ids every position 0..k-1 is used |
| `Dispatcher.DefaultBuilder` | query_server/query/src/dispatcher/manager.rs:134-145 | the derived default has all five collaborators missing, in the order `build` checks them, and a limit of zero; `DefaultLimitIsZero` shows what `build` makes of it |
| `Dispatcher.WithMetadata` | query_server/query/src/dispatcher/manager.rs:148-151 | sets the metadata and leaves every other setting unchanged |
| `Dispatcher.WithSessionFactory` | query_server/query/src/dispatcher/manager.rs:153-156 | sets the session factory and nothing else |
| `Dispatcher.WithParser` | query_server/query/src/dispatcher/manager.rs:158-161 | sets the parser and nothing else |
| `Dispatcher.WithOptimizer` | query_server/query/src/dispatcher/manager.rs:163-166 | sets the optimizer and nothing else |
| `Dispatcher.WithScheduler` | query_server/query/src/dispatcher/manager.rs:168-171 | sets the scheduler and nothing else |
| `Dispatcher.WithQueriesLimit` | query_server/query/src/dispatcher/manager.rs:173-176 | sets the query limit, widened from 32 bits, and nothing else |
| `Dispatcher.Build` | query_server/query/src/dispatcher/manager.rs:178-209 | fails exactly when a collaborator is missing, naming the first missing one in the order metadata, session_factory, parser, optimizer, scheduler; otherwise keeps the given collaborators and the limit |
| `Dispatcher.DefaultLimitIsZero` | query_server/query/src/dispatcher/manager.rs:134-145 | the default builder fails on the metadata; with all five collaborators but no limit, the built pool has zero permits |
| `Dispatcher.AdmissionCount` | query_server/query/src/dispatcher/manager.rs:64-71 | `k` overlapping queries against `n` free permits see `min(n, k)` admissions, so `n + 1` of them see exactly one rejection |
| `Dispatcher.StatementOutcomeFrom` | query_server/query/src/dispatcher/manager.rs:113-131 | a statement that fails to plan never reaches the execution, fails as `LogicalPlanner` and leaves the catalog unchanged; a planned statement is handed to the execution with its state machine's history extended by `Analyzing`, `Analyzed`, and yields what that execution yields, catalog included |
| `Dispatcher.StatementOutcome` | query_server/query/src/dispatcher/manager.rs:89-95 | the same for a statement with a fresh state machine: the execution sees the history `Created`, `Analyzing`, `Analyzed` |
| `Dispatcher.RunStatements` | query_server/query/src/dispatcher/manager.rs:89-104 | running statements in order, each against the catalog the ones before left: the statements begun are a prefix of the list, all of it on success, and a success has one output per statement |
| `Dispatcher.RunConcat` | query_server/query/src/dispatcher/manager.rs:89-104 | running `a + b` is running `a` and, only if it succeeded, `b` against the catalog `a` left; the first error wins, outputs and begun statements concatenate |
| `Dispatcher.RunMeaning` | query_server/query/src/dispatcher/manager.rs:89-104 | a success holds at position `i` the output of statement `i` run against the catalog statements `0..i-1` left; a failure is the error of statement `k`, all before `k` succeeded, nothing after `k` began, and the final catalog is the one `k` left |
| `Dispatcher.SimpleQueryDispatcher.constructor` | query_server/query/src/dispatcher/manager.rs:198-208 | the dispatcher holds the built collaborators and the catalog, and starts with every permit free |
| `Dispatcher.SimpleQueryDispatcher.TryAcquire` | query_server/query/src/dispatcher/manager.rs:64-69 | takes a permit exactly when one is free and never waits |
| `Dispatcher.SimpleQueryDispatcher.AdmitOverlapping` | query_server/query/src/dispatcher/manager.rs:64-71 | `k` queries that each try for a permit before any finishes: `min(free, k)` are admitted, the rest rejected, and the pool loses exactly the admitted permits |
| `Dispatcher.SimpleQueryDispatcher.Release` | query_server/query/src/dispatcher/manager.rs:64 | dropping the held permit returns it to the pool |
| `Dispatcher.SimpleQueryDispatcher.ExecuteStatement` | query_server/query/src/dispatcher/manager.rs:113-131 | marks begin-analyze, plans against the current catalog; a planning error is wrapped as `LogicalPlanner` with no end-analyze and no catalog change; otherwise marks end-analyze, then hands the plan and the state machine, already in `Analyzed`, to the execution, and returns, and leaves, what that execution returns and leaves |
| `Dispatcher.SimpleQueryDispatcher.ExecuteStatements` | query_server/query/src/dispatcher/manager.rs:89-104 | the statement loop does exactly `RunStatements` from the current catalog: same result, same final catalog, and the statements begun are the run's |
| `Dispatcher.SimpleQueryDispatcher.ExecuteQuery` | query_server/query/src/dispatcher/manager.rs:63-105 | with no free permit, returns `RequestLimit` and runs nothing; otherwise returns the parse error (running no statement, changing no catalog) or the result of running the statements in order against the evolving catalog, runs no statement after the first failure, and ends with as many free permits as it started with |
| `QueryTypes.QueryStateMachine.Begin` | query_server/query/src/dispatcher/manager.rs:91-95 | each statement gets a fresh state machine seeded with the query, session and scoped metadata, in state Created |
| `QueryTypes.QueryStateMachine.BeginAnalyze` | query_server/query/src/dispatcher/manager.rs:120 | enters Analyzing |
| `QueryTypes.QueryStateMachine.EndAnalyze` | query_server/query/src/dispatcher/manager.rs:124 | enters Analyzed |
| `DdlExecution.CreateTask` | query_server/query/src/execution/ddl/mod.rs:74-91 | each of the eight plan variants yields the task of the same name, carrying the sub-plan unchanged |
| `DdlExecution.CreateTaskBijective` | query_server/query/src/execution/ddl/mod.rs:74-91 | every task is produced by the plan it carries, and distinct plans yield distinct tasks |
| `DdlExecution.NewDDLExecution` | query_server/query/src/execution/ddl/mod.rs:44-49 | stores the plan and the state machine unchanged |
| `DdlExecution.Start` | query_server/query/src/execution/ddl/mod.rs:56-64 | runs the created task with the execution's own state machine against the current catalog; an output is returned as is, an error becomes `Execution` with the same cause, and the catalog is the one the task leaves |
| `DdlExecution.StartOfNew` | query_server/query/src/execution/ddl/mod.rs:44-64 | a new execution of a plan runs that plan's task on the given state machine and fails only with an execution error |

## Left out

- `ExternalTableSchema::table_options` and the `ExternalTableSchema` record: they only construct library file-format objects.
- `TableSchema::name`/`db`: plain field projections of the two-shape union. The external-table shape is not modelled.
- `to_arrow_schema` and the `TableColumn` to Arrow field conversion: they build library objects. Only the column type mapping is modelled.
- `TskvTableSchema::size`: a memory-layout heuristic.
- `TableColumn::new`, `new_with_default`, `new_time_column`, `new_tag_column`, `is_time_column`, and `ColumnType::is_tag`/`is_time`/`is_field`: plain constructors and predicates. `IsFieldColumn` stands for the field test `fields` uses.
- `Duration`'s `Display` ("N Days"): it is not the input syntax, so no round trip is claimed through it.
- `DatabaseSchemas.DurationNew` requires the last character to be ASCII. The source cuts off the last byte, which panics when that character is multi-byte.
- `DatabaseSchemas.PrecisionNew`: the upper-case mapping raises ASCII letters, maps U+017F to `S`, and leaves every other character unchanged, so it keeps lengths. Full Unicode case mapping does more (U+0131 becomes `I`, `ß` becomes `SS`). But the only characters whose upper-case form is exactly `M`, `U`, `N` or `S` are those letters, their lower-case forms and U+017F, and no length-changing mapping yields "MS", "US" or "NS". So the accepted texts are the same.
- Integer widths: column ids, `usize` positions and the schema id are unbounded naturals. No operation here does arithmetic that could overflow them.
- The codecs behind `Encoding` are not part of this model; a column keeps only an encoding tag.
- Concurrency: tokio's semaphore, async scheduling and the panic on a closed semaphore are not modelled. Admission is a sequential counter. Overlapping queries are covered by `AdmitOverlapping` and `AdmissionCount`: all arrivals acquire before any releases.
- The `error!` log line written when a query is rejected for lack of a permit: logging is I/O and is not modelled.
- `start`, `stop`, `get_query_info`, `cancel_query` and `create_query_id` of the dispatcher: no-ops or a global counter.
- The parser, session factory, metadata provider, logical planner and query execution factory are function values. Scoping metadata to a catalog and database is modelled as replacing those two names. The catalog contents are an opaque state threaded from statement to statement; what a given statement does to them belongs to the execution factory and the DDL tasks. Concurrent changes to the catalog by other queries are not modelled.
- The state machine is reduced to the transitions the dispatcher drives (Created, Analyzing, Analyzed). The execution-stage transitions belong to the execution factory, which is not part of this model.
- `Dispatcher.SimpleQueryDispatcher.ExecuteStatement`: no contract states that begin-analyze happens before planning. The planner receives the session, not the state machine, as in the source, so it cannot observe the marker; the order is that of the method body only. What the execution observes is stated: the history it receives ends in `Analyzing`, `Analyzed`.
- The bodies of the eight DDL tasks are not part of this model. They are one function value from a task, state machine and catalog to an output or error and the catalog the task leaves.
- The sub-plan records of the DDL plans are defined in a file that is not part of this model. Their fields here are placeholders that the dispatch only copies.
- `ObjectType`'s `Display` and the other statement shapes are data only.
