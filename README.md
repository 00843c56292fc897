# WCP-Library in Dafny

A model of the core of WCP-Library, Whitecap's internal Python toolkit. The model covers:

- the database adapters: the `retry` decorators, Oracle identifier quoting, connection and pool handling, the execute family and the bulk statement builders. The current Oracle and Postgres classes are modelled, and so are the three older adapter modules (`WCP_Library/...` and `wcp-library/...`);
- the generic helpers `divide_chunks` and the backoff `retry`;
- `generate_password`;
- the asynchronous password-vault client and the FTP record it publishes;
- `send_email` and its wrappers;
- the file-system helpers;
- the Microsoft Graph subscription store.

Each source file is one Dafny module:

| module | source |
|---|---|
| `SqlRetry` | `wcp_library/sql/__init__.py` |
| `OracleIdentifier`, `OracleAdapter` | `wcp_library/sql/oracle.py` |
| `PostgresAdapter` | `wcp_library/sql/postgres.py` |
| `LegacyRetry`, `LegacySyncOracle`, `LegacyAsyncOracle`, `LegacyAsyncPostgres`, `HyphenOracle` | the older adapter modules |
| `Helpers` | `wcp_library/__init__.py` |
| `Passwords` | `wcp_library/credentials/__init__.py` |
| `CredentialManager` | `wcp_library/credentials/_credential_manager_asynchronous.py` |
| `FtpCredentials` | `wcp_library/credentials/ftp.py` |
| `Emailing` | `wcp_library/emailing.py` |
| `FileSystem` | `wcp_library/file_system_utils.py` |
| `Subscription` | `wcp_library/graph/subscription.py` |

Several modules are shared:

- `Wrappers`: Option and Result.
- `Text`: join, split, ASCII case mapping, decimal rendering and order-keeping de-duplication.
- `Driver`: exceptions, data-frame cells and records.
- `Sessions`: connection state, driver events and statement builders.
- `VerbatimStatements`: the unquoted SQL builders of the older adapters.

Everything outside the process becomes an input:

- **Driver calls.** Each call the adapters make on oracledb or psycopg is recorded as an event in a sequence the connection object owns. What the driver answers (a fault at the n-th call, a failed acquire) is a parameter.
- **Other outside effects.** The HTTP status or body of the vault and of Graph, the clock, the random choices of `secrets.choice`, the directory listing and the failure text of an `os` or `shutil` call are all parameters.

A class stands for each object whose fields the source updates in place:

- the connection classes;
- the retry counter;
- the MIME message;
- the vault payload;
- the disk;
- the subscription file.

Their methods state their whole new state in terms of a function of the old state. The properties the source promises are proved about those functions.

Where the source has an evident bug, the model keeps two definitions:

- one that does what the code does, with a lemma exhibiting the discrepancy;
- a corrected one, which the rest of the model uses.

These are listed under "## Findings".

## Model

| member | source | states |
|---|---|---|
| SqlRetry.RetryCounter.Retry | wcp_library/sql/__init__.py:20-45 | the counter is reset to 0, then the decorator's loop runs over the attempts; result, events and final counter equal the `RunFrom` trace started at 0 |
| SqlRetry.FirstSuccessReturned | wcp_library/sql/__init__.py:24-25 | a first call that returns gives that value unchanged after exactly one call and no wait |
| SqlRetry.FatalAtOnce | wcp_library/sql/__init__.py:26-30 | an exception outside the caught classes, or one whose argument is a plain string, is re-raised after one call with no wait |
| SqlRetry.FailureCauses | wcp_library/sql/__init__.py:31-42 | a re-raised coded error is non-retryable exactly when its code is not listed, and limit-reached exactly when it is listed and the counter has reached `retry_limit`; the counter never exceeds the limit |
| SqlRetry.BoundedWithoutNesting | wcp_library/sql/__init__.py:22-36 | without nested decorated calls, a call entered at counter c invokes the body at most limit−c+1 times and waits at most limit−c times |
| SqlRetry.DecoratedCallBound | wcp_library/sql/__init__.py:22-36 | without nested decorated calls, a decorated call invokes the body at most `retry_limit`+1 times and waits at most `retry_limit` times |
| SqlRetry.TransientRetriesExactly | wcp_library/sql/__init__.py:31-36 | after n listed transient failures, a counted call waits exactly min(n, limit−c) times, each wait 300 s, and succeeds exactly when n fits in the limit |
| SqlRetry.NestedResetDefeatsLimit | wcp_library/sql/__init__.py:22 | when every attempt calls another decorated method that resets the shared counter, the limit never stops the loop: one wait per attempt and no verdict within the attempts |
| SqlRetry.AsyncRetrySameDecisions | wcp_library/sql/__init__.py:48-81 | `retry` and `async_retry` reach the same result and counter, and their events differ only in the wait primitive |
| SqlRetry.EventCounts | wcp_library/sql/__init__.py:23-36 | call and wait counts add up over concatenated event logs |
| SqlRetry.RetryCounter.constructor | wcp_library/sql/oracle.py:141-146 | the counter starts at 0 with the given limit and retryable codes |
| LegacyRetry.RetryUnbounded | WCP_Library/sql/oracle.py:21-34 | the older sync Oracle decorator has no counter; its result and events equal the unlimited trace |
| LegacyRetry.UnboundedIgnoresCount | WCP_Library/sql/oracle.py:21-34 | without a limit the run does not depend on the counter it starts from |
| LegacyRetry.UnboundedRetriesEveryTransient | WCP_Library/sql/oracle.py:24-31 | after any number n of 'ORA-01033'/'DPY-6005' failures the sync Oracle decorator waits n times and returns the success |
| LegacyRetry.OlderOracleCatchesOperationalOnly | WCP_Library/async_sql/oracle.py:31-43 | the older Oracle decorators let any DatabaseError that is not an OperationalError pass after one call |
| LegacyRetry.OlderDecoratorsMessageBecomesAttributeError | WCP_Library/async_sql/oracle.py:34-35 | a plain-string argument makes the `full_code` lookup raise AttributeError instead of the driver's error |
| LegacyRetry.SyncWrapperRun | WCP_Library/async_sql/postgres.py:32-47 | as written the async Postgres wrapper calls the body at most once and never waits; a failure reaches the caller unguarded |
| LegacyRetry.AsyncPostgresTransientNotRetried | WCP_Library/async_sql/postgres.py:17-47 | one 08001 failure then a success: as written the caller sees the failure; under the documented policy the call waits once and succeeds |
| OracleIdentifier.QuoteIdentifier | wcp_library/sql/oracle.py:16-40 | fails with ValueError exactly when the name is not `part` or `part.part` of `[A-Za-z][A-Za-z0-9_#$]*`; an accepted result contains only upper-case letters, digits, `_#$`, quotes and dots |
| OracleIdentifier.QuoteIdentifierAsWritten | wcp_library/sql/oracle.py:16-40 | the code as written fails exactly when the regular expression, with `$` matching before a final newline, rejects the name |
| OracleIdentifier.QuoteIdentifierRoundTrip | wcp_library/sql/oracle.py:38-40 | stripping the quotes from an accepted name's result gives the name upper-cased |
| OracleIdentifier.QuoteIdentifierCaseInsensitive | wcp_library/sql/oracle.py:38-40 | a name and its upper-case form are accepted together and quote to the same text |
| OracleIdentifier.QuoteIdentifierOnePart | wcp_library/sql/oracle.py:38-40 | a one-part name becomes `"NAME"` |
| OracleIdentifier.QuoteIdentifierTwoParts | wcp_library/sql/oracle.py:38-40 | `a.b` becomes `"A"."B"` |
| OracleIdentifier.QuoteIdentifierExample | wcp_library/sql/oracle.py:38-40 | `stage.items` becomes `"STAGE"."ITEMS"` |
| OracleIdentifier.ValidIdentifierParts | wcp_library/sql/oracle.py:16 | a valid name splits on '.' into one or two valid parts |
| OracleIdentifier.QuotePartsSafe | wcp_library/sql/oracle.py:38-40 | quoting a valid name yields only quoted upper-case parts joined by dots, with no quote inside a part |
| OracleIdentifier.ValidIdentifierUpper | wcp_library/sql/oracle.py:16 | the grammar ignores case |
| OracleIdentifier.BadCharRefused | wcp_library/sql/oracle.py:16 | any character outside `[A-Za-z0-9_#$.]` makes a name invalid |
| OracleIdentifier.ThreePartsRefused | wcp_library/sql/oracle.py:16 | `a.b.c` is refused |
| OracleIdentifier.InjectionRefused | wcp_library/sql/oracle.py:31-35 | a name carrying a second statement is refused |
| OracleIdentifier.PatternAcceptsBeyondGrammar | wcp_library/sql/oracle.py:16 | the only strings the pattern accepts beyond the grammar are a valid name plus one trailing newline |
| OracleIdentifier.TrailingNewlineAccepted | wcp_library/sql/oracle.py:34-40 | as written `"T\n"` is accepted and quoted with the newline inside; the corrected check refuses it |
| OracleAdapter.GetConnectionSpec | wcp_library/sql/oracle.py:165-177 | single mode reuses a healthy cached connection with no driver call, and otherwise opens one, failing exactly on a driver fault; pooled mode acquires a new handle, failing exactly on a fault or, with AttributeError, when no pool was opened; the connection state stays well formed |
| OracleAdapter.CloseConnectionSpec | wcp_library/sql/oracle.py:199-211 | single mode closes only a healthy connection and always clears it; pooled mode closes the pool and keeps the fields |
| OracleAdapter.SessionDiscipline | wcp_library/sql/oracle.py:214-311 | the execute family runs its calls in order, then commits; a pooled connection is released only on success, and never when a call fails |
| OracleAdapter.PooledFailureLeaks | wcp_library/sql/oracle.py:222-228 | a pooled session whose statement fails acquires a connection and never releases it |
| OracleAdapter.PooledSuccessReleases | wcp_library/sql/oracle.py:222-228 | a successful pooled session acquires, commits, and ends by releasing the same connection |
| OracleAdapter.ConnectTargetChoice | wcp_library/sql/oracle.py:43-78 | the DSN uses the Service when it is truthy and the SID otherwise; a pool names it as a SID, a single connection as a service name |
| OracleAdapter.QuoteColumns | wcp_library/sql/oracle.py:364 | the columns are quoted in order, and the first invalid column decides the error |
| OracleAdapter.ExportValidationOrder | wcp_library/sql/oracle.py:353-363 | empty `columns`, then non-subset `columns`, then the empty-frame shortcut returning 0, then the table and column names decide failure, in that order |
| OracleAdapter.ExportPlanSpec | wcp_library/sql/oracle.py:366-378 | each exported record holds exactly the listed columns the row has; empty strings always become NULL and missing values do when `remove_nan` is set; other cells are unchanged; the count is the number of rows |
| OracleAdapter.ExportStatementShape | wcp_library/sql/oracle.py:362-376 | the statement is `INSERT INTO <quoted table> (<quoted columns>) VALUES (<:column binds>)`, each bind naming its raw column |
| OracleAdapter.RemoveMatchingSpec | wcp_library/sql/oracle.py:323-342 | after validation the statement is `DELETE FROM <quoted> WHERE c = :c AND …`; one parameter set per distinct key tuple, in first-occurrence order, none twice; the count returned is their number |
| OracleAdapter.RemoveMatchingValidation | wcp_library/sql/oracle.py:323-333 | empty or non-subset `match_cols` raise ValueError; an invalid table name fails only when the frame has rows |
| OracleAdapter.TablePlanSpec | wcp_library/sql/oracle.py:380-409 | an empty name raises "table_name cannot be empty"; the statement is built exactly for valid names, from the quoted upper-case name |
| OracleAdapter.TruncateExample | wcp_library/sql/oracle.py:388-394 | `stage.items` is truncated as `TRUNCATE TABLE "STAGE"."ITEMS"` |
| OracleAdapter.OracleConnection.constructor | wcp_library/sql/oracle.py:129-146 | every connection field starts as None, the counter at 0, the limit at 50, the codes at the module's list |
| OracleAdapter.OracleConnection.Connect | wcp_library/sql/oracle.py:148-163 | one attempt of `_connect`: opens a pool or a connection on the DSN and stores it; a driver failure changes no field |
| OracleAdapter.OracleConnection.GetConnection | wcp_library/sql/oracle.py:165-177 | the new state and events are those of `AcquireStep` (see GetConnectionSpec) |
| OracleAdapter.OracleConnection.SetUser | wcp_library/sql/oracle.py:179-197 | with neither Service nor SID truthy it raises ValueError before storing anything or connecting; otherwise it stores every field and connects once |
| OracleAdapter.OracleConnection.CloseConnection | wcp_library/sql/oracle.py:199-211 | the new state and events are those of `CloseStep` (see CloseConnectionSpec) |
| OracleAdapter.OracleConnection.Exit | wcp_library/sql/oracle.py:419-426 | closes the connection and returns False |
| OracleAdapter.OracleConnection.RunSession | wcp_library/sql/oracle.py:222-228 | the statement calls, the commit and a pooled release are appended to the events in order (see SessionDiscipline) |
| OracleAdapter.OracleConnection.Session | wcp_library/sql/oracle.py:214-229 | acquire then run: the new state and events are those of `ExecStep` (see SessionDiscipline) |
| OracleAdapter.OracleConnection.Execute | wcp_library/sql/oracle.py:214-229 | acquire, one execute without binds, commit, pooled release |
| OracleAdapter.OracleConnection.SafeExecute | wcp_library/sql/oracle.py:231-247 | acquire, one execute with the bind values, commit, pooled release |
| OracleAdapter.OracleConnection.ExecuteMultiple | wcp_library/sql/oracle.py:249-270 | one execute per item in order, with binds only when they are truthy, then one commit |
| OracleAdapter.OracleConnection.ExecuteMany | wcp_library/sql/oracle.py:272-288 | one executemany with every row, then commit |
| OracleAdapter.OracleConnection.FetchData | wcp_library/sql/oracle.py:290-311 | execute (with binds only when truthy), fetch, commit, pooled release; returns the fetched rows |
| OracleAdapter.OracleConnection.RemoveMatchingData | wcp_library/sql/oracle.py:313-342 | a validation error or the empty-frame 0 issues nothing; otherwise one nested `execute_many` with the statement of RemoveMatchingSpec |
| OracleAdapter.OracleConnection.ExportDfToWarehouse | wcp_library/sql/oracle.py:344-378 | a validation error or the empty-frame 0 issues nothing; otherwise one nested `execute_many` with the statement of ExportStatementShape |
| OracleAdapter.OracleConnection.TableStatement | wcp_library/sql/oracle.py:380-409 | a refused name issues nothing; otherwise one nested call of the `TablePlan` statement whose failure is re-raised |
| OracleAdapter.OracleConnection.TruncateTable | wcp_library/sql/oracle.py:380-394 | issues `TRUNCATE TABLE <quoted>` once, or nothing when the name is refused |
| OracleAdapter.OracleConnection.EmptyTable | wcp_library/sql/oracle.py:396-409 | issues `DELETE FROM <quoted>` once, or nothing when the name is refused |
| PostgresAdapter.PoolUrlSeparatesCredentials | wcp_library/sql/postgres.py:28 | with no '@' in user, password, host or database, the URL splits at '@' into exactly the credentials part and the host part |
| PostgresAdapter.PoolSessionDiscipline | wcp_library/sql/postgres.py:98-170 | inside `with pool.connection()` the calls run in order; success commits and failure rolls back, never both; the release is always the last event, whatever happened |
| PostgresAdapter.PoolStepReleases | wcp_library/sql/postgres.py:98-107 | a session on an open pool acquires a connection and always ends by releasing it; it fails exactly when a driver call fails, and a statement failure rolls back |
| PostgresAdapter.PostgresConnection.constructor | wcp_library/sql/postgres.py:46-59 | every field starts as None, the counter at 0, the limit at 50, the codes ['08001','08004'] |
| PostgresAdapter.PostgresConnection.Connect | wcp_library/sql/postgres.py:62-70 | opens one pool on the URL of the stored fields; a failure leaves the pool field unchanged |
| PostgresAdapter.PostgresConnection.SetUser | wcp_library/sql/postgres.py:72-86 | stores user, password, host, port and database without any check, then opens the pool on the URL built from them |
| PostgresAdapter.PostgresConnection.CloseConnection | wcp_library/sql/postgres.py:88-95 | closes the pool, or raises AttributeError when none was opened |
| PostgresAdapter.PostgresConnection.Session | wcp_library/sql/postgres.py:98-107 | the new state and events are those of `PoolStep` (see PoolSessionDiscipline) |
| PostgresAdapter.PostgresConnection.Execute | wcp_library/sql/postgres.py:98-107 | one execute without binds in a pooled session |
| PostgresAdapter.PostgresConnection.SafeExecute | wcp_library/sql/postgres.py:110-120 | one execute with the bind values in a pooled session |
| PostgresAdapter.PostgresConnection.ExecuteMultiple | wcp_library/sql/postgres.py:123-138 | the items in order on one pooled connection, with binds only when they are truthy |
| PostgresAdapter.PostgresConnection.ExecuteMany | wcp_library/sql/postgres.py:141-151 | one executemany with every row in a pooled session |
| PostgresAdapter.PostgresConnection.FetchData | wcp_library/sql/postgres.py:154-170 | execute and fetch in a pooled session; returns the fetched rows |
| PostgresAdapter.PostgresConnection.ExportDfToWarehouse | wcp_library/sql/postgres.py:173-200 | one nested `execute_many` of `INSERT INTO t (cols) VALUES (%(c)s, …)` with the names as given; every row keeps its keys, and only missing cells become None, only under `remove_nan` |
| PostgresAdapter.PostgresConnection.TruncateTable | wcp_library/sql/postgres.py:203-212 | `TRUNCATE TABLE <name>` with the name as given |
| PostgresAdapter.PostgresConnection.EmptyTable | wcp_library/sql/postgres.py:215-224 | `DELETE FROM <name>` with the name as given |
| VerbatimStatements.BuildBinds | WCP_Library/sql/oracle.py:213-216 | one placeholder per column, in order, each naming its column |
| VerbatimStatements.NullifyRowSpec | WCP_Library/sql/oracle.py:219-225 | the replacement keeps every field, leaves no missing cell, changes nothing else, and is idempotent |
| VerbatimStatements.NullifyMissing | WCP_Library/sql/oracle.py:219-225 | the loop over the records applies that replacement to every record and keeps their number |
| VerbatimStatements.BuildExport | WCP_Library/sql/oracle.py:212-227 | the statement is the verbatim INSERT, with one output record per row, the same keys, and missing cells replaced only under `remove_nan` |
| VerbatimStatements.VerbatimNamesPassThrough | WCP_Library/sql/oracle.py:227-251 | a name carrying a second statement goes into the SQL text unchanged |
| LegacySyncOracle.FetchReleasesWithoutCommit | WCP_Library/sql/oracle.py:181-198 | `fetch_data` acquires, executes, fetches and releases, and never commits |
| LegacySyncOracle.SQLConnection.constructor | WCP_Library/sql/oracle.py:71-77 | every field starts as None, with no pool and no events |
| LegacySyncOracle.SQLConnection.Connect | WCP_Library/sql/oracle.py:80-87 | opens a pool on a SID DSN; a failure leaves the pool unchanged |
| LegacySyncOracle.SQLConnection.UnpackUser | WCP_Library/sql/oracle.py:89-101 | stores the five fields and does not connect |
| LegacySyncOracle.SQLConnection.CloseConnection | WCP_Library/sql/oracle.py:103-110 | closes the pool |
| LegacySyncOracle.SQLConnection.Session | WCP_Library/sql/oracle.py:113-125 | acquire, the calls in order, commit when asked, release |
| LegacySyncOracle.SQLConnection.Execute | WCP_Library/sql/oracle.py:113-125 | acquire, execute, commit, release |
| LegacySyncOracle.SQLConnection.SafeExecute | WCP_Library/sql/oracle.py:128-141 | acquire, execute with the binds, commit, release |
| LegacySyncOracle.SQLConnection.ExecuteMultiple | WCP_Library/sql/oracle.py:144-162 | the items in order, with binds only when they are truthy, then commit and release |
| LegacySyncOracle.SQLConnection.ExecuteMany | WCP_Library/sql/oracle.py:165-178 | one executemany, commit, release |
| LegacySyncOracle.SQLConnection.FetchData | WCP_Library/sql/oracle.py:181-198 | execute and fetch without commit, then release |
| LegacySyncOracle.SQLConnection.ExportDfToWarehouse | WCP_Library/sql/oracle.py:201-228 | one nested `execute_many` of the verbatim `:column` INSERT, with missing cells set to None only under `remove_nan` |
| LegacySyncOracle.SQLConnection.TruncateTable | WCP_Library/sql/oracle.py:231-240 | `TRUNCATE TABLE <name>`, the name as given |
| LegacySyncOracle.SQLConnection.EmptyTable | WCP_Library/sql/oracle.py:243-252 | `DELETE FROM <name>`, the name as given |
| LegacyAsyncOracle.SQLConnection.constructor | WCP_Library/async_sql/oracle.py:80-89 | every field starts as None, the counter at 0 and the limit at 50 |
| LegacyAsyncOracle.SQLConnection.Connect | WCP_Library/async_sql/oracle.py:92-99 | opens a pool on a SID DSN; a failure leaves the pool unchanged |
| LegacyAsyncOracle.SQLConnection.UnpackUser | WCP_Library/async_sql/oracle.py:101-113 | stores the five fields and does not connect |
| LegacyAsyncOracle.SQLConnection.ExportDfToWarehouse | WCP_Library/async_sql/oracle.py:213-240 | one nested `execute_many` of the verbatim `:column` INSERT, with missing cells set to None only under `remove_nan` |
| LegacyAsyncOracle.SQLConnection.TruncateTable | WCP_Library/async_sql/oracle.py:243-252 | `TRUNCATE TABLE <name>`, the name as given |
| LegacyAsyncOracle.SQLConnection.EmptyTable | WCP_Library/async_sql/oracle.py:255-264 | `DELETE FROM <name>`, the name as given |
| LegacyAsyncPostgres.SQLConnection.constructor | WCP_Library/async_sql/postgres.py:81-90 | every field starts as None, the counter at 0 and the limit at 50 |
| LegacyAsyncPostgres.SQLConnection.SetUser | WCP_Library/async_sql/postgres.py:102-116 | stores the five fields without checks and opens the pool on the URL built from them |
| LegacyAsyncPostgres.SQLConnection.ExecuteMultiple | WCP_Library/async_sql/postgres.py:153-168 | the items in order on one pooled connection, with binds only when they are truthy |
| LegacyAsyncPostgres.SQLConnection.ExportDfToWarehouse | WCP_Library/async_sql/postgres.py:203-230 | one nested `execute_many` of the verbatim `%(column)s` INSERT, with missing cells set to None only under `remove_nan` |
| LegacyAsyncPostgres.SQLConnection.TruncateTable | WCP_Library/async_sql/postgres.py:233-242 | `TRUNCATE TABLE <name>`, the name as given |
| LegacyAsyncPostgres.SQLConnection.EmptyTable | WCP_Library/async_sql/postgres.py:245-254 | `DELETE FROM <name>`, the name as given |
| HyphenOracle.SQLConnection.constructor | wcp-library/sql/oracle.py:46-57 | every field starts as None; the limit is 50 and the codes are ['ORA-01033','DPY-6005','DPY-4011'] |
| HyphenOracle.SQLConnection.Connect | wcp-library/sql/oracle.py:60-69 | opens a pool named by the Service when it is truthy and by the SID otherwise |
| HyphenOracle.SQLConnection.SetUser | wcp-library/sql/oracle.py:71-89 | the Service/SID test reads the fields already stored, before the new ones are written: with neither stored it raises and changes nothing; otherwise it stores the new fields and connects |
| HyphenOracle.SQLConnection.ExportDfToWarehouse | wcp-library/sql/oracle.py:189-216 | one nested `execute_many` of the verbatim `:column` INSERT |
| HyphenOracle.SQLConnection.TruncateTable | wcp-library/sql/oracle.py:219-228 | `TRUNCATE TABLE <name>`, the name as given |
| HyphenOracle.SQLConnection.EmptyTable | wcp-library/sql/oracle.py:231-240 | `DELETE FROM <name>`, the name as given |
| HyphenOracle.FreshInstanceRefused | wcp-library/sql/oracle.py:79-80 | on a fresh instance `set_user` always raises ValueError and makes no driver call, whatever the credentials |
| HyphenOracle.FreshInstanceAccepted | wcp-library/sql/oracle.py:71-89 | with the test made on the incoming credentials, any that name a service or a SID are accepted and one pool is opened on the chosen name |
| Helpers.DivideChunks | wcp_library/__init__.py:32-42 | a zero size raises ValueError; a negative size yields no chunk |
| Helpers.ChunksConcatenate | wcp_library/__init__.py:41-42 | joining the chunks back together gives the input list |
| Helpers.ChunkSizes | wcp_library/__init__.py:41-42 | every chunk but the last has `size` items, the last has 1 to `size`, and there are ⌈len/size⌉ chunks |
| Helpers.ChunkIsRangeSlice | wcp_library/__init__.py:41-42 | chunk k is the slice `[k*size : k*size+size]` |
| Helpers.BackoffRetry | wcp_library/__init__.py:95-107 | the wrapper loop's result, number of calls and sleeps are those of the `BackoffRun` trace |
| Helpers.BackoffRunShape | wcp_library/__init__.py:64-76 | a run makes at most the remaining number of calls and sleeps once fewer; the j-th sleep is `wait * backoff^j` |
| Helpers.BackoffBounds | wcp_library/__init__.py:45-107 | a non-positive `max_attempts` returns None without calling; otherwise 1 to `max_attempts` calls, one sleep between consecutive calls, the k-th sleep `delay * backoff^k` before jitter |
| Helpers.ExhaustedReraisesLast | wcp_library/__init__.py:65-67 | when every attempt raises a listed exception, the last one is re-raised after `max_attempts` calls |
| Helpers.FirstOutcomeDecides | wcp_library/__init__.py:98-103 | a success or an unlisted exception on the first call ends the run at once with that outcome |
| Helpers.DefaultSchedule | wcp_library/__init__.py:18-21 | with the defaults, five failing calls sleep 2, 4, 8 and 16 seconds before jitter and re-raise the fifth error |
| Passwords.SpecialChars | wcp_library/credentials/__init__.py:30-33 | the override when it is truthy, otherwise the punctuation set; never empty |
| Passwords.Alphabet | wcp_library/credentials/__init__.py:30-38 | a character is allowed exactly when it is a letter, a digit with `use_nums`, or special with `use_special` |
| Passwords.Candidate | wcp_library/credentials/__init__.py:41 | a candidate has the requested length and only allowed characters |
| Passwords.Draw | wcp_library/credentials/__init__.py:40-62 | returns the first accepted candidate within `max_attempts`, or None when all of them are rejected |
| Passwords.GeneratePassword | wcp_library/credentials/__init__.py:9-64 | length < 1 and forcing a disallowed class raise ValueError; a result has the requested length, allowed characters, no leading digit and the forced classes, and is the first accepted candidate; otherwise "Unable to generate…" after every candidate was rejected |
| Passwords.OneCharacterForcedDigitRefused | wcp_library/credentials/__init__.py:43-50 | a one-character password with a forced digit is never accepted |
| Passwords.AcceptedWhenAllPresent | wcp_library/credentials/__init__.py:43-56 | a password led by a letter and holding a digit and a special character passes every check |
| Passwords.DefaultAlphabetSize | wcp_library/credentials/__init__.py:30-38 | the default alphabet has 94 characters |
| CredentialManager.FieldValue | wcp_library/credentials/_credential_manager_asynchronous.py:44-47 | a generic field's value is lower-cased exactly when its display name, lower-cased, is `username` |
| CredentialManager.ApplyFieldsKeys | wcp_library/credentials/_credential_manager_asynchronous.py:44-47 | after the generic fields, a key is present exactly when it was before or some field names it |
| CredentialManager.ApplyFieldsUntouched | wcp_library/credentials/_credential_manager_asynchronous.py:44-47 | a key no field names keeps its value |
| CredentialManager.ApplyFieldsLast | wcp_library/credentials/_credential_manager_asynchronous.py:44-47 | a key that fields name holds the value of the last of them |
| CredentialManager.EntryInfoFields | wcp_library/credentials/_credential_manager_asynchronous.py:42-51 | the entry's dictionary has PasswordID, UserName and Password, the URL when given, the OTP when truthy, and no OTP otherwise unless a field is so named |
| CredentialManager.CredentialMapKeys | wcp_library/credentials/_credential_manager_asynchronous.py:43-51 | the keys of the credential map are exactly the lower-cased user names |
| CredentialManager.CredentialMapLast | wcp_library/credentials/_credential_manager_asynchronous.py:43-51 | under each key sits the last entry with that lower-cased user name |
| CredentialManager.BuildInfo | wcp_library/credentials/_credential_manager_asynchronous.py:42-51 | the loop builds exactly `EntryInfo` |
| CredentialManager.GetAllCredentials | wcp_library/credentials/_credential_manager_asynchronous.py:19-53 | a failed fetch raises its error; an empty list raises "No credentials found in this Password List"; otherwise the credential map |
| CredentialManager.GetCredential | wcp_library/credentials/_credential_manager_asynchronous.py:55-87 | request and JSON failures raise their messages; an empty answer raises "No credentials found with ID n"; otherwise the first element's dictionary |
| CredentialManager.GetCredentials | wcp_library/credentials/_credential_manager_asynchronous.py:110-126 | succeeds exactly when some entry's lower-cased user name equals the lower-cased request, returning the last such entry; otherwise the "not found" error |
| CredentialManager.PublishNewPassword | wcp_library/credentials/_credential_manager_asynchronous.py:89-108 | True exactly when the POST answers 201 |
| CredentialManager.PutAccepted | wcp_library/credentials/_credential_manager_asynchronous.py:178-189 | True exactly when the PUT answers 200 |
| CredentialManager.RemapUntouched | wcp_library/credentials/_credential_manager_asynchronous.py:173-176 | a key no field names, as display name or id, keeps its presence and value |
| CredentialManager.RemapMoves | wcp_library/credentials/_credential_manager_asynchronous.py:173-176 | with distinct names and ids, a display name present in the payload moves its value to the field's id, and the display name is gone |
| CredentialManager.FirstMatch | wcp_library/credentials/_credential_manager_asynchronous.py:169-172 | the index of the first entry whose user name equals the requested one exactly, or the length when none does |
| CredentialManager.FirstMatchUnique | wcp_library/credentials/_credential_manager_asynchronous.py:169-172 | the first-match index is the only index with those two properties |
| CredentialManager.UpdateCredential | wcp_library/credentials/_credential_manager_asynchronous.py:141-189 | the OTP key is dropped first; a missing UserName raises KeyError; no exact match raises "not found"; otherwise the payload's display names become field ids and the result is whether the PUT answered 200, unless that renaming moved `UserName` away, in which case the message formatted after the PUT raises KeyError |
| CredentialManager.Payload.constructor | wcp_library/credentials/_credential_manager_asynchronous.py:141-152 | the payload dictionary holds the given items |
| FtpCredentials.NewEntry | wcp_library/credentials/ftp.py:22-35 | the record has exactly the eight keys, list 208, and carries Password, Host, Port and FTP/SFTP unchanged |
| FtpCredentials.NewCredentials | wcp_library/credentials/ftp.py:13-39 | returns that record and True exactly when the vault answers 201 |
| FtpCredentials.NewEntryNames | wcp_library/credentials/ftp.py:46-72 | the title is the upper-cased Title, or the upper-cased user name when there is none; the user name is lower-cased; notes default to None; both are already in final case |
| FtpCredentials.NewEntryFoundByAnyCase | wcp_library/credentials/ftp.py:22-35 | once stored, the record is found by `get_credentials` under the user name in any capitalisation, unless a later entry shares it |
| Emailing.OrEmpty | wcp_library/emailing.py:32-34 | a missing list is empty |
| Emailing.PathName | wcp_library/emailing.py:55 | the attachment name is the final path component: a suffix of the path with no '/' |
| Emailing.SendEmail | wcp_library/emailing.py:11-67 | server mail.wcap.ca:25; headers From, To, Cc only when cc is non-empty, Date, Subject; the body part first, then one part per attachment in order; the envelope is `Envelope(recipients, cc, bcc)` |
| Emailing.EnvelopeSpec | wcp_library/emailing.py:61 | the envelope holds every address of the three lists and nothing else, once each, in first-occurrence order |
| Emailing.HeadersSpec | wcp_library/emailing.py:37-43 | To joins the recipients with ", "; a Cc header exists exactly when cc is non-empty; there is no Bcc header |
| Emailing.EmailReporting | wcp_library/emailing.py:70-83 | from Python@wcap.ca to Reporting@wcap.ca only, as plain text |
| Emailing.SendHtmlEmail | wcp_library/emailing.py:86-105 | the body is sent as text/html to the recipients |
| Emailing.EmailWithAttachments | wcp_library/emailing.py:108-132 | a None message raises AttributeError before anything is sent; otherwise plain text with the attachments |
| Emailing.Message.constructor | wcp_library/emailing.py:36 | a new MIMEMultipart has no headers and no parts |
| Emailing.Message.SetHeader | wcp_library/emailing.py:37-43 | appends one header and leaves the parts alone |
| Emailing.Message.Attach | wcp_library/emailing.py:46-58 | appends one part and leaves the headers alone |
| FileSystem.BaseName | wcp_library/file_system_utils.py:91-121 | the base name contains no '/' |
| FileSystem.DirName | wcp_library/file_system_utils.py:196-207 | a name without '/' has the empty parent |
| FileSystem.SplitExt | wcp_library/file_system_utils.py:91-121 | root and extension concatenate back to the path |
| FileSystem.CopyName | wcp_library/file_system_utils.py:248-252 | the `_copy` name differs from the original and is five characters longer |
| FileSystem.GetMetadata | wcp_library/file_system_utils.py:61-121 | fails exactly when the path does not exist; the name is the base name, the extension completes the root, and `is_directory` tells whether it is a folder |
| FileSystem.MetadataAll | wcp_library/file_system_utils.py:158-161 | on success one metadata record per listed name, in listing order |
| FileSystem.MetadataAllOk | wcp_library/file_system_utils.py:158-161 | the listing succeeds exactly when every listed name exists |
| FileSystem.ListFolder | wcp_library/file_system_utils.py:124-161 | a missing folder raises FileNotFoundError; an existing entry that is not a folder raises the NotADirectoryError of `os.listdir`; a folder yields the metadata of its entries |
| FileSystem.MissingSourceRefused | wcp_library/file_system_utils.py:196-197 | every operation raises FileNotFoundError and does nothing when its source is missing |
| FileSystem.RenameTargetExists | wcp_library/file_system_utils.py:196-207 | a rename targets `join(dirname(path), new_name)`, which exists afterwards |
| FileSystem.CopyTargetExists | wcp_library/file_system_utils.py:242-266 | the reported copy exists afterwards |
| FileSystem.CopyFileIntoDirectory | wcp_library/file_system_utils.py:246-252 | a file copied into a directory lands under its own base name, or with `_copy` inserted once before the extension when that name is taken |
| FileSystem.CopyFolderOntoExisting | wcp_library/file_system_utils.py:253-260 | a folder copied onto an existing path goes to `destination_copy` |
| FileSystem.CopyRefusesExactlyWithin | wcp_library/file_system_utils.py:253-256 | the corrected copy refuses a folder exactly when the destination is the folder or lies below it |
| FileSystem.CopyRootRefused | wcp_library/file_system_utils.py:253-256 | the corrected copy refuses copying the root folder `/` to any absolute path |
| FileSystem.SiblingPrefixRefusedAsWritten | wcp_library/file_system_utils.py:254 | as written, copying `/data/rep` to `/data/report` is refused; the corrected copy makes it |
| FileSystem.MoveToBareNameFailsAsWritten | wcp_library/file_system_utils.py:308-312 | as written, moving to a bare name always fails with `[Errno 2] … ''` |
| FileSystem.MoveSucceeds | wcp_library/file_system_utils.py:301-317 | without a driver fault the corrected move of an existing path returns its target, which exists afterwards; the source is gone unless it is the target or the target's parent |
| FileSystem.DeleteRemoves | wcp_library/file_system_utils.py:331-340 | a delete removes a folder as a tree and anything else (a file or any other entry) with `os.remove`; nothing is left at the path |
| FileSystem.ArchiveIntoWorkingDirectoryAsWritten | wcp_library/file_system_utils.py:379-391 | as written, an empty archive path makes the handler raise UnboundLocalError; the corrected one raises the OSError naming the archive |
| FileSystem.ArchiveOutcomes | wcp_library/file_system_utils.py:379-393 | the corrected `create_archive` raises FileNotFoundError, OSError, or ValueError exactly for a format other than the five; otherwise it reports the archive `make_archive` writes (`.zip`, `.tar`, `.tar.gz`, `.tar.bz2`, `.tar.xz`), with `_copy` added to the base when that archive exists |
| FileSystem.ArchiveTargetExists | wcp_library/file_system_utils.py:379-393 | the reported archive exists afterwards, so the closing `get_metadata` does not raise |
| FileSystem.ArchiveExtension | wcp_library/file_system_utils.py:353 | an extension exactly for the five documented formats, each starting with '.' |
| FileSystem.GztarReportedMissingAsWritten | wcp_library/file_system_utils.py:385-393 | as written, a `gztar` archive is written to `out/a.tar.gz` but `out/a.gztar` is tested and reported, so the call raises FileNotFoundError after writing and an existing `out/a.tar.gz` is overwritten; the corrected plan reports `out/a.tar.gz` or `out/a_copy.tar.gz` |
| FileSystem.ZipAndTarAgree | wcp_library/file_system_utils.py:383-393 | for `zip` and `tar` the plan as written and the corrected plan agree once the archive directory exists |
| FileSystem.Disk.constructor | wcp_library/file_system_utils.py:61-121 | the disk holds the given files, folders and other entries, with no effects yet |
| FileSystem.Disk.Perform | wcp_library/file_system_utils.py:196-417 | one `os`/`shutil` effect changes the disk as `Apply` says and is logged: `os.remove` removes any non-folder entry, and `make_archive` writes `<base>` plus its format's extension |
| FileSystem.Disk.Rename | wcp_library/file_system_utils.py:164-207 | result, effects and new disk are those of `RenamePlan` |
| FileSystem.Disk.Copy | wcp_library/file_system_utils.py:210-266 | result, effects and new disk are those of the corrected `CopyPlan` |
| FileSystem.Disk.Move | wcp_library/file_system_utils.py:269-317 | result, effects and new disk are those of the corrected `MovePlan` |
| FileSystem.Disk.Delete | wcp_library/file_system_utils.py:320-340 | result, effects and new disk are those of `DeletePlan` |
| FileSystem.Disk.CreateArchive | wcp_library/file_system_utils.py:343-393 | result, effects and new disk are those of the corrected `ArchivePlan` |
| FileSystem.Disk.ExtractArchive | wcp_library/file_system_utils.py:396-417 | a missing archive raises FileNotFoundError; otherwise the destination is created and the archive unpacked into it |
| Subscription.LifetimeBounds | wcp_library/graph/subscription.py:103-119 | every resource type lives 60 to 43200 minutes: presence 60, security 43200, and any type not in the table 1440 |
| Subscription.Expiration | wcp_library/graph/subscription.py:119-124 | the expiration lies between one hour and thirty days after now |
| Subscription.Lookup | wcp_library/graph/subscription.py:243-249 | the stored entry when the id is present with a truthy entry, {} otherwise |
| Subscription.RemovedLooksAbsent | wcp_library/graph/subscription.py:279-286 | after a removal the id looks absent, whether or not the file was written back; every other id is unchanged |
| Subscription.Differences | wcp_library/graph/subscription.py:252-267 | a failed listing (None) raises TypeError |
| Subscription.DifferencesSpec | wcp_library/graph/subscription.py:261-267 | Graph-only ids are listed remotely and not stored, file-only ids are stored and not listed, and the two are disjoint |
| Subscription.CreatedRecordSpec | wcp_library/graph/subscription.py:30-58 | the stored record repeats the payload under its own key names, and `get_subscription_metadata` returns it at once |
| Subscription.RenewalKeepsLifetime | wcp_library/graph/subscription.py:77-79 | a renewal gives a created subscription the lifetime of its own resource type again, counted from the renewal |
| Subscription.OnlyOneFieldChanges | wcp_library/graph/subscription.py:87-88 | a renewal changes only `expiration_datetime`, and a URL change (lines 221-222) only `notification_url` |
| Subscription.MetadataFile.constructor | wcp_library/graph/subscription.py:235-240 | the file holds the given subscriptions |
| Subscription.MetadataFile.AddOrUpdate | wcp_library/graph/subscription.py:289-297 | store[id] = metadata, every other entry unchanged |
| Subscription.MetadataFile.Remove | wcp_library/graph/subscription.py:279-286 | the id is dropped and the file written back only when its entry was truthy |
| Subscription.CreateSubscription | wcp_library/graph/subscription.py:9-61 | POSTs the payload; stores the record under the returned id only when the request succeeded, and leaves the store unchanged otherwise |
| Subscription.UpdateSubscriptionExpiration | wcp_library/graph/subscription.py:64-93 | an unknown or empty id sends nothing and changes nothing; otherwise one PATCH of the new expiration, stored only on success |
| Subscription.UpdateNotificationUrl | wcp_library/graph/subscription.py:202-229 | an unknown or empty id sends nothing and changes nothing; otherwise one PATCH of the URL, stored only on success |
| Subscription.DeleteSubscription | wcp_library/graph/subscription.py:144-157 | DELETE, then the removal of the entry only on success |

## Findings

| source | as written | input that shows it | evidently intended | confidence | as-written member | corrected member |
|---|---|---|---|---|---|---|
| wcp_library/sql/oracle.py:16 | `$` in the pattern also matches before a final newline, so a name ending in "\n" passes and is quoted with the newline inside | `"T\n"` | only `part` or `part.part` is accepted | high, not executed | OracleIdentifier.QuoteIdentifierAsWritten (TrailingNewlineAccepted) | OracleIdentifier.QuoteIdentifier |
| wcp_library/file_system_utils.py:254 | the folder test is a string prefix test | copy folder `/data/rep` to `/data/report` | refuse only the folder itself or a path below it | high, not executed | FileSystem.CopyPlanAsWritten (SiblingPrefixRefusedAsWritten) | FileSystem.CopyPlan (CopyRefusesExactlyWithin) |
| wcp_library/file_system_utils.py:310 | `os.makedirs` is called on the target's parent even when it is "" | move `a.txt` to `b.txt` in the working directory | create the parent only when there is one | high, not executed | FileSystem.MovePlanAsWritten (MoveToBareNameFailsAsWritten) | FileSystem.MovePlan (MoveSucceeds) |
| wcp_library/file_system_utils.py:383-391 | the error handler formats `full_archive_base`, which is unassigned when `os.makedirs` fails | `create_archive(name, folder, "", fmt)` | raise the OSError naming the archive | high, not executed | FileSystem.ArchivePlanAsWritten (ArchiveIntoWorkingDirectoryAsWritten) | FileSystem.ArchivePlan (ArchiveOutcomes) |
| WCP_Library/async_sql/postgres.py:32-36 | the plain-function wrapper returns the coroutine without awaiting it, so the try covers nothing | one 08001 failure, then a success | retry 08001/08004 up to `retry_limit` | high, not executed | LegacyRetry.SyncWrapperRun (AsyncPostgresTransientNotRetried) | SqlRetry.RunFrom under LegacyRetry.AsyncPostgresPolicy (AsyncPostgresTransientNotRetried) |
| wcp_library/file_system_utils.py:385-393 | the `_copy` test and the returned metadata use `<base>.<format>`, but `shutil.make_archive` names `gztar`, `bztar` and `xztar` archives `.tar.gz`, `.tar.bz2` and `.tar.xz` | `create_archive("a", "src", "out", "gztar")` | test and report the file `make_archive` writes | high, not executed | FileSystem.ArchivePlanAsWritten (GztarReportedMissingAsWritten) | FileSystem.ArchivePlan (ArchiveTargetExists) |
| wcp-library/sql/oracle.py:79 | `set_user` tests the fields already stored instead of the incoming credentials | a fresh instance with `Service` set | test the incoming Service/SID | high, not executed | HyphenOracle.FreshInstanceRefused | HyphenOracle.FreshInstanceAccepted |

## Left out

- Database drivers, pool sizing and capacity, the network, SMTP, HTTP, the clock and logging: each is an input or a recorded event.
- The jitter of the backoff `retry`, a random float: sleeps are stated before jitter.
- The `max_attempts=None` and `delay=None` arguments of the backoff `retry`: the model takes integers.
- Case mapping is ASCII only; `str.isdigit` is modelled for ASCII digits.
- Missing dictionary keys (KeyError) are modelled only for `update_credential`'s `UserName`, both at its first read and after the PUT, where a generic field displayed as `UserName` has renamed it; elsewhere the keys are assumed present.
- `int()` of a port string: ports are integers.
- `WCP_Library/sql/__init__.py` is not part of this model, so the retry decorator the `wcp-library` Oracle module imports from it is not modelled.
- The synchronous credential manager is not part of this model; its asynchronous twin is.
- `new_credentials` of the asynchronous vault client (a two-line delegation) is covered through the FTP record.
- A decorated connection method is modelled as one attempt of its body; the decorator is modelled once, in `SqlRetry`.
- A nested decorated call made by a bulk method is one `Delegate` event whose outcome is a parameter.
- A failed pool acquire records no event.
- The asynchronous Oracle class in `wcp_library/sql/oracle.py` is the same logic as the synchronous one and is not repeated.
- pandas `replace` semantics beyond NaN/NaT/NA and the empty string, and frames with duplicate column labels.
- PostgresAdapter.PoolUrl: user, password and database are not escaped, so the URL is stated only for text free of '@'.
- GetMetadata: the platform is taken to be POSIX with `st_birthtime` in `os.stat` results (macOS, FreeBSD); on Linux, where it is absent, `get_metadata` raises AttributeError for every existing path, and so does every `rename`, `copy`, `move` and `create_archive` that reaches its closing `get_metadata`.
- LegacyAsyncPostgres: `WCP_Library/async_sql/postgres.py` annotates with `ConnectionPool` (never imported) and `SQL | str` (`SQL` imported only for type checkers) without deferred annotations, so before Python 3.14 importing the module raises NameError; the model assumes a Python that defers annotations, where the module imports.
- `os.path.abspath` normalisation (".", "..", repeated slashes): paths are keyed as spelled.
- The contents of directory trees, file contents, `os.stat` metadata (sizes, times) and the order of `os.listdir`, which is an input.
- MIME encoding, base64 and file reading of attachments; a `None` body passed to `send_email` directly.
- Subscription expirations are minute counts, not ISO 8601 text.
- A Graph reply without an `id`, which would store the record under None.
- A `response.json()` that fails to decode, and the KeyError of a listed subscription without `id`.
- `list_subscriptions`, `reauthorize_subscription` and `recreate_subscription` make no store change of their own: the first is the input of `Differences`, the second only sends a request, and the third is `DeleteSubscription` then `CreateSubscription`.
