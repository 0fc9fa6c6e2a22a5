# ADO.NET data-access layer for SQL Server, modelled in Dafny

This project models the core of a small ADO.NET data-access layer for SQL Server. The core has six parts:

- **Command-type classifiers.** `SqlCommandType` and the older `SqlCommandTypeDecider` decide whether a caller's command text names a stored procedure, names a table, or is plain SQL text.
- **Schema cache.** The classifiers read the database's catalog once per connection string, or once per process for the decider, and keep the result in a cache shared by the whole process.
- **Parameter factory.** `SqlParameterFactory` maps `DbType` to `SqlDbType`. The mapping refuses types that SQL Server does not have. The factory builds `SqlParameter`s from a name, type, value, size, precision and direction.
- **Connections.** There are two `Connection` classes, one per source tree. A connection is closed only when no transaction is running. Opening keeps an open client connection, or replaces it with a new one.
- **Transaction control.** `TransactionControl` and `SqlTransactionControl` begin, commit and roll back a transaction. While one runs, they raise the connection's `InTransaction` flag.
- **Command runners.** `SqlDataAccess`, `Commands` and `SqlCommands` build stored-procedure commands: connection, transaction, timeout and parameters. `Commands` and `SqlDataAccess` also bracket executions with opening and closing the connection; some of their reader methods open it and leave it open.

The client library (`SqlConnection`, `SqlTransaction`, `SqlCommand`, `SqlParameter`) is modelled only as far as the core uses it, in `driver.dfy`:

- connection state and disposal;
- transaction status;
- the fields of a command and of a parameter;
- the `DbType` a `SqlDbType` reports back;
- the client's refusal to run a command whose connection is missing or not open.

The catalog rows that `GetSchema` returns are method parameters. What the database does with a command is also a parameter: the client's result or the exception it threw.

Classes whose fields the source updates in place are Dafny classes:

- the connections;
- the transaction controls;
- `SqlDataAccess`;
- the schema cache and the classifier;
- the decider's process-wide list.

The classification rules, the type mapping and the command-building rule are functions.

Layout:

| file | module | contents |
|---|---|---|
| `wrappers.dfy` | `Wrappers` | `Option`, `Result`, `Outcome` |
| `sql_types.dfy` | `SqlTypes` | `DbType`, `SqlDbType`, `ParameterDirection`, `CommandType`, the type a `SqlDbType` reports |
| `driver.dfy` | `Driver` | client connection, transaction, parameter and command; `int32` and `byte` |
| `strings.dfy` | `Strings` | `ToLowerInvariant` (ASCII), `LastIndexOf`, `Split`, `Replace(c, "")` |
| `parameter_factory.dfy` | `ParameterFactory` | type mapping and the `Create` overloads |
| `command_type.dfy` | `CommandTypeCache` | `SqlCommandType` and its connection-string cache |
| `command_type_decider.dfy` | `CommandTypeDecider` | `SqlCommandTypeDecider` and its process-wide list |
| `command_building.dfy` | `CommandBuilding` | the shared `BuildCommand` and `ExecuteReader` command rules |
| `connection.dfy` | `SqlServerConnection` | `Connection` of `ADO.Net.DataAccessLayer` |
| `core_connection.dfy` | `CoreConnection` | `Connection` of `Ado.Net.DataAccessLayer` |
| `transaction_control.dfy` | `CoreTransactionControl` | `TransactionControl` |
| `sql_transaction_control.dfy` | `SqlTransactionControl` | `SqlTransactionControl` |
| `sql_data_access.dfy` | `SqlDataAccess` | `SqlDataAccess` |
| `commands.dfy` | `Commands` | `Commands` |
| `sql_commands.dfy` | `SqlCommands` | `SqlCommands` |

### Where the expected classification and the code disagree

One would expect text with a space or tab outside a single bracket-wrapped token, such as `SELECT * FROM [TestTable]`, always to be `Text`; the test at ADO.Net.DataAccessLayerTests/When_determinng_type_of_command.cs:79-84 checks exactly that query. `SqlCommandType.Get` (SqlCommandType.cs:23-28) does otherwise.

Text that contains `[` and ends in `]` is decided by the part from its last `[` on, whatever precedes it. So `SELECT * FROM [TestTable]` is `Text` only because no procedure is called `TestTable`. `SELECT * FROM [AddToTestTable]` is `StoredProcedure`.

The model follows the code:

- `CommandTypeCache.GetDecidedByBracketedSuffix` states the general rule.
- `CommandTypeCache.BracketedQueryScenario` shows both cases.

## Model

| member | source | states |
|---|---|---|
| ParameterFactory.ConvertDbTypeToSqlDbType | ADO.Net.DataAccessLayer/SqlServer/SqlParameterFactory.cs:16-103 | succeeds exactly for types with a SQL Server counterpart; the others (SByte, the unsigned integers, VarNumeric, unlisted codes) fail with an argument error naming the type |
| ParameterFactory.ConvertReportsBack | ADO.Net.DataAccessLayer/SqlServer/SqlParameterFactory.cs:20-99 | the SQL Server type chosen for a supported `DbType` reports that `DbType` back |
| ParameterFactory.ConvertIsInjective | ADO.Net.DataAccessLayer/SqlServer/SqlParameterFactory.cs:20-99 | two different supported types never map to the same SQL type |
| ParameterFactory.ConvertInvertsReported | ADO.Net.DataAccessLayer/SqlServer/SqlParameterFactory.cs:20-99 | every SQL type that reports a `DbType` is what that `DbType` maps to, so the mapping and the reported type are inverse |
| ParameterFactory.FulfilsDeterminesResult | ADO.Net.DataAccessLayer/SqlServer/SqlParameterFactory.cs:112-123 | the requirement every overload is held to (name, reported type, value with null as DBNull, direction, size, precision, or the argument error) determines the result uniquely |
| ParameterFactory.Create | ADO.Net.DataAccessLayer/SqlServer/SqlParameterFactory.cs:112-123 | fulfils the request with direction Input, size 0 and precision 0; a successful parameter always has an assigned value (DBNull for null) |
| ParameterFactory.CreateWithDirection | ADO.Net.DataAccessLayer/SqlServer/SqlParameterFactory.cs:132-138 | fulfils the request with no value (DBNull) and the given direction |
| ParameterFactory.CreateWithValueAndDirection | ADO.Net.DataAccessLayer/SqlServer/SqlParameterFactory.cs:148-153 | fulfils the request with the value and direction |
| ParameterFactory.CreateWithSize | ADO.Net.DataAccessLayer/SqlServer/SqlParameterFactory.cs:163-168 | fulfils the request with the value and size, direction Input |
| ParameterFactory.CreateWithSizeAndDirection | ADO.Net.DataAccessLayer/SqlServer/SqlParameterFactory.cs:179-185 | fulfils the request with the value, size and direction |
| ParameterFactory.CreateWithPrecision | ADO.Net.DataAccessLayer/SqlServer/SqlParameterFactory.cs:196-202 | fulfils the request with the value, size and precision, direction Input |
| ParameterFactory.CreateWithPrecisionAndDirection | ADO.Net.DataAccessLayer/SqlServer/SqlParameterFactory.cs:214-221 | fulfils the request with the value, size, precision and direction |
| ParameterFactory.DecimalAndUnsignedExamples | ADO.Net.DataAccessLayerTests/When_creating_Db_Parameters.cs:40-48 | a Decimal parameter of size 10 and precision 3 keeps name, value, size and precision and reports Decimal; UInt32 is refused naming the type |
| CommandTypeCache.Get | ADO.Net.DataAccessLayer/SqlServer/SqlCommandType.cs:21-37 | the classification is `Text` or a kind the table holds |
| CommandTypeCache.CatalogEntryContents | ADO.Net.DataAccessLayer/SqlServer/SqlCommandType.cs:84-93 | the table built from the catalog rows holds exactly their lower-cased names, each with the catalog's kind |
| CommandTypeCache.SchemaCache.GetCachedObjectForDB | ADO.Net.DataAccessLayer/SqlServer/SqlCommandType.cs:96-106 | a table comes back exactly when the dictionary exists and holds the connection string, and it is that entry |
| CommandTypeCache.NewSqlCommandTypeAsWritten | ADO.Net.DataAccessLayer/SqlServer/SqlCommandType.cs:13-19 | as written: reuses the table cached under the caller's string and leaves the cache alone; otherwise builds the table from the procedure catalog and registers it under the string the opened connection reports, or fails with a duplicate-key error when that key is taken, cache unchanged; a cache of procedure-only tables stays so |
| CommandTypeCache.NewSqlCommandType | ADO.Net.DataAccessLayer/SqlServer/SqlCommandType.cs:13-19 | corrected: never fails; reuses the cached table or registers the catalog's table under the caller's string, so afterwards the instance's table is the cache's entry for that string |
| CommandTypeCache.SqlCommandType.PopulateCacheData | ADO.Net.DataAccessLayer/SqlServer/SqlCommandType.cs:58-73 | creates the dictionary when missing, then adds the new procedure table under the reported string, keeping all other entries; a duplicate-key error with the cache unchanged when that key is taken |
| CommandTypeCache.SqlCommandType.ExtractSchemaDetail | ADO.Net.DataAccessLayer/SqlServer/SqlCommandType.cs:80-94 | a key already registered gives a duplicate-key error, an empty table and an unchanged cache; otherwise after the loop the table is the catalog table of the rows (first spelling wins) and the cache maps the key to it, other entries unchanged |
| CommandTypeCache.ConstructTwice | ADO.Net.DataAccessLayer/SqlServer/SqlCommandType.cs:13-19 | corrected: a second classifier for a cached connection string shares the first one's table, whatever the catalog holds by then |
| CommandTypeCache.ConstructTwiceAsWritten | ADO.Net.DataAccessLayer/SqlServer/SqlCommandType.cs:13-94 | as written, when the opened connection reports a different string: the first construction succeeds, the second fails with a duplicate-key error on the reported string, and the caller's string is never cached |
| CommandTypeCache.GetDecidedByBracketedSuffix | ADO.Net.DataAccessLayer/SqlServer/SqlCommandType.cs:23-28 | text ending in `[name]` is classified as `[name]` alone, whatever precedes it, by looking up `name` with `]` removed and lower-cased |
| CommandTypeCache.GetUnbracketed | ADO.Net.DataAccessLayer/SqlServer/SqlCommandType.cs:31-36 | text not ending in a bracketed name is looked up whole when it has no space or tab, and is `Text` when it has one |
| CommandTypeCache.UnknownNameIsText | ADO.Net.DataAccessLayer/SqlServer/SqlCommandType.cs:21-55 | text whose looked-up part (from the last `[` when it ends in a bracketed name, otherwise all of it) has a key the table lacks is `Text`, bracketed or not |
| CommandTypeCache.GetIgnoresCase | ADO.Net.DataAccessLayer/SqlServer/SqlCommandType.cs:41-49 | texts equal after lower-casing are classified the same |
| CommandTypeCache.BracketsAroundNameIgnored | ADO.Net.DataAccessLayer/SqlServer/SqlCommandType.cs:41-43 | a one-word name in brackets is classified as the bare name |
| CommandTypeCache.ProcedureTableAnswers | ADO.Net.DataAccessLayer/SqlServer/SqlCommandType.cs:75-78 | on a table read from the procedure catalog the answer is only `StoredProcedure` or `Text` |
| CommandTypeCache.MissingNameScenario | ADO.Net.DataAccessLayerTests/When_determinng_type_of_command.cs:22-27 | `MissingTable` is `Text` |
| CommandTypeCache.ProcedureFoundScenario | ADO.Net.DataAccessLayerTests/When_determinng_type_of_command.cs:31-36 | `AddToTestTable` is found as written, lower-cased and bracketed |
| CommandTypeCache.SqlWithBlanksScenario | ADO.Net.DataAccessLayerTests/When_determinng_type_of_command.cs:39-52 | SQL with spaces or tabs between its words is `Text` |
| CommandTypeCache.BracketedNameWithSpacesScenario | ADO.Net.DataAccessLayerTests/When_determinng_type_of_command.cs:55-60 | `[Sproc with spaces in name]` is `StoredProcedure` |
| CommandTypeCache.BracketedQueryScenario | ADO.Net.DataAccessLayerTests/When_determinng_type_of_command.cs:79-84 | `SELECT * FROM [TestTable]` is `Text`, and `SELECT * FROM [AddToTestTable]` is `StoredProcedure` |
| CommandTypeDecider.AddRows | ADO.Net.DataAccessLayer/SqlServer/SqlCommandTypeDecider.cs:63-69 | rows are added with the kind, earlier entries kept; on success the keys are the old keys plus the rows; a failure names a row |
| CommandTypeDecider.AddRowsSucceedsIffAllNew | ADO.Net.DataAccessLayer/SqlServer/SqlCommandTypeDecider.cs:63-69 | filling throws exactly when a row repeats a name already listed or an earlier row's name |
| CommandTypeDecider.Populate | ADO.Net.DataAccessLayer/SqlServer/SqlCommandTypeDecider.cs:39-61 | every listed object is `TableDirect` or `StoredProcedure` |
| CommandTypeDecider.PopulateContents | ADO.Net.DataAccessLayer/SqlServer/SqlCommandTypeDecider.cs:39-61 | filling succeeds exactly when table and procedure names are all distinct; then tables are `TableDirect`, procedures `StoredProcedure`, nothing else listed |
| CommandTypeDecider.GetCommandType | ADO.Net.DataAccessLayer/SqlServer/SqlCommandTypeDecider.cs:20-37 | a non-`Text` answer is the listed kind of the exact text; a listed one-word text gets its kind; text with a space or tab is `Text` |
| CommandTypeDecider.GetCommandTypeRange | ADO.Net.DataAccessLayer/SqlServer/SqlCommandTypeDecider.cs:20-37 | on a list the constructor fills, the answer is `TableDirect`, `StoredProcedure` or `Text` |
| CommandTypeDecider.ExactMatchScenario | ADO.Net.DataAccessLayer/SqlServer/SqlCommandTypeDecider.cs:20-37 | the match is exact and case-sensitive: `addtotesttable` and `[AddToTestTable]` are `Text` |
| CommandTypeDecider.DeciderCache.Construct | ADO.Net.DataAccessLayer/SqlServer/SqlCommandTypeDecider.cs:11-18 | only the first construction fills the list (tables, then procedures); it throws exactly when a name repeats, keeping what was added; later constructions change nothing |
| CommandTypeDecider.DeciderCache.ExtractSchemaDetail | ADO.Net.DataAccessLayer/SqlServer/SqlCommandTypeDecider.cs:63-69 | the loop leaves the list and the failure that `AddRows` specifies |
| CommandBuilding.StoredProcedureCommandFields | ADO.Net.DataAccessLayer/SqlServer/Commands.cs:237-254 | a built command runs the named stored procedure on the given connection and transaction with exactly the given parameters; its timeout is positive, the configured one exactly when that is positive, 30 otherwise |
| CommandBuilding.ReaderCommandIgnoresTimeout | ADO.Net.DataAccessLayer/SqlServer/Commands.cs:80-93 | a reader command is the built command with no timeout configured: default timeout, the given parameters (the emptiness test changes nothing) |
| SqlServerConnection.Connection.constructor | ADO.Net.DataAccessLayer/SqlServer/Connection.cs:14-17 | keeps the connection string; no client connection, no transaction |
| SqlServerConnection.Connection.SafelyCloseConnection | ADO.Net.DataAccessLayer/SqlServer/Connection.cs:23-31 | inside a transaction nothing changes; outside one the client connection is closed and disposed, or a null-reference error when there is none |
| SqlServerConnection.Connection.SafelyOpenConnection | ADO.Net.DataAccessLayer/SqlServer/Connection.cs:33-40 | an open client connection is kept; otherwise a new one on the stored string is made; afterwards the connection is open and the flag unchanged |
| CoreConnection.Connection.constructor | Ado.Net.DataAccessLayer/SqlServer/Connection.cs:16-19 | keeps the connection string; no client connection, no transaction |
| CoreConnection.Connection.Close | Ado.Net.DataAccessLayer/SqlServer/Connection.cs:25-32 | as `SafelyCloseConnection`: skipped inside a transaction, close and dispose otherwise, null-reference error without a client connection |
| CoreConnection.Connection.Open | Ado.Net.DataAccessLayer/SqlServer/Connection.cs:34-41 | as `SafelyOpenConnection` |
| CoreTransactionControl.TransactionControl.BeginTransaction | ADO.Net.DataAccessLayer_3.5/Core/TransactionControl.cs:20-25 | opens the connection, holds a new pending transaction on the client connection in use and raises the flag; the invariant holds |
| CoreTransactionControl.TransactionControl.CommitTransaction | ADO.Net.DataAccessLayer_3.5/Core/TransactionControl.cs:30-38 | without a transaction nothing changes; otherwise it is committed, dropped and the flag lowered; the client connection is kept; the invariant holds |
| CoreTransactionControl.TransactionControl.RollbackTransaction | ADO.Net.DataAccessLayer_3.5/Core/TransactionControl.cs:43-51 | as commit, rolled back instead |
| CoreTransactionControl.CloseDeferredUntilCommit | ADO.Net.DataAccessLayer_3.5/Core/TransactionControl.cs:20-38 | `Close` inside a transaction leaves it running; after the commit `Close` closes and disposes the transaction's connection |
| SqlTransactionControl.SqlTransactionControl.BeginTransaction | ADO.Net.DataAccessLayer/SqlServer/SqlTransactionControl.cs:25-30 | as `TransactionControl.BeginTransaction`, over `SafelyOpenConnection` |
| SqlTransactionControl.SqlTransactionControl.CommitTransaction | ADO.Net.DataAccessLayer/SqlServer/SqlTransactionControl.cs:35-43 | as `TransactionControl.CommitTransaction` |
| SqlTransactionControl.SqlTransactionControl.RollbackTransaction | ADO.Net.DataAccessLayer/SqlServer/SqlTransactionControl.cs:48-56 | as `TransactionControl.RollbackTransaction` |
| SqlTransactionControl.ReopenInsideThenRollback | ADO.Net.DataAccessLayer/SqlServer/SqlTransactionControl.cs:25-56 | reopening inside a transaction keeps its connection; after the rollback a close closes and disposes it |
| SqlDataAccess.NewSqlDataAccess | ADO.Net.DataAccessLayer/SqlServer/SqlDataAccess.cs:25-30 | a null factory is refused with an argument-null error naming it; otherwise no connection, no transaction, timeout 0 |
| SqlDataAccess.SqlDataAccess.SafelyCloseConnection | ADO.Net.DataAccessLayer/SqlServer/SqlDataAccess.cs:43-50 | skipped while a transaction is held; otherwise close and dispose, or a null-reference error without a connection |
| SqlDataAccess.SqlDataAccess.SafelyOpenConnection | ADO.Net.DataAccessLayer/SqlServer/SqlDataAccess.cs:52-59 | keeps an open connection, otherwise a new one on the stored string; open afterwards |
| SqlDataAccess.SqlDataAccess.BeginTransaction | ADO.Net.DataAccessLayer/SqlServer/SqlDataAccess.cs:358-362 | holds a new pending transaction on the (opened) connection in use; the invariant holds |
| SqlDataAccess.SqlDataAccess.CommitTransaction | ADO.Net.DataAccessLayer/SqlServer/SqlDataAccess.cs:367-375 | without a transaction nothing changes; otherwise committed, dropped, and the connection closed and disposed |
| SqlDataAccess.SqlDataAccess.RollbackTransaction | ADO.Net.DataAccessLayer/SqlServer/SqlDataAccess.cs:380-388 | as commit, rolled back instead |
| SqlDataAccess.SqlDataAccess.BuildCommand | ADO.Net.DataAccessLayer/SqlServer/SqlDataAccess.cs:396-413 | follows the shared stored-procedure command rule with the connection in use and the held transaction |
| SqlDataAccess.SqlDataAccess.Create | ADO.Net.DataAccessLayer/SqlServer/SqlDataAccess.cs:431-434 | fulfils the same request as the factory's overload |
| SqlDataAccess.SqlDataAccess.CreateWithDirection | ADO.Net.DataAccessLayer/SqlServer/SqlDataAccess.cs:426-429 | fulfils the same request as the factory's overload |
| SqlDataAccess.SqlDataAccess.CreateWithValueAndDirection | ADO.Net.DataAccessLayer/SqlServer/SqlDataAccess.cs:421-424 | fulfils the same request as the factory's overload |
| SqlDataAccess.SqlDataAccess.CreateWithSize | ADO.Net.DataAccessLayer/SqlServer/SqlDataAccess.cs:436-439 | fulfils the same request as the factory's overload |
| SqlDataAccess.SqlDataAccess.CreateWithPrecisionAndDirectionAsWritten | ADO.Net.DataAccessLayer/SqlServer/SqlDataAccess.cs:441-444 | as written: fulfils the request with precision 0, whatever precision was passed |
| SqlDataAccess.SqlDataAccess.PrecisionDropped | ADO.Net.DataAccessLayer/SqlServer/SqlDataAccess.cs:441-444 | for a supported type and a non-zero precision the as-written overload's parameter lacks the precision and differs from the intended one |
| SqlDataAccess.SqlDataAccess.CreateWithSizeAndDirection | ADO.Net.DataAccessLayer/SqlServer/SqlDataAccess.cs:451-454 | fulfils the same request as the factory's overload |
| SqlDataAccess.SqlDataAccess.CreateWithPrecision | ADO.Net.DataAccessLayer/SqlServer/SqlDataAccess.cs:446-449 | fulfils the same request as the factory's overload |
| SqlDataAccess.SqlDataAccess.CreateWithPrecisionAndDirection | ADO.Net.DataAccessLayer/SqlServer/SqlDataAccess.cs:441-444 | corrected: fulfils the request including the precision |
| SqlDataAccess.SqlDataAccess.ExecuteNonQueryAsWritten | ADO.Net.DataAccessLayer/SqlServer/SqlDataAccess.cs:79-101 | as written: the command is built on the connection in use, not on the local connection it opens, so it runs only when that one is already open; outside a transaction with no connection in use the result is a null-reference error, with a closed one the client's invalid-operation error; the local connection ends disposed |
| SqlDataAccess.SqlDataAccess.ExecuteNonQuery | ADO.Net.DataAccessLayer/SqlServer/SqlDataAccess.cs:230-251 | corrected, as the data-table and data-set brackets do it: the client's result reaches the caller, the command comes back exactly on success, and the connection is closed and disposed afterwards unless a transaction is held |
| SqlDataAccess.SqlDataAccess.ExecuteReader | ADO.Net.DataAccessLayer/SqlServer/SqlDataAccess.cs:178-195 | opens the connection in use, runs the reader command on it with the held transaction, and leaves it open |
| SqlDataAccess.SqlDataAccess.ExecuteXmlReader | ADO.Net.DataAccessLayer/SqlServer/SqlDataAccess.cs:342-351 | opens the connection in use, runs the stored-procedure command on it, leaves it open; the command comes back exactly on success |
| SqlDataAccess.NonQueryOutsideTransactionScenario | ADO.Net.DataAccessLayer/SqlServer/SqlDataAccess.cs:79-101 | with no connection and no transaction, the as-written form ends in a null-reference error whatever the database answers; the corrected form returns the answer and leaves the connection closed |
| SqlDataAccess.TransactionSpansCommands | ADO.Net.DataAccessLayer/SqlServer/SqlDataAccess.cs:358-413 | commands built inside a transaction carry it and its connection; the commit closes and disposes that connection |
| Commands.NewCommands | ADO.Net.DataAccessLayer/SqlServer/Commands.cs:16-23 | a null connection is refused with an argument-null error; a transaction of another provider is kept as null |
| Commands.Commands.BuildCommand | ADO.Net.DataAccessLayer/SqlServer/Commands.cs:237-254 | follows the shared stored-procedure command rule with the connection's client connection and the stored transaction |
| Commands.Commands.ExecuteWithCommand | ADO.Net.DataAccessLayer/SqlServer/Commands.cs:273-292 | returns the client's result; the command comes back exactly on success; afterwards the connection is closed and disposed unless a transaction keeps it open |
| Commands.Commands.ExecuteAsWritten | ADO.Net.DataAccessLayer/SqlServer/Commands.cs:256-271 | as written: a success passes through, and any client exception becomes a null-reference error |
| Commands.Commands.Execute | ADO.Net.DataAccessLayer/SqlServer/Commands.cs:256-271 | corrected: the client's result or exception reaches the caller; closed afterwards unless in a transaction |
| Commands.Commands.ExecuteReader | ADO.Net.DataAccessLayer/SqlServer/Commands.cs:76-94 | runs the reader command with the default timeout and leaves the connection open; an open client connection is kept, otherwise the one in use is new |
| Commands.Commands.ExecuteXmlReader | ADO.Net.DataAccessLayer/SqlServer/Commands.cs:221-229 | opens the connection, runs the stored-procedure command, and leaves the connection open in or out of a transaction; an open client connection is kept, otherwise the one in use is new; the command comes back exactly on success |
| Commands.MaskedErrorScenario | ADO.Net.DataAccessLayer/SqlServer/Commands.cs:256-271 | a deadlock error (1205) reaches the caller of the corrected form and is a null-reference error in the as-written form |
| Commands.ReadInsideTransaction | ADO.Net.DataAccessLayer/SqlServer/Commands.cs:76-94 | a reader or XML reader run inside a running transaction keeps the same open connection, and the transaction stays valid on it |
| Commands.ExecuteInsideTransaction | ADO.Net.DataAccessLayer/SqlServer/Commands.cs:273-292 | an execution inside a running transaction leaves the connection open and the transaction valid |
| SqlCommands.NewSqlCommands | Ado.Net.DataAccessLayer/SqlServer/SqlCommands.cs:17-24 | a null connection is refused first, then a null transaction, each with an argument-null error naming it |
| SqlCommands.SqlCommands.BuildCommand | Ado.Net.DataAccessLayer/SqlServer/SqlCommands.cs:308-325 | follows the shared stored-procedure command rule with the stored connection and transaction |
| SqlCommands.SqlCommands.ReaderCommandFor | Ado.Net.DataAccessLayer/SqlServer/SqlCommands.cs:139-155 | follows the shared reader-command rule with the stored connection and transaction |

## Left out

- The `DbType` a SQL Server type reports is modelled only for the 22 types the factory produces. For the other nine (`Text`, `NText`, `Image`, `VarBinary`, `SmallDateTime`, `SmallMoney`, `Timestamp`, `Udt`, `Structured`) it is left out, because no parameter built here has them.
- Lower-casing is `ToLowerInvariant` restricted to ASCII. Other letters are left as they are. The catalog names of the scenarios are ASCII.
- Ordering and culture-dependent comparison are not modelled. The `SortedList` tables use the default string comparer, which depends on the culture and decides the key order, which keys count as duplicates in `Add`, and which lookups match. The model's tables are maps: key equality is exact equality of the lower-cased ASCII names, and the key order is never observed by the core.
- `lock` and concurrent use of the static caches are not modelled. The lock in `PopulateCacheData` is taken on a fresh object and so excludes nothing.
- The string the opened connection reports is a parameter of `CommandTypeCache.NewSqlCommandTypeAsWritten`. How the client derives it from the caller's string is not modelled; it drops a password unless Persist Security Info is set.
- Catalog reading is not modelled. This covers `GetSchema`, `connection.Open()` failing in the classifiers, and the rows' column values. The rows come in as sequences of names.
- Client failures of `Open`, `BeginTransaction`, `Commit` and `Rollback` are not modelled. These include the client's refusal of a parallel transaction. `BeginTransaction` replaces a held transaction, as the code does.
- The `CommitTransaction` and `RollbackTransaction` members of all three classes require the invariant. A held transaction is still pending on the open connection in use. Code outside the core could end it through `CurrentTransaction`, and that case is not modelled.
- The client's validation of parameter sizes and precisions is not modelled. Neither is `AddRange` ownership, where a parameter already in another command is refused.
- The results of `ExecuteNonQuery`, `ExecuteScalar`, `ExecuteDataTable`, `ExecuteDataSet`, `ExecuteReader` and `ExecuteXmlReader` are not modelled. Row counts, scalars, tables, data sets and readers are opaque values that the client returns. In `Commands`, the open-build-run-close bracket is modelled by `Execute` and `ExecuteWithCommand`. `ExecuteReader` and `ExecuteXmlReader` (Commands.cs:76-94, 221-229) open the connection and never close it. They are modelled by `Commands.Commands.ExecuteReader` and `Commands.Commands.ExecuteXmlReader`.
- The execution methods of `SqlDataAccess` do not all share one bracket, and they are modelled one by one:
  - `ExecuteNonQuery` (SqlDataAccess.cs:79-101) is modelled as written and corrected; this is the third finding below.
  - The `out` forms of `ExecuteDataTable` and `ExecuteDataSet` (230-251, 286-307) have the corrected bracket. It is modelled once, by `SqlDataAccess.SqlDataAccess.ExecuteNonQuery`.
  - `ExecuteReader` (178-195) and `ExecuteXmlReader` (342-351) open the connection in use and leave it open. The reader's `CommandBehavior.CloseConnection` closes it when the reader is closed, even inside a transaction; the reader's lifetime is not modelled.
  - `ExecuteScalar` (151-160) opens the connection in use, runs the command through `SqlCommands.ExecuteScalar`, and then calls `SafelyCloseConnection` outside any `finally`, so a client exception leaves the connection open. It is not modelled separately.
  - The forms without `out cmd` (108-116 and the like) clear and dispose the command returned, and are not modelled.
- `SqlDataAccess.SqlDataAccess.Create`, `SqlDataAccess.SqlDataAccess.CreateWithDirection`, `SqlDataAccess.SqlDataAccess.CreateWithValueAndDirection`, `SqlDataAccess.SqlDataAccess.CreateWithSize`, `SqlDataAccess.SqlDataAccess.CreateWithSizeAndDirection`, `SqlDataAccess.SqlDataAccess.CreateWithPrecision`, `SqlDataAccess.SqlDataAccess.CreateWithPrecisionAndDirection`, `SqlDataAccess.SqlDataAccess.CreateWithPrecisionAndDirectionAsWritten`: the factory is an injected `IParameterCreation` (SqlDataAccess.cs:18, 25-30). The model fixes it to `SqlParameterFactory`, the only implementation in the core, and states the forwarded result for that factory. Dispatch to other implementations of the interface is not modelled.
- `SqlXmlReader` and the interfaces are not modelled.
- `SqlCommands` methods other than `BuildCommand` and the reader command are not modelled. `ExecuteNonQuery` (SqlCommands.cs:40-55) and `ExecuteDataTable` (173-188) have the same cleanup of a possibly null command as `Execute<T>` in `Commands`, the second finding below. They open and close nothing, so only the commands they build are modelled.
- `DataAccess` classes, `DataAccessFactory` and the `SqlExtensions` helpers are outside the core and are not modelled.
- `CommandTypeDecider.GetCommandType`: `Split` is called without options, so empty pieces count. Text with only one separator at an end, like `"Foo "`, is `Text`, as in the source.

## Findings

| source | as written | input that shows it | evidently intended | confidence | as-written member | corrected member |
|---|---|---|---|---|---|---|
| ADO.Net.DataAccessLayer/SqlServer/SqlDataAccess.cs:441-444 | `Create(name, type, value, size, precision, direction)` forwards to the factory overload without `precision`, so the precision is dropped | `Create("@P", DbType.Decimal, v, 10, 3, Input)` yields precision 0 | forward to the factory's overload with precision, so the parameter has precision 3 | not executed | SqlDataAccess.SqlDataAccess.CreateWithPrecisionAndDirectionAsWritten | SqlDataAccess.SqlDataAccess.CreateWithPrecisionAndDirection |
| ADO.Net.DataAccessLayer/SqlServer/Commands.cs:256-271 | the `finally` block calls `cmd.Parameters.Clear()` on the command the inner `Execute<T>` returns, which is null when the client threw | any client exception during execution, e.g. a deadlock (error 1205), reaches the caller as a `NullReferenceException` | clean up only a non-null command, so the client's exception propagates | not executed | Commands.Commands.ExecuteAsWritten | Commands.Commands.Execute |
| ADO.Net.DataAccessLayer/SqlServer/SqlDataAccess.cs:79-101 | `ExecuteNonQuery(out cmd, ...)` opens a new local connection but builds the command on the field `databaseConnection`, and its `finally` calls `SafelyCloseConnection` | outside a transaction on a fresh instance, `ExecuteNonQuery("AddToTestTable")` fails with a `NullReferenceException` (the client first refuses the command on a null connection) | open and close the connection in use, as `ExecuteDataTable` does, so the command runs and its result is returned | not executed | SqlDataAccess.SqlDataAccess.ExecuteNonQueryAsWritten | SqlDataAccess.SqlDataAccess.ExecuteNonQuery |
| ADO.Net.DataAccessLayer/SqlServer/SqlCommandType.cs:13-94 | the table is looked up under the caller's connection string (line 15) but registered under `connection.ConnectionString` of the opened connection (line 85) | a connection string with a password, Persist Security Info off: the first `new SqlCommandType(cs)` registers the stripped string; the second misses the cache, populates again, and `cacheData.Add` throws an `ArgumentException` on the duplicate key | register under the string it is looked up by, so a second construction reuses the table | not executed | CommandTypeCache.ConstructTwiceAsWritten | CommandTypeCache.NewSqlCommandType |
