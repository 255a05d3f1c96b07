# sqltool core: datasource registry, dialect resolution, per-thread transactions

A Dafny model of three pieces of the sqltool JDBC layer, with proofs of what
they promise.

- **`BasicDao` construction** (`basic_dao.dfy`, module `Dao`). The
  constructor reads a flat configuration table. It keeps the keys that match
  `^sqltool\.datasource\.([\S]+\.){0,1}[^\.]+$`, cuts each kept key into a
  datasource name and a parameter, and groups the parameters by name. It then
  picks the default group: `"default"` if that group exists, otherwise the
  group named by the first matching key. Finally it creates one datasource
  per group and caches each datasource's dialect. Also modelled:
  `getDataSource`, `getDefaultDataSource`, and the `sqltool.showSql` and
  `sqltool.defaultBatchSize` settings (false and 500 when absent).
  - `BasicDao` is a class whose fields the constructor fills.
  - The grouping loop and the registration loop are `while` loops.
  - `Construct` is a function of the whole constructor. The loops are proved
    against it.
  - The configuration table is a sequence of entries in its iteration order.
  - The order in which the registration loop visits the remaining groups is
    left open. The loop picks any unregistered name each time.
- **`SQLDialectUtils.getSQLDialect`** (`sql_dialect_utils.dfy`). Only the
  `url` option is read.
  - A url containing `mysql` (case-sensitive) gives the MySQL dialect.
  - Any other url throws `NosuitableSQLDialectExeption`, whose message is a
    fixed prefix followed by the url.
  - A missing url throws a `NullPointerException` from `concat(null)`.
- **`CustomTransactionExecutor`** (`custom_transaction_executor.dfy`, module
  `Transaction`). A thread has two static thread-local slots: the current
  connection and the current dialect. They are modelled as a `ThreadHolders`
  object that every transaction method receives.
  - `beginTransaction` binds the dialect before it touches the driver. It
    then loads the driver class, opens a connection, switches auto-commit
    off and binds the connection.
  - `commit` closes and unbinds the connection even when the JDBC commit
    throws. It leaves the dialect bound.
  - `rollback` closes the connection and clears both slots, even when the
    JDBC rollback throws.
  - Without a bound connection, both `commit` and `rollback` throw
    `IllegalCallException` and change nothing.
  - A successful `beginTransaction` while a connection is already bound
    replaces that connection without closing it.
  - The CRUD methods are modelled only up to the point where they call the
    execution utilities (`Route`): which slot they read, whether they go
    through the `getCurrentConnection` guard, and the early `return 0` of the
    batch saves on an empty list.

JDBC and the datasource factory are not modelled. Their outcomes are
parameters:

- `creates` says which property groups `DataSourceFactory.createDataSource`
  accepts.
- `classes` is the set of loadable driver classes.
- `connectFails`, `autoCommitFails`, `commitFails` and `rollbackFails` stand
  for the `SQLException`s the driver may throw.

Two places where the code does not enforce what its own comments require or describe:

- **Only `execute` and `executeUpdate` check for a transaction.**
  - The Javadoc of every data operation of `CustomTransactionExecutor`,
    except the two `delete` overloads (lines 229-256), tells the caller to
    call `beginTransaction` first (`CustomTransactionExecutor.java:101`,
    `259`, `312`, `366` and the others). That is a requirement on callers.
    The code enforces it for `execute` and `executeUpdate` only.
  - The only calls to `getCurrentConnection` from a data operation are at
    lines 466 and 472. Those are the private helpers behind `execute` and
    `executeUpdate`.
  - The DSQL `get` and `select` (lines 289-363) do not check, and neither
    does any other operation. They hand the connection slot to the execution
    utilities, even when it is null (`OnlyExecuteIsGuarded`,
    `UnguardedOperationsPassHolder`).
  - After a `commit`, a single-entity `save` is therefore still handed on,
    with a null connection. After a `rollback` it fails on the null dialect
    instead (`SaveAfterCommitAndRollback`).
- **A named datasource cannot be built.**
  - The only check on the configuration is the empty-groups test at
    `BasicDao.java:76-78`.
  - The comment at line 81 describes using the first datasource as the
    default when there is no `"default"` group. Together these say that a
    table holding only named datasources should build.
  - Line 61 defeats this: every group other than `"default"` fails dialect
    resolution (see Findings). So a successful construction always has
    exactly one group, named `"default"` (`OnlyDefaultGroupInitialises`).

## Model

| member | source | states |
|---|---|---|
| SQLDialectUtils.Contains | src/main/java/cn/tenmg/sqltool/utils/SQLDialectUtils.java:19 | `url.contains("mysql")` as a left-to-right scan: it never finds a substring longer than the string, and it finds one that starts the string; characterised by `ContainsIff` |
| SQLDialectUtils.ContainsIff | src/main/java/cn/tenmg/sqltool/utils/SQLDialectUtils.java:19 | the left-to-right scan behind `String.contains` answers true exactly when the substring occurs at some index |
| SQLDialectUtils.ContainsNeedsFirstChar | src/main/java/cn/tenmg/sqltool/utils/SQLDialectUtils.java:19 | a string without the first character of the substring does not contain it |
| SQLDialectUtils.GetSQLDialect | src/main/java/cn/tenmg/sqltool/utils/SQLDialectUtils.java:17-24 | a dialect is returned only when `url` is present, and it is the MySQL dialect; without `url` the result is a NullPointerException |
| SQLDialectUtils.GetSQLDialectSpec | src/main/java/cn/tenmg/sqltool/utils/SQLDialectUtils.java:18-22 | MySQL is returned if and only if `url` is present and contains "mysql"; a present url without it fails with the fixed prefix followed by the url |
| SQLDialectUtils.MessageNamesUrl | src/main/java/cn/tenmg/sqltool/utils/SQLDialectUtils.java:22 | the no-suitable-dialect message is exactly the prefix followed by the rejected url |
| SQLDialectUtils.OnlyUrlConsulted | src/main/java/cn/tenmg/sqltool/utils/SQLDialectUtils.java:18 | option maps that agree on `url` give the same dialect or the same error |
| SQLDialectUtils.CaseSensitiveMatch | src/main/java/cn/tenmg/sqltool/utils/SQLDialectUtils.java:19 | a url spelling "MySQL" is rejected |
| Dao.GetProperty | src/main/java/cn/tenmg/sqltool/dao/BasicDao.java:46-47 | the lookup is absent exactly when no entry has the key, and a found value belongs to an entry with that key |
| Dao.ParseBoolean | src/main/java/cn/tenmg/sqltool/dao/BasicDao.java:46 | `Boolean.valueOf` is true exactly for the four letters of "true" in any case |
| Dao.ParseInt | src/main/java/cn/tenmg/sqltool/dao/BasicDao.java:47 | `Integer.valueOf` yields only 32-bit values and rejects the empty string and a lone sign |
| Dao.ShowSqlSetting | src/main/java/cn/tenmg/sqltool/dao/BasicDao.java:46 | showSql is false when `sqltool.showSql` is absent, and true only when it is present |
| Dao.BatchSizeSetting | src/main/java/cn/tenmg/sqltool/dao/BasicDao.java:47 | the batch size is 500 when `sqltool.defaultBatchSize` is absent; the only failure is NumberFormatException |
| Dao.DefaultBatchSizeParses | src/main/java/cn/tenmg/sqltool/dao/BasicDao.java:35-47 | the default text "500" parses to the field's initial value 500 |
| Dao.IndexOf | src/main/java/cn/tenmg/sqltool/dao/BasicDao.java:58 | `indexOf` returns -1 exactly when the character is absent, otherwise an index holding it with no earlier occurrence |
| Dao.LastIndexOf | src/main/java/cn/tenmg/sqltool/dao/BasicDao.java:21-23 | the last index of the dot, or -1 when there is none; no dot follows it |
| Dao.RemainderMatches | src/main/java/cn/tenmg/sqltool/dao/BasicDao.java:21-23 | the pattern after the prefix, decided at the last dot: an accepted remainder is non-empty and does not end in a dot; characterised by `RemainderMatchesIff` |
| Dao.RemainderMatchesIff | src/main/java/cn/tenmg/sqltool/dao/BasicDao.java:21-23 | the check at the last dot accepts exactly the remainders the pattern's two alternatives describe |
| Dao.IsDatasourceKey | src/main/java/cn/tenmg/sqltool/dao/BasicDao.java:56 | `key.matches(DATASOURCE_REGEX)`: an accepted key is the prefix followed by at least one character; `PrefixedKey` reduces it to `RemainderMatches` |
| Dao.SplitKey | src/main/java/cn/tenmg/sqltool/dao/BasicDao.java:57-64 | with a dot past index 0, the name is the dot-free text before the first dot and the parameter is the rest, dot included; otherwise the name is "default" and the parameter is the whole remainder |
| Dao.Contribution | src/main/java/cn/tenmg/sqltool/dao/BasicDao.java:56-64 | an entry contributes a (name, parameter) pair exactly when its key matches; the parameter is never empty, and for a name other than "default" it starts with a dot |
| Dao.PrefixedKey | src/main/java/cn/tenmg/sqltool/dao/BasicDao.java:56-57 | a key that starts with the prefix matches exactly when its remainder does, and `substring(19)` gives that remainder back |
| Dao.FirstDotAfterName | src/main/java/cn/tenmg/sqltool/dao/BasicDao.java:58 | in `name.param` with a dot-free name, the first dot is the one right after the name |
| Dao.KeyWithoutDotIsDefault | src/main/java/cn/tenmg/sqltool/dao/BasicDao.java:57-64 | a matching key whose remainder has no dot is a parameter of "default" named by the whole remainder |
| Dao.NamedRemainderMatches | src/main/java/cn/tenmg/sqltool/dao/BasicDao.java:21-23 | `name.param` with a whitespace-free name and a dot-free parameter matches the pattern |
| Dao.NamedRemainderSplits | src/main/java/cn/tenmg/sqltool/dao/BasicDao.java:58-61 | `name.param` is cut into `name` and `.param` |
| Dao.KeyWithNameKeepsDot | src/main/java/cn/tenmg/sqltool/dao/BasicDao.java:56-62 | `sqltool.datasource.a.url` contributes parameter `.url` to datasource `a` |
| Dao.PutParam | src/main/java/cn/tenmg/sqltool/dao/BasicDao.java:68-73 | `get` or create the group, then `put`: the group of the name now maps the parameter to the value, its other parameters are kept, and every other group is unchanged |
| Dao.GroupBy | src/main/java/cn/tenmg/sqltool/dao/BasicDao.java:52-75 | the grouping loop for any classification of keys: every group it creates holds at least one parameter; characterised by `GroupKeys`, `GroupParams` and `GroupValue` |
| Dao.FirstNameBy | src/main/java/cn/tenmg/sqltool/dao/BasicDao.java:65-67 | `firstName` is null exactly when no group was created, and otherwise names one of the groups; characterised by `FirstNameSpec` |
| Dao.Group | src/main/java/cn/tenmg/sqltool/dao/BasicDao.java:52-75 | the groups the constructor's first loop builds: none is empty |
| Dao.FirstName | src/main/java/cn/tenmg/sqltool/dao/BasicDao.java:52-75 | the constructor's `firstName`: null exactly when there are no groups, otherwise a group's name |
| Dao.GroupKeys | src/main/java/cn/tenmg/sqltool/dao/BasicDao.java:52-75 | a group exists exactly for the names some entry contributes to |
| Dao.GroupParams | src/main/java/cn/tenmg/sqltool/dao/BasicDao.java:68-73 | a group holds a parameter exactly when some entry contributes that (name, parameter) pair |
| Dao.GroupValue | src/main/java/cn/tenmg/sqltool/dao/BasicDao.java:73 | a parameter's value is that of the last entry contributing it |
| Dao.IgnoredEntryDropped | src/main/java/cn/tenmg/sqltool/dao/BasicDao.java:56 | an entry that contributes nothing can be removed without changing the groups |
| Dao.NonMatchingKeyIgnored | src/main/java/cn/tenmg/sqltool/dao/BasicDao.java:56 | a key that does not match the pattern changes no group |
| Dao.FirstNameSpec | src/main/java/cn/tenmg/sqltool/dao/BasicDao.java:65-67 | `firstName` is null exactly when nothing contributes, and otherwise is the name of the first contributing entry |
| Dao.GroupEmptyIff | src/main/java/cn/tenmg/sqltool/dao/BasicDao.java:65-84 | there are no groups exactly when no key matches; otherwise `firstName` names one of the groups |
| Dao.NamedParamsKeepDot | src/main/java/cn/tenmg/sqltool/dao/BasicDao.java:59-61 | every parameter of a group other than "default" starts with a dot |
| Dao.DefaultNameOf | src/main/java/cn/tenmg/sqltool/dao/BasicDao.java:79-84 | "default" whenever that group exists; any other choice is `firstName`; a `firstName` that names a group gives a registered name |
| Dao.RegisteredAdd | src/main/java/cn/tenmg/sqltool/dao/BasicDao.java:95 | registering one more group adds exactly its datasource under its name |
| Dao.DialectsAfterAdd | src/main/java/cn/tenmg/sqltool/dao/BasicDao.java:88-96 | caching the dialect of a newly registered datasource keeps the cache equal to "MySQL for every registered datasource" |
| Dao.ConstructBy | src/main/java/cn/tenmg/sqltool/dao/BasicDao.java:37-101 | the constructor for any classification of keys: success registers exactly the group names, including the default name; IllegalConfigException exactly when the batch size parses and no group exists |
| Dao.Construct | src/main/java/cn/tenmg/sqltool/dao/BasicDao.java:37-101 | the constructor as written: success registers exactly the names of `Group`, the default name among them; characterised by `NoDatasourceKeyFails`, `InitialisationFailureWrapped`, `ConstructedRegistry` and `ConstructedDefault` |
| Dao.NoDatasourceKeyFails | src/main/java/cn/tenmg/sqltool/dao/BasicDao.java:76-78 | with no matching key, construction fails with IllegalConfigException and its message |
| Dao.InitialisationFailureWrapped | src/main/java/cn/tenmg/sqltool/dao/BasicDao.java:85-100 | any group whose creation or dialect resolution fails makes construction fail with InitializeDataSourceException |
| Dao.ConstructedRegistry | src/main/java/cn/tenmg/sqltool/dao/BasicDao.java:86-97 | after success, the registered names are exactly the group names, each with its own group's datasource |
| Dao.ConstructedDefaultBy | src/main/java/cn/tenmg/sqltool/dao/BasicDao.java:65-87 | for any classification, the default name is registered; it is "default" when some entry names that datasource, and otherwise the name of the first contributing entry |
| Dao.ConstructedDefault | src/main/java/cn/tenmg/sqltool/dao/BasicDao.java:65-87 | `ConstructedDefaultBy` for the keys as written: the default name is registered and is "default" when some key names that datasource; the first-matching-key fallback is stated too, but as written it never applies, since success leaves only the "default" group (`OnlyDefaultGroupInitialises`) |
| Dao.OnlyDefaultGroupInitialises | src/main/java/cn/tenmg/sqltool/dao/BasicDao.java:61-96 | as written, a successful construction has the single group "default", which is also the default name |
| Dao.SingleEntryGroup | src/main/java/cn/tenmg/sqltool/dao/BasicDao.java:52-75 | a single contributing entry makes one group holding one parameter, and names `firstName` |
| Dao.DatasourceKeyKeepsDefaultBatchSize | src/main/java/cn/tenmg/sqltool/dao/BasicDao.java:46-47 | a table holding only a datasource key keeps the batch size 500 and showSql false |
| Dao.SingleNamedKeyRejected | src/main/java/cn/tenmg/sqltool/dao/BasicDao.java:61-100 | as written, a table whose only key is `sqltool.datasource.<name>.<param>` fails with InitializeDataSourceException, whatever the value |
| Dao.NamedDatasourceRejected | src/main/java/cn/tenmg/sqltool/dao/BasicDao.java:61-99 | as written, `sqltool.datasource.a.url=jdbc:mysql://localhost/db` alone fails to construct |
| Dao.SplitKeyIntended | src/main/java/cn/tenmg/sqltool/dao/BasicDao.java:57-64 | with the intended `substring(index + 1)`, a remainder without a dot past index 0 still goes to "default" whole |
| Dao.IntendedSplitRoundTrip | src/main/java/cn/tenmg/sqltool/dao/BasicDao.java:58-61 | with the intended split, `name.param` is cut back into exactly `name` and `param` |
| Dao.IntendedKeyKeepsParam | src/main/java/cn/tenmg/sqltool/dao/BasicDao.java:56-73 | with the intended split, `sqltool.datasource.<name>.<param>` puts `param` itself into group `name` |
| Dao.IntendedNamedDatasourceResolves | src/main/java/cn/tenmg/sqltool/dao/BasicDao.java:61-96 | with the intended split, a named datasource with a MySQL url resolves the MySQL dialect |
| Dao.IntendedNamedDatasourceConstructs | src/main/java/cn/tenmg/sqltool/dao/BasicDao.java:37-101 | with the intended split, that single-key table constructs, registers the datasource under its name and makes it the default |
| Dao.ConstructSingleGroup | src/main/java/cn/tenmg/sqltool/dao/BasicDao.java:76-97 | a table with one initialisable group registers exactly that group, as default, with the default settings |
| Dao.BasicDao.constructor | src/main/java/cn/tenmg/sqltool/dao/BasicDao.java:27-35 | the field initialisers: no datasources, no default, batch size 500 |
| Dao.BasicDao.GetDataSource | src/main/java/cn/tenmg/sqltool/dao/BasicDao.java:118-120 | `getDataSource` is non-null exactly for registered names |
| Dao.BasicDao.GetDefaultDataSource | src/main/java/cn/tenmg/sqltool/dao/BasicDao.java:113-115 | `getDefaultDataSource()` reads the field; `DefaultIsRegistered` states what it returns in a constructed registry |
| Dao.BasicDao.DefaultIsRegistered | src/main/java/cn/tenmg/sqltool/dao/BasicDao.java:86-120 | in a constructed registry, `getDefaultDataSource()` is non-null and equals `getDataSource(defaultName)` |
| Dao.BasicDao.GroupConfigs | src/main/java/cn/tenmg/sqltool/dao/BasicDao.java:48-75 | the first loop builds exactly the groups and the `firstName` of its specification |
| Dao.BasicDao.RegisteredAll | src/main/java/cn/tenmg/sqltool/dao/BasicDao.java:85-97 | once no group is pending, the registry is exactly one datasource per group and every group could be initialised |
| Dao.BasicDao.CreateAndRegister | src/main/java/cn/tenmg/sqltool/dao/BasicDao.java:86-96 | one step succeeds exactly when the group's datasource is created and its dialect resolved, and then registers it and caches its dialect |
| Dao.BasicDao.Register | src/main/java/cn/tenmg/sqltool/dao/BasicDao.java:85-100 | the `try` block succeeds exactly when every group initialises, leaving one datasource per group, the dialect cache, and the default datasource set |
| Dao.BasicDao.Build | src/main/java/cn/tenmg/sqltool/dao/BasicDao.java:37-105 | `build` fails with exactly the error of the constructor's specification, or returns a new registry holding the specified configuration |
| Transaction.Connection.constructor | src/main/java/cn/tenmg/sqltool/transaction/CustomTransactionExecutor.java:89 | a new connection is open and in auto-commit mode |
| Transaction.Connection.SetAutoCommit | src/main/java/cn/tenmg/sqltool/transaction/CustomTransactionExecutor.java:90 | auto-commit takes the new value unless the driver throws |
| Transaction.Connection.Commit | src/main/java/cn/tenmg/sqltool/transaction/CustomTransactionExecutor.java:447 | the connection is committed unless the driver throws |
| Transaction.Connection.Rollback | src/main/java/cn/tenmg/sqltool/transaction/CustomTransactionExecutor.java:431 | the connection is rolled back unless the driver throws |
| Transaction.Connection.Close | src/main/java/cn/tenmg/sqltool/transaction/CustomTransactionExecutor.java:435-451 | `JDBCUtils.close` leaves the connection closed |
| Transaction.ThreadHolders.constructor | src/main/java/cn/tenmg/sqltool/transaction/CustomTransactionExecutor.java:46 | a thread starts with neither a connection nor a dialect bound |
| Transaction.GetCurrentConnection | src/main/java/cn/tenmg/sqltool/transaction/CustomTransactionExecutor.java:481-487 | the guard returns the bound connection, and throws IllegalCallException with its message exactly when none is bound |
| Transaction.BeginOutcome | src/main/java/cn/tenmg/sqltool/transaction/CustomTransactionExecutor.java:84-98 | what `beginTransaction` ends with: never IllegalCallException; any failure other than the dialect's comes after the dialect was resolved; success needs a loadable driver class; characterised by `BeginSucceedsIff` |
| Transaction.BeginSucceedsIff | src/main/java/cn/tenmg/sqltool/transaction/CustomTransactionExecutor.java:84-98 | a transaction begins exactly when the url contains "mysql", the driver option names a loadable class, and neither connecting nor switching off auto-commit throws |
| Transaction.MissingDriverEscapes | src/main/java/cn/tenmg/sqltool/transaction/CustomTransactionExecutor.java:88-97 | a MySQL url without a driver option ends in an uncaught NullPointerException |
| Transaction.DialectCheckedFirst | src/main/java/cn/tenmg/sqltool/transaction/CustomTransactionExecutor.java:85 | a dialect failure is the outcome whatever the driver would have done |
| Transaction.CustomTransactionExecutor.constructor | src/main/java/cn/tenmg/sqltool/transaction/CustomTransactionExecutor.java:48-52 | no DSQL factory, showSql true, batch size 500 |
| Transaction.CustomTransactionExecutor.SetDSQLFactory | src/main/java/cn/tenmg/sqltool/transaction/CustomTransactionExecutor.java:58-60 | the factory is set and nothing else changes |
| Transaction.CustomTransactionExecutor.BeginTransaction | src/main/java/cn/tenmg/sqltool/transaction/CustomTransactionExecutor.java:84-98 | the outcome is that of `BeginOutcome`. A dialect failure leaves both slots unchanged; every later failure leaves the dialect bound and the connection slot unchanged; success binds a new open connection with auto-commit off. A connection that fails to switch off auto-commit is closed |
| Transaction.CustomTransactionExecutor.Commit | src/main/java/cn/tenmg/sqltool/transaction/CustomTransactionExecutor.java:444-454 | without a connection, IllegalCallException and nothing changes. Otherwise the connection is committed unless the driver throws, then closed and unbound either way, and the dialect stays bound |
| Transaction.CustomTransactionExecutor.Rollback | src/main/java/cn/tenmg/sqltool/transaction/CustomTransactionExecutor.java:428-439 | without a connection, IllegalCallException and nothing changes. Otherwise the connection is rolled back unless the driver throws, then closed, and both slots are cleared either way |
| Transaction.Route | src/main/java/cn/tenmg/sqltool/transaction/CustomTransactionExecutor.java:109-479 | each data operation up to the execution utilities: an early return is 0; a handed-on connection is the bound one; IllegalCallException only when none is bound; no other error than it and NullPointerException; characterised by `OnlyExecuteIsGuarded`, `UnguardedOperationsPassHolder`, `EmptyBatchSaveReturnsZero` and `BoundTransactionDelegates` |
| Transaction.OnlyExecuteIsGuarded | src/main/java/cn/tenmg/sqltool/transaction/CustomTransactionExecutor.java:376-487 | with no connection bound, exactly `execute` and `executeUpdate` raise IllegalCallException |
| Transaction.UnguardedOperationsPassHolder | src/main/java/cn/tenmg/sqltool/transaction/CustomTransactionExecutor.java:109-363 | every other operation raises nothing but a NullPointerException and hands on the bound connection as it is, null included |
| Transaction.EmptyBatchSaveReturnsZero | src/main/java/cn/tenmg/sqltool/transaction/CustomTransactionExecutor.java:171-227 | an operation returns early exactly when it is a batch save or hard save on an empty list, and then it returns 0 |
| Transaction.BoundTransactionDelegates | src/main/java/cn/tenmg/sqltool/transaction/CustomTransactionExecutor.java:109-479 | inside a transaction every operation that does not return early runs on the bound connection; the dialect goes along exactly for the save family |
| Transaction.SaveAfterCommitAndRollback | src/main/java/cn/tenmg/sqltool/transaction/CustomTransactionExecutor.java:139-227 | after a commit, a single save is handed on with a null connection; after a rollback it fails on the null dialect; a batch hard save is handed a null dialect |

## Left out

- `XMLFileDSQLFactory` construction from `sqltool.basePackages` and `sqltool.suffix`, and `getDSQLFactory`: the DSQL factory is an external component. In the executor, only whether a factory has been set is kept.
- `DataSourceFactory.createDataSource`: replaced by the `creates` parameter. A datasource is the value of its property group, so two groups with equal properties share one dialect-cache entry, where Java would have two pool objects.
- `cacheSQLDialect` lives in `AbstractDao`, whose source is not part of this model. It is taken to be an insertion into a datasource-to-dialect map that never throws: the `dialectCache` field.
- `isShowSql` and `getDefaultBatchSize` on the registry, and the executor's getters and its `setShowSql` and `setDefaultBatchSize`: plain field reads and writes. The fields themselves are modelled.
- `Properties` defaults chains and non-string values: the table is a plain sequence of string entries.
- Repeated keys: a real table has distinct keys. When the sequence repeats a key, the later entry plays the role of the table's value.
- Dao.ParseInt: accepts ASCII digits only, while `Integer.valueOf` also accepts other Unicode decimal digits.
- Dao.ParseBoolean: ignores case for ASCII letters only, while `equalsIgnoreCase` also folds some non-ASCII characters.
- The cause chains carried by the wrapped exceptions, and all logging: exceptions are reduced to their kind and message.
- Thread-local storage and threads: one thread's slots are an explicit `ThreadHolders` object. Executors on different threads never share it, so no concurrency is modelled.
- `DriverManager.getConnection`, the `user` and `password` options, and `Class.forName` beyond "loadable or not": these are the `classes`, `connectFails` and `autoCommitFails` parameters.
- Transaction.Connection.Commit: also Rollback, SetAutoCommit and Close. A failing JDBC call is modelled as changing nothing, and closing is modelled as never failing.
- `JDBCExecuteUtils`, the DML parsers, `EntityUtils`, the SQL dialect's statement generation, and `DSQLFactory.parse`/`toJDBC`: external. `Route` stops where an operation hands its connection and dialect to them.
- Transaction.Route: does not model null entity arguments, nor the row counts, entities and result sets that the execution utilities return.
- `DateResultGetter`: a single delegation to `ResultSet.getDate`, with no logic of its own.
- Java regular expressions in general: only the one datasource-key pattern is encoded, as a check at the key's last dot.

## Findings

| source | as written | input that shows it | evidently intended | confidence | as-written member | corrected member |
|---|---|---|---|---|---|---|
| src/main/java/cn/tenmg/sqltool/dao/BasicDao.java:61 | `param.substring(index)` keeps the dot, so a named datasource's options hold `.url`, `.driver` and so on. `getSQLDialect` then finds no `url`, and construction throws InitializeDataSourceException. | the table holding only `sqltool.datasource.a.url=jdbc:mysql://localhost/db` | `param.substring(index + 1)`, so that datasource `a` gets the option `url` | high, not executed | Dao.NamedDatasourceRejected | Dao.IntendedNamedDatasourceConstructs |

The registry itself (`Construct`, `Build`) keeps the as-written split, because
it models the code. The corrected split plugs into the same generic
constructor (`ConstructBy`, with `ContributionIntended`). Under it, the same
table constructs (`IntendedNamedDatasourceConstructs`) and a cut key gives
back its name and parameter (`IntendedSplitRoundTrip`). As written, every
successful construction has exactly one group, named "default"
(`OnlyDefaultGroupInitialises`).
