/**
  The custom transaction executor: one thread's transaction state, held in two
  thread-bound slots (the current JDBC connection and the current SQL dialect),
  driven by `beginTransaction`, `commit` and `rollback`, and the way each CRUD
  operation reaches (or does not reach) those slots.
*/
module Transaction {
  import opened Wrappers
  import SQLDialectUtils

  const DriverKey := "driver"
  const BeginFirstMessage := "You must call beginTransaction first before you call this method"
  const DefaultBatchSize := 500

  /** What the executor's transaction methods throw. */
  datatype TxError =
    | Dialect(cause: SQLDialectUtils.DialectError) // from getSQLDialect, before anything else
    | IllegalConfig                                // ClassNotFoundException of the driver class
    | SQLExecutor                                  // SQLException from the driver, wrapped
    | IllegalCall(message: string)                 // getCurrentConnection without a bound connection
    | NullPointer                                  // a null dereferenced on the way

  // ---------------------------------------------------------------------------
  // The JDBC connection, reduced to the state the executor changes

  class Connection {
    var autoCommit: bool
    var closed: bool
    var committed: bool
    var rolledBack: bool

    /** `DriverManager.getConnection`: a new open connection in auto-commit mode. */
    constructor ()
      ensures autoCommit && !closed && !committed && !rolledBack
    {
      autoCommit := true;
      closed := false;
      committed := false;
      rolledBack := false;
    }

    /** `setAutoCommit(value)`; `fails` stands for the SQLException the driver may throw. */
    method SetAutoCommit(value: bool, fails: bool) returns (ok: bool)
      modifies this
      ensures ok == !fails
      ensures autoCommit == if ok then value else old(autoCommit)
      ensures closed == old(closed) && committed == old(committed) && rolledBack == old(rolledBack)
    {
      ok := !fails;
      if ok {
        autoCommit := value;
      }
    }

    /** `commit()`; a failing commit changes nothing this model can see. */
    method Commit(fails: bool) returns (ok: bool)
      modifies this
      ensures ok == !fails
      ensures committed == (old(committed) || ok)
      ensures autoCommit == old(autoCommit) && closed == old(closed) && rolledBack == old(rolledBack)
    {
      ok := !fails;
      if ok {
        committed := true;
      }
    }

    /** `rollback()`; a failing rollback changes nothing this model can see. */
    method Rollback(fails: bool) returns (ok: bool)
      modifies this
      ensures ok == !fails
      ensures rolledBack == (old(rolledBack) || ok)
      ensures autoCommit == old(autoCommit) && closed == old(closed) && committed == old(committed)
    {
      ok := !fails;
      if ok {
        rolledBack := true;
      }
    }

    /** `JDBCUtils.close(con)`: the connection ends up closed; errors are swallowed. */
    method Close()
      modifies this
      ensures closed
      ensures autoCommit == old(autoCommit) && committed == old(committed) && rolledBack == old(rolledBack)
    {
      closed := true;
    }
  }

  // ---------------------------------------------------------------------------
  // One thread's holders

  /**
    The current thread's `CurrentConnectionHolder` slot and `currentSQLDialect`
    slot. Both are static thread-locals, so every executor used on the thread
    sees the same pair.
  */
  class ThreadHolders {
    var connection: Connection?
    var dialect: Option<SQLDialectUtils.SQLDialect>

    /** A thread that has never begun a transaction. */
    constructor ()
      ensures connection == null && dialect == None
    {
      connection := null;
      dialect := None;
    }

    /**
      A bound connection is open, has auto-commit off, and was bound together
      with a dialect.
    */
    ghost predicate Valid()
      reads this, connection
    {
      connection != null ==> !connection.closed && !connection.autoCommit && dialect.Some?
    }
  }

  /** `getCurrentConnection()`: the bound connection, or IllegalCallException. */
  function GetCurrentConnection(t: ThreadHolders): (r: Result<Connection, TxError>)
    reads t
    ensures r.Success? <==> t.connection != null
    ensures r.Success? ==> r.value == t.connection
    ensures r.Failure? ==> r.error == IllegalCall(BeginFirstMessage)
  {
    if t.connection == null then Failure(IllegalCall(BeginFirstMessage)) else Success(t.connection)
  }

  /**
    What `beginTransaction(options)` ends with, given which driver classes can be
    loaded and whether opening the connection or switching off auto-commit throws.
  */
  function BeginOutcome(options: map<string, string>, classes: set<string>,
                        connectFails: bool, autoCommitFails: bool): (r: Outcome<TxError>)
    ensures r.Fail? ==> !r.error.IllegalCall?
    ensures r.Fail? && !r.error.Dialect? ==> SQLDialectUtils.GetSQLDialect(options).Success?
    ensures r.Pass? ==> DriverKey in options && options[DriverKey] in classes
  {
    var dialect := SQLDialectUtils.GetSQLDialect(options);
    if dialect.Failure? then Fail(Dialect(dialect.error))
    else if DriverKey !in options then Fail(NullPointer)
    else if options[DriverKey] !in classes then Fail(IllegalConfig)
    else if connectFails || autoCommitFails then Fail(SQLExecutor)
    else Pass
  }

  /**
    A transaction begins exactly when the url names MySQL, the driver option is
    present and names a loadable class, and the driver neither fails to connect
    nor refuses to switch off auto-commit.
  */
  lemma BeginSucceedsIff(options: map<string, string>, classes: set<string>,
                         connectFails: bool, autoCommitFails: bool)
    ensures BeginOutcome(options, classes, connectFails, autoCommitFails) == Pass <==>
      && SQLDialectUtils.UrlKey in options
      && (exists i :: SQLDialectUtils.OccursAt(options[SQLDialectUtils.UrlKey], SQLDialectUtils.MySqlMarker, i))
      && DriverKey in options && options[DriverKey] in classes
      && !connectFails && !autoCommitFails
  {
    SQLDialectUtils.GetSQLDialectSpec(options);
  }

  /**
    A MySQL url without a driver option fails with a NullPointerException from
    `Class.forName(null)`, which neither catch clause handles.
  */
  lemma MissingDriverEscapes(options: map<string, string>, classes: set<string>,
                             connectFails: bool, autoCommitFails: bool)
    requires SQLDialectUtils.UrlKey in options
    requires exists i :: SQLDialectUtils.OccursAt(options[SQLDialectUtils.UrlKey], SQLDialectUtils.MySqlMarker, i)
    requires DriverKey !in options
    ensures BeginOutcome(options, classes, connectFails, autoCommitFails) == Fail(NullPointer)
  {
    SQLDialectUtils.GetSQLDialectSpec(options);
  }

  /** Dialect failures come first: the driver and the connection are never looked at. */
  lemma DialectCheckedFirst(options: map<string, string>, classes: set<string>, classes': set<string>,
                            connectFails: bool, autoCommitFails: bool, connectFails': bool, autoCommitFails': bool)
    requires BeginOutcome(options, classes, connectFails, autoCommitFails).Fail?
    requires BeginOutcome(options, classes, connectFails, autoCommitFails).error.Dialect?
    ensures BeginOutcome(options, classes', connectFails', autoCommitFails') ==
      BeginOutcome(options, classes, connectFails, autoCommitFails)
  {
  }

  // ---------------------------------------------------------------------------
  // The executor

  class CustomTransactionExecutor {
    /** Whether `setDSQLFactory` has given the executor a DSQL factory (null otherwise). */
    var hasDSQLFactory: bool
    var showSql: bool
    var defaultBatchSize: int

    /** The field initialisers. */
    constructor ()
      ensures !hasDSQLFactory && showSql && defaultBatchSize == DefaultBatchSize
    {
      hasDSQLFactory := false;
      showSql := true;
      defaultBatchSize := DefaultBatchSize;
    }

    /** `setDSQLFactory`: a non-null factory makes the DSQL operations usable. */
    method SetDSQLFactory(present: bool)
      modifies this
      ensures hasDSQLFactory == present
      ensures showSql == old(showSql) && defaultBatchSize == old(defaultBatchSize)
    {
      hasDSQLFactory := present;
    }

    /**
      `beginTransaction(options)`: bind the dialect, load the driver class, open
      a connection, switch off auto-commit and bind the connection.
      `newConnection` is the connection the driver handed out, if it got that far.
    */
    method BeginTransaction(t: ThreadHolders, options: map<string, string>, classes: set<string>,
                            connectFails: bool, autoCommitFails: bool)
      returns (r: Outcome<TxError>, ghost newConnection: Connection?)
      requires t.Valid()
      modifies t
      ensures r == BeginOutcome(options, classes, connectFails, autoCommitFails)
      ensures t.Valid()
      ensures r.Fail? && r.error.Dialect? ==> t.dialect == old(t.dialect)
      ensures !(r.Fail? && r.error.Dialect?) ==> t.dialect == Some(SQLDialectUtils.MySQLDialect)
      ensures r.Fail? ==> t.connection == old(t.connection)
      ensures r.Pass? ==> t.connection == newConnection
      ensures r.Pass? && old(t.connection) != null ==>
        t.connection != old(t.connection) && !old(t.connection).closed
      ensures newConnection != null <==> r.Pass? || (r == Fail(SQLExecutor) && !connectFails)
      ensures newConnection != null ==> fresh(newConnection) && (newConnection.closed <==> r.Fail?) && !newConnection.autoCommit == r.Pass?
    {
      newConnection := null;
      var dialect := SQLDialectUtils.GetSQLDialect(options);
      if dialect.Failure? {
        return Fail(Dialect(dialect.error)), newConnection;
      }
      t.dialect := Some(dialect.value);
      if DriverKey !in options {
        return Fail(NullPointer), newConnection;
      }
      if options[DriverKey] !in classes {
        return Fail(IllegalConfig), newConnection;
      }
      if connectFails {
        return Fail(SQLExecutor), newConnection;
      }
      var con := new Connection();
      newConnection := con;
      var ok := con.SetAutoCommit(false, autoCommitFails);
      if !ok {
        con.Close();
        return Fail(SQLExecutor), newConnection;
      }
      t.connection := con;
      r := Pass;
    }

    /**
      `commit()`: without a bound connection, IllegalCallException and nothing
      changes; otherwise commit, then close and unbind the connection whether or
      not the commit threw. The dialect stays bound.
    */
    method Commit(t: ThreadHolders, commitFails: bool) returns (r: Outcome<TxError>)
      requires t.Valid()
      modifies t, t.connection
      ensures t.Valid()
      ensures t.connection == null && t.dialect == old(t.dialect)
      ensures old(t.connection) == null ==> r == Fail(IllegalCall(BeginFirstMessage))
      ensures old(t.connection) != null ==>
        && old(t.connection).closed
        && r == (if commitFails then Fail(SQLExecutor) else Pass)
        && old(t.connection).committed == (old(t.connection.committed) || !commitFails)
        && old(t.connection).rolledBack == old(t.connection.rolledBack)
        && old(t.connection).autoCommit == old(t.connection.autoCommit)
    {
      var current := GetCurrentConnection(t);
      if current.Failure? {
        return Fail(current.error);
      }
      var con := current.value;
      var ok := con.Commit(commitFails);
      con.Close();
      t.connection := null;
      r := if ok then Pass else Fail(SQLExecutor);
    }

    /**
      `rollback()`: without a bound connection, IllegalCallException and nothing
      changes; otherwise roll back, then close the connection and unbind both the
      connection and the dialect whether or not the rollback threw.
    */
    method Rollback(t: ThreadHolders, rollbackFails: bool) returns (r: Outcome<TxError>)
      requires t.Valid()
      modifies t, t.connection
      ensures t.Valid()
      ensures old(t.connection) == null ==>
        r == Fail(IllegalCall(BeginFirstMessage)) && t.connection == null && t.dialect == old(t.dialect)
      ensures old(t.connection) != null ==>
        && t.connection == null && t.dialect == None
        && old(t.connection).closed
        && r == (if rollbackFails then Fail(SQLExecutor) else Pass)
        && old(t.connection).rolledBack == (old(t.connection.rolledBack) || !rollbackFails)
        && old(t.connection).committed == old(t.connection.committed)
        && old(t.connection).autoCommit == old(t.connection.autoCommit)
    {
      var current := GetCurrentConnection(t);
      if current.Failure? {
        return Fail(current.error);
      }
      var con := current.value;
      var ok := con.Rollback(rollbackFails);
      con.Close();
      t.connection := null;
      t.dialect := None;
      r := if ok then Pass else Fail(SQLExecutor);
    }
  }

  // ---------------------------------------------------------------------------
  // The CRUD operations, reduced to what they take from the holders

  /** The public data operations; `rows` is the size of the entity list passed in. */
  datatype Operation =
    | InsertOne | InsertAll(rows: nat)
    | SaveOne | SaveOneHard | SaveAll(rows: nat) | SaveAllHard(rows: nat)
    | HardSaveOne | HardSaveAll(rows: nat)
    | DeleteOne | DeleteAll(rows: nat)
    | GetOne | GetByDSQL | SelectOne | SelectByDSQL
    | ExecuteDSQL | ExecuteUpdateDSQL

  /** How the executor passes the current dialect on, if at all. */
  datatype DialectUse = Unused | Passes(dialect: Option<SQLDialectUtils.SQLDialect>)

  /** What an operation does with the thread's holders before the execution utilities run. */
  datatype Dispatch =
    | Returns(count: int)                              // early return, nothing executed
    | Raises(error: TxError)
    | Delegates(connection: Connection?, dialect: DialectUse) // handed on, the connection possibly null

  /** The save family (soft, partly hard and hard) on entity lists. */
  predicate IsBatchSave(op: Operation) {
    op.SaveAll? || op.SaveAllHard? || op.HardSaveAll?
  }

  /**
    The body of each operation up to the call into the execution utilities,
    given the bound connection, the bound dialect and whether a DSQL factory was set.
  */
  function Route(op: Operation, con: Connection?, dialect: Option<SQLDialectUtils.SQLDialect>,
                 hasDSQLFactory: bool): (d: Dispatch)
    ensures d.Returns? ==> d.count == 0
    ensures d.Delegates? ==> d.connection == con
    ensures d.Raises? && d.error.IllegalCall? ==> con == null
    ensures d.Raises? ==> d.error == NullPointer || d.error == IllegalCall(BeginFirstMessage)
  {
    match op
    case InsertOne | InsertAll(_) | DeleteOne | DeleteAll(_) | GetOne | SelectOne =>
      Delegates(con, Unused)
    case GetByDSQL | SelectByDSQL =>
      if !hasDSQLFactory then Raises(NullPointer) else Delegates(con, Unused)
    case ExecuteDSQL | ExecuteUpdateDSQL =>
      if !hasDSQLFactory then Raises(NullPointer)
      else if con == null then Raises(IllegalCall(BeginFirstMessage))
      else Delegates(con, Unused)
    case SaveOne | SaveOneHard | HardSaveOne =>
      if dialect.None? then Raises(NullPointer) else Delegates(con, Passes(dialect))
    case SaveAll(rows) =>
      if rows == 0 then Returns(0)
      else if dialect.None? then Raises(NullPointer) else Delegates(con, Passes(dialect))
    case SaveAllHard(rows) =>
      if rows == 0 then Returns(0)
      else if dialect.None? then Raises(NullPointer) else Delegates(con, Passes(dialect))
    case HardSaveAll(rows) =>
      if rows == 0 then Returns(0) else Delegates(con, Passes(dialect))
  }

  /**
    Only `execute` and `executeUpdate` go through `getCurrentConnection`: with a
    DSQL factory set and no connection bound, exactly these two raise
    IllegalCallException.
  */
  lemma OnlyExecuteIsGuarded(op: Operation, dialect: Option<SQLDialectUtils.SQLDialect>)
    ensures Route(op, null, dialect, true) == Raises(IllegalCall(BeginFirstMessage)) <==>
      op.ExecuteDSQL? || op.ExecuteUpdateDSQL?
  {
  }

  /** Every other operation hands on whatever connection is bound, null included. */
  lemma UnguardedOperationsPassHolder(op: Operation, con: Connection?, dialect: Option<SQLDialectUtils.SQLDialect>,
                                      hasDSQLFactory: bool)
    requires !op.ExecuteDSQL? && !op.ExecuteUpdateDSQL?
    ensures Route(op, con, dialect, hasDSQLFactory).Raises? ==>
      Route(op, con, dialect, hasDSQLFactory).error == NullPointer
    ensures Route(op, con, dialect, hasDSQLFactory).Delegates? ==>
      Route(op, con, dialect, hasDSQLFactory).connection == con
  {
  }

  /**
    The batch saves on an empty list return 0 without looking at either holder,
    and they are the only operations that return early.
  */
  lemma EmptyBatchSaveReturnsZero(op: Operation, con: Connection?, dialect: Option<SQLDialectUtils.SQLDialect>,
                                  hasDSQLFactory: bool)
    ensures Route(op, con, dialect, hasDSQLFactory).Returns? <==> IsBatchSave(op) && op.rows == 0
    ensures Route(op, con, dialect, hasDSQLFactory).Returns? ==> Route(op, con, dialect, hasDSQLFactory).count == 0
  {
  }

  /**
    Inside a transaction (connection and dialect bound, factory set) every
    operation that does not return early runs on the bound connection, and the
    dialect goes along exactly for the save family.
  */
  lemma BoundTransactionDelegates(op: Operation, con: Connection, d: SQLDialectUtils.SQLDialect)
    requires !(IsBatchSave(op) && op.rows == 0)
    ensures Route(op, con, Some(d), true).Delegates?
    ensures Route(op, con, Some(d), true).connection == con
    ensures Route(op, con, Some(d), true).dialect.Passes? <==>
      IsBatchSave(op) || op.SaveOne? || op.SaveOneHard? || op.HardSaveOne?
  {
  }

  /**
    The commit/rollback asymmetry seen by a single-entity save: after a commit
    (connection unbound, dialect still bound) the save is handed on with a null
    connection; after a rollback (both unbound) it dies on the null dialect.
  */
  lemma SaveAfterCommitAndRollback(d: SQLDialectUtils.SQLDialect, hasDSQLFactory: bool)
    ensures Route(SaveOne, null, Some(d), hasDSQLFactory) == Delegates(null, Passes(Some(d)))
    ensures Route(SaveOne, null, None, hasDSQLFactory) == Raises(NullPointer)
    ensures Route(HardSaveAll(1), null, None, hasDSQLFactory) == Delegates(null, Passes(None))
  {
  }
}
