/** `SqlDataAccess`: the self-contained data-access class of the `ADO.Net.DataAccessLayer`
    tree. It keeps its own client connection and transaction: a transaction keeps the
    connection open across commands, and committing or rolling back closes it. Its
    `Create` overloads forward to the parameter factory it was given. */
module SqlDataAccess {
  import opened Wrappers
  import opened SqlTypes
  import opened Driver
  import opened CommandBuilding
  import ParameterFactory

  class SqlDataAccess {
    const connectionString: string
    const parameterFactory: ParameterFactory.SqlParameterFactory
    var databaseConnection: SqlConnection?
    var currentTransaction: SqlTransaction?
    /** `CommandTimeOut`, in seconds; 0 (the default) or less means "keep the client's". */
    var commandTimeOut: int32

    constructor (connectionString: string, parameterFactory: ParameterFactory.SqlParameterFactory)
      ensures this.connectionString == connectionString && this.parameterFactory == parameterFactory
      ensures databaseConnection == null && currentTransaction == null && commandTimeOut == 0
    {
      this.connectionString := connectionString;
      this.parameterFactory := parameterFactory;
      databaseConnection, currentTransaction, commandTimeOut := null, null, 0;
    }

    /** While a transaction is held it is still running, on the connection in use, which
        is open. */
    ghost predicate Valid()
      reads this, databaseConnection, currentTransaction
    {
      currentTransaction != null ==>
        && currentTransaction.status == Pending
        && databaseConnection == currentTransaction.connection
        && IsOpen()
    }

    predicate IsOpen()
      reads this, databaseConnection
    {
      databaseConnection != null && databaseConnection.state == ConnectionState.Open
    }

    /** `SafelyCloseConnection`: closes and disposes the connection in use unless a
        transaction is held; a missing connection makes it throw a
        `NullReferenceException`. */
    method SafelyCloseConnection() returns (outcome: Outcome<Error>)
      modifies databaseConnection
      ensures currentTransaction != null ==> outcome == Pass && (databaseConnection != null ==> unchanged(databaseConnection))
      ensures currentTransaction == null && databaseConnection == null ==> outcome == Fail(NullReference)
      ensures currentTransaction == null && databaseConnection != null ==>
        outcome == Pass && databaseConnection.state == Closed && databaseConnection.disposed
    {
      outcome := Pass;
      if currentTransaction == null {
        if databaseConnection == null {
          outcome := Fail(NullReference);
          return;
        }
        databaseConnection.Close();
        databaseConnection.Dispose();
      }
    }

    /** `SafelyOpenConnection`: keeps an open connection, otherwise replaces it with a new
        one on the stored connection string and opens that. */
    method SafelyOpenConnection()
      modifies this
      ensures old(IsOpen()) ==> databaseConnection == old(databaseConnection)
      ensures !old(IsOpen()) ==>
        && fresh(databaseConnection)
        && databaseConnection.connectionString == connectionString
        && !databaseConnection.disposed
      ensures IsOpen()
      ensures currentTransaction == old(currentTransaction) && commandTimeOut == old(commandTimeOut)
    {
      if databaseConnection == null || databaseConnection.state != ConnectionState.Open {
        databaseConnection := new SqlConnection(connectionString);
        databaseConnection.Open();
      }
    }

    /** `BeginTransaction`: opens the connection and holds a new transaction on it,
        replacing any transaction held before. */
    method BeginTransaction()
      modifies this
      ensures currentTransaction != null && fresh(currentTransaction)
      ensures currentTransaction.status == Pending && currentTransaction.connection == databaseConnection
      ensures old(IsOpen()) ==> databaseConnection == old(databaseConnection)
      ensures !old(IsOpen()) ==> fresh(databaseConnection)
      ensures commandTimeOut == old(commandTimeOut)
      ensures Valid()
    {
      SafelyOpenConnection();
      currentTransaction := databaseConnection.BeginTransaction();
    }

    /** `CommitTransaction`: without a transaction nothing happens; otherwise the
        transaction is committed and dropped, and then the connection, no longer held open
        by it, is closed and disposed. */
    method CommitTransaction()
      requires Valid()
      modifies this, databaseConnection, currentTransaction
      ensures old(currentTransaction) == null ==> unchanged(this) && (databaseConnection != null ==> unchanged(databaseConnection))
      ensures old(currentTransaction) != null ==>
        && old(currentTransaction).status == Committed
        && currentTransaction == null
        && databaseConnection == old(databaseConnection)
        && databaseConnection.state == Closed && databaseConnection.disposed
      ensures commandTimeOut == old(commandTimeOut)
      ensures Valid()
    {
      if currentTransaction != null {
        currentTransaction.Commit();
        currentTransaction := null;
        var closed := SafelyCloseConnection();
      }
    }

    /** `RollbackTransaction`: as `CommitTransaction`, rolling back instead. */
    method RollbackTransaction()
      requires Valid()
      modifies this, databaseConnection, currentTransaction
      ensures old(currentTransaction) == null ==> unchanged(this) && (databaseConnection != null ==> unchanged(databaseConnection))
      ensures old(currentTransaction) != null ==>
        && old(currentTransaction).status == RolledBack
        && currentTransaction == null
        && databaseConnection == old(databaseConnection)
        && databaseConnection.state == Closed && databaseConnection.disposed
      ensures commandTimeOut == old(commandTimeOut)
      ensures Valid()
    {
      if currentTransaction != null {
        currentTransaction.Rollback();
        currentTransaction := null;
        var closed := SafelyCloseConnection();
      }
    }

    /** `BuildCommand`: a new command on the connection in use, given the held
        transaction and the stored-procedure type, then the timeout when it is positive and
        the parameters when the array is not null. */
    method BuildCommand(storedProcedureName: string, parameters: Option<seq<Parameter>>) returns (cmd: Command)
      ensures cmd == StoredProcedureCommand(storedProcedureName, databaseConnection, currentTransaction, commandTimeOut, parameters)
    {
      cmd := NewCommand(storedProcedureName, databaseConnection);
      cmd := cmd.(transaction := currentTransaction, commandType := CommandType.StoredProcedure);
      if commandTimeOut > 0 {
        cmd := cmd.(commandTimeout := commandTimeOut);
      }
      if parameters.Some? {
        cmd := cmd.(parameters := cmd.parameters + parameters.value);
      }
    }

    /** `ExecuteNonQuery(out cmd, ...)` as written: it opens a new local connection but
        builds the command on the connection in use, so the command runs only when that
        one is already open (inside a transaction); otherwise the client refuses it. The
        `finally` block then calls `SafelyCloseConnection`, which outside a transaction
        throws a `NullReferenceException` when there is no connection in use, replacing
        the client's exception. The local connection is disposed on the way out, and the
        command reaches the caller only when nothing was thrown. */
    method ExecuteNonQueryAsWritten(storedProcedureName: string, parameters: Option<seq<Parameter>>, driverResult: Result<ClrObject, Error>)
        returns (result: Result<ClrObject, Error>, cmd: Option<Command>, local: SqlConnection)
      modifies databaseConnection
      ensures fresh(local) && local.state == Closed && local.disposed
      ensures cmd.Some? <==> result.Success?
      ensures cmd.Some? ==>
        && cmd.value == StoredProcedureCommand(storedProcedureName, databaseConnection, currentTransaction, commandTimeOut, parameters)
        && cmd.value.connection != local
      ensures old(IsOpen()) ==> result == driverResult
      ensures currentTransaction == null && databaseConnection == null ==> result == Failure(NullReference)
      ensures databaseConnection != null && !old(IsOpen()) ==> result == Failure(InvalidOperation)
      ensures currentTransaction == null && databaseConnection != null ==>
        databaseConnection.state == Closed && databaseConnection.disposed
    {
      local := new SqlConnection(connectionString);
      var toExecute := BuildCommand(storedProcedureName, parameters);
      local.Open();
      var ran := RunCommand(toExecute, driverResult);
      var closed := SafelyCloseConnection();
      result := if closed.Fail? then Failure(closed.error) else ran;
      cmd := if result.Success? then Some(toExecute) else None;
      local.Close();
      local.Dispose();
    }

    /** `ExecuteNonQuery(out cmd, ...)` as intended, which is also the bracket of the
        `out` forms of `ExecuteDataTable` and `ExecuteDataSet`: open the connection in use
        (kept open by a transaction), build the command on it, run it, and close it again
        in `finally` unless a transaction is held. The client's result reaches the caller
        unchanged. */
    method ExecuteNonQuery(storedProcedureName: string, parameters: Option<seq<Parameter>>, driverResult: Result<ClrObject, Error>)
        returns (result: Result<ClrObject, Error>, cmd: Option<Command>)
      modifies this, databaseConnection
      ensures result == driverResult
      ensures cmd.Some? <==> driverResult.Success?
      ensures cmd.Some? ==>
        cmd.value == StoredProcedureCommand(storedProcedureName, databaseConnection, currentTransaction, commandTimeOut, parameters)
      ensures old(IsOpen()) ==> databaseConnection == old(databaseConnection)
      ensures !old(IsOpen()) ==> fresh(databaseConnection)
      ensures currentTransaction == old(currentTransaction) && commandTimeOut == old(commandTimeOut)
      ensures currentTransaction != null ==> IsOpen()
      ensures currentTransaction == null ==>
        databaseConnection != null && databaseConnection.state == Closed && databaseConnection.disposed
    {
      SafelyOpenConnection();
      var toExecute := BuildCommand(storedProcedureName, parameters);
      result := RunCommand(toExecute, driverResult);
      cmd := if result.Success? then Some(toExecute) else None;
      var closed := SafelyCloseConnection();
    }

    /** `ExecuteReader`: opens the connection in use and runs a reader command on it
        (default timeout, parameters only when there are some). The connection is left
        open: the reader closes it when it is itself closed, even inside a transaction. */
    method ExecuteReader(storedProcedureName: string, parameters: Option<seq<Parameter>>, driverResult: Result<ClrObject, Error>)
        returns (result: Result<ClrObject, Error>, cmd: Command)
      modifies this
      ensures result == driverResult
      ensures cmd == ReaderCommand(storedProcedureName, databaseConnection, currentTransaction, parameters)
      ensures old(IsOpen()) ==> databaseConnection == old(databaseConnection)
      ensures !old(IsOpen()) ==> fresh(databaseConnection)
      ensures IsOpen()
      ensures currentTransaction == old(currentTransaction) && commandTimeOut == old(commandTimeOut)
    {
      SafelyOpenConnection();
      cmd := NewCommand(storedProcedureName, databaseConnection);
      cmd := cmd.(commandType := CommandType.StoredProcedure, transaction := currentTransaction);
      if parameters.Some? && |parameters.value| > 0 {
        cmd := cmd.(parameters := cmd.parameters + parameters.value);
      }
      result := RunCommand(cmd, driverResult);
    }

    /** `ExecuteXmlReader(out cmd, ...)`: opens the connection in use, builds the command
        and runs it, and never closes the connection. */
    method ExecuteXmlReader(storedProcedureName: string, parameters: Option<seq<Parameter>>, driverResult: Result<ClrObject, Error>)
        returns (result: Result<ClrObject, Error>, cmd: Option<Command>)
      modifies this
      ensures result == driverResult
      ensures cmd.Some? <==> driverResult.Success?
      ensures cmd.Some? ==>
        cmd.value == StoredProcedureCommand(storedProcedureName, databaseConnection, currentTransaction, commandTimeOut, parameters)
      ensures old(IsOpen()) ==> databaseConnection == old(databaseConnection)
      ensures !old(IsOpen()) ==> fresh(databaseConnection)
      ensures IsOpen()
      ensures currentTransaction == old(currentTransaction) && commandTimeOut == old(commandTimeOut)
    {
      SafelyOpenConnection();
      var toExecute := BuildCommand(storedProcedureName, parameters);
      result := RunCommand(toExecute, driverResult);
      cmd := if result.Success? then Some(toExecute) else None;
    }

    // The `Create` overloads: each forwards to the overload of the factory with the same
    // arguments, and so fulfils the same request.

    function Create(name: string, dbType: DbType, value: Option<ClrObject>): (r: Result<Parameter, Error>)
      ensures ParameterFactory.Fulfils(r, ParameterFactory.Request(name, dbType, value, Input, 0, 0))
    {
      ParameterFactory.Create(name, dbType, value)
    }

    function CreateWithDirection(name: string, dbType: DbType, direction: ParameterDirection): (r: Result<Parameter, Error>)
      ensures ParameterFactory.Fulfils(r, ParameterFactory.Request(name, dbType, None, direction, 0, 0))
    {
      ParameterFactory.CreateWithDirection(name, dbType, direction)
    }

    function CreateWithValueAndDirection(name: string, dbType: DbType, value: Option<ClrObject>, direction: ParameterDirection): (r: Result<Parameter, Error>)
      ensures ParameterFactory.Fulfils(r, ParameterFactory.Request(name, dbType, value, direction, 0, 0))
    {
      ParameterFactory.CreateWithValueAndDirection(name, dbType, value, direction)
    }

    function CreateWithSize(name: string, dbType: DbType, value: Option<ClrObject>, size: int32): (r: Result<Parameter, Error>)
      ensures ParameterFactory.Fulfils(r, ParameterFactory.Request(name, dbType, value, Input, size, 0))
    {
      ParameterFactory.CreateWithSize(name, dbType, value, size)
    }

    function CreateWithSizeAndDirection(name: string, dbType: DbType, value: Option<ClrObject>, size: int32, direction: ParameterDirection): (r: Result<Parameter, Error>)
      ensures ParameterFactory.Fulfils(r, ParameterFactory.Request(name, dbType, value, direction, size, 0))
    {
      ParameterFactory.CreateWithSizeAndDirection(name, dbType, value, size, direction)
    }

    function CreateWithPrecision(name: string, dbType: DbType, value: Option<ClrObject>, size: int32, precision: byte): (r: Result<Parameter, Error>)
      ensures ParameterFactory.Fulfils(r, ParameterFactory.Request(name, dbType, value, Input, size, precision))
    {
      ParameterFactory.CreateWithPrecision(name, dbType, value, size, precision)
    }

    /** The six-argument overload as written: it forwards to the overload without a
        precision, so the precision asked for is lost and the parameter keeps precision 0. */
    function CreateWithPrecisionAndDirectionAsWritten(name: string, dbType: DbType, value: Option<ClrObject>, size: int32, precision: byte, direction: ParameterDirection): (r: Result<Parameter, Error>)
      ensures ParameterFactory.Fulfils(r, ParameterFactory.Request(name, dbType, value, direction, size, 0))
    {
      ParameterFactory.CreateWithSizeAndDirection(name, dbType, value, size, direction)
    }

    /** The six-argument overload as intended: forwarded with its precision. */
    function CreateWithPrecisionAndDirection(name: string, dbType: DbType, value: Option<ClrObject>, size: int32, precision: byte, direction: ParameterDirection): (r: Result<Parameter, Error>)
      ensures ParameterFactory.Fulfils(r, ParameterFactory.Request(name, dbType, value, direction, size, precision))
    {
      ParameterFactory.CreateWithPrecisionAndDirection(name, dbType, value, size, precision, direction)
    }

    /** For every supported type and every non-zero precision, the overload as written
        builds a parameter that does not carry the precision asked for, and so differs from
        the intended one. */
    lemma PrecisionDropped(name: string, dbType: DbType, value: Option<ClrObject>, size: int32, precision: byte, direction: ParameterDirection)
      requires ParameterFactory.Supported(dbType) && precision != 0
      ensures var asWritten := CreateWithPrecisionAndDirectionAsWritten(name, dbType, value, size, precision, direction);
        && asWritten.Success?
        && asWritten.value.precision == 0
        && !ParameterFactory.Fulfils(asWritten, ParameterFactory.Request(name, dbType, value, direction, size, precision))
        && asWritten != CreateWithPrecisionAndDirection(name, dbType, value, size, precision, direction)
    {
    }
  }

  /** `SqlDataAccess(connectionString, parameterFactory)`: a null factory is refused with
      an `ArgumentNullException` naming it; otherwise a new instance with no connection,
      no transaction and timeout 0. */
  method NewSqlDataAccess(connectionString: string, parameterFactory: ParameterFactory.SqlParameterFactory?)
      returns (r: Result<SqlDataAccess, Error>)
    ensures parameterFactory == null <==> r.Failure?
    ensures r.Failure? ==> r.error == ArgumentNull("parameterFactory")
    ensures r.Success? ==>
      && fresh(r.value)
      && r.value.connectionString == connectionString && r.value.parameterFactory == parameterFactory
      && r.value.databaseConnection == null && r.value.currentTransaction == null && r.value.commandTimeOut == 0
  {
    if parameterFactory == null {
      return Failure(ArgumentNull("parameterFactory"));
    }
    var access := new SqlDataAccess(connectionString, parameterFactory);
    r := Success(access);
  }

  /** Commands built inside a transaction carry it and run on the connection it holds
      open; the commit then closes and disposes that connection. */
  method TransactionSpansCommands(access: SqlDataAccess, first: string, second: string)
      returns (tx: SqlTransaction, a: Command, b: Command)
    modifies access, access.databaseConnection
    ensures a.transaction == tx && b.transaction == tx
    ensures a.connection == tx.connection && b.connection == tx.connection
    ensures tx.status == Committed && tx.connection.state == Closed && tx.connection.disposed
    ensures access.currentTransaction == null
  {
    access.BeginTransaction();
    tx := access.currentTransaction;
    a := access.BuildCommand(first, None);
    StoredProcedureCommandFields(first, access.databaseConnection, tx, access.commandTimeOut, None);
    access.SafelyOpenConnection();
    b := access.BuildCommand(second, None);
    StoredProcedureCommandFields(second, access.databaseConnection, tx, access.commandTimeOut, None);
    access.CommitTransaction();
  }

  /** Outside a transaction, with no connection in use yet, `ExecuteNonQuery` as written
      ends in a `NullReferenceException` whatever the database would have answered, and
      as intended returns the database's answer and closes the connection it opened. */
  method NonQueryOutsideTransactionScenario(access: SqlDataAccess)
      returns (asWritten: Result<ClrObject, Error>, intended: Result<ClrObject, Error>)
    requires access.databaseConnection == null && access.currentTransaction == null
    modifies access
    ensures asWritten == Failure(NullReference)
    ensures intended == Success(ClrObject(1))
    ensures access.databaseConnection != null && access.databaseConnection.state == Closed
  {
    var cmd, local;
    asWritten, cmd, local := access.ExecuteNonQueryAsWritten("AddToTestTable", None, Success(ClrObject(1)));
    intended, cmd := access.ExecuteNonQuery("AddToTestTable", None, Success(ClrObject(1)));
  }
}
