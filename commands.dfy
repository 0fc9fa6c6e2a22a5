/** `Commands`: runs stored procedures on an `IConnection`, optionally inside a
    transaction. Every execution opens the connection, builds the command, runs it, and
    closes the connection again in a `finally` block; inside a transaction that close is
    skipped by the connection itself. What the database does with a command is outside the
    model: each execution is given the client's result as `driverResult`, either a value
    or the exception the client threw. */
module Commands {
  import opened Wrappers
  import opened SqlTypes
  import opened Driver
  import opened CommandBuilding
  import opened CoreConnection
  import CoreTransactionControl

  /** The `IDbTransaction` a caller passes: none, a SQL Server transaction, or one of
      another provider. */
  datatype TransactionArgument = NoTransaction | SqlServer(tx: SqlTransaction) | OtherProvider

  class Commands {
    const currentTransaction: SqlTransaction?
    const currentConnection: Connection
    const commandTimeOut: int32

    constructor (currentConnection: Connection, currentTransaction: SqlTransaction?, commandTimeOut: int32)
      ensures this.currentConnection == currentConnection
      ensures this.currentTransaction == currentTransaction && this.commandTimeOut == commandTimeOut
    {
      this.currentConnection := currentConnection;
      this.currentTransaction := currentTransaction;
      this.commandTimeOut := commandTimeOut;
    }

    /** After an execution: the client connection exists; inside a transaction it is
        still open, outside one it has been closed and disposed. */
    predicate ClosedUnlessInTransaction()
      reads currentConnection, currentConnection.databaseConnection
    {
      && currentConnection.databaseConnection != null
      && (currentConnection.inTransaction ==> currentConnection.IsOpen())
      && (!currentConnection.inTransaction ==>
            currentConnection.databaseConnection.state == Closed && currentConnection.databaseConnection.disposed)
    }

    /** `BuildCommand`: a stored-procedure command on the connection's client connection
        with the stored transaction, the timeout when it is positive, and the parameters
        when the array is not null. */
    method BuildCommand(storedProcedureName: string, parameters: Option<seq<Parameter>>) returns (cmd: Command)
      ensures cmd == StoredProcedureCommand(storedProcedureName, currentConnection.databaseConnection, currentTransaction, commandTimeOut, parameters)
    {
      cmd := NewCommand(storedProcedureName, currentConnection.databaseConnection);
      cmd := cmd.(transaction := currentTransaction, commandType := CommandType.StoredProcedure);
      if commandTimeOut > 0 {
        cmd := cmd.(commandTimeout := commandTimeOut);
      }
      if parameters.Some? {
        cmd := cmd.(parameters := cmd.parameters + parameters.value);
      }
    }

    /** `Execute<T>(func, out cmd, ...)`, and the same bracket in the `out` forms of
        `ExecuteDataTable` and `ExecuteDataSet`: open, build, run, and close in `finally`.
        The result is the client's; the command comes back only when the run succeeded
        (on an exception the caller's `cmd` keeps its null). */
    method ExecuteWithCommand(commandText: string, parameters: Option<seq<Parameter>>, driverResult: Result<ClrObject, Error>)
        returns (result: Result<ClrObject, Error>, cmd: Option<Command>)
      modifies currentConnection, currentConnection.databaseConnection
      ensures result == driverResult
      ensures cmd.Some? <==> driverResult.Success?
      ensures cmd.Some? ==>
        cmd.value == StoredProcedureCommand(commandText, currentConnection.databaseConnection, currentTransaction, commandTimeOut, parameters)
      ensures currentConnection.inTransaction == old(currentConnection.inTransaction)
      ensures old(currentConnection.IsOpen()) ==> currentConnection.databaseConnection == old(currentConnection.databaseConnection)
      ensures !old(currentConnection.IsOpen()) ==> fresh(currentConnection.databaseConnection)
      ensures ClosedUnlessInTransaction()
    {
      currentConnection.Open();
      var toExecute := BuildCommand(commandText, parameters);
      result := RunCommand(toExecute, driverResult);
      cmd := if result.Success? then Some(toExecute) else None;
      var closed := currentConnection.Close();
    }

    /** `Execute<T>(func, ...)` as written, and `ExecuteDataTable(commandText, ...)`: the
        `finally` block clears and disposes the command it got back; when the run threw,
        that command is null, so the client's exception is replaced by a
        `NullReferenceException`. */
    method ExecuteAsWritten(commandText: string, parameters: Option<seq<Parameter>>, driverResult: Result<ClrObject, Error>)
        returns (result: Result<ClrObject, Error>)
      modifies currentConnection, currentConnection.databaseConnection
      ensures driverResult.Success? ==> result == driverResult
      ensures driverResult.Failure? ==> result == Failure(NullReference)
      ensures currentConnection.inTransaction == old(currentConnection.inTransaction)
      ensures old(currentConnection.IsOpen()) ==> currentConnection.databaseConnection == old(currentConnection.databaseConnection)
      ensures !old(currentConnection.IsOpen()) ==> fresh(currentConnection.databaseConnection)
      ensures ClosedUnlessInTransaction()
    {
      var inner, cmd := ExecuteWithCommand(commandText, parameters, driverResult);
      if cmd.None? {
        result := Failure(NullReference);
      } else {
        result := inner;
      }
    }

    /** `Execute<T>(func, ...)` as intended, which is also how
        `ExecuteDataSet(commandText, ...)` behaves: the command is cleaned up only when
        there is one, and the client's result or exception reaches the caller unchanged. */
    method Execute(commandText: string, parameters: Option<seq<Parameter>>, driverResult: Result<ClrObject, Error>)
        returns (result: Result<ClrObject, Error>)
      modifies currentConnection, currentConnection.databaseConnection
      ensures result == driverResult
      ensures currentConnection.inTransaction == old(currentConnection.inTransaction)
      ensures old(currentConnection.IsOpen()) ==> currentConnection.databaseConnection == old(currentConnection.databaseConnection)
      ensures !old(currentConnection.IsOpen()) ==> fresh(currentConnection.databaseConnection)
      ensures ClosedUnlessInTransaction()
    {
      var cmd;
      result, cmd := ExecuteWithCommand(commandText, parameters, driverResult);
    }

    /** `ExecuteReader`: opens the connection and runs a reader command (default timeout,
        parameters only when there are some), and never closes the connection: the reader
        closes it when it is itself closed, whatever the client's result. */
    method ExecuteReader(commandText: string, parameters: Option<seq<Parameter>>, driverResult: Result<ClrObject, Error>)
        returns (result: Result<ClrObject, Error>, cmd: Command)
      modifies currentConnection
      ensures result == driverResult
      ensures cmd == ReaderCommand(commandText, currentConnection.databaseConnection, currentTransaction, parameters)
      ensures currentConnection.IsOpen()
      ensures currentConnection.inTransaction == old(currentConnection.inTransaction)
      ensures old(currentConnection.IsOpen()) ==> currentConnection.databaseConnection == old(currentConnection.databaseConnection)
      ensures !old(currentConnection.IsOpen()) ==> fresh(currentConnection.databaseConnection)
    {
      currentConnection.Open();
      cmd := NewCommand(commandText, currentConnection.databaseConnection);
      cmd := cmd.(commandType := CommandType.StoredProcedure, transaction := currentTransaction);
      if parameters.Some? && |parameters.value| > 0 {
        cmd := cmd.(parameters := cmd.parameters + parameters.value);
      }
      result := RunCommand(cmd, driverResult);
    }

    /** `ExecuteXmlReader(out cmd, ...)`: opens the connection, builds the command and runs
        it, and never closes the connection, in or out of a transaction. The command
        comes back only when the run succeeded. */
    method ExecuteXmlReader(commandText: string, parameters: Option<seq<Parameter>>, driverResult: Result<ClrObject, Error>)
        returns (result: Result<ClrObject, Error>, cmd: Option<Command>)
      modifies currentConnection
      ensures result == driverResult
      ensures cmd.Some? <==> driverResult.Success?
      ensures cmd.Some? ==>
        cmd.value == StoredProcedureCommand(commandText, currentConnection.databaseConnection, currentTransaction, commandTimeOut, parameters)
      ensures currentConnection.IsOpen()
      ensures currentConnection.inTransaction == old(currentConnection.inTransaction)
      ensures old(currentConnection.IsOpen()) ==> currentConnection.databaseConnection == old(currentConnection.databaseConnection)
      ensures !old(currentConnection.IsOpen()) ==> fresh(currentConnection.databaseConnection)
    {
      currentConnection.Open();
      var toExecute := BuildCommand(commandText, parameters);
      result := RunCommand(toExecute, driverResult);
      cmd := if result.Success? then Some(toExecute) else None;
    }
  }

  /** `Commands(currentConnection, currentTransaction, commandTimeOut)`: a null connection
      is refused with an `ArgumentNullException`; a transaction that is not a SQL Server
      one is kept as null. */
  method NewCommands(currentConnection: Connection?, currentTransaction: TransactionArgument, commandTimeOut: int32)
      returns (r: Result<Commands, Error>)
    ensures currentConnection == null <==> r.Failure?
    ensures r.Failure? ==> r.error == ArgumentNull("currentConnection")
    ensures r.Success? ==>
      && fresh(r.value)
      && r.value.currentConnection == currentConnection
      && r.value.commandTimeOut == commandTimeOut
      && r.value.currentTransaction == (if currentTransaction.SqlServer? then currentTransaction.tx else null)
  {
    if currentConnection == null {
      return Failure(ArgumentNull("currentConnection"));
    }
    var tx: SqlTransaction? := if currentTransaction.SqlServer? then currentTransaction.tx else null;
    var commands := new Commands(currentConnection, tx, commandTimeOut);
    r := Success(commands);
  }

  /** A deadlock reported by the client (error 1205) reaches the caller of the intended
      `Execute`, but the caller of `Execute<T>` as written sees a
      `NullReferenceException` instead; either way the connection is closed afterwards
      when no transaction is running. */
  method MaskedErrorScenario(commands: Commands) returns (asWritten: Result<ClrObject, Error>, intended: Result<ClrObject, Error>)
    requires !commands.currentConnection.inTransaction
    modifies commands.currentConnection, commands.currentConnection.databaseConnection
    ensures asWritten == Failure(NullReference)
    ensures intended == Failure(Driver(1205))
  {
    asWritten := commands.ExecuteAsWritten("AddToTestTable", None, Failure(Driver(1205)));
    intended := commands.Execute("AddToTestTable", None, Failure(Driver(1205)));
  }

  /** Executions inside a transaction that the connection is shared with leave the
      connection open and the transaction running on it. */
  method ExecuteInsideTransaction(control: CoreTransactionControl.TransactionControl, commands: Commands,
      commandText: string, driverResult: Result<ClrObject, Error>)
      returns (result: Result<ClrObject, Error>)
    requires commands.currentConnection == control.connection
    requires control.Valid() && control.currentTransaction != null
    modifies control.connection, control.connection.databaseConnection
    ensures result == driverResult
    ensures control.Valid() && control.connection.IsOpen()
  {
    result := commands.Execute(commandText, None, driverResult);
  }

  /** The readers leave the connection open and keep the connection in use, so inside a
      transaction that the connection is shared with, the transaction still runs on it
      afterwards. */
  method ReadInsideTransaction(control: CoreTransactionControl.TransactionControl, commands: Commands,
      commandText: string, driverResult: Result<ClrObject, Error>)
      returns (reader: Result<ClrObject, Error>, xml: Result<ClrObject, Error>)
    requires commands.currentConnection == control.connection
    requires control.Valid() && control.currentTransaction != null
    modifies control.connection
    ensures reader == driverResult && xml == driverResult
    ensures control.Valid() && control.connection.IsOpen()
    ensures control.connection.databaseConnection == old(control.connection.databaseConnection)
  {
    var cmd, xmlCmd;
    reader, cmd := commands.ExecuteReader(commandText, None, driverResult);
    xml, xmlCmd := commands.ExecuteXmlReader(commandText, None, driverResult);
  }
}
