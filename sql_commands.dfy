/** `SqlCommands` of the `Ado.Net.DataAccessLayer` tree: runs stored procedures on a
    client connection and transaction it is given, both required, without opening or
    closing anything itself. */
module SqlCommands {
  import opened Wrappers
  import opened SqlTypes
  import opened Driver
  import opened CommandBuilding

  class SqlCommands {
    const currentConnection: SqlConnection
    const currentTransaction: SqlTransaction
    const commandTimeOut: int32

    constructor (currentConnection: SqlConnection, currentTransaction: SqlTransaction, commandTimeOut: int32)
      ensures this.currentConnection == currentConnection
      ensures this.currentTransaction == currentTransaction && this.commandTimeOut == commandTimeOut
    {
      this.currentConnection := currentConnection;
      this.currentTransaction := currentTransaction;
      this.commandTimeOut := commandTimeOut;
    }

    /** `BuildCommand`: a stored-procedure command on the stored connection and
        transaction, with the timeout when it is positive and the parameters when the array
        is not null. */
    method BuildCommand(storedProcedureName: string, parameters: Option<seq<Parameter>>) returns (cmd: Command)
      ensures cmd == StoredProcedureCommand(storedProcedureName, currentConnection, currentTransaction, commandTimeOut, parameters)
    {
      cmd := NewCommand(storedProcedureName, currentConnection);
      cmd := cmd.(transaction := currentTransaction, commandType := CommandType.StoredProcedure);
      if commandTimeOut > 0 {
        cmd := cmd.(commandTimeout := commandTimeOut);
      }
      if parameters.Some? {
        cmd := cmd.(parameters := cmd.parameters + parameters.value);
      }
    }

    /** The command `ExecuteReader` runs: stored procedure, stored transaction, the
        client's default timeout, and the parameters only when the array is non-null and
        non-empty. */
    method ReaderCommandFor(commandText: string, parameters: Option<seq<Parameter>>) returns (cmd: Command)
      ensures cmd == ReaderCommand(commandText, currentConnection, currentTransaction, parameters)
    {
      cmd := NewCommand(commandText, currentConnection);
      cmd := cmd.(commandType := CommandType.StoredProcedure, transaction := currentTransaction);
      if parameters.Some? && |parameters.value| > 0 {
        cmd := cmd.(parameters := cmd.parameters + parameters.value);
      }
    }
  }

  /** `SqlCommands(currentConnection, currentTransaction, commandTimeOut)`: a null
      connection is refused first, then a null transaction, each with an
      `ArgumentNullException` naming it. */
  method NewSqlCommands(currentConnection: SqlConnection?, currentTransaction: SqlTransaction?, commandTimeOut: int32)
      returns (r: Result<SqlCommands, Error>)
    ensures currentConnection == null ==> r == Failure(ArgumentNull("currentConnection"))
    ensures currentConnection != null && currentTransaction == null ==> r == Failure(ArgumentNull("currentTransaction"))
    ensures currentConnection != null && currentTransaction != null ==>
      && r.Success? && fresh(r.value)
      && r.value.currentConnection == currentConnection && r.value.currentTransaction == currentTransaction
      && r.value.commandTimeOut == commandTimeOut
  {
    if currentConnection == null {
      return Failure(ArgumentNull("currentConnection"));
    }
    if currentTransaction == null {
      return Failure(ArgumentNull("currentTransaction"));
    }
    var commands := new SqlCommands(currentConnection, currentTransaction, commandTimeOut);
    r := Success(commands);
  }
}
