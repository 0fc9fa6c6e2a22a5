/** How the data-access classes configure a `SqlCommand` before running it. Three classes
    build their commands with the same rule (`BuildCommand` in `SqlDataAccess`,
    `Commands` and `SqlCommands`), and two build reader commands with another
    (`ExecuteReader`); both rules are stated once here, and each class's method is proved
    to follow them. */
module CommandBuilding {
  import opened Wrappers
  import opened SqlTypes
  import opened Driver

  /** The parameters a command ends up with: none for a null array, the array's elements in
      order otherwise (`Parameters.AddRange`). */
  function Attached(parameters: Option<seq<Parameter>>): seq<Parameter> {
    if parameters.Some? then parameters.value else []
  }

  /** `BuildCommand`'s rule: a stored-procedure command on the given connection and
      transaction, with the configured timeout only when it is positive, and the
      parameters when there are any. */
  function StoredProcedureCommand(
    name: string, connection: SqlConnection?, transaction: SqlTransaction?,
    commandTimeOut: int32, parameters: Option<seq<Parameter>>): (cmd: Command)
  {
    var cmd := NewCommand(name, connection).(transaction := transaction, commandType := CommandType.StoredProcedure);
    var cmd := if commandTimeOut > 0 then cmd.(commandTimeout := commandTimeOut) else cmd;
    if parameters.Some? then cmd.(parameters := cmd.parameters + parameters.value) else cmd
  }

  /** A built command runs the named procedure on the given connection and transaction
      with exactly the given parameters. Its timeout is always positive: the configured one
      when that is positive, the client's default of 30 seconds otherwise, so a zero or
      negative setting never reaches the client. */
  lemma StoredProcedureCommandFields(
    name: string, connection: SqlConnection?, transaction: SqlTransaction?,
    commandTimeOut: int32, parameters: Option<seq<Parameter>>)
    ensures var cmd := StoredProcedureCommand(name, connection, transaction, commandTimeOut, parameters);
      && cmd.commandText == name && cmd.commandType == CommandType.StoredProcedure
      && cmd.connection == connection && cmd.transaction == transaction
      && cmd.parameters == Attached(parameters)
      && cmd.commandTimeout > 0
      && (commandTimeOut > 0 <==> cmd.commandTimeout == commandTimeOut)
      && (commandTimeOut <= 0 ==> cmd.commandTimeout == DefaultCommandTimeout)
  {
  }

  /** `ExecuteReader`'s rule: a stored-procedure command on the given connection and
      transaction that keeps the client's default timeout and gets the parameters only when
      the array is non-null and non-empty. */
  function ReaderCommand(
    name: string, connection: SqlConnection?, transaction: SqlTransaction?,
    parameters: Option<seq<Parameter>>): (cmd: Command)
  {
    var cmd := NewCommand(name, connection).(commandType := CommandType.StoredProcedure, transaction := transaction);
    if parameters.Some? && |parameters.value| > 0 then cmd.(parameters := cmd.parameters + parameters.value) else cmd
  }

  /** A reader command is the command `BuildCommand` would build with no timeout
      configured: the extra emptiness test changes nothing, since adding an empty array adds
      no parameter, and the configured timeout is ignored. */
  lemma ReaderCommandIgnoresTimeout(
    name: string, connection: SqlConnection?, transaction: SqlTransaction?,
    commandTimeOut: int32, parameters: Option<seq<Parameter>>)
    ensures ReaderCommand(name, connection, transaction, parameters) ==
      StoredProcedureCommand(name, connection, transaction, 0, parameters)
    ensures ReaderCommand(name, connection, transaction, parameters).commandTimeout == DefaultCommandTimeout
    ensures ReaderCommand(name, connection, transaction, parameters).parameters == Attached(parameters)
  {
    if parameters.Some? && |parameters.value| == 0 {
      assert [] + parameters.value == [];
    }
  }
}
