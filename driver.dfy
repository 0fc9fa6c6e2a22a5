/** The SQL Server client objects the data-access layer drives, reduced to the state the
    layer looks at: a connection's open/closed state, whether it has been disposed, a
    transaction's status, and the fields of parameters and commands. Their behaviour is
    the client library's, stated here only as far as the layer relies on it. */
module Driver {
  import opened Wrappers
  import opened SqlTypes

  newtype int32 = x: int | -0x8000_0000 <= x < 0x8000_0000
  newtype byte = x: int | 0 <= x < 0x100

  /** The exceptions the modelled code raises or lets escape. */
  datatype Error =
    | ArgumentNull(paramName: string)      // ArgumentNullException
    | UnsupportedDbType(dbType: DbType)    // ArgumentException from the type mapping
    | DuplicateKey(key: string)            // ArgumentException from an `Add` of a key already present
    | NullReference                        // NullReferenceException
    | InvalidOperation                     // InvalidOperationException: no open connection
    | Driver(code: nat)                    // whatever the client library throws

  datatype ConnectionState = Closed | Open

  /** `SqlConnection`. */
  class SqlConnection {
    const connectionString: string
    var state: ConnectionState
    var disposed: bool

    constructor (connectionString: string)
      ensures this.connectionString == connectionString
      ensures state == Closed && !disposed
    {
      this.connectionString := connectionString;
      state, disposed := Closed, false;
    }

    /** The client refuses to open a connection that is open or disposed. */
    method Open()
      requires state == Closed && !disposed
      modifies this
      ensures state == ConnectionState.Open && !disposed
    {
      state := ConnectionState.Open;
    }

    method Close()
      modifies this
      ensures state == Closed && disposed == old(disposed)
    {
      state := Closed;
    }

    method Dispose()
      modifies this
      ensures state == Closed && disposed
    {
      state, disposed := Closed, true;
    }

    /** The client starts a transaction only on an open connection. */
    method BeginTransaction() returns (t: SqlTransaction)
      requires state == ConnectionState.Open
      ensures fresh(t) && t.connection == this && t.status == Pending
    {
      t := new SqlTransaction(this);
    }
  }

  datatype TransactionStatus = Pending | Committed | RolledBack

  /** `SqlTransaction`: committed or rolled back at most once. */
  class SqlTransaction {
    const connection: SqlConnection
    var status: TransactionStatus

    constructor (connection: SqlConnection)
      ensures this.connection == connection && status == Pending
    {
      this.connection := connection;
      status := Pending;
    }

    method Commit()
      requires status == Pending
      modifies this
      ensures status == Committed
    {
      status := Committed;
    }

    method Rollback()
      requires status == Pending
      modifies this
      ensures status == RolledBack
    {
      status := RolledBack;
    }
  }

  /** A non-null CLR object, known only by its identity. */
  datatype ClrObject = ClrObject(id: nat)

  /** What a parameter's `Value` holds: nothing yet (the client's null), the `DBNull`
      marker, or an object. */
  datatype ParameterValue = Unassigned | DbNull | Value(obj: ClrObject)

  /** `SqlParameter`: the fields the layer sets. */
  datatype Parameter = Parameter(
    name: string,
    sqlDbType: SqlDbType,
    value: ParameterValue,
    direction: ParameterDirection,
    size: int32,
    precision: byte)

  /** `new SqlParameter(name, sqlDbType)`: input direction, size and precision 0, no value. */
  function NewParameter(name: string, sqlDbType: SqlDbType): Parameter {
    Parameter(name, sqlDbType, Unassigned, Input, 0, 0)
  }

  /** The client's default `CommandTimeout`, in seconds. */
  const DefaultCommandTimeout: int32 := 30

  /** `SqlCommand`: the fields the layer sets. */
  datatype Command = Command(
    commandText: string,
    connection: SqlConnection?,
    transaction: SqlTransaction?,
    commandType: CommandType,
    commandTimeout: int32,
    parameters: seq<Parameter>)

  /** `new SqlCommand(text, connection)`: a text command with the default timeout, no
      transaction and no parameters. */
  function NewCommand(commandText: string, connection: SqlConnection?): Command {
    Command(commandText, connection, null, CommandType.Text, DefaultCommandTimeout, [])
  }

  /** Running a command (`ExecuteNonQuery`, `ExecuteScalar`, ...): the client refuses a
      command whose connection is missing or not open with an
      `InvalidOperationException`; otherwise the outcome is the database's, given as
      `driverResult`. */
  function RunCommand(cmd: Command, driverResult: Result<ClrObject, Error>): (r: Result<ClrObject, Error>)
    reads cmd.connection
    ensures cmd.connection == null || cmd.connection.state == Closed ==> r == Failure(InvalidOperation)
    ensures cmd.connection != null && cmd.connection.state == Open ==> r == driverResult
  {
    if cmd.connection != null && cmd.connection.state == Open then driverResult else Failure(InvalidOperation)
  }
}
