/** `Connection` of the `Ado.Net.DataAccessLayer` tree, the `IConnection` that
    `TransactionControl` and `Commands` drive: the same policy as the older
    `SafelyOpenConnection`/`SafelyCloseConnection` pair, under the names `Open` and
    `Close`, with the connection string readable (`ConnectionString`, set only by the
    constructor) and the client connection settable only by `Open`. */
module CoreConnection {
  import opened Wrappers
  import opened Driver

  class Connection {
    const connectionString: string
    var databaseConnection: SqlConnection?
    var inTransaction: bool

    constructor (connectionString: string)
      ensures this.connectionString == connectionString
      ensures databaseConnection == null && !inTransaction
    {
      this.connectionString := connectionString;
      databaseConnection := null;
      inTransaction := false;
    }

    /** The client connection in use is open. */
    predicate IsOpen()
      reads this, databaseConnection
    {
      databaseConnection != null && databaseConnection.state == ConnectionState.Open
    }

    /** `Close`: outside a transaction, closes and disposes the client connection, which
        must exist (without one the call throws a `NullReferenceException`); inside a
        transaction nothing happens. */
    method Close() returns (outcome: Outcome<Error>)
      modifies databaseConnection
      ensures inTransaction ==> outcome == Pass && (databaseConnection != null ==> unchanged(databaseConnection))
      ensures !inTransaction && databaseConnection == null ==> outcome == Fail(NullReference)
      ensures !inTransaction && databaseConnection != null ==>
        outcome == Pass && databaseConnection.state == Closed && databaseConnection.disposed
    {
      outcome := Pass;
      if !inTransaction {
        if databaseConnection == null {
          outcome := Fail(NullReference);
          return;
        }
        databaseConnection.Close();
        databaseConnection.Dispose();
      }
    }

    /** `Open`: an open client connection is kept; otherwise a new one is made from
        `ConnectionString` and opened. */
    method Open()
      modifies this
      ensures old(IsOpen()) ==> databaseConnection == old(databaseConnection)
      ensures !old(IsOpen()) ==>
        && fresh(databaseConnection)
        && databaseConnection.connectionString == connectionString
        && !databaseConnection.disposed
      ensures IsOpen()
      ensures inTransaction == old(inTransaction)
    {
      if databaseConnection == null || databaseConnection.state != ConnectionState.Open {
        databaseConnection := new SqlConnection(connectionString);
        databaseConnection.Open();
      }
    }
  }
}
