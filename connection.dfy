/** `Connection` of the `ADO.Net.DataAccessLayer` tree: holds the connection string and
    the client connection currently in use, and an `InTransaction` flag that the
    transaction control sets. Closing is skipped while the flag is set; opening reuses an
    open client connection and otherwise replaces it with a new, opened one. */
module SqlServerConnection {
  import opened Wrappers
  import opened Driver

  class Connection {
    const connectionString: string
    var databaseConnection: SqlConnection?
    var inTransaction: bool

    constructor (connectionString: string)
      ensures this.connectionString == connectionString
      ensures databaseConnection == null && !inTransaction
    {
      this.connectionString := connectionString;
      databaseConnection := null;
      inTransaction := false;
    }

    /** The client connection in use is open. */
    predicate IsOpen()
      reads this, databaseConnection
    {
      databaseConnection != null && databaseConnection.state == ConnectionState.Open
    }

    /** `SafelyCloseConnection`: outside a transaction, closes and disposes the client
        connection, which must exist: without one the call throws a
        `NullReferenceException`. Inside a transaction nothing happens. The connection in
        use is never replaced and the flag never changes. */
    method SafelyCloseConnection() returns (outcome: Outcome<Error>)
      modifies databaseConnection
      ensures inTransaction ==> outcome == Pass && (databaseConnection != null ==> unchanged(databaseConnection))
      ensures !inTransaction && databaseConnection == null ==> outcome == Fail(NullReference)
      ensures !inTransaction && databaseConnection != null ==>
        outcome == Pass && databaseConnection.state == Closed && databaseConnection.disposed
    {
      outcome := Pass;
      if !inTransaction {
        if databaseConnection == null {
          outcome := Fail(NullReference);
          return;
        }
        databaseConnection.Close();
        databaseConnection.Dispose();
      }
    }

    /** `SafelyOpenConnection`: an open client connection is kept as it is; otherwise a
        new one is made from the stored connection string and opened. Either way the
        connection in use is open afterwards. */
    method SafelyOpenConnection()
      modifies this
      ensures old(IsOpen()) ==> databaseConnection == old(databaseConnection)
      ensures !old(IsOpen()) ==>
        && fresh(databaseConnection)
        && databaseConnection.connectionString == connectionString
        && !databaseConnection.disposed
      ensures IsOpen()
      ensures inTransaction == old(inTransaction)
    {
      if databaseConnection == null || databaseConnection.state != ConnectionState.Open {
        databaseConnection := new SqlConnection(connectionString);
        databaseConnection.Open();
      }
    }
  }
}
