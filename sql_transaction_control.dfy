/** `SqlTransactionControl` of the `ADO.Net.DataAccessLayer` tree: the same transaction
    policy as `TransactionControl`, over the older `Connection` and its
    `SafelyOpenConnection`. The public `CurrentTransaction` getter returns the private
    field `currentTransaction`, which is modelled directly. */
module SqlTransactionControl {
  import opened Wrappers
  import opened Driver
  import opened SqlServerConnection

  class SqlTransactionControl {
    const connection: Connection
    var currentTransaction: SqlTransaction?

    constructor (connection: Connection)
      ensures this.connection == connection && currentTransaction == null
    {
      this.connection := connection;
      currentTransaction := null;
    }

    /** While a transaction is held it is still running, the connection's flag is up, and
        it runs on the connection in use, which is open. */
    ghost predicate Valid()
      reads this, connection, connection.databaseConnection, currentTransaction
    {
      currentTransaction != null ==>
        && currentTransaction.status == Pending
        && connection.inTransaction
        && connection.databaseConnection == currentTransaction.connection
        && connection.IsOpen()
    }

    /** `BeginTransaction`: `SafelyOpenConnection`, then a new transaction on the
        connection in use, held, with the flag raised; any transaction held before is
        replaced. */
    method BeginTransaction()
      modifies this, connection
      ensures currentTransaction != null && fresh(currentTransaction)
      ensures currentTransaction.status == Pending
      ensures currentTransaction.connection == connection.databaseConnection
      ensures connection.inTransaction && connection.IsOpen()
      ensures old(connection.IsOpen()) ==> connection.databaseConnection == old(connection.databaseConnection)
      ensures !old(connection.IsOpen()) ==> fresh(connection.databaseConnection)
      ensures Valid()
    {
      connection.SafelyOpenConnection();
      currentTransaction := connection.databaseConnection.BeginTransaction();
      connection.inTransaction := true;
    }

    /** `CommitTransaction`: a no-op without a transaction; otherwise commits, drops the
        transaction and lowers the flag, leaving the connection open. */
    method CommitTransaction()
      requires Valid()
      modifies this, connection, currentTransaction
      ensures old(currentTransaction) == null ==> currentTransaction == null && unchanged(connection)
      ensures old(currentTransaction) != null ==>
        old(currentTransaction).status == Committed && currentTransaction == null && !connection.inTransaction
      ensures connection.databaseConnection == old(connection.databaseConnection)
      ensures Valid()
    {
      if currentTransaction != null {
        currentTransaction.Commit();
        currentTransaction := null;
        connection.inTransaction := false;
      }
    }

    /** `RollbackTransaction`: as `CommitTransaction`, rolling back instead. */
    method RollbackTransaction()
      requires Valid()
      modifies this, connection, currentTransaction
      ensures old(currentTransaction) == null ==> currentTransaction == null && unchanged(connection)
      ensures old(currentTransaction) != null ==>
        old(currentTransaction).status == RolledBack && currentTransaction == null && !connection.inTransaction
      ensures connection.databaseConnection == old(connection.databaseConnection)
      ensures Valid()
    {
      if currentTransaction != null {
        currentTransaction.Rollback();
        currentTransaction := null;
        connection.inTransaction := false;
      }
    }
  }

  /** Reopening inside a transaction keeps the connection the transaction runs on, and a
      rollback followed by `SafelyCloseConnection` closes and disposes it. */
  method ReopenInsideThenRollback(control: SqlTransactionControl) returns (tx: SqlTransaction, closeAfter: Outcome<Error>)
    modifies control, control.connection, control.connection.databaseConnection
    ensures tx.status == RolledBack
    ensures closeAfter == Pass && tx.connection.state == Closed && tx.connection.disposed
  {
    control.BeginTransaction();
    tx := control.currentTransaction;
    control.connection.SafelyOpenConnection();
    assert control.connection.databaseConnection == tx.connection;
    control.RollbackTransaction();
    closeAfter := control.connection.SafelyCloseConnection();
  }
}
