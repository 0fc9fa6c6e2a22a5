/** `TransactionControl` of the `ADO.Net.DataAccessLayer_3.5` tree: starts, commits and
    rolls back one transaction on an `IConnection`, and raises the connection's
    `InTransaction` flag for as long as the transaction is running, so that the connection
    is not closed under it. `CurrentTransaction` (public getter, private setter) is the
    field `currentTransaction`. */
module CoreTransactionControl {
  import opened Wrappers
  import opened Driver
  import opened CoreConnection

  class TransactionControl {
    const connection: Connection
    var currentTransaction: SqlTransaction?

    constructor (connection: Connection)
      ensures this.connection == connection && currentTransaction == null
    {
      this.connection := connection;
      currentTransaction := null;
    }

    /** While a transaction is held it is still running, the connection's flag is up, and
        it runs on the connection in use, which is open. */
    ghost predicate Valid()
      reads this, connection, connection.databaseConnection, currentTransaction
    {
      currentTransaction != null ==>
        && currentTransaction.status == Pending
        && connection.inTransaction
        && connection.databaseConnection == currentTransaction.connection
        && connection.IsOpen()
    }

    /** `BeginTransaction`: opens the connection (keeping it when it is open), starts a
        transaction on it, holds that transaction and raises the flag. A transaction held
        before is not looked at: it is replaced. */
    method BeginTransaction()
      modifies this, connection
      ensures currentTransaction != null && fresh(currentTransaction)
      ensures currentTransaction.status == Pending
      ensures currentTransaction.connection == connection.databaseConnection
      ensures connection.inTransaction && connection.IsOpen()
      ensures old(connection.IsOpen()) ==> connection.databaseConnection == old(connection.databaseConnection)
      ensures !old(connection.IsOpen()) ==> fresh(connection.databaseConnection)
      ensures Valid()
    {
      connection.Open();
      currentTransaction := connection.databaseConnection.BeginTransaction();
      connection.inTransaction := true;
    }

    /** `CommitTransaction`: without a transaction nothing changes; otherwise the
        transaction is committed and dropped and the flag lowered, so that the next
        `Close` takes effect. The connection itself stays open. */
    method CommitTransaction()
      requires Valid()
      modifies this, connection, currentTransaction
      ensures old(currentTransaction) == null ==> currentTransaction == null && unchanged(connection)
      ensures old(currentTransaction) != null ==>
        old(currentTransaction).status == Committed && currentTransaction == null && !connection.inTransaction
      ensures connection.databaseConnection == old(connection.databaseConnection)
      ensures Valid()
    {
      if currentTransaction != null {
        currentTransaction.Commit();
        currentTransaction := null;
        connection.inTransaction := false;
      }
    }

    /** `RollbackTransaction`: as `CommitTransaction`, rolling back instead. */
    method RollbackTransaction()
      requires Valid()
      modifies this, connection, currentTransaction
      ensures old(currentTransaction) == null ==> currentTransaction == null && unchanged(connection)
      ensures old(currentTransaction) != null ==>
        old(currentTransaction).status == RolledBack && currentTransaction == null && !connection.inTransaction
      ensures connection.databaseConnection == old(connection.databaseConnection)
      ensures Valid()
    {
      if currentTransaction != null {
        currentTransaction.Rollback();
        currentTransaction := null;
        connection.inTransaction := false;
      }
    }
  }

  /** Inside a transaction, `Close` leaves the connection open and the transaction
      running; once the transaction is committed, `Close` closes and disposes the
      connection the transaction ran on. */
  method CloseDeferredUntilCommit(control: TransactionControl) returns (tx: SqlTransaction, closeInside: Outcome<Error>, closeAfter: Outcome<Error>)
    modifies control, control.connection, control.connection.databaseConnection
    ensures closeInside == Pass && closeAfter == Pass
    ensures tx.status == Committed
    ensures tx.connection.state == Closed && tx.connection.disposed
    ensures control.currentTransaction == null && !control.connection.inTransaction
  {
    control.BeginTransaction();
    tx := control.currentTransaction;
    closeInside := control.connection.Close();
    assert control.connection.IsOpen() && control.Valid();
    control.CommitTransaction();
    closeAfter := control.connection.Close();
  }
}
