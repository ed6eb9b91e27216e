/** examples/internal/adapters/postgres/transactions.go: how a database transaction ends. */
module Transactions {
  /** How the attempt to commit ends; an ambiguous commit succeeds but is reported as failed. */
  datatype CommitOutcome = Committed | CommitFailed | CommitAmbiguous
}
