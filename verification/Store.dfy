/** The durable database behind the operators, and how a commit can end. */
module Store {
  import opened Ledger

  /** A commit is acknowledged, or its acknowledgement is lost after or before it took effect. */
  datatype CommitAck = Acked | LostApplied | LostNotApplied

  class Database {
    var durable: Tables

    constructor (start: Tables)
      ensures durable == start
    {
      durable := start;
    }

    /** Publish a transaction's copy; `ok` is what the caller is told. */
    method Commit(tx: Transaction, ack: CommitAck) returns (ok: bool)
      modifies this
      ensures ok <==> ack.Acked?
      ensures durable == if ack.LostNotApplied? then old(durable) else tx.t
    {
      if !ack.LostNotApplied? {
        durable := tx.t;
      }
      ok := ack.Acked?;
    }
  }
}
