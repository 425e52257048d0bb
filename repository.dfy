/** The outbox repository over the store: a full scan of one bucket, and deletion of one envelope. */
module Repository {
  import opened Base
  import opened Rows
  import opened Outbox
  import opened Storage

  /**
   * How a scan iterator ends: it yields every row, or it stops after `rows` rows and
   * `Close` then reports `error`.
   */
  datatype IterFault = Healthy | BreaksAfter(rows: nat, error: Error)

  /** `CassandraOutboxRepository`, the implementation of `OutboxRepository`; it reads `products_keyspace_v3.outbox`. */
  class CassandraOutboxRepository {
    const session: Session

    constructor (session: Session)
      ensures this.session == session
    {
      this.session := session;
    }

    /**
     * `FetchMessages`: the rows of `bucket` in ascending id order, or no rows and the
     * iterator's error.
     */
    method FetchMessages(bucket: string, fault: IterFault) returns (messages: seq<OutboxMessage>, err: Option<Error>)
      requires session.Valid()
      ensures fault.Healthy? ==> err.None? && messages == Pending(session.cluster.v3.outbox, bucket)
      ensures fault.BreaksAfter? ==> err == Some(fault.error) && messages == []
      ensures forall m :: m in messages ==> m.bucket == bucket
      ensures Ascending(messages, IdRank)
    {
      var rows := Pending(session.cluster.v3.outbox, bucket);
      PendingOk(session.cluster.v3.outbox, bucket);
      messages := [];
      var i := 0;
      while i < |rows| && !(fault.BreaksAfter? && i >= fault.rows)
        invariant 0 <= i <= |rows|
        invariant messages == rows[..i]
      {
        messages := messages + [rows[i]];
        i := i + 1;
      }
      if fault.BreaksAfter? {
        return [], Some(fault.error);
      }
      assert rows[..|rows|] == rows;
      return messages, None;
    }

    /** `DeleteMessage`: removes the row keyed `(message.bucket, message.id)`, or wraps the store's error. */
    method DeleteMessage(message: OutboxMessage, fault: Option<Error>) returns (err: Option<Error>)
      requires session.Valid()
      modifies session
      ensures session.Valid()
      ensures fault.None? ==> err.None?
      ensures fault.None? ==> session.cluster == old(session.cluster).(v3 := old(session.cluster).v3.(
        outbox := Delete(old(session.cluster).v3.outbox, message.bucket, message.id)))
      ensures fault.Some? ==> err == Some(Wrapped("failed to delete message", fault.value))
      ensures fault.Some? ==> session.cluster == old(session.cluster)
    {
      var e := session.Exec(V3, DeleteOutbox(message.bucket, message.id), fault);
      if e.Some? {
        return Some(Wrapped("failed to delete message", e.value));
      }
      return None;
    }
  }
}
