/**
 * The outbox table: envelopes partitioned by their day bucket and clustered by
 * ascending time-based id (primary key `((bucket), id)`).
 */
module Outbox {
  import opened Base
  import opened TimeUuid
  import opened Rows

  /** One outbox row, as `repository.OutboxMessage` and `helpers.OutboxMessage` hold it. */
  datatype OutboxMessage = OutboxMessage(id: Uuid, bucket: string, eventType: string, payload: Bytes)

  /** The clustering key of an envelope inside its bucket. */
  function IdRank(m: OutboxMessage): int {
    Rank(m.id)
  }

  datatype OutboxTable = OutboxTable(partitions: map<string, seq<OutboxMessage>>)

  /** Every bucket is ordered by id and holds only envelopes of that bucket. */
  ghost predicate ValidTable(t: OutboxTable) {
    forall b :: b in t.partitions ==> PartitionOk(t.partitions[b], b)
  }

  ghost predicate PartitionOk(s: seq<OutboxMessage>, b: string) {
    Ascending(s, IdRank) && forall m :: m in s ==> m.bucket == b
  }

  /** The envelopes of one bucket in clustering order; an absent bucket has none. */
  function Pending(t: OutboxTable, bucket: string): seq<OutboxMessage> {
    if bucket in t.partitions then t.partitions[bucket] else []
  }

  /** `INSERT INTO outbox (id, bucket, payload, event_type)`: an upsert on `(bucket, id)`. */
  function Insert(t: OutboxTable, m: OutboxMessage): OutboxTable {
    OutboxTable(t.partitions[m.bucket := Upsert(Pending(t, m.bucket), m, IdRank)])
  }

  /** `DELETE FROM outbox WHERE bucket = ? AND id = ?`. */
  function Delete(t: OutboxTable, bucket: string, id: Uuid): OutboxTable {
    if bucket in t.partitions then OutboxTable(t.partitions[bucket := Remove(t.partitions[bucket], Rank(id), IdRank)])
    else t
  }

  /** Whether the key `(m.bucket, m.id)` is among the keys of `ms`. */
  ghost predicate KeyAmong(m: OutboxMessage, ms: seq<OutboxMessage>) {
    exists k :: k in ms && k.bucket == m.bucket && k.id == m.id
  }

  /** The table after deleting the key of every envelope in `ms`, in order. */
  function DeleteAll(t: OutboxTable, ms: seq<OutboxMessage>): OutboxTable {
    if ms == [] then t else var k := ms[|ms| - 1]; Delete(DeleteAll(t, ms[..|ms| - 1]), k.bucket, k.id)
  }

  lemma PendingOk(t: OutboxTable, b: string)
    requires ValidTable(t)
    ensures PartitionOk(Pending(t, b), b)
  {
  }

  /** An insert keeps the table valid, adds the envelope, and leaves every other key as it was. */
  lemma InsertSpec(t: OutboxTable, m: OutboxMessage, b: string)
    requires ValidTable(t)
    ensures ValidTable(Insert(t, m))
    ensures m in Pending(Insert(t, m), m.bucket)
    ensures forall y :: y in Pending(Insert(t, m), b) ==>
      y == m || (y in Pending(t, b) && !(y.bucket == m.bucket && y.id == m.id))
    ensures forall y :: y in Pending(t, b) && !(y.bucket == m.bucket && y.id == m.id) ==>
      y in Pending(Insert(t, m), b)
  {
    var s := Pending(t, m.bucket);
    UpsertSpec(s, m, IdRank);
    forall y | y in s ensures IdRank(y) == IdRank(m) <==> y.id == m.id {
      RankInjective(y.id, m.id);
    }
  }

  /** A delete keeps the table valid and drops exactly the envelope keyed `(bucket, id)`. */
  lemma DeleteSpec(t: OutboxTable, bucket: string, id: Uuid, b: string)
    requires ValidTable(t)
    ensures ValidTable(Delete(t, bucket, id))
    ensures forall y :: y in Pending(Delete(t, bucket, id), b) ==>
      y in Pending(t, b) && !(y.bucket == bucket && y.id == id)
    ensures forall y :: y in Pending(t, b) && !(y.bucket == bucket && y.id == id) ==>
      y in Pending(Delete(t, bucket, id), b)
  {
    if bucket in t.partitions {
      var s := t.partitions[bucket];
      RemoveSpec(s, Rank(id), IdRank);
      forall y | y in s ensures IdRank(y) == Rank(id) <==> y.id == id {
        RankInjective(y.id, id);
      }
    }
  }

  /**
   * Deleting a sequence of keys keeps the table valid and removes exactly those keys:
   * an envelope survives if and only if its key is not among them.
   */
  lemma {:induction false} DeleteAllSpec(t: OutboxTable, ms: seq<OutboxMessage>, b: string)
    requires ValidTable(t)
    ensures ValidTable(DeleteAll(t, ms))
    ensures forall y :: y in Pending(DeleteAll(t, ms), b) ==> y in Pending(t, b) && !KeyAmong(y, ms)
    ensures forall y :: y in Pending(t, b) && !KeyAmong(y, ms) ==> y in Pending(DeleteAll(t, ms), b)
  {
    if ms != [] {
      var n := |ms| - 1;
      var k := ms[n];
      var t' := DeleteAll(t, ms[..n]);
      DeleteAllSpec(t, ms[..n], b);
      DeleteSpec(t', k.bucket, k.id, b);
      assert ms == ms[..n] + [k];
      forall y | KeyAmong(y, ms) ensures KeyAmong(y, ms[..n]) || (y.bucket == k.bucket && y.id == k.id) {
        var j :| j in ms && j.bucket == y.bucket && j.id == y.id;
        if j != k {
          assert j in ms[..n];
        }
      }
      forall y | KeyAmong(y, ms[..n]) ensures KeyAmong(y, ms) {
        var j :| j in ms[..n] && j.bucket == y.bucket && j.id == y.id;
        assert j in ms;
      }
      assert k in ms;
    }
  }

  /** Deleting a key no envelope has leaves the table as it was: deletes are idempotent. */
  lemma DeleteAbsent(t: OutboxTable, bucket: string, id: Uuid)
    requires ValidTable(t)
    requires forall y :: y in Pending(t, bucket) ==> y.id != id
    ensures Delete(t, bucket, id) == t
  {
    if bucket in t.partitions {
      var s := t.partitions[bucket];
      forall i | 0 <= i < |s| ensures IdRank(s[i]) != Rank(id) {
        assert s[i] in s;
        RankInjective(s[i].id, id);
      }
      RemoveAbsent(s, Rank(id), IdRank);
      assert t.partitions[bucket := s] == t.partitions;
    }
  }
}
