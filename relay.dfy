/**
 * What both outbox relays do with one fetched envelope, and what a whole pass sends to
 * the broker and removes from the outbox. A pass is described by its trace: one `Step`
 * per fetched envelope, in fetch order.
 */
module Relay {
  import opened Base
  import opened Calendar
  import opened TimeUuid
  import opened Rows
  import opened Outbox
  import opened Storage
  import opened Messaging
  import opened Repository

  /**
   * What the collaborators do during one pass: the clock reading that picks the bucket,
   * how the scan ends, and which publishes and deletes fail, by position of the envelope
   * in the fetched list.
   */
  datatype PassEnv = PassEnv(now: Instant, fetch: IterFault, publishErrors: map<nat, Error>, deleteErrors: map<nat, Error>)

  /** The fate of one envelope. */
  datatype Step =
    | Failed                          // nothing was sent: the payload did not decode, or there is no producer
    | Ignored                         // nothing was sent: the event type is not one the relay knows
    | PublishFailed(out: BrokerMessage)
    | Published(source: OutboxMessage, out: BrokerMessage, deleted: bool)

  /** The bucket a pass reads: the day of the clock reading, as `YYYY-MM-DD`. */
  function CurrentBucket(env: PassEnv): string {
    Bucket(env.now.date)
  }

  /** The bucket names the day of the clock reading: it parses back to that day, and no other day shares it. */
  lemma CurrentBucketDay(env: PassEnv, other: PassEnv)
    requires ValidDate(env.now.date) && ValidDate(other.now.date)
    ensures ParseBucket(CurrentBucket(env)) == Some(env.now.date)
    ensures CurrentBucket(env) == CurrentBucket(other) <==> env.now.date == other.now.date
  {
    BucketRoundTrip(env.now.date);
    BucketInjective(env.now.date, other.now.date);
  }

  /** The envelopes a healthy scan returns for the pass. */
  function Fetched(c: Cluster, env: PassEnv): seq<OutboxMessage> {
    Pending(c.v3.outbox, CurrentBucket(env))
  }

  /** Publish `payload` for envelope `m`, the `i`-th of the pass, under its key; delete `m` once the broker acknowledged it. */
  function Attempt(m: OutboxMessage, payload: Bytes, i: nat, env: PassEnv): Step {
    var out := BrokerMessage(Key(m.eventType, m.id), payload);
    if i in env.publishErrors then PublishFailed(out) else Published(m, out, i !in env.deleteErrors)
  }

  function Sent(s: Step): seq<BrokerMessage> {
    if s.Published? then [s.out] else []
  }

  function Gone(s: Step): seq<OutboxMessage> {
    if s.Published? && s.deleted then [s.source] else []
  }

  /** What the broker acknowledged during the pass, in order. */
  function Delivered(t: seq<Step>): seq<BrokerMessage> {
    if t == [] then [] else Delivered(t[..|t| - 1]) + Sent(t[|t| - 1])
  }

  /** The envelopes whose messages the broker acknowledged, in order. */
  function Sources(t: seq<Step>): seq<OutboxMessage> {
    if t == [] then [] else Sources(t[..|t| - 1]) + (if t[|t| - 1].Published? then [t[|t| - 1].source] else [])
  }

  /** The envelopes the pass deleted, in order. */
  function Removed(t: seq<Step>): seq<OutboxMessage> {
    if t == [] then [] else Removed(t[..|t| - 1]) + Gone(t[|t| - 1])
  }

  /** The store after the deletes of a pass. */
  function AfterPass(c: Cluster, t: seq<Step>): Cluster {
    c.(v3 := c.v3.(outbox := DeleteAll(c.v3.outbox, Removed(t))))
  }

  /** Step `i` is the fate of envelope `msgs[i]`, and a message sent for it carries its key. */
  ghost predicate Follows(t: seq<Step>, msgs: seq<OutboxMessage>) {
    && |t| == |msgs|
    && forall i :: 0 <= i < |t| && t[i].Published? ==>
         t[i].source == msgs[i] && t[i].out.key == Key(msgs[i].eventType, msgs[i].id)
  }

  lemma FollowsPrefix(t: seq<Step>, msgs: seq<OutboxMessage>, n: nat)
    requires Follows(t, msgs) && n <= |t|
    ensures Follows(t[..n], msgs[..n])
  {
  }

  /** Ascending ids are distinct ids. */
  lemma DistinctIds(msgs: seq<OutboxMessage>, i: nat, j: nat)
    requires Ascending(msgs, IdRank) && i < |msgs| && j < |msgs|
    ensures msgs[i].id == msgs[j].id <==> i == j
  {
    assert IdRank(msgs[i]) == Rank(msgs[i].id) && IdRank(msgs[j]) == Rank(msgs[j].id);
  }

  /** The broker acknowledged exactly the messages of the steps that published. */
  lemma {:induction false} DeliveredSpec(t: seq<Step>)
    ensures forall o :: o in Delivered(t) ==> exists i :: 0 <= i < |t| && t[i].Published? && t[i].out == o
    ensures forall i :: 0 <= i < |t| && t[i].Published? ==> t[i].out in Delivered(t)
  {
    if t != [] {
      var n := |t| - 1;
      DeliveredSpec(t[..n]);
      forall o | o in Delivered(t) ensures exists i :: 0 <= i < |t| && t[i].Published? && t[i].out == o {
        if o in Delivered(t[..n]) {
          var i :| 0 <= i < n && t[..n][i].Published? && t[..n][i].out == o;
          assert t[i] == t[..n][i];
        } else {
          assert t[n].Published? && t[n].out == o;
        }
      }
      forall i | 0 <= i < |t| && t[i].Published? ensures t[i].out in Delivered(t) {
        if i < n {
          assert t[..n][i] == t[i];
        }
      }
    }
  }

  /** The pass deleted exactly the sources of the steps that published and then deleted. */
  lemma {:induction false} RemovedSpec(t: seq<Step>)
    ensures forall y :: y in Removed(t) ==> exists i :: 0 <= i < |t| && t[i].Published? && t[i].deleted && t[i].source == y
    ensures forall i :: 0 <= i < |t| && t[i].Published? && t[i].deleted ==> t[i].source in Removed(t)
  {
    if t != [] {
      var n := |t| - 1;
      RemovedSpec(t[..n]);
      forall y | y in Removed(t)
        ensures exists i :: 0 <= i < |t| && t[i].Published? && t[i].deleted && t[i].source == y
      {
        if y in Removed(t[..n]) {
          var i :| 0 <= i < n && t[..n][i].Published? && t[..n][i].deleted && t[..n][i].source == y;
          assert t[i] == t[..n][i];
        } else {
          assert t[n].Published? && t[n].deleted && t[n].source == y;
        }
      }
      forall i | 0 <= i < |t| && t[i].Published? && t[i].deleted ensures t[i].source in Removed(t) {
        if i < n {
          assert t[..n][i] == t[i];
        }
      }
    }
  }

  /** Every envelope whose message was acknowledged is a fetched envelope whose step published. */
  lemma {:induction false} SourcesSpec(t: seq<Step>, msgs: seq<OutboxMessage>)
    requires Follows(t, msgs)
    ensures forall y :: y in Sources(t) ==> exists j :: 0 <= j < |t| && t[j].Published? && msgs[j] == y
  {
    if t != [] {
      var n := |t| - 1;
      FollowsPrefix(t, msgs, n);
      SourcesSpec(t[..n], msgs[..n]);
      forall y | y in Sources(t) ensures exists j :: 0 <= j < |t| && t[j].Published? && msgs[j] == y {
        if y in Sources(t[..n]) {
          var j :| 0 <= j < n && t[..n][j].Published? && msgs[..n][j] == y;
          assert t[j] == t[..n][j] && msgs[j] == msgs[..n][j];
        } else {
          assert t[n].Published? && msgs[n] == y;
        }
      }
    }
  }

  /** The acknowledged messages and their envelopes pair up one to one, each message under its envelope's key. */
  lemma {:induction false} SourcesKeyed(t: seq<Step>, msgs: seq<OutboxMessage>)
    requires Follows(t, msgs)
    ensures |Sources(t)| == |Delivered(t)|
    ensures forall k :: 0 <= k < |Sources(t)| ==> Delivered(t)[k].key == Key(Sources(t)[k].eventType, Sources(t)[k].id)
  {
    if t != [] {
      var n := |t| - 1;
      FollowsPrefix(t, msgs, n);
      SourcesKeyed(t[..n], msgs[..n]);
      var d, s := Delivered(t), Sources(t);
      forall k | 0 <= k < |s| ensures d[k].key == Key(s[k].eventType, s[k].id) {
        if k < |Sources(t[..n])| {
          assert d[k] == Delivered(t[..n])[k] && s[k] == Sources(t[..n])[k];
        }
      }
    }
  }

  /** An acknowledged envelope of an earlier step has a smaller id than the envelope of step `n`. */
  lemma EarlierSources(t: seq<Step>, msgs: seq<OutboxMessage>, n: nat)
    requires Follows(t, msgs) && Ascending(msgs, IdRank) && n < |t|
    ensures forall y :: y in Sources(t[..n]) ==> IdRank(y) < IdRank(msgs[n])
  {
    FollowsPrefix(t, msgs, n);
    SourcesSpec(t[..n], msgs[..n]);
    forall y | y in Sources(t[..n]) ensures IdRank(y) < IdRank(msgs[n]) {
      var j :| 0 <= j < n && t[..n][j].Published? && msgs[..n][j] == y;
      assert msgs[j] == y;
    }
  }

  /** Envelopes reach the broker in fetch order, which is ascending id order. */
  lemma {:induction false} PublishedInOrder(t: seq<Step>, msgs: seq<OutboxMessage>)
    requires Follows(t, msgs) && Ascending(msgs, IdRank)
    ensures Ascending(Sources(t), IdRank)
  {
    if t != [] {
      var n := |t| - 1;
      FollowsPrefix(t, msgs, n);
      AscendingPrefix(msgs, n, IdRank);
      PublishedInOrder(t[..n], msgs[..n]);
      if t[n].Published? {
        EarlierSources(t, msgs, n);
        AscendingSnoc(Sources(t[..n]), t[n].source, IdRank);
      }
    }
  }

  /** With distinct ids, an envelope's key was deleted if and only if its own step published and deleted it. */
  lemma RemovedIff(t: seq<Step>, msgs: seq<OutboxMessage>, i: nat)
    requires Follows(t, msgs) && Ascending(msgs, IdRank) && i < |msgs|
    ensures KeyAmong(msgs[i], Removed(t)) <==> t[i].Published? && t[i].deleted
  {
    RemovedSpec(t);
    if KeyAmong(msgs[i], Removed(t)) {
      var k :| k in Removed(t) && k.bucket == msgs[i].bucket && k.id == msgs[i].id;
      var j :| 0 <= j < |t| && t[j].Published? && t[j].deleted && t[j].source == k;
      DistinctIds(msgs, i, j);
    }
    if t[i].Published? && t[i].deleted {
      assert t[i].source in Removed(t);
    }
  }

  /** With distinct ids, a message under an envelope's key was acknowledged if and only if its own step published it. */
  lemma DeliveredIff(t: seq<Step>, msgs: seq<OutboxMessage>, i: nat)
    requires Follows(t, msgs) && Ascending(msgs, IdRank) && i < |msgs|
    ensures (exists o :: o in Delivered(t) && o.key == Key(msgs[i].eventType, msgs[i].id)) <==> t[i].Published?
    ensures forall o :: o in Delivered(t) && o.key == Key(msgs[i].eventType, msgs[i].id) ==> o == t[i].out
  {
    DeliveredSpec(t);
    forall o | o in Delivered(t) && o.key == Key(msgs[i].eventType, msgs[i].id) ensures t[i].Published? && o == t[i].out {
      var j :| 0 <= j < |t| && t[j].Published? && t[j].out == o;
      KeyInjective(msgs[i].eventType, msgs[i].id, msgs[j].eventType, msgs[j].id);
      DistinctIds(msgs, i, j);
    }
    if t[i].Published? {
      assert t[i].out in Delivered(t);
    }
  }

  /**
   * The outbox after a pass over bucket `bucket`: no envelope appears, an envelope of the
   * pass survives if and only if its step did not delete it, and other buckets keep theirs.
   */
  lemma PassOutcome(t: seq<Step>, table: OutboxTable, bucket: string, b: string)
    requires ValidTable(table) && Follows(t, Pending(table, bucket))
    ensures ValidTable(DeleteAll(table, Removed(t)))
    ensures forall y :: y in Pending(DeleteAll(table, Removed(t)), b) ==> y in Pending(table, b)
    ensures b == bucket ==> forall i :: 0 <= i < |t| ==>
      (Pending(table, bucket)[i] in Pending(DeleteAll(table, Removed(t)), bucket) <==> !(t[i].Published? && t[i].deleted))
    ensures b != bucket ==> forall y :: y in Pending(table, b) ==> y in Pending(DeleteAll(table, Removed(t)), b)
  {
    var msgs := Pending(table, bucket);
    PendingOk(table, bucket);
    PendingOk(table, b);
    DeleteAllSpec(table, Removed(t), b);
    if b == bucket {
      forall i | 0 <= i < |t|
        ensures msgs[i] in Pending(DeleteAll(table, Removed(t)), bucket) <==> !(t[i].Published? && t[i].deleted)
      {
        RemovedIff(t, msgs, i);
        assert msgs[i] in Pending(table, b);
      }
    } else {
      RemovedSpec(t);
      forall k | k in Removed(t) ensures k.bucket == bucket {
        var j :| 0 <= j < |t| && t[j].Published? && t[j].deleted && t[j].source == k;
        assert msgs[j] in msgs;
      }
    }
  }

  /** One more step of a pass: what it adds to the acknowledged messages, and the delete it may add to the store. */
  lemma StepTaken(c: Cluster, t: seq<Step>, i: nat)
    requires i < |t|
    ensures Delivered(t[..i + 1]) == Delivered(t[..i]) + Sent(t[i])
    ensures !(t[i].Published? && t[i].deleted) ==> AfterPass(c, t[..i + 1]) == AfterPass(c, t[..i])
    ensures t[i].Published? && t[i].deleted ==> (AfterPass(c, t[..i + 1]) ==
      var before := AfterPass(c, t[..i]);
      before.(v3 := before.v3.(outbox := Delete(before.v3.outbox, t[i].source.bucket, t[i].source.id))))
  {
    assert t[..i + 1][..i] == t[..i];
    assert Removed(t[..i]) + [] == Removed(t[..i]);
    assert (Removed(t[..i]) + Gone(t[i]))[..|Removed(t[..i])|] == Removed(t[..i]);
  }

  /** A pass in which no step published sends nothing and deletes nothing. */
  lemma {:induction false} NothingPublished(t: seq<Step>)
    requires forall i :: 0 <= i < |t| ==> !t[i].Published?
    ensures Delivered(t) == [] && Removed(t) == []
  {
    if t != [] {
      var n := |t| - 1;
      assert forall i :: 0 <= i < n ==> t[..n][i] == t[i];
      NothingPublished(t[..n]);
    }
  }
}
