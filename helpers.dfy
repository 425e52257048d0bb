/**
 * The older, self-contained relay: it scans the outbox itself, re-tags and publishes
 * envelopes of the two known event types, and deletes an envelope inside the publish
 * step once the broker acknowledged it. Envelopes of any other type are left alone.
 */
module Helpers {
  import opened Base
  import opened Rows
  import opened Outbox
  import opened Storage
  import opened Events
  import opened Messaging
  import opened Repository
  import opened Relay

  /** `publishMessage` for a re-tagged payload: it refuses to run without a producer. */
  function PublishStep(hasProducer: bool, m: OutboxMessage, payload: Bytes, i: nat, env: PassEnv): Step {
    if hasProducer then Attempt(m, payload, i, env) else Failed
  }

  /** The fate of the `i`-th envelope of a pass under `sendToPulsar`. */
  function HelpersStep(json: Json, hasProducer: bool, m: OutboxMessage, i: nat, env: PassEnv): Step {
    if m.eventType == CategoryCreated then
      match HandleCategoryCreated(json.category, m.payload)
      case Err(_) => Failed
      case Ok(payload) => PublishStep(hasProducer, m, payload, i, env)
    else if m.eventType == ProductCreated then
      match HandleProductCreated(json.product, m.payload)
      case Err(_) => Failed
      case Ok(payload) => PublishStep(hasProducer, m, payload, i, env)
    else Ignored
  }

  function HelpersTrace(json: Json, hasProducer: bool, msgs: seq<OutboxMessage>, env: PassEnv): seq<Step> {
    seq(|msgs|, i requires 0 <= i < |msgs| => HelpersStep(json, hasProducer, msgs[i], i, env))
  }

  lemma HelpersFollows(json: Json, hasProducer: bool, msgs: seq<OutboxMessage>, env: PassEnv)
    ensures Follows(HelpersTrace(json, hasProducer, msgs, env), msgs)
  {
  }

  /** Handling envelope `i` extends the pass's trace by that envelope's step. */
  lemma HelpersAdvance(json: Json, hasProducer: bool, msgs: seq<OutboxMessage>, env: PassEnv, c: Cluster, i: nat)
    requires i < |msgs|
    ensures var t, s := HelpersTrace(json, hasProducer, msgs, env), HelpersStep(json, hasProducer, msgs[i], i, env);
      Delivered(t[..i + 1]) == Delivered(t[..i]) + Sent(s)
    ensures var t, s := HelpersTrace(json, hasProducer, msgs, env), HelpersStep(json, hasProducer, msgs[i], i, env);
      AfterPass(c, t[..i + 1]) == if s.Published? && s.deleted
        then AfterPass(c, t[..i]).(v3 := AfterPass(c, t[..i]).v3.(
          outbox := Delete(AfterPass(c, t[..i]).v3.outbox, msgs[i].bucket, msgs[i].id)))
        else AfterPass(c, t[..i])
  {
    var t := HelpersTrace(json, hasProducer, msgs, env);
    assert t[i] == HelpersStep(json, hasProducer, msgs[i], i, env);
    StepTaken(c, t, i);
  }

  /** `helpers.ProcessMessage`: a possibly absent producer and a session; `json` is the codec. */
  class ProcessMessage {
    const producer: Producer?
    const session: Session
    const json: Json

    constructor (producer: Producer?, session: Session, json: Json)
      ensures this.producer == producer && this.session == session && this.json == json
    {
      this.producer := producer;
      this.session := session;
      this.json := json;
    }

    /**
     * `ProcessMessages`: a failed fetch ends the pass with a wrapped error and no effect;
     * otherwise every envelope goes through `sendToPulsar` in fetch order, a failure is
     * only logged, and the pass reports no error.
     */
    method ProcessMessages(env: PassEnv) returns (err: Option<Error>)
      requires session.Valid()
      modifies producer, session
      ensures session.Valid()
      ensures env.fetch.BreaksAfter? ==> err == Some(Wrapped("error fetching messages", env.fetch.error))
      ensures env.fetch.BreaksAfter? ==> session.cluster == old(session.cluster)
      ensures env.fetch.BreaksAfter? && producer != null ==> producer.sent == old(producer.sent)
      ensures env.fetch.Healthy? ==> err.None?
      ensures env.fetch.Healthy? && producer != null ==> (producer.sent ==
        old(producer.sent) + Delivered(HelpersTrace(json, true, Fetched(old(session.cluster), env), env)))
      ensures env.fetch.Healthy? ==> (session.cluster ==
        AfterPass(old(session.cluster), HelpersTrace(json, producer != null, Fetched(old(session.cluster), env), env)))
    {
      var bucket := CurrentBucket(env);
      var messages, fetchErr := FetchMessages(bucket, env.fetch);
      if fetchErr.Some? {
        return Some(Wrapped("error fetching messages", fetchErr.value));
      }
      ghost var c0 := session.cluster;
      ghost var sent0 := if producer != null then producer.sent else [];
      ghost var trace := HelpersTrace(json, producer != null, messages, env);
      assert trace[..0] == [];
      for i := 0 to |messages|
        invariant session.Valid()
        invariant producer != null ==> producer.sent == sent0 + Delivered(trace[..i])
        invariant session.cluster == AfterPass(c0, trace[..i])
      {
        HelpersAdvance(json, producer != null, messages, env, c0, i);
        var sendErr := SendToPulsar(messages[i], i, env);
        if producer != null {
          AppendAssoc(sent0, Delivered(trace[..i]), Sent(HelpersStep(json, true, messages[i], i, env)));
        }
      }
      assert trace[..|messages|] == trace;
      return None;
    }

    /**
     * `FetchMessages`: the rows of `bucket` in ascending id order, or no rows and the
     * iterator's error.
     */
    method FetchMessages(bucket: string, fault: IterFault) returns (messages: seq<OutboxMessage>, err: Option<Error>)
      requires session.Valid()
      ensures fault.Healthy? ==> err.None? && messages == Pending(session.cluster.v3.outbox, bucket)
      ensures fault.BreaksAfter? ==> err == Some(fault.error) && messages == []
      ensures forall m :: m in messages ==> m.bucket == bucket
      ensures Ascending(messages, IdRank)
    {
      var rows := Pending(session.cluster.v3.outbox, bucket);
      PendingOk(session.cluster.v3.outbox, bucket);
      var scanned: seq<OutboxMessage> := [];
      var i := 0;
      while i < |rows| && !(fault.BreaksAfter? && i >= fault.rows)
        invariant 0 <= i <= |rows|
        invariant scanned == rows[..i]
      {
        scanned := scanned + [rows[i]];
        i := i + 1;
      }
      if fault.BreaksAfter? {
        return [], Some(fault.error);
      }
      assert rows[..|rows|] == rows;
      return scanned, None;
    }

    /**
     * `sendToPulsar`: an unknown event type is skipped and reported as success; a payload
     * that does not decode is reported with the handler's error; otherwise the re-tagged
     * payload goes to `publishMessage`.
     */
    method SendToPulsar(message: OutboxMessage, i: nat, env: PassEnv) returns (err: Option<Error>)
      requires session.Valid()
      modifies producer, session
      ensures session.Valid()
      ensures producer != null ==> producer.sent == old(producer.sent) + Sent(HelpersStep(json, true, message, i, env))
      ensures var s, c := HelpersStep(json, producer != null, message, i, env), old(session.cluster);
        session.cluster == if s.Published? && s.deleted
          then c.(v3 := c.v3.(outbox := Delete(c.v3.outbox, message.bucket, message.id)))
          else c
      ensures var s := HelpersStep(json, producer != null, message, i, env);
        err.None? <==> s.Ignored? || (s.Published? && s.deleted)
      ensures message.eventType == CategoryCreated && HandleCategoryCreated(json.category, message.payload).Err? ==>
        err == Some(HandleCategoryCreated(json.category, message.payload).error)
      ensures message.eventType == ProductCreated && HandleProductCreated(json.product, message.payload).Err? ==>
        err == Some(HandleProductCreated(json.product, message.payload).error)
    {
      if message.eventType == CategoryCreated {
        var payload := HandleCategoryCreated(json.category, message.payload);
        if payload.Err? {
          return Some(payload.error);
        }
        err := PublishMessage(message, payload.value, i, env);
      } else if message.eventType == ProductCreated {
        var payload := HandleProductCreated(json.product, message.payload);
        if payload.Err? {
          return Some(payload.error);
        }
        err := PublishMessage(message, payload.value, i, env);
      } else {
        return None;
      }
    }

    /**
     * `publishMessage`: without a producer nothing is sent; a failed or cancelled wait is
     * reported wrapped; an acknowledged message is followed by the delete of its envelope,
     * whose error is reported as is.
     */
    method PublishMessage(message: OutboxMessage, payload: Bytes, i: nat, env: PassEnv) returns (err: Option<Error>)
      requires session.Valid()
      modifies producer, session
      ensures session.Valid()
      ensures producer != null ==> producer.sent == old(producer.sent) + Sent(PublishStep(true, message, payload, i, env))
      ensures var s, c := PublishStep(producer != null, message, payload, i, env), old(session.cluster);
        session.cluster == if s.Published? && s.deleted
          then c.(v3 := c.v3.(outbox := Delete(c.v3.outbox, message.bucket, message.id)))
          else c
      ensures producer == null ==> err == Some(Cause("producer is nil, cannot send messages"))
      ensures producer != null && i in env.publishErrors ==>
        err == Some(Wrapped("failed to publish message", env.publishErrors[i]))
      ensures producer != null && i !in env.publishErrors ==> err == Lookup(env.deleteErrors, i)
    {
      if producer == null {
        return Some(Cause("producer is nil, cannot send messages"));
      }
      var key := Key(message.eventType, message.id);
      var publishErr := producer.Publish(message.eventType, key, payload, Lookup(env.publishErrors, i));
      if publishErr.Some? {
        return Some(Wrapped("failed to publish message", publishErr.value));
      }
      err := DeleteMessage(message, Lookup(env.deleteErrors, i));
    }

    /** `deleteMessage`: removes the row keyed `(message.bucket, message.id)`; the store's error is returned as is. */
    method DeleteMessage(message: OutboxMessage, fault: Option<Error>) returns (err: Option<Error>)
      requires session.Valid()
      modifies session
      ensures session.Valid()
      ensures err == fault
      ensures session.cluster == if fault.None?
        then old(session.cluster).(v3 := old(session.cluster).v3.(
          outbox := Delete(old(session.cluster).v3.outbox, message.bucket, message.id)))
        else old(session.cluster)
    {
      err := session.Exec(V3, DeleteOutbox(message.bucket, message.id), fault);
    }
  }

  /** Whether the relays know an event type. */
  predicate Known(eventType: string) {
    eventType == CategoryCreated || eventType == ProductCreated
  }

  /** The re-tagged payload of an envelope of a known type. */
  function Retagged(json: Json, m: OutboxMessage): Result<Bytes>
    requires Known(m.eventType)
  {
    if m.eventType == CategoryCreated then HandleCategoryCreated(json.category, m.payload)
    else HandleProductCreated(json.product, m.payload)
  }

  /**
   * After a healthy pass an envelope of the bucket is still pending if and only if its
   * type is unknown, it did not decode, there is no producer, or its publish or delete failed.
   */
  lemma HelpersKeeps(json: Json, hasProducer: bool, table: OutboxTable, bucket: string, env: PassEnv, i: nat)
    requires ValidTable(table) && i < |Pending(table, bucket)|
    ensures var m := Pending(table, bucket)[i];
      m in Pending(DeleteAll(table, Removed(HelpersTrace(json, hasProducer, Pending(table, bucket), env))), bucket)
      <==> !Known(m.eventType) || Retagged(json, m).Err? || !hasProducer || i in env.publishErrors || i in env.deleteErrors
  {
    var msgs := Pending(table, bucket);
    var t := HelpersTrace(json, hasProducer, msgs, env);
    HelpersFollows(json, hasProducer, msgs, env);
    PassOutcome(t, table, bucket, bucket);
    assert t[i] == HelpersStep(json, hasProducer, msgs[i], i, env);
    StepDeletes(json, hasProducer, msgs[i], i, env);
  }

  lemma StepDeletes(json: Json, hasProducer: bool, m: OutboxMessage, i: nat, env: PassEnv)
    ensures var s := HelpersStep(json, hasProducer, m, i, env);
      s.Published? && s.deleted
      <==> Known(m.eventType) && Retagged(json, m).Ok? && hasProducer && i !in env.publishErrors && i !in env.deleteErrors
  {
  }

  /**
   * Under an envelope's key the broker receives a message, carrying the re-tagged payload,
   * if and only if the type is known, the payload decoded, there is a producer and the
   * publish was acknowledged.
   */
  lemma HelpersPublishes(json: Json, hasProducer: bool, msgs: seq<OutboxMessage>, env: PassEnv, i: nat)
    requires Ascending(msgs, IdRank) && i < |msgs|
    ensures var m, d := msgs[i], Delivered(HelpersTrace(json, hasProducer, msgs, env));
      (exists o :: o in d && o.key == Key(m.eventType, m.id))
      <==> Known(m.eventType) && Retagged(json, m).Ok? && hasProducer && i !in env.publishErrors
    ensures var m, d := msgs[i], Delivered(HelpersTrace(json, hasProducer, msgs, env));
      forall o :: o in d && o.key == Key(m.eventType, m.id) ==> Known(m.eventType) && o.payload == Retagged(json, m).value
  {
    var t := HelpersTrace(json, hasProducer, msgs, env);
    HelpersFollows(json, hasProducer, msgs, env);
    DeliveredIff(t, msgs, i);
    assert t[i] == HelpersStep(json, hasProducer, msgs[i], i, env);
    StepPublishes(json, hasProducer, msgs[i], i, env);
  }

  lemma StepPublishes(json: Json, hasProducer: bool, m: OutboxMessage, i: nat, env: PassEnv)
    ensures var s := HelpersStep(json, hasProducer, m, i, env);
      s.Published? <==> Known(m.eventType) && Retagged(json, m).Ok? && hasProducer && i !in env.publishErrors
    ensures var s := HelpersStep(json, hasProducer, m, i, env);
      s.Published? ==> Known(m.eventType) && s.out.payload == Retagged(json, m).value
  {
  }

  /** Without a producer a pass publishes nothing and deletes nothing. */
  lemma NoProducerNoEffect(json: Json, msgs: seq<OutboxMessage>, env: PassEnv)
    ensures Delivered(HelpersTrace(json, false, msgs, env)) == []
    ensures Removed(HelpersTrace(json, false, msgs, env)) == []
  {
    var t := HelpersTrace(json, false, msgs, env);
    forall i | 0 <= i < |t| ensures !t[i].Published? {
      assert t[i] == HelpersStep(json, false, msgs[i], i, env);
    }
    NothingPublished(t);
  }
}
