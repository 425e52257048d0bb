/**
 * The relay behind the `OutboxRepository` and `MessageProducer` interfaces: each pass
 * fetches the current bucket, re-tags every envelope's payload, publishes it under its
 * key and deletes the envelope once the broker acknowledged it.
 */
module Processor {
  import opened Base
  import opened Rows
  import opened Outbox
  import opened Storage
  import opened Events
  import opened Messaging
  import opened Repository
  import opened Relay

  /**
   * `handleEvent`: the two known event types are re-tagged by their handlers, which fail
   * exactly when the payload does not decode; an unknown event type is skipped with an
   * empty payload and no error.
   */
  function HandleEvent(json: Json, m: OutboxMessage): (r: Result<Bytes>)
    ensures r.Err? <==>
      (m.eventType == CategoryCreated && json.category.decode(m.payload).Err?)
      || (m.eventType == ProductCreated && json.product.decode(m.payload).Err?)
    ensures m.eventType == CategoryCreated && Lawful(json.category) && r.Ok? ==>
      json.category.decode(r.value) == Ok(json.category.decode(m.payload).value.(eventType := CategoryCreated))
    ensures m.eventType == ProductCreated && Lawful(json.product) && r.Ok? ==>
      json.product.decode(r.value) == Ok(json.product.decode(m.payload).value.(eventType := ProductCreated))
    ensures m.eventType != CategoryCreated && m.eventType != ProductCreated ==> r == Ok([])
  {
    if m.eventType == CategoryCreated then HandleCategoryCreated(json.category, m.payload)
    else if m.eventType == ProductCreated then HandleProductCreated(json.product, m.payload)
    else Ok([])
  }

  /** The fate of the `i`-th envelope of a pass. */
  function ProcessorStep(json: Json, m: OutboxMessage, i: nat, env: PassEnv): Step {
    match HandleEvent(json, m)
    case Err(_) => Failed
    case Ok(payload) => Attempt(m, payload, i, env)
  }

  function ProcessorTrace(json: Json, msgs: seq<OutboxMessage>, env: PassEnv): seq<Step> {
    seq(|msgs|, i requires 0 <= i < |msgs| => ProcessorStep(json, msgs[i], i, env))
  }

  lemma ProcessorFollows(json: Json, msgs: seq<OutboxMessage>, env: PassEnv)
    ensures Follows(ProcessorTrace(json, msgs, env), msgs)
  {
  }

  /** Handling envelope `i` extends the pass's trace by that envelope's step. */
  lemma ProcessorAdvance(json: Json, msgs: seq<OutboxMessage>, env: PassEnv, c: Cluster, i: nat)
    requires i < |msgs|
    ensures var t, s := ProcessorTrace(json, msgs, env), ProcessorStep(json, msgs[i], i, env);
      Delivered(t[..i + 1]) == Delivered(t[..i]) + Sent(s)
    ensures var t, s := ProcessorTrace(json, msgs, env), ProcessorStep(json, msgs[i], i, env);
      AfterPass(c, t[..i + 1]) == if s.Published? && s.deleted
        then AfterPass(c, t[..i]).(v3 := AfterPass(c, t[..i]).v3.(
          outbox := Delete(AfterPass(c, t[..i]).v3.outbox, msgs[i].bucket, msgs[i].id)))
        else AfterPass(c, t[..i])
  {
    var t := ProcessorTrace(json, msgs, env);
    assert t[i] == ProcessorStep(json, msgs[i], i, env);
    StepTaken(c, t, i);
  }

  /** `ProcessMessage`; `json` is the codec the event handlers use. */
  class ProcessMessage {
    const producer: Producer
    const repo: CassandraOutboxRepository
    const json: Json

    constructor (producer: Producer, repo: CassandraOutboxRepository, json: Json)
      ensures this.producer == producer && this.repo == repo && this.json == json
    {
      this.producer := producer;
      this.repo := repo;
      this.json := json;
    }

    /**
     * `ProcessMessages`: a failed fetch ends the pass with a wrapped error and no effect;
     * otherwise every envelope is handled in fetch order, per-envelope failures are only
     * logged, and the pass reports no error.
     */
    method ProcessMessages(env: PassEnv) returns (err: Option<Error>)
      requires repo.session.Valid()
      modifies producer, repo.session
      ensures repo.session.Valid()
      ensures env.fetch.BreaksAfter? ==> err == Some(Wrapped("error fetching messages", env.fetch.error))
      ensures env.fetch.BreaksAfter? ==> producer.sent == old(producer.sent) && repo.session.cluster == old(repo.session.cluster)
      ensures env.fetch.Healthy? ==> err.None?
      ensures env.fetch.Healthy? ==> (producer.sent ==
        old(producer.sent) + Delivered(ProcessorTrace(json, Fetched(old(repo.session.cluster), env), env)))
      ensures env.fetch.Healthy? ==> (repo.session.cluster ==
        AfterPass(old(repo.session.cluster), ProcessorTrace(json, Fetched(old(repo.session.cluster), env), env)))
    {
      var bucket := CurrentBucket(env);
      var messages, fetchErr := repo.FetchMessages(bucket, env.fetch);
      if fetchErr.Some? {
        return Some(Wrapped("error fetching messages", fetchErr.value));
      }
      ghost var c0 := repo.session.cluster;
      ghost var sent0 := producer.sent;
      ghost var trace := ProcessorTrace(json, messages, env);
      assert trace[..0] == [];
      for i := 0 to |messages|
        invariant repo.session.Valid()
        invariant producer.sent == sent0 + Delivered(trace[..i])
        invariant repo.session.cluster == AfterPass(c0, trace[..i])
      {
        ProcessorAdvance(json, messages, env, c0, i);
        Forward(messages[i], i, env);
        AppendAssoc(sent0, Delivered(trace[..i]), Sent(ProcessorStep(json, messages[i], i, env)));
      }
      assert trace[..|messages|] == trace;
      return None;
    }

    /** One turn of the loop in `ProcessMessages`: handle, publish, then delete; a failure only ends the turn. */
    method Forward(message: OutboxMessage, i: nat, env: PassEnv)
      requires repo.session.Valid()
      modifies producer, repo.session
      ensures repo.session.Valid()
      ensures producer.sent == old(producer.sent) + Sent(ProcessorStep(json, message, i, env))
      ensures var s, c := ProcessorStep(json, message, i, env), old(repo.session.cluster);
        repo.session.cluster == if s.Published? && s.deleted
          then c.(v3 := c.v3.(outbox := Delete(c.v3.outbox, message.bucket, message.id)))
          else c
    {
      var payload := HandleEvent(json, message);
      if payload.Err? {
        return;
      }
      var key := Key(message.eventType, message.id);
      var publishErr := producer.Publish(message.eventType, key, payload.value, Lookup(env.publishErrors, i));
      if publishErr.Some? {
        return;
      }
      var deleteErr := repo.DeleteMessage(message, Lookup(env.deleteErrors, i));
    }
  }

  /**
   * After a healthy pass an envelope of the bucket is still pending if and only if its
   * handler failed, its publish failed, or its delete failed.
   */
  lemma ProcessorKeeps(json: Json, table: OutboxTable, bucket: string, env: PassEnv, i: nat)
    requires ValidTable(table) && i < |Pending(table, bucket)|
    ensures var m := Pending(table, bucket)[i];
      m in Pending(DeleteAll(table, Removed(ProcessorTrace(json, Pending(table, bucket), env))), bucket)
      <==> HandleEvent(json, m).Err? || i in env.publishErrors || i in env.deleteErrors
  {
    var msgs := Pending(table, bucket);
    ProcessorFollows(json, msgs, env);
    PassOutcome(ProcessorTrace(json, msgs, env), table, bucket, bucket);
  }

  /**
   * Under an envelope's key the broker receives exactly one message, carrying the
   * re-tagged payload, if and only if the handler succeeded and the publish was acknowledged.
   */
  lemma ProcessorPublishes(json: Json, msgs: seq<OutboxMessage>, env: PassEnv, i: nat)
    requires Ascending(msgs, IdRank) && i < |msgs|
    ensures var m, d := msgs[i], Delivered(ProcessorTrace(json, msgs, env));
      (exists o :: o in d && o.key == Key(m.eventType, m.id)) <==> HandleEvent(json, m).Ok? && i !in env.publishErrors
    ensures var m, d := msgs[i], Delivered(ProcessorTrace(json, msgs, env));
      forall o :: o in d && o.key == Key(m.eventType, m.id) ==> o.payload == HandleEvent(json, m).value
  {
    ProcessorFollows(json, msgs, env);
    DeliveredIff(ProcessorTrace(json, msgs, env), msgs, i);
  }

  /**
   * An envelope whose event type is unknown is published with an empty payload and,
   * once acknowledged, deleted like any other.
   */
  lemma UnknownTypePublishedEmpty(json: Json, table: OutboxTable, bucket: string, env: PassEnv, i: nat)
    requires ValidTable(table) && i < |Pending(table, bucket)|
    requires Pending(table, bucket)[i].eventType != CategoryCreated && Pending(table, bucket)[i].eventType != ProductCreated
    ensures var m, t := Pending(table, bucket)[i], ProcessorTrace(json, Pending(table, bucket), env);
      i !in env.publishErrors ==> BrokerMessage(Key(m.eventType, m.id), []) in Delivered(t)
    ensures var m, t := Pending(table, bucket)[i], ProcessorTrace(json, Pending(table, bucket), env);
      m !in Pending(DeleteAll(table, Removed(t)), bucket) <==> i !in env.publishErrors && i !in env.deleteErrors
  {
    var msgs := Pending(table, bucket);
    var t := ProcessorTrace(json, msgs, env);
    ProcessorKeeps(json, table, bucket, env, i);
    DeliveredSpec(t);
    assert t[i] == ProcessorStep(json, msgs[i], i, env);
  }
}
