/**
 * The services together: a relay pass as a function of the store, several passes in a
 * row, the two relays side by side, and what a product or category written by the
 * command side becomes downstream, with the controller as written (keyspace
 * `products_keyspace_v2`, tag "create_product_event") and as evidently intended
 * (keyspace `products_keyspace_v3`, tag "product.created").
 */
module Pipeline {
  import opened Base
  import opened Calendar
  import opened TimeUuid
  import opened Rows
  import opened Outbox
  import opened Storage
  import opened Events
  import opened Messaging
  import opened Relay
  import opened Processor
  import opened Helpers
  import opened Command
  import opened Query

  /** The store after one pass of the `processor` relay: what its `ProcessMessages` leaves behind. */
  function ProcessorPass(json: Json, c: Cluster, env: PassEnv): Cluster {
    if env.fetch.Healthy? then AfterPass(c, ProcessorTrace(json, Fetched(c, env), env)) else c
  }

  /** The store after one pass of the `helpers` relay. */
  function HelpersPass(json: Json, hasProducer: bool, c: Cluster, env: PassEnv): Cluster {
    if env.fetch.Healthy? then AfterPass(c, HelpersTrace(json, hasProducer, Fetched(c, env), env)) else c
  }

  /** The store after consecutive passes of the `processor` relay, one per environment, in order. */
  function ProcessorPasses(json: Json, c: Cluster, envs: seq<PassEnv>): Cluster {
    if envs == [] then c
    else ProcessorPass(json, ProcessorPasses(json, c, envs[..|envs| - 1]), envs[|envs| - 1])
  }

  /** The store after consecutive passes of the `helpers` relay, one per environment, in order. */
  function HelpersPasses(json: Json, hasProducer: bool, c: Cluster, envs: seq<PassEnv>): Cluster {
    if envs == [] then c
    else HelpersPass(json, hasProducer, HelpersPasses(json, hasProducer, c, envs[..|envs| - 1]), envs[|envs| - 1])
  }

  /**
   * A `processor` pass keeps the store valid and touches only the outbox of
   * `products_keyspace_v3`. An envelope it leaves behind (its handler, publish or delete
   * failed) is fetched again by the next pass of the same day; one it delivered and
   * deleted is not fetched by that pass (nor by any later one: `DeliveredNeverFetchedAgain`).
   */
  lemma ProcessorPassSpec(json: Json, c: Cluster, env: PassEnv, next: PassEnv, i: nat)
    requires ValidCluster(c) && env.fetch.Healthy? && i < |Fetched(c, env)| && next.now.date == env.now.date
    ensures var c' := ProcessorPass(json, c, env);
      ValidCluster(c') && c'.v2 == c.v2 && c'.v3.categories == c.v3.categories && c'.v3.products == c.v3.products
    ensures var m := Fetched(c, env)[i];
      (m in Fetched(ProcessorPass(json, c, env), next)
      <==> HandleEvent(json, m).Err? || i in env.publishErrors || i in env.deleteErrors)
  {
    var table, bucket := c.v3.outbox, CurrentBucket(env);
    var t := ProcessorTrace(json, Pending(table, bucket), env);
    ProcessorFollows(json, Pending(table, bucket), env);
    PassOutcome(t, table, bucket, bucket);
    ProcessorKeeps(json, table, bucket, env, i);
  }

  /** A `processor` pass keeps the store valid and puts no envelope into any bucket: it only deletes. */
  lemma ProcessorPassAddsNothing(json: Json, c: Cluster, env: PassEnv, b: string, m: OutboxMessage)
    requires ValidCluster(c) && m !in Pending(c.v3.outbox, b)
    ensures ValidCluster(ProcessorPass(json, c, env))
    ensures m !in Pending(ProcessorPass(json, c, env).v3.outbox, b)
  {
    if env.fetch.Healthy? {
      var table, bucket := c.v3.outbox, CurrentBucket(env);
      ProcessorFollows(json, Pending(table, bucket), env);
      PassOutcome(ProcessorTrace(json, Pending(table, bucket), env), table, bucket, b);
    }
  }

  /** An envelope absent from a bucket stays absent through any number of `processor` passes. */
  lemma {:induction false} ProcessorGoneStaysGone(json: Json, c: Cluster, envs: seq<PassEnv>, b: string, m: OutboxMessage)
    requires ValidCluster(c) && m !in Pending(c.v3.outbox, b)
    ensures ValidCluster(ProcessorPasses(json, c, envs))
    ensures m !in Pending(ProcessorPasses(json, c, envs).v3.outbox, b)
  {
    if envs != [] {
      var n := |envs| - 1;
      ProcessorGoneStaysGone(json, c, envs[..n], b, m);
      ProcessorPassAddsNothing(json, ProcessorPasses(json, c, envs[..n]), envs[n], b, m);
    }
  }

  /**
   * An envelope that a `processor` pass delivered and deleted is fetched by no later pass,
   * however many passes follow and whatever day each of them runs on.
   */
  lemma DeliveredNeverFetchedAgain(json: Json, c: Cluster, env: PassEnv, i: nat, envs: seq<PassEnv>, later: PassEnv)
    requires ValidCluster(c) && env.fetch.Healthy? && i < |Fetched(c, env)|
    requires HandleEvent(json, Fetched(c, env)[i]).Ok? && i !in env.publishErrors && i !in env.deleteErrors
    ensures Fetched(c, env)[i] !in Fetched(ProcessorPasses(json, ProcessorPass(json, c, env), envs), later)
  {
    var table, bucket, b := c.v3.outbox, CurrentBucket(env), CurrentBucket(later);
    var m := Fetched(c, env)[i];
    var t := ProcessorTrace(json, Pending(table, bucket), env);
    ProcessorFollows(json, Pending(table, bucket), env);
    PassOutcome(t, table, bucket, b);
    if b == bucket {
      ProcessorKeeps(json, table, bucket, env, i);
    } else {
      PendingOk(table, bucket);
      PendingOk(table, b);
    }
    ProcessorGoneStaysGone(json, ProcessorPass(json, c, env), envs, b, m);
  }

  /** A `helpers` pass keeps the store valid and leaves an envelope of an unknown type where it was. */
  lemma HelpersPassKeepsUnknown(json: Json, hasProducer: bool, c: Cluster, env: PassEnv, b: string, m: OutboxMessage)
    requires ValidCluster(c) && m in Pending(c.v3.outbox, b) && !Known(m.eventType)
    ensures ValidCluster(HelpersPass(json, hasProducer, c, env))
    ensures m in Pending(HelpersPass(json, hasProducer, c, env).v3.outbox, b)
  {
    if env.fetch.Healthy? {
      var table, bucket := c.v3.outbox, CurrentBucket(env);
      var msgs := Pending(table, bucket);
      HelpersFollows(json, hasProducer, msgs, env);
      PassOutcome(HelpersTrace(json, hasProducer, msgs, env), table, bucket, b);
      if b == bucket {
        var i :| 0 <= i < |msgs| && msgs[i] == m;
        HelpersKeeps(json, hasProducer, table, bucket, env, i);
      }
    }
  }

  /**
   * Unknown-type stickiness: under the `helpers` relay an envelope of an unknown type
   * survives any number of passes, whatever the clock, the scans and the broker do.
   */
  lemma {:induction false} UnknownSticky(json: Json, hasProducer: bool, c: Cluster, envs: seq<PassEnv>, b: string, m: OutboxMessage)
    requires ValidCluster(c) && m in Pending(c.v3.outbox, b) && !Known(m.eventType)
    ensures ValidCluster(HelpersPasses(json, hasProducer, c, envs))
    ensures m in Pending(HelpersPasses(json, hasProducer, c, envs).v3.outbox, b)
  {
    if envs != [] {
      var n := |envs| - 1;
      UnknownSticky(json, hasProducer, c, envs[..n], b, m);
      HelpersPassKeepsUnknown(json, hasProducer, HelpersPasses(json, hasProducer, c, envs[..n]), envs[n], b, m);
    }
  }

  /** On a bucket of known event types only, the two relays take the same steps. */
  lemma VariantsAgree(json: Json, msgs: seq<OutboxMessage>, env: PassEnv)
    requires forall i :: 0 <= i < |msgs| ==> Known(msgs[i].eventType)
    ensures ProcessorTrace(json, msgs, env) == HelpersTrace(json, true, msgs, env)
  {
    forall i | 0 <= i < |msgs|
      ensures ProcessorTrace(json, msgs, env)[i] == HelpersTrace(json, true, msgs, env)[i]
    {
      assert Known(msgs[i].eventType);
    }
  }

  /**
   * Where the relays differ: an envelope of an unknown type, whose publish and delete
   * would succeed, is published empty and deleted by `processor`, and neither published
   * nor deleted by `helpers`.
   */
  lemma VariantsDifferOnUnknown(json: Json, table: OutboxTable, bucket: string, env: PassEnv, i: nat)
    requires ValidTable(table) && i < |Pending(table, bucket)| && !Known(Pending(table, bucket)[i].eventType)
    requires i !in env.publishErrors && i !in env.deleteErrors
    ensures var m, t := Pending(table, bucket)[i], ProcessorTrace(json, Pending(table, bucket), env);
      BrokerMessage(Key(m.eventType, m.id), []) in Delivered(t) && m !in Pending(DeleteAll(table, Removed(t)), bucket)
    ensures var m, t := Pending(table, bucket)[i], HelpersTrace(json, true, Pending(table, bucket), env);
      (forall o :: o in Delivered(t) ==> o.key != Key(m.eventType, m.id))
      && m in Pending(DeleteAll(table, Removed(t)), bucket)
  {
    var msgs := Pending(table, bucket);
    UnknownTypePublishedEmpty(json, table, bucket, env, i);
    HelpersKeeps(json, true, table, bucket, env, i);
    PendingOk(table, bucket);
    HelpersPublishes(json, true, msgs, env, i);
  }

  /** The store after `CreateProduct` succeeds under `config`. */
  function WroteProduct(c: Cluster, config: WriteConfig, json: Json, p: Product, outboxId: Uuid, now: Instant): Cluster {
    c.With(config.keyspace, ProductWrite(c.Get(config.keyspace), config, json, p, outboxId, now))
  }

  /** The store after `CreateCategory` succeeds under `config`. */
  function WroteCategory(c: Cluster, config: WriteConfig, row: CategoryRow): Cluster {
    c.With(config.keyspace, Apply(c.Get(config.keyspace), InsertCategory(row)))
  }

  /**
   * As written, `CreateProduct` puts its envelope in `products_keyspace_v2`, which no
   * relay reads: a pass fetches exactly what it fetched before the write, never the new
   * envelope, and the envelope stays behind in `products_keyspace_v2` after the pass.
   */
  lemma SourceWriteInvisibleToRelay(json: Json, c: Cluster, p: Product, outboxId: Uuid, now: Instant, env: PassEnv)
    requires ValidCluster(c) && forall y :: y in Fetched(c, env) ==> y.id != outboxId
    ensures var c' := WroteProduct(c, SourceConfig, json, p, outboxId, now);
      Fetched(c', env) == Fetched(c, env) && Envelope(SourceConfig, json, p, outboxId, now) !in Fetched(c', env)
    ensures var c' := WroteProduct(c, SourceConfig, json, p, outboxId, now);
      Envelope(SourceConfig, json, p, outboxId, now) in Pending(ProcessorPass(json, c', env).v2.outbox, Bucket(now.date))
  {
    ProductWriteSpec(c.v2, SourceConfig, json, p, outboxId, now, p.categoryId, Bucket(now.date));
  }

  /**
   * With the keyspace and tag the relays use, a product written by `CreateProduct` is
   * published by the next `processor` pass of that day whose broker and store do not fail:
   * under key "product.created:<outbox id>", carrying the product tagged "product.created".
   * Its envelope is then deleted, and the product row stays.
   */
  lemma IntendedWriteRelayed(json: Json, c: Cluster, p: Product, outboxId: Uuid, now: Instant, env: PassEnv)
    requires ValidCluster(c) && Lawful(json.product)
    requires env.now.date == now.date && env.fetch.Healthy? && env.publishErrors == map[] && env.deleteErrors == map[]
    ensures var c' := WroteProduct(c, IntendedConfig, json, p, outboxId, now);
      BrokerMessage(Key(ProductCreated, outboxId), json.product.encode(p.(eventType := ProductCreated)))
        in Delivered(ProcessorTrace(json, Fetched(c', env), env))
    ensures var c' := WroteProduct(c, IntendedConfig, json, p, outboxId, now);
      Envelope(IntendedConfig, json, p, outboxId, now) !in Fetched(ProcessorPass(json, c', env), env)
      && RowOf(p) in Partition(ProcessorPass(json, c', env).v3, p.categoryId)
  {
    var c' := WroteProduct(c, IntendedConfig, json, p, outboxId, now);
    var k' := ProductWrite(c.v3, IntendedConfig, json, p, outboxId, now);
    var m := Envelope(IntendedConfig, json, p, outboxId, now);
    var payload := json.product.encode(p.(eventType := ProductCreated));
    ProductWriteSpec(c.v3, IntendedConfig, json, p, outboxId, now, p.categoryId, Bucket(now.date));
    var msgs := Fetched(c', env);
    assert msgs == Pending(k'.outbox, Bucket(now.date));
    var i :| 0 <= i < |msgs| && msgs[i] == m;
    PendingOk(k'.outbox, Bucket(now.date));
    assert json.product.decode(json.product.encode(p)) == Ok(p);
    assert HandleEvent(json, m) == Ok(payload);
    ProcessorPublishes(json, msgs, env, i);
    var o :| o in Delivered(ProcessorTrace(json, msgs, env)) && o.key == Key(m.eventType, m.id);
    assert o == BrokerMessage(Key(ProductCreated, outboxId), payload);
    ProcessorKeeps(json, k'.outbox, Bucket(now.date), env, i);
  }

  /**
   * As written, the envelope's tag "create_product_event" is one neither relay knows:
   * even in the keyspace the relays read, `helpers` leaves the envelope pending through
   * any number of passes, and `processor` publishes it with an empty payload, without
   * the product.
   */
  lemma SourceTagNotRelayed(json: Json, hasProducer: bool, c: Cluster, p: Product, outboxId: Uuid, now: Instant,
                            envs: seq<PassEnv>, env: PassEnv)
    requires ValidCluster(c)
    requires env.now.date == now.date && env.fetch.Healthy? && env.publishErrors == map[]
    ensures var config := WriteConfig(V3, SourceConfig.productEventType);
      Envelope(config, json, p, outboxId, now)
        in Pending(HelpersPasses(json, hasProducer, WroteProduct(c, config, json, p, outboxId, now), envs).v3.outbox, Bucket(now.date))
    ensures var config := WriteConfig(V3, SourceConfig.productEventType);
      BrokerMessage(Key(SourceConfig.productEventType, outboxId), [])
        in Delivered(ProcessorTrace(json, Fetched(WroteProduct(c, config, json, p, outboxId, now), env), env))
  {
    var config := WriteConfig(V3, SourceConfig.productEventType);
    var c' := WroteProduct(c, config, json, p, outboxId, now);
    var k' := ProductWrite(c.v3, config, json, p, outboxId, now);
    var m := Envelope(config, json, p, outboxId, now);
    ProductWriteSpec(c.v3, config, json, p, outboxId, now, p.categoryId, Bucket(now.date));
    assert c'.v3 == k' && c'.v2 == c.v2;
    UnknownSticky(json, hasProducer, c', envs, Bucket(now.date), m);
    var msgs := Fetched(c', env);
    var i :| 0 <= i < |msgs| && msgs[i] == m;
    UnknownTypePublishedEmpty(json, k'.outbox, Bucket(now.date), env, i);
  }

  /**
   * With the tag the relays dispatch on, `helpers` with a producer publishes the product
   * tagged "product.created" under its key and deletes the envelope, given a day whose
   * broker and store do not fail.
   */
  lemma IntendedTagRelayedByHelpers(json: Json, c: Cluster, p: Product, outboxId: Uuid, now: Instant, env: PassEnv)
    requires ValidCluster(c) && Lawful(json.product)
    requires env.now.date == now.date && env.fetch.Healthy? && env.publishErrors == map[] && env.deleteErrors == map[]
    ensures var c' := WroteProduct(c, IntendedConfig, json, p, outboxId, now);
      BrokerMessage(Key(ProductCreated, outboxId), json.product.encode(p.(eventType := ProductCreated)))
        in Delivered(HelpersTrace(json, true, Fetched(c', env), env))
    ensures var c' := WroteProduct(c, IntendedConfig, json, p, outboxId, now);
      Envelope(IntendedConfig, json, p, outboxId, now) !in Pending(HelpersPass(json, true, c', env).v3.outbox, Bucket(now.date))
  {
    var c' := WroteProduct(c, IntendedConfig, json, p, outboxId, now);
    var k' := ProductWrite(c.v3, IntendedConfig, json, p, outboxId, now);
    var m := Envelope(IntendedConfig, json, p, outboxId, now);
    var payload := json.product.encode(p.(eventType := ProductCreated));
    ProductWriteSpec(c.v3, IntendedConfig, json, p, outboxId, now, p.categoryId, Bucket(now.date));
    var msgs := Fetched(c', env);
    assert msgs == Pending(k'.outbox, Bucket(now.date));
    var i :| 0 <= i < |msgs| && msgs[i] == m;
    PendingOk(k'.outbox, Bucket(now.date));
    assert json.product.decode(json.product.encode(p)) == Ok(p);
    assert Known(m.eventType) && Retagged(json, m) == Ok(payload);
    HelpersPublishes(json, true, msgs, env, i);
    var o :| o in Delivered(HelpersTrace(json, true, msgs, env)) && o.key == Key(m.eventType, m.id);
    assert o == BrokerMessage(Key(ProductCreated, outboxId), payload);
    HelpersKeeps(json, true, k'.outbox, Bucket(now.date), env, i);
  }

  /**
   * As written, `CreateCategory` inserts into `products_keyspace_v2` while `GetCategory`
   * reads `products_keyspace_v3`: a category new to v3 is NotFound right after it was created.
   */
  lemma SourceCategoryNotFound(c: Cluster, row: CategoryRow)
    requires row.id != 0 && row.id !in c.v3.categories
    ensures GetCategory(WroteCategory(c, SourceConfig, row), row.id, None) == Failure(NotFound)
  {
  }

  /** Writing where the read side looks, a created category is read back as it was returned. */
  lemma IntendedCategoryFound(c: Cluster, row: CategoryRow)
    requires row.id != 0
    ensures GetCategory(WroteCategory(c, IntendedConfig, row), row.id, None) == Success(row)
  {
  }

  /**
   * As written, `CreateProduct` inserts into `products_keyspace_v2` while `GetProduct`
   * reads `products_keyspace_v3`: a product new to v3 is NotFound right after it was created.
   */
  lemma SourceProductNotFound(json: Json, c: Cluster, p: Product, outboxId: Uuid, now: Instant)
    requires p.categoryId != 0 && p.id != 0 && forall y :: y in Partition(c.v3, p.categoryId) ==> y.id != p.id
    ensures GetProduct(WroteProduct(c, SourceConfig, json, p, outboxId, now), p.categoryId, p.id, None) == Failure(NotFound)
  {
  }

  /** Writing where the read side looks, a created product is read back exactly as `CreateProduct` returned it. */
  lemma IntendedProductFound(json: Json, c: Cluster, req: CreateProductRequest, id: int64, outboxId: Uuid, now: Instant)
    requires ValidCluster(c) && ProductRequestValid(req) && id != 0
    ensures var p := NewProduct(id, req, now);
      GetProduct(WroteProduct(c, IntendedConfig, json, p, outboxId, now), p.categoryId, p.id, None) == Success(p)
  {
    var p := NewProduct(id, req, now);
    var k' := ProductWrite(c.v3, IntendedConfig, json, p, outboxId, now);
    ProductWriteSpec(c.v3, IntendedConfig, json, p, outboxId, now, p.categoryId, Bucket(now.date));
    var c' := WroteProduct(c, IntendedConfig, json, p, outboxId, now);
    assert c'.v3 == k';
    var part := Partition(k', p.categoryId);
    assert p.categoryId in k'.products && ProductsOk(part, p.categoryId);
    var r := GetProduct(c', p.categoryId, p.id, None);
    assert RowOf(p) in part && RowOf(p).id == p.id;
    var row :| row in part && row.id == p.id && r.value == ToProduct(row, row.categoryId);
    AscendingUnique(part, row, RowOf(p), ProductId);
  }
}
