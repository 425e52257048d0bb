/**
 * The write side: `ProductCommandController` validates a command, draws an id, and
 * writes the entity row; a product is written together with its outbox envelope in one
 * logged batch.
 */
module Command {
  import opened Base
  import opened Calendar
  import opened TimeUuid
  import opened Rows
  import opened Outbox
  import opened Storage
  import opened Events

  datatype CreateCategoryRequest = CreateCategoryRequest(name: string, description: string)

  /** The price is an integer stand-in for the float; only its comparison with zero matters here. */
  datatype CreateProductRequest = CreateProductRequest(
    name: string, description: string, price: int, stock: int32, categoryId: int64)

  /** Both fields are required. */
  predicate CategoryRequestValid(req: CreateCategoryRequest) {
    req.name != "" && req.description != ""
  }

  /** Every field is required; a zero number counts as missing. */
  predicate ProductRequestValid(req: CreateProductRequest) {
    req.name != "" && req.description != "" && req.price != 0 && req.categoryId != 0 && req.stock != 0
  }

  /** Where the controller writes, and the event type it records on a product's envelope. */
  datatype WriteConfig = WriteConfig(keyspace: KeyspaceName, productEventType: string)

  /** What the controller hard-codes: keyspace `products_keyspace_v2` and the tag "create_product_event". */
  const SourceConfig: WriteConfig := WriteConfig(V2, "create_product_event")

  /** The keyspace the relays and the read side use, and the tag the relays dispatch on. */
  const IntendedConfig: WriteConfig := WriteConfig(V3, ProductCreated)

  /** The product a valid command creates: the request's fields, the new id, created and updated now, no tag. */
  function NewProduct(id: int64, req: CreateProductRequest, now: Instant): Product {
    Product(id, req.categoryId, req.name, req.description, req.price, req.stock, now, now, "")
  }

  /** The `products` row of a product. */
  function RowOf(p: Product): ProductRow {
    ProductRow(p.id, p.name, p.description, p.price, p.stock, p.categoryId, p.createdAt, p.updatedAt)
  }

  /** The outbox envelope of a product written at `now`: today's bucket, the configured tag, the encoded product. */
  function Envelope(config: WriteConfig, json: Json, p: Product, outboxId: Uuid, now: Instant): OutboxMessage {
    OutboxMessage(outboxId, Bucket(now.date), config.productEventType, json.product.encode(p))
  }

  /** The effect of the product batch on the keyspace it is written to. */
  function ProductWrite(k: Keyspace, config: WriteConfig, json: Json, p: Product, outboxId: Uuid, now: Instant): Keyspace {
    ApplyAll(k, [InsertProduct(RowOf(p)), InsertOutbox(Envelope(config, json, p, outboxId, now))])
  }

  /**
   * The product batch keeps the keyspace valid and writes both rows: afterwards the
   * product is in its category's partition and the envelope is pending in its bucket;
   * categories, and every other product and envelope, are kept.
   */
  lemma ProductWriteSpec(k: Keyspace, config: WriteConfig, json: Json, p: Product, outboxId: Uuid, now: Instant, c: int64, b: string)
    requires ValidKeyspace(k)
    ensures var k' := ProductWrite(k, config, json, p, outboxId, now);
      ValidKeyspace(k') && k'.categories == k.categories
    ensures var k' := ProductWrite(k, config, json, p, outboxId, now);
      RowOf(p) in Partition(k', p.categoryId)
      && Envelope(config, json, p, outboxId, now) in Pending(k'.outbox, Bucket(now.date))
    ensures var k' := ProductWrite(k, config, json, p, outboxId, now);
      forall y :: y in Partition(k, c) && !(c == p.categoryId && y.id == p.id) ==> y in Partition(k', c)
    ensures var k' := ProductWrite(k, config, json, p, outboxId, now);
      forall y :: y in Pending(k.outbox, b) && !(b == Bucket(now.date) && y.id == outboxId) ==> y in Pending(k'.outbox, b)
  {
    var m := Envelope(config, json, p, outboxId, now);
    var k1 := Apply(k, InsertProduct(RowOf(p)));
    ApplyValid(k, InsertProduct(RowOf(p)));
    UpsertSpec(Partition(k, p.categoryId), RowOf(p), ProductId);
    InsertSpec(k1.outbox, m, b);
    InsertSpec(k1.outbox, m, m.bucket);
    ApplyValid(k1, InsertOutbox(m));
    var batch := [InsertProduct(RowOf(p)), InsertOutbox(m)];
    assert batch[1..] == [InsertOutbox(m)] && [InsertOutbox(m)][1..] == [];
    assert ApplyAll(k, batch) == ApplyAll(k1, [InsertOutbox(m)]);
    assert ApplyAll(k1, [InsertOutbox(m)]) == ApplyAll(Apply(k1, InsertOutbox(m)), []);
    forall y | y in Partition(k, c) && !(c == p.categoryId && y.id == p.id) ensures y in Partition(k1, c) {
      if c == p.categoryId {
        assert ProductId(y) != ProductId(RowOf(p));
      }
    }
  }

  /** The envelope's payload decodes to exactly the product the controller returns, and its bucket names the write day. */
  lemma EnvelopeCarriesProduct(config: WriteConfig, json: Json, p: Product, outboxId: Uuid, now: Instant)
    requires Lawful(json.product) && ValidDate(now.date)
    ensures json.product.decode(Envelope(config, json, p, outboxId, now).payload) == Ok(p)
    ensures ParseBucket(Envelope(config, json, p, outboxId, now).bucket) == Some(now.date)
  {
    BucketRoundTrip(now.date);
  }

  /** `ProductCommandController`; `json` is the codec of outbox payloads. */
  class ProductCommandController {
    const session: Session
    const config: WriteConfig
    const json: Json

    /** `NewCommandProductCommandController`: the controller as written. */
    constructor (session: Session, json: Json)
      ensures this.session == session && config == SourceConfig && this.json == json
    {
      this.session := session;
      config := SourceConfig;
      this.json := json;
    }

    /** A controller that writes where the relays and the read side look. */
    constructor Corrected(session: Session, json: Json)
      ensures this.session == session && config == IntendedConfig && this.json == json
    {
      this.session := session;
      config := IntendedConfig;
      this.json := json;
    }

    /**
     * `CreateCategory`: an invalid request, a failed id draw or a failed insert changes
     * nothing and gives InvalidArgument, Internal and Internal; otherwise the category row
     * is inserted and returned.
     */
    method CreateCategory(req: CreateCategoryRequest, gen: Result<uint64>, now: Instant, fault: Option<Error>)
      returns (r: Reply<CategoryRow>)
      requires session.Valid()
      modifies session
      ensures session.Valid()
      ensures !CategoryRequestValid(req) ==> r == Failure(InvalidArgument)
      ensures CategoryRequestValid(req) && (gen.Err? || fault.Some?) ==> r == Failure(Internal)
      ensures r.Failure? ==> session.cluster == old(session.cluster)
      ensures CategoryRequestValid(req) && gen.Ok? && fault.None? ==>
        r == Success(CategoryRow(AsInt64(gen.value), req.name, req.description, now))
      ensures r.Success? ==> (session.cluster ==
        old(session.cluster).With(config.keyspace, Apply(old(session.cluster).Get(config.keyspace), InsertCategory(r.value))))
    {
      if req.name == "" || req.description == "" {
        return Failure(InvalidArgument);
      }
      if gen.Err? {
        return Failure(Internal);
      }
      var row := CategoryRow(AsInt64(gen.value), req.name, req.description, now);
      var err := session.Exec(config.keyspace, InsertCategory(row), fault);
      if err.Some? {
        return Failure(Internal);
      }
      return Success(row);
    }

    /**
     * `CreateProduct`: an invalid request, a failed id draw or a failed batch changes
     * nothing; otherwise the product row and its outbox envelope are written together and
     * the product is returned.
     */
    method CreateProduct(req: CreateProductRequest, gen: Result<uint64>, now: Instant, outboxId: Uuid, fault: Option<Error>)
      returns (r: Reply<Product>)
      requires session.Valid()
      modifies session
      ensures session.Valid()
      ensures !ProductRequestValid(req) ==> r == Failure(InvalidArgument)
      ensures ProductRequestValid(req) && (gen.Err? || fault.Some?) ==> r == Failure(Internal)
      ensures r.Failure? ==> session.cluster == old(session.cluster)
      ensures ProductRequestValid(req) && gen.Ok? && fault.None? ==> r == Success(NewProduct(AsInt64(gen.value), req, now))
      ensures r.Success? ==> session.cluster == old(session.cluster).With(config.keyspace,
        ProductWrite(old(session.cluster).Get(config.keyspace), config, json, r.value, outboxId, now))
    {
      if req.name == "" || req.description == "" || req.price == 0 || req.categoryId == 0 || req.stock == 0 {
        return Failure(InvalidArgument);
      }
      if gen.Err? {
        return Failure(Internal);
      }
      var product := NewProduct(AsInt64(gen.value), req, now);
      var payload := json.product.encode(product);
      var envelope := OutboxMessage(outboxId, Bucket(now.date), config.productEventType, payload);
      var batch: seq<Statement> := [];
      batch := batch + [InsertProduct(RowOf(product))];
      batch := batch + [InsertOutbox(envelope)];
      var err := session.ExecuteBatch(config.keyspace, batch, fault);
      if err.Some? {
        return Failure(Internal);
      }
      return Success(product);
    }
  }
}
