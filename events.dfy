/**
 * Event payloads and the re-taggers of the relay: each decodes an outbox payload,
 * overwrites only its `EventType` field, and encodes it again.
 */
module Events {
  import opened Base
  import opened Calendar

  /** `pb.Category` as it travels in an outbox payload. */
  datatype Category = Category(id: int64, name: string, description: string, createdAt: Instant, eventType: string)

  /** `pb.Product` as it travels in an outbox payload; the price is an integer stand-in for the float. */
  datatype Product = Product(
    id: int64, categoryId: int64, name: string, description: string, price: int, stock: int32,
    createdAt: Instant, updatedAt: Instant, eventType: string)

  /** `encoding/json` for one message type: `Unmarshal` may fail, `Marshal` always succeeds. */
  datatype Codec<!T> = Codec(decode: Bytes -> Result<T>, encode: T -> Bytes)

  /** The codecs of the two message types that outbox payloads carry. */
  datatype Json = Json(category: Codec<Category>, product: Codec<Product>)

  /** Decoding what was encoded gives the value back. */
  ghost predicate Lawful<T(!new)>(c: Codec<T>) {
    forall x :: c.decode(c.encode(x)) == Ok(x)
  }

  const CategoryCreated: string := "category.created"
  const ProductCreated: string := "product.created"

  /** `events.HandleCategoryCreated`. */
  function HandleCategoryCreated(c: Codec<Category>, payload: Bytes): (r: Result<Bytes>)
    ensures r.Err? <==> c.decode(payload).Err?
    ensures Lawful(c) && r.Ok? ==> c.decode(r.value) == Ok(c.decode(payload).value.(eventType := CategoryCreated))
  {
    match c.decode(payload)
    case Err(e) => Err(Wrapped("error unmarshalling category", e))
    case Ok(category) => Ok(c.encode(category.(eventType := CategoryCreated)))
  }

  /** `events.HandleProductCreated`. */
  function HandleProductCreated(c: Codec<Product>, payload: Bytes): (r: Result<Bytes>)
    ensures r.Err? <==> c.decode(payload).Err?
    ensures Lawful(c) && r.Ok? ==> c.decode(r.value) == Ok(c.decode(payload).value.(eventType := ProductCreated))
  {
    match c.decode(payload)
    case Err(e) => Err(Wrapped("error unmarshalling product", e))
    case Ok(product) => Ok(c.encode(product.(eventType := ProductCreated)))
  }

  /** A category payload that does not decode gives an error and no bytes; one that does is tagged
      "category.created" and keeps every other field. */
  lemma CategoryRetagged(c: Codec<Category>, payload: Bytes)
    requires Lawful(c)
    ensures c.decode(payload).Err? ==> HandleCategoryCreated(c, payload).Err?
    ensures c.decode(payload).Ok? ==> HandleCategoryCreated(c, payload).Ok?
    ensures HandleCategoryCreated(c, payload).Ok? ==>
      var d, o := c.decode(payload).value, c.decode(HandleCategoryCreated(c, payload).value).value;
      o.eventType == CategoryCreated
      && o.id == d.id && o.name == d.name && o.description == d.description && o.createdAt == d.createdAt
  {
  }

  /** A product payload that does not decode gives an error and no bytes; one that does is tagged
      "product.created" and keeps every other field. */
  lemma ProductRetagged(c: Codec<Product>, payload: Bytes)
    requires Lawful(c)
    ensures c.decode(payload).Err? ==> HandleProductCreated(c, payload).Err?
    ensures c.decode(payload).Ok? ==> HandleProductCreated(c, payload).Ok?
    ensures HandleProductCreated(c, payload).Ok? ==>
      var d, o := c.decode(payload).value, c.decode(HandleProductCreated(c, payload).value).value;
      o.eventType == ProductCreated
      && o.id == d.id && o.categoryId == d.categoryId && o.name == d.name && o.description == d.description
      && o.price == d.price && o.stock == d.stock && o.createdAt == d.createdAt && o.updatedAt == d.updatedAt
  {
  }

  /** Re-tagging its own output changes nothing: the tag is overwritten, not appended. */
  lemma CategoryRetagIdempotent(c: Codec<Category>, payload: Bytes)
    requires Lawful(c)
    requires HandleCategoryCreated(c, payload).Ok?
    ensures HandleCategoryCreated(c, HandleCategoryCreated(c, payload).value) == HandleCategoryCreated(c, payload)
  {
  }

  /** Re-tagging its own output changes nothing: the tag is overwritten, not appended. */
  lemma ProductRetagIdempotent(c: Codec<Product>, payload: Bytes)
    requires Lawful(c)
    requires HandleProductCreated(c, payload).Ok?
    ensures HandleProductCreated(c, HandleProductCreated(c, payload).value) == HandleProductCreated(c, payload)
  {
  }
}
