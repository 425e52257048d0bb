/**
 * The column store the services share: two keyspaces (`products_keyspace_v2` and
 * `products_keyspace_v3`), each with a categories table, a products table partitioned
 * by category, and an outbox table; CQL statements over them; and the session that
 * executes statements and logged batches.
 */
module Storage {
  import opened Base
  import opened Calendar
  import opened TimeUuid
  import opened Rows
  import opened Outbox

  /** A row of `categories`, primary key `id`. */
  datatype CategoryRow = CategoryRow(id: int64, name: string, description: string, createdAt: Instant)

  /** A row of `products`, primary key `((category_id), id)`. */
  datatype ProductRow = ProductRow(
    id: int64, name: string, description: string, price: int, stock: int32, categoryId: int64,
    createdAt: Instant, updatedAt: Instant)

  /** The clustering key of a product row inside its category partition. */
  function ProductId(r: ProductRow): int {
    r.id
  }

  /**
   * One keyspace. The outbox table is named `products_outbox` in v2 and `outbox` in v3;
   * both have the same columns and key.
   */
  datatype Keyspace = Keyspace(
    categories: map<int64, CategoryRow>,
    products: map<int64, seq<ProductRow>>,
    outbox: OutboxTable)

  ghost predicate ValidKeyspace(k: Keyspace) {
    && ValidTable(k.outbox)
    && (forall c :: c in k.products ==> ProductsOk(k.products[c], c))
  }

  ghost predicate ProductsOk(s: seq<ProductRow>, categoryId: int64) {
    Ascending(s, ProductId) && forall r :: r in s ==> r.categoryId == categoryId
  }

  /** The product rows of one category in clustering order; an absent partition has none. */
  function Partition(k: Keyspace, categoryId: int64): seq<ProductRow> {
    if categoryId in k.products then k.products[categoryId] else []
  }

  datatype KeyspaceName = V2 | V3

  /** The whole store: `products_keyspace_v2` and `products_keyspace_v3`. */
  datatype Cluster = Cluster(v2: Keyspace, v3: Keyspace) {
    function Get(n: KeyspaceName): Keyspace {
      match n
      case V2 => v2
      case V3 => v3
    }

    function With(n: KeyspaceName, k: Keyspace): (c: Cluster)
      ensures c.Get(n) == k
      ensures forall m :: m != n ==> c.Get(m) == Get(m)
    {
      match n
      case V2 => this.(v2 := k)
      case V3 => this.(v3 := k)
    }
  }

  ghost predicate ValidCluster(c: Cluster) {
    ValidKeyspace(c.v2) && ValidKeyspace(c.v3)
  }

  /** The CQL statements the services issue. */
  datatype Statement =
    | InsertCategory(category: CategoryRow)
    | InsertProduct(product: ProductRow)
    | InsertOutbox(message: OutboxMessage)
    | DeleteOutbox(bucket: string, id: Uuid)

  /** The effect of one statement on a keyspace; INSERT is an upsert on the primary key. */
  function Apply(k: Keyspace, s: Statement): Keyspace {
    match s
    case InsertCategory(row) => k.(categories := k.categories[row.id := row])
    case InsertProduct(row) =>
      k.(products := k.products[row.categoryId := Upsert(Partition(k, row.categoryId), row, ProductId)])
    case InsertOutbox(m) => k.(outbox := Insert(k.outbox, m))
    case DeleteOutbox(bucket, id) => k.(outbox := Delete(k.outbox, bucket, id))
  }

  /** The effect of a batch: its statements one after another. */
  function ApplyAll(k: Keyspace, batch: seq<Statement>): Keyspace
    decreases |batch|
  {
    if batch == [] then k else ApplyAll(Apply(k, batch[0]), batch[1..])
  }

  lemma ApplyValid(k: Keyspace, s: Statement)
    requires ValidKeyspace(k)
    ensures ValidKeyspace(Apply(k, s))
  {
    match s
    case InsertCategory(_) =>
    case InsertProduct(row) =>
      UpsertSpec(Partition(k, row.categoryId), row, ProductId);
    case InsertOutbox(m) => InsertSpec(k.outbox, m, m.bucket);
    case DeleteOutbox(bucket, id) => DeleteSpec(k.outbox, bucket, id, bucket);
  }

  lemma {:induction false} ApplyAllValid(k: Keyspace, batch: seq<Statement>)
    requires ValidKeyspace(k)
    ensures ValidKeyspace(ApplyAll(k, batch))
    decreases |batch|
  {
    if batch != [] {
      ApplyValid(k, batch[0]);
      ApplyAllValid(Apply(k, batch[0]), batch[1..]);
    }
  }

  /** A `gocql.Session`: executes statements and logged batches against the store. */
  class Session {
    var cluster: Cluster

    ghost predicate Valid()
      reads this
    {
      ValidCluster(cluster)
    }

    constructor (c: Cluster)
      requires ValidCluster(c)
      ensures Valid() && cluster == c
    {
      cluster := c;
    }

    /** `Query(...).Exec()`: the statement takes effect unless the store reports `fault`. */
    method Exec(n: KeyspaceName, s: Statement, fault: Option<Error>) returns (err: Option<Error>)
      requires Valid()
      modifies this
      ensures Valid()
      ensures err == fault
      ensures cluster == if fault.None? then old(cluster).With(n, Apply(old(cluster).Get(n), s)) else old(cluster)
    {
      if fault.Some? {
        return fault;
      }
      ApplyValid(cluster.Get(n), s);
      cluster := cluster.With(n, Apply(cluster.Get(n), s));
      return None;
    }

    /** `ExecuteBatch` of a logged batch: all of its statements take effect, or none does. */
    method ExecuteBatch(n: KeyspaceName, batch: seq<Statement>, fault: Option<Error>) returns (err: Option<Error>)
      requires Valid()
      modifies this
      ensures Valid()
      ensures err == fault
      ensures cluster == if fault.None? then old(cluster).With(n, ApplyAll(old(cluster).Get(n), batch)) else old(cluster)
    {
      if fault.Some? {
        return fault;
      }
      ApplyAllValid(cluster.Get(n), batch);
      cluster := cluster.With(n, ApplyAll(cluster.Get(n), batch));
      return None;
    }
  }
}
