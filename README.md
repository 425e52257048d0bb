# Transactional outbox of the CQRS e-commerce services, in Dafny

This project models the core of a Go CQRS e-commerce backend and proves properties of that model.

- **Command side.** `ProductCommandController` validates a command and draws an id. It writes a category row, or it writes a product row together with an outbox envelope in one logged batch.
- **Relays.** Two relays move envelopes to the message broker: `processor.ProcessMessage` and its older variant `helpers.ProcessMessage`. Each pass fetches the current day's bucket of the outbox in id order. For each envelope it re-tags the payload according to its event type, publishes it under the key `"<type>:<id>"`, and deletes the envelope once the broker acknowledges it. A failure on one envelope never aborts the pass.
- **Query side.** `ProductQueryController` validates a query. It reads one category, reads one product, or lists one page of a category's products, and it classifies failures as NotFound or Internal.

## How the model is built

- **Store.** The column store is a value: `Storage.Cluster` holds the keyspaces `products_keyspace_v2` and `products_keyspace_v3`. Each keyspace has categories, products partitioned by category, and an outbox partitioned by day bucket. The `gocql.Session` is a class (`Storage.Session`) whose field `cluster` its methods update.
- **Ordering.** A partition is a sequence kept strictly ascending by its clustering key (module `Rows`). In the outbox, the key is the time-first order of a version-1 UUID (`TimeUuid.Rank`).
- **Collaborators as inputs.** Every outcome the code does not control is an input:
  - the clock reading;
  - where an iterator breaks;
  - which publishes and which deletes fail;
  - the id generator's result;
  - the `TimeUUID`;
  - the failure of a statement or a batch.

  For a relay pass these are collected in a `Relay.PassEnv`, where publish and delete failures are keyed by the envelope's position in the fetched list.
- **Broker.** `Messaging.Producer.sent` is the broker's log of acknowledged messages.
- **Relay passes.** The relay classes are imperative: a `for` loop over the fetched envelopes, publish, then delete. Each `ProcessMessages` is proved against a trace: one `Relay.Step` per fetched envelope. Its `ensures` gives the new broker log and the new store as functions of that trace (`Relay.Delivered`, `Relay.AfterPass`). Lemmas about those functions carry what the code promises.
- **JSON codec.** It is a pair of function values: a partial decode and a total encode (`Events.Codec`). A codec whose decode inverts its encode is `Lawful`.

Three places where the code does not do what the system is meant to do. In each, the model follows the code:
- **Unknown event types in `processor`.** A relay is expected to leave an envelope of an unknown type untouched. `processor` instead publishes it with an empty payload and then deletes it: its `handleEvent` returns no bytes and no error (`Processor.UnknownTypePublishedEmpty`, `Pipeline.VariantsDifferOnUnknown`). Only `helpers` leaves such an envelope untouched (`Pipeline.UnknownSticky`).
- **Bucket time zone.** The bucket is meant to be the UTC date. The code formats `time.Now()` in the process's local zone. The model takes the date of the clock reading as given, so the bucket is the day of whatever reading the process makes.
- **Outbox tag.** A product envelope is meant to be tagged `"product.created"`, the tag the relays dispatch on. The code tags it `"create_product_event"` and writes to the `v2` keyspace (see Findings).

## Model

| member | source | states |
|---|---|---|
| Processor.ProcessMessage.ProcessMessages | internal/processor/process_messages.go:23-49 | A failed fetch returns the error wrapped as "error fetching messages" and changes neither the broker log nor the store. Otherwise the pass returns no error. The broker log grows by exactly the delivered messages of the pass's trace, in fetch order, and the store becomes the store after that trace's deletes. |
| Processor.ProcessMessage.Forward | internal/processor/process_messages.go:31-45 | One loop turn. A handler error sends nothing and deletes nothing. A failed publish sends nothing and deletes nothing. A successful publish appends the message under key `type:id`, then deletes the envelope's own key unless the delete fails. |
| Processor.HandleEvent | internal/processor/process_messages.go:51-61 | The handler fails if and only if the type is `category.created` or `product.created` and the payload does not decode. With a lawful codec, a known type's payload decodes to the decoded input re-tagged with that type. An unknown type gives an empty payload and no error. |
| Processor.ProcessorKeeps | internal/processor/process_messages.go:30-46 | After a healthy pass, an envelope of the bucket is still pending if and only if its handler failed, its publish failed, or its delete failed. |
| Processor.ProcessorPublishes | internal/processor/process_messages.go:31-41 | The broker holds a message under an envelope's key if and only if the handler succeeded and the publish was acknowledged. Every such message carries the handler's payload. |
| Processor.UnknownTypePublishedEmpty | internal/processor/process_messages.go:57-59 | An envelope of an unknown type is published with an empty payload when the publish succeeds. It is deleted if and only if both the publish and the delete succeed. |
| Processor.ProcessorAdvance | internal/processor/process_messages.go:30-46 | Handling envelope `i` extends the delivered messages by that envelope's step and applies only that envelope's delete. |
| Processor.ProcessorFollows | internal/processor/process_messages.go:30-37 | Step `i` of a pass belongs to fetched envelope `i`, and its message carries that envelope's key. |
| Relay.PublishedInOrder | internal/processor/process_messages.go:30-30 | The envelopes that reach the broker do so in ascending id order, which is fetch order. |
| Relay.DeliveredSpec | internal/processor/process_messages.go:38-41 | The broker acknowledged exactly the messages of the steps that published. |
| Relay.RemovedSpec | internal/processor/process_messages.go:43-45 | The pass deleted exactly the envelopes of the steps that published and whose delete succeeded. |
| Relay.SourcesSpec | internal/processor/process_messages.go:30-41 | Every envelope whose message was acknowledged is a fetched envelope whose step published. |
| Relay.SourcesKeyed | internal/processor/process_messages.go:37-38 | Acknowledged messages and their envelopes pair up one to one, each message under its envelope's key. |
| Relay.EarlierSources | internal/repository/cassandra_outbox_repository.go:33-33 | An envelope acknowledged at an earlier step has a smaller id than the envelope of a later step. |
| Relay.RemovedIff | internal/processor/process_messages.go:43-45 | With distinct ids, an envelope's key is among the deleted keys if and only if its own step published it and then deleted it. |
| Relay.DeliveredIff | internal/processor/process_messages.go:37-41 | With distinct ids, a message under an envelope's key was acknowledged if and only if that envelope's own step published, and the message is that step's. |
| Relay.PassOutcome | internal/processor/process_messages.go:30-46 | After a pass the outbox stays valid and gains no envelope. An envelope of the pass survives if and only if its step did not delete it. Other buckets keep all their envelopes. |
| Relay.StepTaken | internal/processor/process_messages.go:38-45 | One more step adds its message, if any, to the delivered messages. It applies its one delete if it published and then deleted, and changes nothing otherwise. |
| Relay.NothingPublished | internal/helpers/process_messages.go:122-124 | A pass in which no step published sends nothing and deletes nothing. |
| Relay.DistinctIds | internal/repository/cassandra_outbox_repository.go:33-33 | In an id-ordered bucket, two positions hold the same id if and only if they are the same position. |
| Relay.FollowsPrefix | internal/processor/process_messages.go:30-30 | A prefix of a pass belongs to the same prefix of the fetched envelopes. |
| Helpers.ProcessMessage.ProcessMessages | internal/helpers/process_messages.go:48-63 | A failed fetch returns the error wrapped as "error fetching messages" and has no effect. Otherwise the pass returns no error whatever `sendToPulsar` reports. With a producer, the broker log grows by the delivered messages of the trace. The store always becomes the store after the trace's deletes. |
| Helpers.ProcessMessage.FetchMessages | internal/helpers/process_messages.go:69-86 | A healthy scan returns exactly the bucket's pending envelopes, in ascending id order. An iterator error returns no envelopes and that error. |
| Helpers.ProcessMessage.SendToPulsar | internal/helpers/process_messages.go:88-120 | Reports success if and only if the type is unknown, or the message was published and its envelope deleted. A payload that does not decode yields the re-tagger's error. Otherwise the re-tagged payload goes to `publishMessage`. |
| Helpers.ProcessMessage.PublishMessage | internal/helpers/process_messages.go:121-154 | With no producer it returns "producer is nil, cannot send messages" and has no effect. A failed wait is reported wrapped as "failed to publish message". An acknowledged message is followed by the envelope's delete, whose error it returns as is. |
| Helpers.ProcessMessage.DeleteMessage | internal/helpers/process_messages.go:156-167 | Deletes exactly the key `(bucket, id)` of `products_keyspace_v3.outbox` and returns the store's error unchanged. On failure the store is unchanged. |
| Helpers.HelpersKeeps | internal/helpers/process_messages.go:88-154 | After a healthy pass, an envelope is still pending if and only if its type is unknown, it did not decode, there is no producer, or its publish or delete failed. |
| Helpers.HelpersPublishes | internal/helpers/process_messages.go:88-150 | A message under an envelope's key reaches the broker if and only if the type is known, the payload decoded, there is a producer and the publish was acknowledged. Every such message carries the re-tagged payload. |
| Helpers.StepDeletes | internal/helpers/process_messages.go:148-153 | An envelope's step deletes it if and only if its type is known, it decoded, there is a producer, and both the publish and the delete succeed. |
| Helpers.StepPublishes | internal/helpers/process_messages.go:121-150 | An envelope's step publishes if and only if its type is known, it decoded, there is a producer and the publish succeeded. What it publishes is the re-tagged payload. |
| Helpers.NoProducerNoEffect | internal/helpers/process_messages.go:122-124 | Without a producer a pass publishes nothing and deletes nothing. |
| Helpers.HelpersAdvance | internal/helpers/process_messages.go:56-61 | Handling envelope `i` extends the delivered messages by that envelope's step and applies only that envelope's delete. |
| Helpers.HelpersFollows | internal/helpers/process_messages.go:56-57 | Step `i` of a pass belongs to fetched envelope `i`, and its message carries that envelope's key. |
| Repository.CassandraOutboxRepository.FetchMessages | internal/repository/cassandra_outbox_repository.go:32-50 | A healthy scan returns exactly the bucket's pending rows, with none dropped or duplicated. They come in ascending id order and all belong to that bucket. An empty bucket gives an empty list and no error. An iterator error gives no rows and the error. |
| Repository.CassandraOutboxRepository.DeleteMessage | internal/repository/cassandra_outbox_repository.go:52-61 | Deletes exactly the key `(bucket, id)` of `products_keyspace_v3.outbox`. A failure is wrapped as "failed to delete message" and leaves the store unchanged. |
| Outbox.DeleteSpec | internal/repository/cassandra_outbox_repository.go:53-54 | A delete keeps every bucket ordered and drops exactly the envelope keyed `(bucket, id)`. All other rows stay. |
| Outbox.DeleteAllSpec | internal/processor/process_messages.go:43-43 | A sequence of deletes removes exactly the envelopes whose key is among them. |
| Outbox.DeleteAbsent | internal/repository/cassandra_outbox_repository.go:53-54 | Deleting a key that no envelope has leaves the table as it was. |
| Outbox.InsertSpec | internal/controllers/product_command_controller.go:90-95 | An outbox insert upserts on `(bucket, id)`. The table stays valid, the envelope is present, and every other key is kept. |
| Outbox.PendingOk | internal/repository/cassandra_outbox_repository.go:33-33 | A bucket's envelopes are in ascending id order and all belong to that bucket. |
| Events.HandleCategoryCreated | internal/events/event_handler.go:10-18 | An error if and only if the payload does not decode, wrapped as "error unmarshalling category". Otherwise, under a lawful codec, the output decodes to the input with `EventType` set to "category.created". |
| Events.HandleProductCreated | internal/events/event_handler.go:20-28 | An error if and only if the payload does not decode, wrapped as "error unmarshalling product". Otherwise, under a lawful codec, the output decodes to the input with `EventType` set to "product.created". |
| Events.CategoryRetagged | internal/events/event_handler.go:10-18 | A result exists exactly when the payload decodes. It is tagged "category.created" and keeps every other field. |
| Events.ProductRetagged | internal/events/event_handler.go:20-28 | A result exists exactly when the payload decodes. It is tagged "product.created" and keeps every other field. |
| Events.CategoryRetagIdempotent | internal/events/event_handler.go:15-17 | Re-tagging a category re-tagger's own output gives the same output. |
| Events.ProductRetagIdempotent | internal/events/event_handler.go:25-27 | Re-tagging a product re-tagger's own output gives the same output. |
| Messaging.Producer.Publish | internal/messaging/pulsar_producer.go:12-14 | Returns the broker's outcome. On success exactly the message `(key, payload)` is appended to the broker's log; on failure nothing is. |
| Messaging.KeyInjective | internal/processor/process_messages.go:37-37 | The key `type:id` determines both the event type and the id. |
| Messaging.KeyLayout | internal/helpers/process_messages.go:129-129 | A key is the event type, then `:`, then the 36-character printed id, which parses back to the id. |
| TimeUuid.StringRoundTrip | internal/processor/process_messages.go:37-37 | An id prints as 36 characters, and the printed form parses back to the id. |
| TimeUuid.StringInjective | internal/helpers/process_messages.go:129-129 | Two ids print alike if and only if they are equal. |
| TimeUuid.RankInjective | internal/repository/cassandra_outbox_repository.go:33-33 | The storage order of `timeuuid` ids is strict: two ids share a rank if and only if they are equal. |
| Calendar.BucketLayout | internal/helpers/process_messages.go:65-67 | A bucket is `YYYY-MM-DD`: 10 characters for four-digit years, dashes in the two separator positions, and digits elsewhere. |
| Calendar.BucketRoundTrip | internal/helpers/process_messages.go:65-67 | Parsing a day's bucket gives the day back. |
| Relay.CurrentBucketDay | internal/processor/process_messages.go:24-24 | The bucket a pass reads parses back to the day of the clock reading. Two passes read the same bucket if and only if their readings fall on the same day. |
| Calendar.BucketInjective | internal/controllers/product_command_controller.go:62-62 | Two days share a bucket if and only if they are the same day. |
| Base.AsInt64 | internal/controllers/product_command_controller.go:43-43 | `int64(u)` keeps the value modulo 2^64, and it is non-negative if and only if `u` is below 2^63. |
| Storage.Session.Exec | internal/controllers/product_command_controller.go:38-40 | A statement takes effect on its keyspace unless the store reports an error. On error nothing changes and the error is returned. |
| Storage.Session.ExecuteBatch | internal/controllers/product_command_controller.go:97-99 | A logged batch: either all of its statements take effect, or none does and the error is returned. |
| Storage.ApplyValid | internal/controllers/product_command_controller.go:83-95 | Every statement keeps every partition ordered and within its own key. |
| Storage.ApplyAllValid | internal/controllers/product_command_controller.go:81-97 | A batch keeps every partition ordered and within its own key. |
| Storage.Cluster.With | internal/controllers/product_command_controller.go:84-91 | Writing one keyspace leaves the other keyspace unchanged. |
| Rows.UpsertSpec | internal/controllers/product_command_controller.go:83-88 | An INSERT keeps the partition ordered. Afterwards it holds the new row and exactly the old rows with other keys. |
| Rows.RemoveSpec | internal/repository/cassandra_outbox_repository.go:53-54 | A DELETE keeps the partition ordered and drops exactly the rows with that key. |
| Rows.RemoveAbsent | internal/repository/cassandra_outbox_repository.go:53-54 | Deleting a key no row has leaves the partition unchanged. |
| Rows.AfterSpec | internal/controllers/product_query_controller.go:85-88 | In an ordered partition, the rows after a key form a suffix, and they are exactly the rows with a greater key. |
| Rows.AfterSuffix | internal/controllers/product_query_controller.go:85-88 | The rows after a key are the rows from some position on. |
| Rows.AfterMembers | internal/controllers/product_query_controller.go:85-88 | In an ordered partition, the rows after a key are exactly the rows with a greater key. |
| Rows.AfterKeyAt | internal/controllers/product_query_controller.go:119-119 | The rows after the key of row `n - 1` are exactly the rows from `n` on. |
| Rows.FindSpec | internal/controllers/product_query_controller.go:58-61 | A lookup by key finds a row with that key, or reports none if and only if no row has the key. |
| Rows.AscendingUnique | internal/controllers/product_query_controller.go:58-58 | In an ordered partition, a key names at most one row. |
| Command.ProductCommandController.CreateCategory | internal/controllers/product_command_controller.go:25-48 | An empty name or description gives InvalidArgument. A failed id draw or a failed insert gives Internal. In all three cases nothing changes. Otherwise the returned row carries the generated id, the request's fields and the write time, and only that category row is inserted, with no outbox row. |
| Command.ProductCommandController.CreateProduct | internal/controllers/product_command_controller.go:50-102 | An empty name or description, or a zero price, category id or stock, gives InvalidArgument. A failed id draw or a failed batch gives Internal. In all three cases nothing changes. Otherwise the returned product has the request's fields, the generated id, `CreatedAt == UpdatedAt == now` and no tag, and the product row and its envelope are written together. |
| Command.ProductCommandController.constructor | internal/controllers/product_command_controller.go:21-23 | The controller as written targets `products_keyspace_v2` with the tag "create_product_event". |
| Command.ProductCommandController.Corrected | internal/repository/cassandra_outbox_repository.go:33-33 | A controller that writes to `products_keyspace_v3` with the tag "product.created". |
| Command.ProductWriteSpec | internal/controllers/product_command_controller.go:81-99 | The product batch keeps the keyspace valid. Afterwards the product row is in its category's partition and the envelope is pending in the write day's bucket. Categories, and every other product and envelope, are kept. |
| Command.EnvelopeCarriesProduct | internal/controllers/product_command_controller.go:60-101 | Under a lawful codec, the envelope's payload decodes to exactly the product returned, and its bucket parses back to the write day. |
| Query.GetCategory | internal/controllers/product_query_controller.go:25-48 | A zero id gives InvalidArgument. A storage error gives Internal. Otherwise the result is Success if and only if the id is present in `products_keyspace_v3`, with that row; an absent id gives NotFound. |
| Query.GetProduct | internal/controllers/product_query_controller.go:50-73 | A zero category or product id gives InvalidArgument. A storage error gives Internal. Otherwise the result is Success if and only if the category's partition in `products_keyspace_v3` has a row with that id, and it is that row with its own category id; an absent row gives NotFound. |
| Query.ListProducts | internal/controllers/product_query_controller.go:75-129 | A zero category id or a non-positive page size gives InvalidArgument. An iterator error gives Internal and no page. Otherwise the result is the rows of the page of `products_keyspace_v3` listed in scan order, with the iterator's paging state. |
| Query.ListedSpec | internal/controllers/product_query_controller.go:105-116 | The listed products correspond one to one, and in order, with the scanned rows, each under the requested category id. |
| Query.RemainingSpec | internal/controllers/product_query_controller.go:80-89 | The rows from a paging state on belong to the requested category, come in ascending id order, and all follow the row the state names. |
| Query.PageSpec | internal/controllers/product_query_controller.go:80-116 | A page has at most `pageSize` rows. It holds rows of the requested category only, in ascending id order, all after the paging state. |
| Query.PageListed | internal/controllers/product_query_controller.go:105-116 | Every listed product carries the requested category id and no tag, and the page's ids in page order. |
| Query.NextRemaining | internal/controllers/product_query_controller.go:119-127 | The rows after the returned paging state are exactly the rows after the returned page. |
| Query.SuffixAt | internal/controllers/product_query_controller.go:85-88 | The rows after a paging state start at some position of the partition, and at the start when there is no state. |
| Query.PagesCover | internal/controllers/product_query_controller.go:75-129 | Following the returned paging states lists every remaining row exactly once and in order. Every page but the last is full, and the last has at most `pageSize` rows. |
| Query.FiveProductsThreePages | internal/controllers/product_query_controller.go:75-129 | Five products listed two at a time come in pages of two, two and one. |
| Pipeline.ProcessorPassSpec | internal/processor/process_messages.go:23-49 | A pass keeps the store valid and touches only the `v3` outbox. An envelope it leaves behind is fetched again by the next pass of the same day. One it delivered and deleted is not fetched by that next pass. |
| Pipeline.ProcessorPassAddsNothing | internal/processor/process_messages.go:43-45 | A pass keeps the store valid and puts no envelope into any bucket: an envelope absent from a bucket is still absent after the pass. |
| Pipeline.ProcessorGoneStaysGone | internal/processor/process_messages.go:23-49 | An envelope absent from a bucket stays absent through any sequence of `processor` passes, and the store stays valid. |
| Pipeline.DeliveredNeverFetchedAgain | internal/processor/process_messages.go:37-45 | An envelope that a pass delivered and deleted is fetched by no later pass, whatever number of passes follow and whatever day each runs on. |
| Pipeline.HelpersPassKeepsUnknown | internal/helpers/process_messages.go:116-118 | A `helpers` pass keeps the store valid and leaves an envelope of an unknown type pending. |
| Pipeline.UnknownSticky | internal/helpers/process_messages.go:116-118 | Under `helpers`, an envelope of an unknown type survives any number of passes. |
| Pipeline.VariantsAgree | internal/helpers/process_messages.go:88-154 | On a bucket that holds only known types, `helpers` with a producer takes the same steps as `processor`. |
| Pipeline.VariantsDifferOnUnknown | internal/processor/process_messages.go:57-59 | Where publish and delete succeed, `processor` publishes an unknown-type envelope empty and deletes it, while `helpers` neither publishes it nor deletes it. |
| Pipeline.SourceWriteInvisibleToRelay | internal/controllers/product_command_controller.go:90-95 | As written, a relay pass fetches exactly what it fetched before `CreateProduct`, never the new envelope, and the envelope stays in `v2` after the pass. |
| Pipeline.IntendedWriteRelayed | internal/controllers/product_command_controller.go:60-101 | Written to `v3` with the tag "product.created", the product is published by the next `processor` pass of that day in which no publish or delete fails. It goes under key `product.created:<outbox id>`, tagged "product.created". Its envelope is then gone, and the product row stays. |
| Pipeline.SourceTagNotRelayed | internal/controllers/product_command_controller.go:63-63 | Even in `v3`, an envelope tagged "create_product_event" stays pending under `helpers` through any number of passes, and `processor` publishes it with an empty payload. |
| Pipeline.IntendedTagRelayedByHelpers | internal/helpers/process_messages.go:104-114 | Tagged "product.created", the envelope is published by `helpers` with the re-tagged product and then deleted. |
| Pipeline.SourceCategoryNotFound | internal/controllers/product_command_controller.go:36-38 | As written, a category new to `v3` is NotFound right after `CreateCategory` succeeded. |
| Pipeline.IntendedCategoryFound | internal/controllers/product_query_controller.go:30-47 | Written to `v3`, a created category reads back as it was returned. |
| Pipeline.SourceProductNotFound | internal/controllers/product_command_controller.go:83-88 | As written, a product new to `v3` is NotFound right after `CreateProduct` succeeded. |
| Pipeline.IntendedProductFound | internal/controllers/product_query_controller.go:50-73 | Written to `v3`, a created product reads back exactly as `CreateProduct` returned it. |

## Left out

- The asynchronous publish bridge (`SendAsync`, the callback channel and the `select` on context cancellation). The wait's result is an input: either an acknowledgement or an error, where a cancelled context counts as an error.
- Process bootstrap, configuration loading, the generated GraphQL types and the resolver: these are I/O or have no logic.
- Logging (`slog`) has no effect on the state and is left out.
- Memcached: the query controller never uses its client.
- Concurrency: one relay instance runs at a time. Concurrent passes over the same bucket are not modelled.
- `time.Now`, the snowflake id generator and `gocql.TimeUUID` are inputs. Uniqueness of generated ids is not assumed. Inserts are upserts, as in the store.
- Timestamps are opaque values. The millisecond truncation of the column type and the conversions to and from `timestamppb` are not modelled.
- Prices are integers, because the code only compares a price with zero. Floating point is not modelled.
- gRPC status messages are left out; only the status codes are modelled.
- The driver's encoding of `uint64` ids is not modelled. The stored id and the returned id are both `int64(id)` (`Base.AsInt64`).
- Helpers.ProcessMessage.SendToPulsar: the "error marshalling" paths are not modelled, because encoding is total in the model.
- Command.ProductCommandController.CreateProduct: the "failed to marshal product" path is not modelled, because encoding is total in the model.
- Helpers.ProcessMessage.DeleteMessage: the nil-session check is not modelled. `FetchMessages` already dereferences the session earlier in every pass.
- Query.ListProducts: the paging state is modelled as "resume after the last row returned". It is empty once no rows remain after the page. The model does not capture whether the driver returns a state for a page that exactly exhausts the partition, nor the state's byte encoding.
- A read's storage failure other than not-found is one input, which maps to Internal. The not-found case is the row's absence from the store.
- Cancellation of the request context during a query is treated as a storage failure.

## Findings

| source | as written | input that shows it | evidently intended | confidence | as-written member | corrected member |
|---|---|---|---|---|---|---|
| internal/controllers/product_command_controller.go:90-95 | The product envelope is inserted into `products_keyspace_v2.products_outbox`. Both relays read `products_keyspace_v3.outbox`. | Any successful `CreateProduct`, followed by a relay pass on the same day | The envelope goes to the outbox the relays read, so that the product event is published | not executed | Pipeline.SourceWriteInvisibleToRelay | Pipeline.IntendedWriteRelayed |
| internal/controllers/product_command_controller.go:63-63 | The envelope is tagged "create_product_event". Both relays dispatch only on "product.created" and "category.created". | A product envelope carrying the tag as written, present in `products_keyspace_v3.outbox`, under either relay | The tag "product.created", so that the product is re-tagged and relayed | not executed | Pipeline.SourceTagNotRelayed | Pipeline.IntendedTagRelayedByHelpers |
| internal/controllers/product_command_controller.go:36-38 | `CreateCategory` inserts into `products_keyspace_v2.categories`. `GetCategory` reads `products_keyspace_v3.categories`. | `CreateCategory` of a new category, then `GetCategory` of the returned id | A created category can be read back | not executed | Pipeline.SourceCategoryNotFound | Pipeline.IntendedCategoryFound |
| internal/controllers/product_command_controller.go:83-88 | `CreateProduct` inserts into `products_keyspace_v2.products`. `GetProduct` reads `products_keyspace_v3.products`. | `CreateProduct` of a new product, then `GetProduct` of its category and id | A created product can be read back | not executed | Pipeline.SourceProductNotFound | Pipeline.IntendedProductFound |
