# ECommerce-Serverless, modelled in Dafny

This project models the behaviour of the serverless e-commerce back end, centred on its
**invoice import workflow**:

- the **URL broker** (`invoiceGetUrlFunction`) registers an upload transaction in
  `URL_GENERATED` and pushes a presigned upload URL over the WebSocket API;
- the **import processor** (`invoiceImportFunction`) is driven by bucket notifications. It
  moves the transaction through `INVOICE_RECEIVED` to `INVOICE_PROCESSED`, creating the
  invoice row and deleting the object, or to `NON_VALID_INVOICE_NUMBER`, disconnecting the
  client. It pushes every status it writes;
- the **stream handler** (`invoiceEventsFunction`) records inserted invoices as
  `INVOICE_CREATED` events. When the table's ttl sweep removes a transaction row that never
  reached `INVOICE_PROCESSED`, it pushes `TIMEOUT` and disconnects the client;
- the **transaction repository** (`InvoiceTransactionRepository`) does a plain put, a lookup,
  and a status update conditioned only on the row existing.

Around it the model covers:

- the product and order repositories;
- the REST handlers for products, orders and order events;
- the three event writers: invoice, order and product events.

Each module follows one source file:

- State the source changes in place lives in a `class`, whose methods have `modifies`
  clauses. This covers the repositories, the bucket, the push channel's outbox, the SNS
  topic and the events table.
- Handlers that work step by step are `method`s. Each is proved against a value-level
  function of the old state; examples are `InvoiceImport.ImportRecord`,
  `InvoiceEvents.HandleAll` and `OrderEvents.Written`.
- The workflow properties are lemmas over those functions. They cover the happy path,
  timeout exclusivity, duplicate deliveries and the validation boundary.

Time (`Date.now()`), fresh ids (`uuid()`), presigned URLs and the Lambda request ids are
parameters. Parsed JSON bodies are datatypes. Money is an integer number of cents.

Three behaviours of the code the model keeps:

- `create` of a transaction is a plain put that overwrites an existing row. It does not
  fail on a duplicate key.
- Status updates do not enforce forward-only transitions (`UpdateIgnoresPreviousStatus`).
- None of the modelled handlers writes `TIMEOUT` or `CANCELLED` into the table. `TIMEOUT` is
  only pushed, after the row is already gone.

## Model

| member | source | states |
|---|---|---|
| InvoiceTransaction.StatusNameInjective | lambda/invoices/layers/invoiceTransaction/nodejs/invoiceTransaction.ts:3-11 | the seven stored status strings are pairwise distinct, so a stored string names exactly one status |
| InvoiceTransaction.Lookup | lambda/invoices/layers/invoiceTransaction/nodejs/invoiceTransaction.ts:47-63 | succeeds exactly when the row ("#transaction", key) exists and returns it; otherwise fails with "Invoice transaction not found" |
| InvoiceTransaction.UpdateStatus | lambda/invoices/layers/invoiceTransaction/nodejs/invoiceTransaction.ts:65-90 | the flag is true exactly when the row exists; then only that row's status changes; a missing row leaves the table unchanged; the key set never changes |
| InvoiceTransaction.FindAfterCreate | lambda/invoices/layers/invoiceTransaction/nodejs/invoiceTransaction.ts:34-63 | after putting a "#transaction" row, findByKey of its sk returns that row |
| InvoiceTransaction.FindAfterUpdate | lambda/invoices/layers/invoiceTransaction/nodejs/invoiceTransaction.ts:47-90 | a successful update is seen by the next lookup; after a failed update the lookup still fails |
| InvoiceTransaction.UpdateIgnoresPreviousStatus | lambda/invoices/layers/invoiceTransaction/nodejs/invoiceTransaction.ts:77-78 | the update's result does not depend on the previous status, so no transition order is enforced |
| InvoiceTransaction.InvoiceTransactionRepository.Create | lambda/invoices/layers/invoiceTransaction/nodejs/invoiceTransaction.ts:34-45 | the row is stored under its (pk, sk), replacing any row there, and returned; the table stays well keyed |
| InvoiceTransaction.InvoiceTransactionRepository.FindByKey | lambda/invoices/layers/invoiceTransaction/nodejs/invoiceTransaction.ts:47-63 | answers as Lookup on the current table |
| InvoiceTransaction.InvoiceTransactionRepository.UpdateInvoiceTransaction | lambda/invoices/layers/invoiceTransaction/nodejs/invoiceTransaction.ts:65-90 | flag and new table are those of UpdateStatus on the old table |
| InvoiceServices.InvoiceRepository.Create | lambda/invoices/invoiceImportFunction.ts:102-111 | the invoice is put under (pk, sk), replacing any invoice there |
| InvoiceServices.Bucket.GetObject | lambda/invoices/invoiceImportFunction.ts:60-65 | returns the stored body, or fails when no object is stored under the key |
| InvoiceServices.Bucket.DeleteObject | lambda/invoices/invoiceImportFunction.ts:113-118 | the key is removed and nothing else changes |
| InvoiceServices.InvoiceWSService.SendInvoiceStatus | lambda/invoices/invoiceImportFunction.ts:51-55 | exactly one status push is appended to the outbox |
| InvoiceServices.InvoiceWSService.SendData | lambda/invoices/invoiceGetUrlFunction.ts:75 | exactly one data push is appended to the outbox |
| InvoiceServices.InvoiceWSService.DisconnectClient | lambda/invoices/invoiceImportFunction.ts:97 | exactly one disconnect is appended to the outbox |
| InvoiceImport.InvoiceOf | lambda/invoices/invoiceImportFunction.ts:101-111 | the invoice has pk "#invoice_"+customerName, sk invoiceNumber, ttl 0, transactionId the object key, and copies totalValue, productId and quantity |
| InvoiceImport.ProcessRecord | lambda/invoices/invoiceImportFunction.ts:39-134 | the transactions, invoices, bucket and outbox after one record are ImportRecord of those before it |
| InvoiceImport.Handler | lambda/invoices/invoiceImportFunction.ts:29-37 | after a batch the stores are ImportAll of the old stores: one record after another |
| InvoiceImport.ImportMissingTransaction | lambda/invoices/invoiceImportFunction.ts:42-45 | a record for an unknown transaction changes nothing and pushes nothing |
| InvoiceImport.ImportStaleStatus | lambda/invoices/invoiceImportFunction.ts:47-58 | a transaction not in URL_GENERATED only gets its current status pushed again; nothing else changes |
| InvoiceImport.ImportMissingObject | lambda/invoices/invoiceImportFunction.ts:60-65 | a missing object is swallowed before anything is pushed or written |
| InvoiceImport.ImportUnparseable | lambda/invoices/invoiceImportFunction.ts:67-79 | a body that does not parse leaves the transaction in INVOICE_RECEIVED after one RECEIVED push; no invoice and the object stays |
| InvoiceImport.ImportRejected | lambda/invoices/invoiceImportFunction.ts:82-99 | an invoice number shorter than 5 UTF-16 code units: status NON_VALID_INVOICE_NUMBER; pushes RECEIVED, NON_VALID, then a disconnect; no invoice; the object stays |
| InvoiceImport.ImportAccepted | lambda/invoices/invoiceImportFunction.ts:101-130 | an invoice number of 5 or more UTF-16 code units: the invoice is created, the object deleted, the status INVOICE_PROCESSED, and RECEIVED then PROCESSED pushed |
| InvoiceImport.ValidationBoundary | lambda/invoices/invoiceImportFunction.ts:82 | a length of 4 UTF-16 code units ends NON_VALID_INVOICE_NUMBER and 5 ends INVOICE_PROCESSED |
| Text.Utf16Length | lambda/invoices/invoiceImportFunction.ts:82 | JavaScript's `.length`: between the number of characters and twice it, and equal to it when no character is above U+FFFF |
| InvoiceImport.SupplementaryCharactersCountTwice | lambda/invoices/invoiceImportFunction.ts:82 | an invoice number of three characters above U+FFFF is six code units long and is accepted (PROCESSED) |
| InvoiceImport.InvoiceOnlyFromGenerated | lambda/invoices/invoiceImportFunction.ts:47-130 | an invoice is created only for an existing URL_GENERATED transaction, which ends PROCESSED; RECEIVED is pushed first |
| InvoiceImport.ImportRecordGrows | lambda/invoices/invoiceImportFunction.ts:39-134 | one record never adds or removes a transaction, never deletes an invoice, never adds an object, and only appends to the outbox |
| InvoiceImport.ImportAllGrows | lambda/invoices/invoiceImportFunction.ts:29-37 | the same holds for a whole batch |
| InvoiceImport.ImportAllUnknownKeys | lambda/invoices/invoiceImportFunction.ts:29-37 | a batch in which no key names a known transaction changes nothing |
| InvoiceEvents.EmailOf | lambda/invoices/invoiceEventsFunction.ts:92 | the second "_"-segment of the pk; absent exactly when the pk has no "_" |
| InvoiceEvents.RecordInvoiceEvent | lambda/invoices/invoiceEventsFunction.ts:78-102 | puts exactly the CreateEvent row when the image is an invoice; otherwise puts nothing and reports failure |
| InvoiceEvents.ProcessExpiredTransaction | lambda/invoices/invoiceEventsFunction.ts:51-76 | sends exactly the ExpiryMessages of the old image, or fails on an image without the transaction attributes |
| InvoiceEvents.Handler | lambda/invoices/invoiceEventsFunction.ts:18-49 | the events put, the messages sent and the failure flag are HandleAll of the records; every record runs even after a failure |
| InvoiceEvents.ClassifyInsert | lambda/invoices/invoiceEventsFunction.ts:25-37 | an INSERT is ignored exactly when its pk starts with "#transaction"; otherwise it is recorded |
| InvoiceEvents.ClassifyRemove | lambda/invoices/invoiceEventsFunction.ts:38-45 | a REMOVE is handled as an expiry exactly when the old pk equals "#transaction"; otherwise it is ignored |
| InvoiceEvents.ClassifyOther | lambda/invoices/invoiceEventsFunction.ts:24-46 | any other event name is ignored |
| InvoiceEvents.ExpiryOutcome | lambda/invoices/invoiceEventsFunction.ts:61-75 | a processed transaction expires silently; any other gets TIMEOUT then a disconnect |
| InvoiceEvents.EmailOfInvoicePk | lambda/invoices/invoiceEventsFunction.ts:92 | for a customer name without "_", the email is the customer name |
| InvoiceEvents.EmailOfTruncates | lambda/invoices/invoiceEventsFunction.ts:92 | a customer name containing "_" is cut at its first "_" |
| InvoiceEvents.CreateEventOfInvoice | lambda/invoices/invoiceEventsFunction.ts:82-98 | the row has pk "#invoice_"+sk, an sk that splits into INVOICE_CREATED and the timestamp, ttl now/1000+3600, and copies transactionId, productId and quantity |
| InvoiceEvents.CreateEventNeedsInvoice | lambda/invoices/invoiceEventsFunction.ts:89-97 | an image without the invoice attributes makes createEvent reject |
| InvoiceGetUrl.Handler | lambda/invoices/invoiceGetUrlFunction.ts:33-82 | the transaction table and outbox become RequestUpload of the old ones, and the answer is 200 "OK" |
| InvoiceGetUrl.UploadRequested | lambda/invoices/invoiceGetUrlFunction.ts:45-75 | findByKey then sees a URL_GENERATED row for the connection, ttl now/1000+300, expiresIn 300; exactly one URL push with the same key; no other row changes |
| InvoiceWorkflow.ExpiryNotifies | lambda/invoices/invoiceEventsFunction.ts:38-76 | the expiry of a stored transaction pushes TIMEOUT and a disconnect exactly when it was not processed |
| InvoiceWorkflow.HappyPath | lambda/invoices/invoiceImportFunction.ts:60-130 | broker, valid upload, import: PROCESSED, invoice stored, object gone; the client saw URL, RECEIVED, PROCESSED in that order |
| InvoiceWorkflow.TimeoutWithoutUpload | lambda/invoices/invoiceEventsFunction.ts:61-75 | a transaction never uploaded gets exactly one TIMEOUT and one disconnect at expiry |
| InvoiceWorkflow.ProcessedNeverTimesOut | lambda/invoices/invoiceEventsFunction.ts:61-62 | a transaction the import left PROCESSED expires without a message |
| InvoiceWorkflow.UnfinishedTimesOut | lambda/invoices/invoiceEventsFunction.ts:63-75 | a transaction the import left GENERATED or RECEIVED gets exactly one TIMEOUT and one disconnect |
| InvoiceWorkflow.DuplicateDelivery | lambda/invoices/invoiceImportFunction.ts:47-58 | a second delivery of the same record changes no store; at most it pushes the current status once more |
| InvoiceWorkflow.RedeliveryAfterProcessed | lambda/invoices/invoiceImportFunction.ts:47-58 | after PROCESSED a redelivery only pushes INVOICE_PROCESSED again |
| InvoiceWorkflow.BrokerInsertIgnored | lambda/invoices/invoiceEventsFunction.ts:26 | the broker's own row insert never becomes an event |
| InvoiceWorkflow.ImportedInvoiceEvent | lambda/invoices/invoiceEventsFunction.ts:25-37 | the insert of an imported invoice is recorded, keyed by invoice number, with the transaction id and the customer as email |
| InvoiceWorkflow.SameInvoiceNumberOverwrites | lambda/invoices/invoiceImportFunction.ts:102-104 | a valid import adds exactly its (customer, invoice number) key, overwriting an earlier invoice there |
| InvoiceWorkflow.ScenarioT1 | lambda/invoices/invoiceImportFunction.ts:39-134 | transaction "T1" with invoice "AB123" of "Jane" ends PROCESSED with the invoice stored and the object deleted |
| EventsTable.ExpiresAt | lambda/invoices/invoiceGetUrlFunction.ts:54-55 | the ttl is the epoch second containing the timestamp, moved the given number of seconds ahead |
| EventsTable.EventSkParts | lambda/invoices/invoiceEventsFunction.ts:90 | an event sk splits at "#" back into the event type and the decimal timestamp |
| EventsTable.EventSkInjective | lambda/orders/orderEventsFunction.ts:33 | two events of one type at different milliseconds never share a sort key |
| EventsTable.PutLog.Put | lambda/orders/layers/orderEventsRepositoryLayer/nodejs/orderEventRepository.ts:27-34 | a put appends exactly one item to the events log |
| ProductsLayer.FoundProducts | lambda/products/layers/productsLayer/nodejs/productRepository.ts:106-120 | batch results are stored products whose ids were requested, never more than requested, and all of them exactly when every id is stored; for a list without repeats they are pairwise distinct and exactly as many as the distinct stored requested ids |
| ProductsLayer.ProductRepository.FindAll | lambda/products/layers/productsLayer/nodejs/productRepository.ts:22-30 | every stored product exactly once |
| ProductsLayer.ProductRepository.FindOne | lambda/products/layers/productsLayer/nodejs/productRepository.ts:32-47 | the stored product, or "Product not found" |
| ProductsLayer.ProductRepository.Create | lambda/products/layers/productsLayer/nodejs/productRepository.ts:49-60 | the supplied id is replaced by the fresh id; the product is stored under it and returned |
| ProductsLayer.ProductRepository.Delete | lambda/products/layers/productsLayer/nodejs/productRepository.ts:62-78 | removes and returns the product; a missing id fails with "Product not found" and the table is unchanged |
| ProductsLayer.ProductRepository.Update | lambda/products/layers/productsLayer/nodejs/productRepository.ts:80-104 | a present id: the five attributes are replaced, the id kept, and the new product returned; a missing id fails the condition and nothing changes |
| ProductsLayer.ProductRepository.FindManyByIds | lambda/products/layers/productsLayer/nodejs/productRepository.ts:106-120 | answers BatchGet: rejected for an empty, over-long or repeating id list, otherwise the stored products in request order |
| ProductsFetch.Handler | lambda/products/productsFetchFunction.ts:16-72 | GET /products: 200 with every product; /products/{productId}: 200 with the product, 404 "Product not found" or 404 on a missing id; otherwise 400 "Bad Request" |
| ProductsFetch.RouteFallsThrough | lambda/products/productsFetchFunction.ts:28-71 | a non-GET on /products and any other resource fall through to 400; /products/{productId} answers every method |
| ProductsAdmin.CollectionAlwaysCreated | lambda/products/productsAdminFunction.ts:18-24 | every request on /products is answered 201, whatever its method |
| ProductsAdmin.ItemUpdateAndDelete | lambda/products/productsAdminFunction.ts:25-42 | PUT and DELETE on /products/{productId} answer 200 with a message ending in the product id |
| ProductsAdmin.OthersRejected | lambda/products/productsAdminFunction.ts:25-48 | any other method on one product, and any other resource, answer 400 "Bad Request" |
| ProductEvents.Handler | lambda/products/productEventsFunction.ts:11-28 | exactly the CreateEvent row is put, and then the reply is productEventCreated true with "OK" |
| ProductEvents.ProductEventRow | lambda/products/productEventsFunction.ts:30-52 | pk "#product_"+code; sk splits into event type and timestamp; ttl now/1000+300; info carries productId and productPrice; email, requestId and eventType copied |
| OrdersLayer.Projected | lambda/orders/layers/ordersLayer/nodejs/orderRepository.ts:47 | the projection keeps key, createdAt, shipping and billing, and drops products |
| OrdersLayer.OrderRepository.Create | lambda/orders/layers/ordersLayer/nodejs/orderRepository.ts:32-41 | the order is stored at (pk, sk), overwriting, and returned |
| OrdersLayer.OrderRepository.FindAll | lambda/orders/layers/ordersLayer/nodejs/orderRepository.ts:43-52 | every stored order exactly once, projected |
| OrdersLayer.OrderRepository.FindManyByEmail | lambda/orders/layers/ordersLayer/nodejs/orderRepository.ts:54-67 | every result has pk = email and is a projected stored order; every stored order of that email is returned; as many as there are |
| OrdersLayer.OrderRepository.FindOne | lambda/orders/layers/ordersLayer/nodejs/orderRepository.ts:69-85 | the stored order, or "Order not found" |
| OrdersLayer.OrderRepository.Delete | lambda/orders/layers/ordersLayer/nodejs/orderRepository.ts:87-104 | removes exactly that key and returns the old order; a missing key fails with "Order not found" and nothing changes |
| OrdersApi.ReduceSumsAndCopies | lambda/orders/ordersFunction.ts:187-200 | the left fold computes the sum of the prices (a reference definition from the front) and copies code and price of each product in order |
| OrdersApi.BuildOrder | lambda/orders/ordersFunction.ts:186-218 | pk = email, sk = the fresh id, totalPrice = sum of prices, products copied in order, payment and shipping from the request |
| OrdersApi.BuildOrderResponse | lambda/orders/ordersFunction.ts:220-243 | email = pk, id = sk; products absent exactly when the order has none or an empty list, otherwise the order's lines |
| OrdersApi.BuildOrderResponses | lambda/orders/ordersFunction.ts:86 | one response per order, in order |
| OrdersApi.ListingHasNoProducts | lambda/orders/ordersFunction.ts:221-231 | a listed (projected) order is answered without products |
| OrdersApi.PlacedOrderResponse | lambda/orders/ordersFunction.ts:123-139 | a placed order is answered with its total and one line per product |
| OrdersApi.Codes | lambda/orders/ordersFunction.ts:256 | the codes of the lines, in order |
| OrdersApi.ProductCodes | lambda/orders/ordersFunction.ts:256 | the product codes in order, or the empty list when the order has no products |
| OrdersApi.OrderEventPublication | lambda/orders/ordersFunction.ts:245-276 | the envelope's event type equals the message attribute; the event copies email, order id, billing, shipping, request id and product codes |
| OrdersApi.PlacedOrderEventCodes | lambda/orders/ordersFunction.ts:250-257 | the CREATED event of a placed order lists the ordered products' codes in order |
| OrdersApi.RouteGet | lambda/orders/ordersFunction.ts:48-94 | findOne when email and orderId are both truthy; findManyByEmail when only email is; findAll otherwise |
| OrdersApi.OrderIdAloneListsAll | lambda/orders/ordersFunction.ts:51-94 | an orderId without an email lists every order |
| OrdersApi.Handler | lambda/orders/ordersFunction.ts:37-184 | GET reads only, with 200, or 404 for a missing order. POST with a product count mismatch is 404 with no order and no event; otherwise it stores BuildOrder, publishes CREATED and answers 201. DELETE answers 200 and publishes DELETED only for an existing order, else 404 with no event. Other methods answer 400 |
| OrderEvents.OrderEventRow | lambda/orders/orderEventsFunction.ts:23-47 | pk "#order_"+orderId; sk splits into event type and timestamp; ttl now/1000+300; info copies orderId, productCodes and the MessageId; email, requestId and eventType copied |
| OrderEvents.OneRowPerMessage | lambda/orders/orderEventsFunction.ts:16-21 | when every message parses, exactly one row per message is written, in order |
| OrderEvents.StopsAtUnparseable | lambda/orders/orderEventsFunction.ts:20-25 | no row is written for a message at or after the first one that does not parse |
| OrderEvents.Handler | lambda/orders/orderEventsFunction.ts:16-21 | the log gains exactly the Written rows; the invocation succeeds exactly when every message parses |
| OrderEventsFetch.ConvertOrderEvents | lambda/orders/orderEventsFetchFunction.ts:50-61 | same length and order; each item copies email, createdAt, eventType, requestId, orderId and productCodes |
| OrderEventsFetch.QueryOf | lambda/orders/orderEventsFetchFunction.ts:19-40 | no query without email; by email when eventType is falsy; by email and eventType otherwise |
| OrderEventsFetch.Handler | lambda/orders/orderEventsFetchFunction.ts:19-48 | fails exactly when the query or email is missing; otherwise 200 with the converted answer of that query |
| OrderEventsFetch.WrittenRowReadsBack | lambda/orders/orderEventsFetchFunction.ts:50-61 | a row written for an order event reads back with the event's email, timestamp, type, request id, order id and codes |

## Left out

- Concurrency. `Promise.all` over records and over the effects of one step is modelled as
  sequential, in source order. So is the race between the URL_GENERATED check and the
  INVOICE_RECEIVED write. The code has no mechanism for it.
- EventsTable.ExpiresAt: does not model the 32-bit wrap of `~~`, which only matters for
  timestamps beyond the year 2038.
- InvoiceTransaction.UpdateStatus: forward-only transitions are not proved. The code does
  not enforce them: no guard on the previous status.
- Cancellation. The `cancelImport` route and any writer of `CANCELLED` or `TIMEOUT` statuses
  are not part of this model. Those statuses exist only as values.
- Order of scans and queries. `FindAll` and `FindManyByEmail` promise a permutation of the
  stored (projected) rows, not an order. Pagination (`LastEvaluatedKey`) is not modelled: a
  scan is taken to return everything.
- ProductsLayer.ProductRepository.FindManyByIds: the reply is taken in request order, which
  BatchGetItem does not promise. So the product order of a placed order (its lines and the
  codes of its CREATED event, in `OrdersApi.Handler`) is not modelled beyond that choice.
  `UnprocessedKeys` of a throttled batch read is not modelled either; every stored requested
  product is returned.
- Empty strings as key values, which the store rejects, are not modelled. Neither are its
  other input validations, except the batch-key list rules and a missing key attribute.
- JSON parsing and printing. Bodies and envelopes are datatypes. A body that does not parse
  is a separate constructor or `None`. Numbers are integers, so float sums and exponent
  notation are out. The stream image's `quantity` is kept as a number, not its `N` text.
- S3 object keys are taken as given. The URL-encoding of keys in bucket notifications is not
  modelled.
- The push channel's failures are not modelled. A push or disconnect always succeeds; a
  vanished connection, which the layer would tolerate, is not represented.
- Retries of failed invocations by the platform are not modelled. A failed handler is
  reported by its result or `Failure`.
- ProductsLayer.ProductRepository.Create: the caller's product object is mutated in place in
  the source. The model returns a new value instead, so aliasing of that object is not
  captured.
- The invoice repository, the WebSocket service and the order/product event type layers are
  not part of this model. They are reduced to a put into a map, an outbox of messages, and
  datatypes.
- OrderEventsFetch.Handler: the two event queries (`findManyByEmail`,
  `findManyByEmailAndEventType`) are not defined in orderEventRepository.ts, which has only
  `create`. Their reply is the parameter `answer`.
- Order event types are the datatype `OrderEventType` (CREATED, DELETED). Their string
  values are not part of this model.
- Logging, X-Ray tracing, environment variables and the CDK stacks are not modelled.
