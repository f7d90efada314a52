/**
 * The stream handler of the invoice table: an inserted invoice row is recorded as an
 * INVOICE_CREATED event, and a removed (expired) transaction that was not processed is
 * told TIMEOUT and disconnected.
 */
module InvoiceEvents {
  import opened Wrappers
  import opened Text
  import opened EventsTable
  import opened InvoiceTransaction
  import opened InvoiceServices

  /** A row of the invoice table as the stream shows it: a transaction or an invoice. */
  datatype Item = TransactionItem(tx: InvoiceTransactionRecord) | InvoiceItem(invoice: Invoice)

  function ItemPk(item: Item): string {
    match item
    case TransactionItem(tx) => tx.pk
    case InvoiceItem(inv) => inv.pk
  }

  /** One stream record: its event name and the images it carries. */
  datatype StreamRecord = StreamRecord(eventName: string, newImage: Option<Item>, oldImage: Option<Item>)

  datatype InvoiceEventInfo = InvoiceEventInfo(transactionId: string, productId: string, quantity: int)

  /** The row `createEvent` puts into the events table. */
  datatype InvoiceEventItem = InvoiceEventItem(
    pk: string,
    sk: string,
    ttl: nat,
    email: Option<string>,
    createdAt: nat,
    info: InvoiceEventInfo)

  const InvoiceCreatedEvent: string := "INVOICE_CREATED"

  /** The error raised when the handler reads an attribute the image does not have. */
  const MissingAttribute: string := "TypeError: Cannot read properties of undefined"

  /** What the handler does with a record. */
  datatype Action =
    | Ignore
    | RecordEvent(image: Option<Item>)
    | ExpireTransaction(oldImage: Item)

  /**
   * INSERTs of rows whose pk starts with "#transaction" are ignored, every other INSERT is
   * recorded; only REMOVEs whose old pk is exactly "#transaction" are handled as expiries.
   */
  function Classify(r: StreamRecord): Action {
    if r.eventName == "INSERT" then
      if r.newImage.Some? && StartsWith(ItemPk(r.newImage.value), TransactionPk) then Ignore
      else RecordEvent(r.newImage)
    else if r.eventName == "REMOVE" then
      if r.oldImage.Some? && ItemPk(r.oldImage.value) == TransactionPk then ExpireTransaction(r.oldImage.value)
      else Ignore
    else Ignore
  }

  /** `pk.split("_")[1]`: the second "_"-separated segment, `undefined` when there is none. */
  function EmailOf(pk: string): (email: Option<string>)
    ensures email.Some? <==> '_' in pk
  {
    var parts := Split(pk, '_');
    JoinSplit(pk, '_');
    if |parts| > 1 then Some(parts[1]) else None
  }

  /** `createEvent(image, eventType)` at time `now`: the row to put, or the error it throws. */
  function CreateEvent(image: Option<Item>, eventType: string, now: nat): Result<InvoiceEventItem, string> {
    match image
    case Some(InvoiceItem(inv)) =>
      Success(InvoiceEventItem(
        "#invoice_" + inv.sk,
        EventSk(eventType, now),
        ExpiresAt(now, OneHour),
        EmailOf(inv.pk),
        now,
        InvoiceEventInfo(inv.transactionId, inv.productId, inv.quantity)))
    case _ => Failure(MissingAttribute)
  }

  /** `processExpiredTransaction`: the messages it sends, in order, or the error it throws. */
  function ExpiryMessages(image: Item): Result<seq<Message>, string> {
    match image
    case TransactionItem(tx) =>
      if StatusName(tx.transactionStatus) == "INVOICE_PROCESSED" then Success([])
      else Success([StatusPush(tx.sk, tx.connectionId, "TIMEOUT"), Disconnect(tx.connectionId)])
    case InvoiceItem(_) => Failure(MissingAttribute)
  }

  /**
   * What a batch has done so far: events put, messages sent, and whether some record's
   * promise rejected (which makes the whole invocation fail after every record has run).
   */
  datatype Effects = Effects(events: seq<InvoiceEventItem>, outbox: seq<Message>, failed: bool)

  function HandleRecord(e: Effects, r: StreamRecord, now: nat): Effects {
    match Classify(r)
    case Ignore => e
    case RecordEvent(image) =>
      (match CreateEvent(image, InvoiceCreatedEvent, now)
       case Success(item) => e.(events := e.events + [item])
       case Failure(_) => e.(failed := true))
    case ExpireTransaction(image) =>
      (match ExpiryMessages(image)
       case Success(messages) => e.(outbox := e.outbox + messages)
       case Failure(_) => e.(failed := true))
  }

  function HandleAll(e: Effects, records: seq<StreamRecord>, clock: seq<nat>): Effects
    requires |clock| == |records|
    decreases |records|
  {
    if records == [] then e
    else
      var n := |records| - 1;
      HandleRecord(HandleAll(e, records[..n], clock[..n]), records[n], clock[n])
  }

  method RecordInvoiceEvent(log: PutLog<InvoiceEventItem>, image: Option<Item>, now: nat) returns (ok: bool)
    modifies log
    ensures ok <==> CreateEvent(image, InvoiceCreatedEvent, now).Success?
    ensures log.items == old(log.items) + (if ok then [CreateEvent(image, InvoiceCreatedEvent, now).value] else [])
  {
    var made := CreateEvent(image, InvoiceCreatedEvent, now);
    if made.Failure? {
      return false;
    }
    log.Put(made.value);
    ok := true;
  }

  method ProcessExpiredTransaction(ws: InvoiceWSService, image: Item) returns (ok: bool)
    modifies ws
    ensures ok <==> ExpiryMessages(image).Success?
    ensures ws.outbox == old(ws.outbox) + (if ok then ExpiryMessages(image).value else [])
  {
    if image.InvoiceItem? {
      return false;
    }
    var tx := image.tx;
    if StatusName(tx.transactionStatus) == "INVOICE_PROCESSED" {
      ok := true;
    } else {
      ws.SendInvoiceStatus(tx.sk, tx.connectionId, "TIMEOUT");
      ws.DisconnectClient(tx.connectionId);
      ok := true;
    }
  }

  /** `handler`; `succeeded` is false when some record's promise rejected. */
  method Handler(log: PutLog<InvoiceEventItem>, ws: InvoiceWSService, records: seq<StreamRecord>, clock: seq<nat>)
    returns (succeeded: bool)
    requires |clock| == |records|
    modifies log, ws
    ensures Effects(log.items, ws.outbox, !succeeded) == HandleAll(Effects(old(log.items), old(ws.outbox), false), records, clock)
  {
    var failed := false;
    for i := 0 to |records|
      invariant Effects(log.items, ws.outbox, failed) == HandleAll(Effects(old(log.items), old(ws.outbox), false), records[..i], clock[..i])
    {
      assert records[..i + 1][..i] == records[..i];
      assert clock[..i + 1][..i] == clock[..i];
      var ok := true;
      match Classify(records[i]) {
        case Ignore =>
        case RecordEvent(image) =>
          ok := RecordInvoiceEvent(log, image, clock[i]);
        case ExpireTransaction(image) =>
          ok := ProcessExpiredTransaction(ws, image);
      }
      failed := failed || !ok;
    }
    assert records[..|records|] == records;
    assert clock[..|clock|] == clock;
    succeeded := !failed;
  }

  // ---------------------------------------------------------------------------
  // Classification

  lemma ClassifyInsert(r: StreamRecord, image: Item)
    requires r.eventName == "INSERT" && r.newImage == Some(image)
    ensures Classify(r) == Ignore <==> StartsWith(ItemPk(image), "#transaction")
    ensures Classify(r) != Ignore ==> Classify(r) == RecordEvent(Some(image))
  {
  }

  /** A REMOVE is handled exactly when the old pk equals "#transaction"; a longer pk with that prefix is not. */
  lemma ClassifyRemove(r: StreamRecord)
    requires r.eventName == "REMOVE"
    ensures Classify(r).ExpireTransaction? <==> r.oldImage.Some? && ItemPk(r.oldImage.value) == "#transaction"
    ensures !Classify(r).ExpireTransaction? ==> Classify(r) == Ignore
  {
  }

  lemma ClassifyOther(r: StreamRecord)
    requires r.eventName != "INSERT" && r.eventName != "REMOVE"
    ensures Classify(r) == Ignore
  {
  }

  // ---------------------------------------------------------------------------
  // Expiry

  /** A processed transaction expires silently; any other is told TIMEOUT, then disconnected. */
  lemma ExpiryOutcome(tx: InvoiceTransactionRecord)
    ensures tx.transactionStatus == Processed ==> ExpiryMessages(TransactionItem(tx)) == Success([])
    ensures tx.transactionStatus != Processed ==>
      ExpiryMessages(TransactionItem(tx)) == Success([StatusPush(tx.sk, tx.connectionId, "TIMEOUT"), Disconnect(tx.connectionId)])
  {
    if tx.transactionStatus != Processed && StatusName(tx.transactionStatus) == "INVOICE_PROCESSED" {
      StatusNameInjective(tx.transactionStatus, Processed);
    }
  }

  // ---------------------------------------------------------------------------
  // The event row

  /** The email of an invoice row is the customer name, when that name has no "_" in it. */
  lemma EmailOfInvoicePk(customer: string)
    requires '_' !in customer
    ensures EmailOf("#invoice_" + customer) == Some(customer)
  {
    assert "#invoice_" + customer == "#invoice" + ['_'] + customer;
    SplitAfterSegment("#invoice", '_', customer);
    SplitWithoutSeparator(customer, '_');
  }

  /** A customer name with a "_" in it is cut at that "_". */
  lemma EmailOfTruncates(first: string, rest: string)
    requires '_' !in first
    ensures EmailOf("#invoice_" + first + "_" + rest) == Some(first)
  {
    assert "#invoice_" + first + "_" + rest == "#invoice" + ['_'] + (first + ['_'] + rest);
    SplitAfterSegment("#invoice", '_', first + ['_'] + rest);
    SplitAfterSegment(first, '_', rest);
  }

  /** The recorded event of an invoice row: keys, expiry and copied fields. */
  lemma CreateEventOfInvoice(inv: Invoice, now: nat)
    ensures CreateEvent(Some(InvoiceItem(inv)), InvoiceCreatedEvent, now).Success?
    ensures var item := CreateEvent(Some(InvoiceItem(inv)), InvoiceCreatedEvent, now).value;
      && item.pk == "#invoice_" + inv.sk
      && Split(item.sk, '#') == ["INVOICE_CREATED", NatToString(now)]
      && item.ttl == now / 1000 + 3600
      && item.createdAt == now
      && item.info == InvoiceEventInfo(inv.transactionId, inv.productId, inv.quantity)
  {
    EventSkParts(InvoiceCreatedEvent, now);
  }

  /** Images without the invoice attributes make `createEvent` reject; nothing is put. */
  lemma CreateEventNeedsInvoice(image: Option<Item>, eventType: string, now: nat)
    requires image.None? || image.value.TransactionItem?
    ensures CreateEvent(image, eventType, now) == Failure(MissingAttribute)
  {
  }
}
