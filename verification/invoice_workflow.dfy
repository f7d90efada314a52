/**
 * The import workflow across its three handlers: the broker registers the transaction,
 * the client uploads, the import processor reacts to the upload, and the stream handler
 * reacts when the store expires the transaction row.
 */
module InvoiceWorkflow {
  import opened Wrappers
  import opened Text
  import opened InvoiceTransaction
  import opened InvoiceServices
  import opened InvoiceImport
  import opened InvoiceGetUrl
  import opened InvoiceEvents

  /** The URL broker's handler, on the whole store. */
  function Broker(s: Stores, connectionId: string, requestId: string, key: string, signedUrl: string, now: nat, endpoint: string): Stores {
    var (table, out) := RequestUpload(s.transactions, s.outbox, connectionId, requestId, key, signedUrl, now, endpoint);
    s.(transactions := table, outbox := out)
  }

  /** The client writes `body` through the presigned URL; a later write replaces an earlier one. */
  function Upload(s: Stores, key: string, body: ObjectBody): Stores {
    s.(bucket := s.bucket[key := body])
  }

  /** The store's ttl sweep removes the transaction row; the stream reports it as a REMOVE. */
  function ExpiryRecord(s: Stores, key: string): StreamRecord
    requires (TransactionPk, key) in s.transactions
  {
    StreamRecord("REMOVE", None, Some(TransactionItem(s.transactions[(TransactionPk, key)])))
  }

  /** The messages the stream handler sends for one record. */
  function Reaped(outbox: seq<Message>, r: StreamRecord, now: nat): seq<Message> {
    HandleRecord(Effects([], outbox, false), r, now).outbox
  }

  /** Expiry of a well-keyed transaction row: TIMEOUT and a disconnect unless it was processed. */
  lemma ExpiryNotifies(s: Stores, key: string, now: nat)
    requires WellKeyed(s.transactions)
    requires (TransactionPk, key) in s.transactions
    ensures var tx := s.transactions[(TransactionPk, key)];
      && (tx.transactionStatus == Processed ==> Reaped(s.outbox, ExpiryRecord(s, key), now) == s.outbox)
      && (tx.transactionStatus != Processed ==>
            Reaped(s.outbox, ExpiryRecord(s, key), now)
              == s.outbox + [StatusPush(key, tx.connectionId, "TIMEOUT"), Disconnect(tx.connectionId)])
  {
    var tx := s.transactions[(TransactionPk, key)];
    assert KeyOf(tx) == (TransactionPk, key);
    ExpiryOutcome(tx);
  }

  /**
   * The happy path: broker, upload of a file with a valid invoice number, import. The
   * transaction ends INVOICE_PROCESSED, the invoice row exists, the object is gone, and the
   * client saw the URL, then RECEIVED, then PROCESSED.
   */
  lemma HappyPath(s: Stores, connectionId: string, requestId: string, key: string, signedUrl: string,
                  t0: nat, endpoint: string, file: InvoiceFile, t1: nat)
    requires Utf16Length(file.invoiceNumber) >= MinInvoiceNumberLength
    ensures var r := ImportRecord(Upload(Broker(s, connectionId, requestId, key, signedUrl, t0, endpoint), key, InvoiceBody(file)), key, t1);
      && r.transactions[(TransactionPk, key)].transactionStatus == Processed
      && r.invoices[("#invoice_" + file.customerName, file.invoiceNumber)] == InvoiceOf(file, key, t1)
      && key !in r.bucket
      && r.outbox == s.outbox + [DataPush(connectionId, UrlPayload(signedUrl, 300, key)),
                                 StatusPush(key, connectionId, "INVOICE_RECEIVED"),
                                 StatusPush(key, connectionId, "INVOICE_PROCESSED")]
  {
    var u := Upload(Broker(s, connectionId, requestId, key, signedUrl, t0, endpoint), key, InvoiceBody(file));
    ImportAccepted(u, key, t1);
  }

  /** A transaction the client never uploads for times out: TIMEOUT is pushed once, then the client is disconnected. */
  lemma TimeoutWithoutUpload(s: Stores, connectionId: string, requestId: string, key: string, signedUrl: string,
                             t0: nat, endpoint: string, t1: nat)
    requires WellKeyed(s.transactions)
    ensures var b := Broker(s, connectionId, requestId, key, signedUrl, t0, endpoint);
      && (TransactionPk, key) in b.transactions
      && Reaped(b.outbox, ExpiryRecord(b, key), t1)
           == s.outbox + [DataPush(connectionId, UrlPayload(signedUrl, 300, key)),
                          StatusPush(key, connectionId, "TIMEOUT"),
                          Disconnect(connectionId)]
  {
    var b := Broker(s, connectionId, requestId, key, signedUrl, t0, endpoint);
    ExpiryNotifies(b, key, t1);
  }

  /** A transaction that reached INVOICE_PROCESSED expires without any message. */
  lemma ProcessedNeverTimesOut(s: Stores, key: string, t1: nat, t2: nat)
    requires WellKeyed(s.transactions)
    requires (TransactionPk, key) in ImportRecord(s, key, t1).transactions
    requires ImportRecord(s, key, t1).transactions[(TransactionPk, key)].transactionStatus == Processed
    ensures var r := ImportRecord(s, key, t1);
      Reaped(r.outbox, ExpiryRecord(r, key), t2) == r.outbox
  {
    var r := ImportRecord(s, key, t1);
    assert WellKeyed(r.transactions);
    ExpiryNotifies(r, key, t2);
  }

  /**
   * A transaction left in URL_GENERATED or INVOICE_RECEIVED by the import (no upload, or a
   * body that does not parse) always times out at expiry: one TIMEOUT, one disconnect.
   */
  lemma UnfinishedTimesOut(s: Stores, key: string, t1: nat, t2: nat)
    requires WellKeyed(s.transactions)
    requires (TransactionPk, key) in ImportRecord(s, key, t1).transactions
    requires ImportRecord(s, key, t1).transactions[(TransactionPk, key)].transactionStatus in {Generated, Received}
    ensures var r := ImportRecord(s, key, t1);
      var tx := r.transactions[(TransactionPk, key)];
      Reaped(r.outbox, ExpiryRecord(r, key), t2) == r.outbox + [StatusPush(key, tx.connectionId, "TIMEOUT"), Disconnect(tx.connectionId)]
  {
    var r := ImportRecord(s, key, t1);
    assert WellKeyed(r.transactions);
    ExpiryNotifies(r, key, t2);
  }

  /**
   * A duplicated notification: the second delivery creates no invoice, writes no status and
   * deletes nothing; at most it pushes the transaction's current status once more.
   */
  lemma DuplicateDelivery(s: Stores, key: string, t1: nat, t2: nat)
    ensures var s1 := ImportRecord(s, key, t1);
      var s2 := ImportRecord(s1, key, t2);
      || s2 == s1
      || ((TransactionPk, key) in s1.transactions
          && var tx := s1.transactions[(TransactionPk, key)];
          && tx.transactionStatus != Generated
          && s2 == s1.(outbox := s1.outbox + [StatusPush(key, tx.connectionId, StatusName(tx.transactionStatus))]))
  {
    var k := (TransactionPk, key);
    var s1 := ImportRecord(s, key, t1);
    if k !in s.transactions {
      ImportMissingTransaction(s, key, t1);
      ImportMissingTransaction(s1, key, t2);
    } else if s.transactions[k].transactionStatus != Generated {
      ImportStaleStatus(s1, key, t2);
    } else if key !in s.bucket {
      ImportMissingObject(s1, key, t2);
    } else {
      assert s1.transactions[k].transactionStatus != Generated;
      ImportStaleStatus(s1, key, t2);
    }
  }

  /** The stale-duplicate scenario: after INVOICE_PROCESSED a redelivery only pushes PROCESSED again. */
  lemma RedeliveryAfterProcessed(s: Stores, key: string, t1: nat, t2: nat)
    requires (TransactionPk, key) in ImportRecord(s, key, t1).transactions
    requires ImportRecord(s, key, t1).transactions[(TransactionPk, key)].transactionStatus == Processed
    ensures var s1 := ImportRecord(s, key, t1);
      var conn := s1.transactions[(TransactionPk, key)].connectionId;
      ImportRecord(s1, key, t2) == s1.(outbox := s1.outbox + [StatusPush(key, conn, "INVOICE_PROCESSED")])
  {
    var s1 := ImportRecord(s, key, t1);
    ImportStaleStatus(s1, key, t2);
  }

  /** The broker's own row is inserted under "#transaction" and so never becomes an event. */
  lemma BrokerInsertIgnored(key: string, connectionId: string, requestId: string, now: nat, endpoint: string)
    ensures Classify(StreamRecord("INSERT", Some(TransactionItem(NewTransaction(key, connectionId, requestId, now, endpoint))), None)) == Ignore
  {
  }

  /**
   * The insert of an invoice created by the import is recorded as INVOICE_CREATED, keyed by
   * the invoice number, carrying the transaction id and, for a customer name without "_",
   * that name as the email.
   */
  lemma ImportedInvoiceEvent(file: InvoiceFile, key: string, t1: nat, t2: nat)
    ensures var inv := InvoiceOf(file, key, t1);
      var r := StreamRecord("INSERT", Some(InvoiceItem(inv)), None);
      && Classify(r) == RecordEvent(Some(InvoiceItem(inv)))
      && CreateEvent(Some(InvoiceItem(inv)), InvoiceCreatedEvent, t2).Success?
      && var item := CreateEvent(Some(InvoiceItem(inv)), InvoiceCreatedEvent, t2).value;
      && item.pk == "#invoice_" + file.invoiceNumber
      && item.info.transactionId == key
      && ('_' !in file.customerName ==> item.email == Some(file.customerName))
  {
    var inv := InvoiceOf(file, key, t1);
    assert inv.pk[1] == 'i';
    assert !StartsWith(inv.pk, TransactionPk) by {
      assert TransactionPk[1] == 't';
    }
    if '_' !in file.customerName {
      EmailOfInvoicePk(file.customerName);
    }
  }

  /** Two valid uploads with the same customer and invoice number leave one invoice row: the later one. */
  lemma SameInvoiceNumberOverwrites(s: Stores, key: string, now: nat)
    requires (TransactionPk, key) in s.transactions
    requires s.transactions[(TransactionPk, key)].transactionStatus == Generated
    requires key in s.bucket && s.bucket[key].InvoiceBody?
    requires Utf16Length(s.bucket[key].file.invoiceNumber) >= MinInvoiceNumberLength
    ensures var file := s.bucket[key].file;
      var k := ("#invoice_" + file.customerName, file.invoiceNumber);
      && ImportRecord(s, key, now).invoices.Keys == s.invoices.Keys + {k}
      && ImportRecord(s, key, now).invoices[k].transactionId == key
  {
    ImportAccepted(s, key, now);
  }

  /** The happy path with concrete values: transaction "T1", invoice "AB123" of customer "Jane". */
  lemma ScenarioT1(s: Stores, signedUrl: string, connectionId: string, requestId: string, endpoint: string, t0: nat, t1: nat)
    ensures var file := InvoiceFile("AB123", "Jane", 4250, "P9", 2);
      var r := ImportRecord(Upload(Broker(s, connectionId, requestId, "T1", signedUrl, t0, endpoint), "T1", InvoiceBody(file)), "T1", t1);
      && r.transactions[(TransactionPk, "T1")].transactionStatus == Processed
      && ("#invoice_Jane", "AB123") in r.invoices
      && r.invoices[("#invoice_Jane", "AB123")].totalValue == 4250
      && "T1" !in r.bucket
  {
    var file := InvoiceFile("AB123", "Jane", 4250, "P9", 2);
    HappyPath(s, connectionId, requestId, "T1", signedUrl, t0, endpoint, file, t1);
    assert "#invoice_" + file.customerName == "#invoice_Jane";
  }
}
