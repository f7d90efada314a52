/**
 * The import processor: triggered by "object created" notifications of the upload bucket,
 * it advances the upload's transaction from URL_GENERATED through INVOICE_RECEIVED to
 * INVOICE_PROCESSED (creating the invoice and deleting the object) or to
 * NON_VALID_INVOICE_NUMBER (disconnecting the client), pushing every status it writes.
 */
module InvoiceImport {
  import opened Wrappers
  import opened Text
  import opened InvoiceTransaction
  import opened InvoiceServices

  /** Invoice numbers shorter than this, in UTF-16 code units, are rejected. */
  const MinInvoiceNumberLength: nat := 5

  /** Everything the invoice handlers read or change, as values. */
  datatype Stores = Stores(
    transactions: TransactionTable,
    invoices: InvoiceTable,
    bucket: map<string, ObjectBody>,
    outbox: seq<Message>)

  /** One notification of the bucket: the key of the object written (the transaction id). */
  datatype S3Record = S3Record(key: string)

  function Snapshot(repo: InvoiceTransactionRepository, invoices: InvoiceRepository, bucket: Bucket, ws: InvoiceWSService): Stores
    reads repo, invoices, bucket, ws
  {
    Stores(repo.table, invoices.table, bucket.objects, ws.outbox)
  }

  /** The invoice row created for a valid file uploaded under `key`. */
  function InvoiceOf(file: InvoiceFile, key: string, now: nat): (inv: Invoice)
    ensures (inv.pk, inv.sk) == ("#invoice_" + file.customerName, file.invoiceNumber)
    ensures inv.ttl == 0 && inv.transactionId == key && inv.createdAt == now
    ensures inv.totalValue == file.totalValue && inv.productId == file.productId && inv.quantity == file.quantity
  {
    Invoice("#invoice_" + file.customerName, file.invoiceNumber, 0, file.totalValue, file.productId, file.quantity, key, now)
  }

  function Push(key: string, tx: InvoiceTransactionRecord, status: Status): Message {
    StatusPush(key, tx.connectionId, StatusName(status))
  }

  function SetStatus(table: TransactionTable, key: string, status: Status): TransactionTable {
    UpdateStatus(table, key, status).1
  }

  /**
   * `processRecord` on values: the effect of one notification for `key`, handled at time
   * `now`. Every thrown error is caught, so the failure paths simply stop.
   */
  function ImportRecord(s: Stores, key: string, now: nat): Stores {
    match Lookup(s.transactions, key)
    case Failure(_) => s
    case Success(tx) =>
      if tx.transactionStatus != Generated then
        s.(outbox := s.outbox + [Push(key, tx, tx.transactionStatus)])
      else if key !in s.bucket then
        s
      else
        var received := s.(outbox := s.outbox + [Push(key, tx, Received)],
                           transactions := SetStatus(s.transactions, key, Received));
        match s.bucket[key]
        case Unparseable => received
        case InvoiceBody(file) =>
          if Utf16Length(file.invoiceNumber) < MinInvoiceNumberLength then
            received.(outbox := received.outbox + [Push(key, tx, NonValidInvoiceNumber), Disconnect(tx.connectionId)],
                      transactions := SetStatus(received.transactions, key, NonValidInvoiceNumber))
          else
            var inv := InvoiceOf(file, key, now);
            received.(invoices := received.invoices[(inv.pk, inv.sk) := inv],
                      bucket := received.bucket - {key},
                      transactions := SetStatus(received.transactions, key, Processed),
                      outbox := received.outbox + [Push(key, tx, Processed)])
  }

  /** `handler`: `processRecord` once per record, in order; `clock[i]` is the time record i is handled. */
  function ImportAll(s: Stores, records: seq<S3Record>, clock: seq<nat>): Stores
    requires |clock| == |records|
    decreases |records|
  {
    if records == [] then s
    else
      var n := |records| - 1;
      ImportRecord(ImportAll(s, records[..n], clock[..n]), records[n].key, clock[n])
  }

  method ProcessRecord(repo: InvoiceTransactionRepository, invoices: InvoiceRepository, bucket: Bucket,
                       ws: InvoiceWSService, record: S3Record, now: nat)
    requires repo.Valid()
    modifies repo, invoices, bucket, ws
    ensures repo.Valid()
    ensures Snapshot(repo, invoices, bucket, ws) == ImportRecord(old(Snapshot(repo, invoices, bucket, ws)), record.key, now)
  {
    var key := record.key;
    var found := repo.FindByKey(key);
    if found.Failure? {
      return;
    }
    var tx := found.value;
    if tx.transactionStatus != Generated {
      ws.SendInvoiceStatus(key, tx.connectionId, StatusName(tx.transactionStatus));
      return;
    }
    var got := bucket.GetObject(key);
    if got.Failure? {
      return;
    }
    ws.SendInvoiceStatus(key, tx.connectionId, StatusName(Received));
    var updated := repo.UpdateInvoiceTransaction(key, Received);
    if got.value.Unparseable? {
      return;
    }
    var file := got.value.file;
    if Utf16Length(file.invoiceNumber) < MinInvoiceNumberLength {
      ws.SendInvoiceStatus(key, tx.connectionId, StatusName(NonValidInvoiceNumber));
      updated := repo.UpdateInvoiceTransaction(key, NonValidInvoiceNumber);
      ws.DisconnectClient(tx.connectionId);
      return;
    }
    invoices.Create(InvoiceOf(file, key, now));
    bucket.DeleteObject(key);
    updated := repo.UpdateInvoiceTransaction(key, Processed);
    ws.SendInvoiceStatus(key, tx.connectionId, StatusName(Processed));
  }

  method Handler(repo: InvoiceTransactionRepository, invoices: InvoiceRepository, bucket: Bucket,
                 ws: InvoiceWSService, records: seq<S3Record>, clock: seq<nat>)
    requires repo.Valid()
    requires |clock| == |records|
    modifies repo, invoices, bucket, ws
    ensures repo.Valid()
    ensures Snapshot(repo, invoices, bucket, ws) == ImportAll(old(Snapshot(repo, invoices, bucket, ws)), records, clock)
  {
    for i := 0 to |records|
      invariant repo.Valid()
      invariant Snapshot(repo, invoices, bucket, ws) == ImportAll(old(Snapshot(repo, invoices, bucket, ws)), records[..i], clock[..i])
    {
      assert records[..i + 1][..i] == records[..i];
      assert clock[..i + 1][..i] == clock[..i];
      ProcessRecord(repo, invoices, bucket, ws, records[i], clock[i]);
    }
    assert records[..|records|] == records;
    assert clock[..|clock|] == clock;
  }

  // ---------------------------------------------------------------------------
  // One notification

  /** A notification for an unknown transaction changes nothing and pushes nothing. */
  lemma ImportMissingTransaction(s: Stores, key: string, now: nat)
    requires (TransactionPk, key) !in s.transactions
    ensures ImportRecord(s, key, now) == s
  {
  }

  /**
   * A transaction that is no longer URL_GENERATED only gets its current status pushed
   * again: no row, invoice or object changes, so a re-delivered notification creates nothing.
   */
  lemma ImportStaleStatus(s: Stores, key: string, now: nat)
    requires (TransactionPk, key) in s.transactions
    requires s.transactions[(TransactionPk, key)].transactionStatus != Generated
    ensures var tx := s.transactions[(TransactionPk, key)];
      ImportRecord(s, key, now) == s.(outbox := s.outbox + [StatusPush(key, tx.connectionId, StatusName(tx.transactionStatus))])
  {
  }

  /** A failed `getObject` is swallowed before anything is pushed or written. */
  lemma ImportMissingObject(s: Stores, key: string, now: nat)
    requires (TransactionPk, key) in s.transactions
    requires s.transactions[(TransactionPk, key)].transactionStatus == Generated
    requires key !in s.bucket
    ensures ImportRecord(s, key, now) == s
  {
  }

  /** A body that does not parse leaves the transaction stuck in INVOICE_RECEIVED. */
  lemma ImportUnparseable(s: Stores, key: string, now: nat)
    requires (TransactionPk, key) in s.transactions
    requires s.transactions[(TransactionPk, key)].transactionStatus == Generated
    requires key in s.bucket && s.bucket[key] == Unparseable
    ensures var r := ImportRecord(s, key, now);
      var tx := s.transactions[(TransactionPk, key)];
      && r.transactions == s.transactions[(TransactionPk, key) := tx.(transactionStatus := Received)]
      && r.invoices == s.invoices && r.bucket == s.bucket
      && r.outbox == s.outbox + [StatusPush(key, tx.connectionId, "INVOICE_RECEIVED")]
  {
  }

  /**
   * An invoice number shorter than five characters: RECEIVED then NON_VALID_INVOICE_NUMBER
   * are pushed and written, the client is disconnected, no invoice is created and the
   * object stays in the bucket.
   */
  lemma ImportRejected(s: Stores, key: string, now: nat)
    requires (TransactionPk, key) in s.transactions
    requires s.transactions[(TransactionPk, key)].transactionStatus == Generated
    requires key in s.bucket && s.bucket[key].InvoiceBody?
    requires Utf16Length(s.bucket[key].file.invoiceNumber) < 5
    ensures var r := ImportRecord(s, key, now);
      var tx := s.transactions[(TransactionPk, key)];
      && r.transactions == s.transactions[(TransactionPk, key) := tx.(transactionStatus := NonValidInvoiceNumber)]
      && r.invoices == s.invoices && r.bucket == s.bucket
      && r.outbox == s.outbox + [StatusPush(key, tx.connectionId, "INVOICE_RECEIVED"),
                                 StatusPush(key, tx.connectionId, "NON_VALID_INVOICE_NUMBER"),
                                 Disconnect(tx.connectionId)]
  {
    var tx := s.transactions[(TransactionPk, key)];
    var k := (TransactionPk, key);
    assert s.transactions[k := tx.(transactionStatus := Received)][k := tx.(transactionStatus := NonValidInvoiceNumber)]
        == s.transactions[k := tx.(transactionStatus := NonValidInvoiceNumber)];
  }

  /**
   * An invoice number of five characters or more: the invoice is created, the object is
   * deleted, the transaction ends INVOICE_PROCESSED, RECEIVED then PROCESSED are pushed,
   * and the client stays connected.
   */
  lemma ImportAccepted(s: Stores, key: string, now: nat)
    requires (TransactionPk, key) in s.transactions
    requires s.transactions[(TransactionPk, key)].transactionStatus == Generated
    requires key in s.bucket && s.bucket[key].InvoiceBody?
    requires Utf16Length(s.bucket[key].file.invoiceNumber) >= 5
    ensures var r := ImportRecord(s, key, now);
      var tx := s.transactions[(TransactionPk, key)];
      var file := s.bucket[key].file;
      && r.transactions == s.transactions[(TransactionPk, key) := tx.(transactionStatus := Processed)]
      && r.invoices == s.invoices[("#invoice_" + file.customerName, file.invoiceNumber) := InvoiceOf(file, key, now)]
      && r.bucket == s.bucket - {key}
      && r.outbox == s.outbox + [StatusPush(key, tx.connectionId, "INVOICE_RECEIVED"),
                                 StatusPush(key, tx.connectionId, "INVOICE_PROCESSED")]
  {
    var tx := s.transactions[(TransactionPk, key)];
    var k := (TransactionPk, key);
    assert s.transactions[k := tx.(transactionStatus := Received)][k := tx.(transactionStatus := Processed)]
        == s.transactions[k := tx.(transactionStatus := Processed)];
  }

  /** The validation boundary: four code units are rejected, five accepted. */
  lemma ValidationBoundary(s: Stores, key: string, now: nat, file: InvoiceFile)
    requires (TransactionPk, key) in s.transactions
    requires s.transactions[(TransactionPk, key)].transactionStatus == Generated
    requires key in s.bucket && s.bucket[key] == InvoiceBody(file)
    ensures Utf16Length(file.invoiceNumber) == 4 ==>
      ImportRecord(s, key, now).transactions[(TransactionPk, key)].transactionStatus == NonValidInvoiceNumber
    ensures Utf16Length(file.invoiceNumber) == 5 ==>
      ImportRecord(s, key, now).transactions[(TransactionPk, key)].transactionStatus == Processed
  {
  }

  /**
   * The length is JavaScript's: a character above U+FFFF counts as two code units, so an
   * invoice number of three such characters is six units long and is accepted.
   */
  lemma SupplementaryCharactersCountTwice(s: Stores, key: string, now: nat, file: InvoiceFile)
    requires file.invoiceNumber == "\U{1F600}\U{1F600}\U{1F600}"
    requires (TransactionPk, key) in s.transactions
    requires s.transactions[(TransactionPk, key)].transactionStatus == Generated
    requires key in s.bucket && s.bucket[key] == InvoiceBody(file)
    ensures |file.invoiceNumber| == 3 && Utf16Length(file.invoiceNumber) == 6
    ensures ImportRecord(s, key, now).transactions[(TransactionPk, key)].transactionStatus == Processed
  {
    var n := file.invoiceNumber;
    assert n[..2][..1] == n[..1] && n[..2] == n[..|n| - 1];
    assert Utf16Length(n[..1]) == 2;
  }

  /**
   * Only a URL_GENERATED transaction with a valid file produces an invoice, and then the
   * first status it pushes is INVOICE_RECEIVED: processing always passes through RECEIVED.
   */
  lemma InvoiceOnlyFromGenerated(s: Stores, key: string, now: nat)
    requires ImportRecord(s, key, now).invoices != s.invoices
    ensures (TransactionPk, key) in s.transactions
    ensures s.transactions[(TransactionPk, key)].transactionStatus == Generated
    ensures var r := ImportRecord(s, key, now);
      && |r.outbox| == |s.outbox| + 2
      && r.outbox[|s.outbox|].StatusPush? && r.outbox[|s.outbox|].status == "INVOICE_RECEIVED"
      && r.transactions[(TransactionPk, key)].transactionStatus == Processed
  {
    var k := (TransactionPk, key);
    if k in s.transactions && s.transactions[k].transactionStatus == Generated && key in s.bucket
       && s.bucket[key].InvoiceBody? && Utf16Length(s.bucket[key].file.invoiceNumber) >= 5 {
      ImportAccepted(s, key, now);
    }
  }

  // ---------------------------------------------------------------------------
  // A batch of notifications

  /** What a batch never does: create or delete a transaction, delete an invoice, or retract a push. */
  ghost predicate Grows(s: Stores, r: Stores) {
    && r.transactions.Keys == s.transactions.Keys
    && s.invoices.Keys <= r.invoices.Keys
    && r.bucket.Keys <= s.bucket.Keys
    && s.outbox <= r.outbox
  }

  lemma ImportRecordGrows(s: Stores, key: string, now: nat)
    ensures Grows(s, ImportRecord(s, key, now))
  {
  }

  lemma {:induction false} ImportAllGrows(s: Stores, records: seq<S3Record>, clock: seq<nat>)
    requires |clock| == |records|
    ensures Grows(s, ImportAll(s, records, clock))
    decreases |records|
  {
    if records != [] {
      var n := |records| - 1;
      var mid := ImportAll(s, records[..n], clock[..n]);
      ImportAllGrows(s, records[..n], clock[..n]);
      ImportRecordGrows(mid, records[n].key, clock[n]);
    }
  }

  /** A batch in which no record names a known transaction changes nothing. */
  lemma {:induction false} ImportAllUnknownKeys(s: Stores, records: seq<S3Record>, clock: seq<nat>)
    requires |clock| == |records|
    requires forall i :: 0 <= i < |records| ==> (TransactionPk, records[i].key) !in s.transactions
    ensures ImportAll(s, records, clock) == s
    decreases |records|
  {
    if records != [] {
      var n := |records| - 1;
      ImportAllUnknownKeys(s, records[..n], clock[..n]);
    }
  }
}
