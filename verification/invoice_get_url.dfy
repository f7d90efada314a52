/**
 * The URL broker: on a WebSocket request it registers a new transaction in URL_GENERATED
 * and pushes the presigned upload URL to the requesting connection.
 */
module InvoiceGetUrl {
  import opened Wrappers
  import opened Http
  import opened EventsTable
  import opened InvoiceTransaction
  import opened InvoiceServices

  /** Seconds the presigned URL is valid. */
  const UrlExpires: nat := 300

  /** Seconds the transaction row lives before the store expires it. */
  const TransactionLifetime: nat := 5 * 60

  /** The row registered for transaction `key`, requested at time `now` (ms) by `connectionId`. */
  function NewTransaction(key: string, connectionId: string, requestId: string, now: nat, endpoint: string): InvoiceTransactionRecord {
    InvoiceTransactionRecord(
      TransactionPk, key, ExpiresAt(now, TransactionLifetime), requestId, now, UrlExpires,
      connectionId, endpoint, Generated)
  }

  /** `handler` on values: the row is put, then the URL payload is pushed. */
  function RequestUpload(transactions: TransactionTable, outbox: seq<Message>, connectionId: string, requestId: string,
                         key: string, signedUrl: string, now: nat, endpoint: string): (TransactionTable, seq<Message>)
  {
    var tx := NewTransaction(key, connectionId, requestId, now, endpoint);
    (transactions[KeyOf(tx) := tx], outbox + [DataPush(connectionId, UrlPayload(signedUrl, UrlExpires, key))])
  }

  /**
   * `handler`. The fresh id `key`, the presigned `signedUrl`, the clock `now`, the request id
   * and the API endpoint are inputs.
   */
  method Handler(repo: InvoiceTransactionRepository, ws: InvoiceWSService, connectionId: string, requestId: string,
                 key: string, signedUrl: string, now: nat, endpoint: string) returns (response: Response<string>)
    requires repo.Valid()
    modifies repo, ws
    ensures repo.Valid()
    ensures (repo.table, ws.outbox) == RequestUpload(old(repo.table), old(ws.outbox), connectionId, requestId, key, signedUrl, now, endpoint)
    ensures response == Response(200, "OK")
  {
    var created := repo.Create(NewTransaction(key, connectionId, requestId, now, endpoint));
    ws.SendData(connectionId, UrlPayload(signedUrl, UrlExpires, key));
    response := Response(200, "OK");
  }

  /**
   * After the handler, `findByKey(key)` sees a URL_GENERATED row for the requesting
   * connection, expiring 300 s after the request, whose `expiresIn` is the URL's validity;
   * exactly one message, carrying the same key, went to that connection; no other row changed.
   */
  lemma UploadRequested(transactions: TransactionTable, outbox: seq<Message>, connectionId: string, requestId: string,
                        key: string, signedUrl: string, now: nat, endpoint: string)
    ensures var (table, out) := RequestUpload(transactions, outbox, connectionId, requestId, key, signedUrl, now, endpoint);
      && Lookup(table, key).Success?
      && var tx := Lookup(table, key).value;
      && tx.transactionStatus == Generated
      && tx.connectionId == connectionId
      && tx.ttl == now / 1000 + 300
      && tx.expiresIn == out[|outbox|].payload.expires == 300
      && out == outbox + [DataPush(connectionId, UrlPayload(signedUrl, 300, key))]
      && forall k | k in transactions && k != (TransactionPk, key) :: k in table && table[k] == transactions[k]
  {
  }
}
