/**
 * The collaborators the invoice handlers call: the invoice rows (`InvoiceRepository`),
 * the upload bucket, and the WebSocket push channel (`InvoiceWSService`). Their layers
 * are not part of this model; each is reduced to the state its calls change.
 */
module InvoiceServices {
  import opened Wrappers

  /** The parsed content of an uploaded object. Prices and values are integers (cents). */
  datatype InvoiceFile = InvoiceFile(
    invoiceNumber: string,
    customerName: string,
    totalValue: int,
    productId: string,
    quantity: int)

  /** An uploaded object's body: an invoice file, or text that does not parse as one. */
  datatype ObjectBody = InvoiceBody(file: InvoiceFile) | Unparseable

  /** An invoice row, stored in the same table as the transactions but under "#invoice_<customer>". */
  datatype Invoice = Invoice(
    pk: string,
    sk: string,
    ttl: nat,
    totalValue: int,
    productId: string,
    quantity: int,
    transactionId: string,
    createdAt: nat)

  type InvoiceTable = map<(string, string), Invoice>

  /** The payload pushed by the URL broker: `{url, expires, transactionId}`. */
  datatype UrlPayload = UrlPayload(url: string, expires: nat, transactionId: string)

  /** What the push channel is asked to do, in order. */
  datatype Message =
    | StatusPush(transactionId: string, connectionId: string, status: string)
    | DataPush(connectionId: string, payload: UrlPayload)
    | Disconnect(connectionId: string)

  const NoSuchKey: string := "The specified key does not exist."

  class InvoiceRepository {
    var table: InvoiceTable

    constructor(initial: InvoiceTable)
      ensures table == initial
    {
      table := initial;
    }

    /** A plain put under (pk, sk). */
    method Create(invoice: Invoice)
      modifies this
      ensures table == old(table)[(invoice.pk, invoice.sk) := invoice]
    {
      table := table[(invoice.pk, invoice.sk) := invoice];
    }
  }

  class Bucket {
    var objects: map<string, ObjectBody>

    constructor(initial: map<string, ObjectBody>)
      ensures objects == initial
    {
      objects := initial;
    }

    /** `getObject`: fails when no object is stored under the key. */
    method GetObject(key: string) returns (r: Result<ObjectBody, string>)
      ensures key in objects ==> r == Success(objects[key])
      ensures key !in objects ==> r == Failure(NoSuchKey)
    {
      if key in objects {
        r := Success(objects[key]);
      } else {
        r := Failure(NoSuchKey);
      }
    }

    /** `deleteObject`: removes the key; deleting a missing key is not an error. */
    method DeleteObject(key: string)
      modifies this
      ensures objects == old(objects) - {key}
    {
      objects := objects - {key};
    }
  }

  class InvoiceWSService {
    var outbox: seq<Message>

    constructor(initial: seq<Message>)
      ensures outbox == initial
    {
      outbox := initial;
    }

    method SendInvoiceStatus(transactionId: string, connectionId: string, status: string)
      modifies this
      ensures outbox == old(outbox) + [StatusPush(transactionId, connectionId, status)]
    {
      outbox := outbox + [StatusPush(transactionId, connectionId, status)];
    }

    method SendData(connectionId: string, payload: UrlPayload)
      modifies this
      ensures outbox == old(outbox) + [DataPush(connectionId, payload)]
    {
      outbox := outbox + [DataPush(connectionId, payload)];
    }

    method DisconnectClient(connectionId: string)
      modifies this
      ensures outbox == old(outbox) + [Disconnect(connectionId)]
    {
      outbox := outbox + [Disconnect(connectionId)];
    }
  }
}
