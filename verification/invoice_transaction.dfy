/**
 * The invoice-transaction repository: one row per upload, in the fixed partition
 * "#transaction" and keyed by the transaction id, whose status drives the import workflow.
 */
module InvoiceTransaction {
  import opened Wrappers

  /** The seven statuses a transaction can be in. */
  datatype Status =
    | Generated
    | Received
    | Processed
    | Timeout
    | Cancelled
    | NonValidInvoiceNumber
    | NotFound

  /** The string each status is stored and pushed as. */
  function StatusName(s: Status): string {
    match s
    case Generated => "URL_GENERATED"
    case Received => "INVOICE_RECEIVED"
    case Processed => "INVOICE_PROCESSED"
    case Timeout => "TIMEOUT"
    case Cancelled => "CANCELLED"
    case NonValidInvoiceNumber => "NON_VALID_INVOICE_NUMBER"
    case NotFound => "NOT_FOUND"
  }

  /** The seven strings are pairwise distinct, so a stored string names exactly one status. */
  lemma StatusNameInjective(s: Status, t: Status)
    requires StatusName(s) == StatusName(t)
    ensures s == t
  {
  }

  /** The partition every transaction is stored in and looked up from. */
  const TransactionPk: string := "#transaction"

  const NotFoundMessage: string := "Invoice transaction not found"

  datatype InvoiceTransactionRecord = InvoiceTransactionRecord(
    pk: string,
    sk: string,
    ttl: nat,
    requestId: string,
    timestamp: nat,
    expiresIn: nat,
    connectionId: string,
    endpoint: string,
    transactionStatus: Status)

  type Key = (string, string)

  type TransactionTable = map<Key, InvoiceTransactionRecord>

  function KeyOf(t: InvoiceTransactionRecord): Key {
    (t.pk, t.sk)
  }

  /** Every row sits under its own (pk, sk). */
  ghost predicate WellKeyed(table: TransactionTable) {
    forall k | k in table :: KeyOf(table[k]) == k
  }

  /** `findByKey`: the row ("#transaction", key), or the not-found error. */
  function Lookup(table: TransactionTable, key: string): (r: Result<InvoiceTransactionRecord, string>)
    ensures r.Success? <==> (TransactionPk, key) in table
    ensures r.Success? ==> r.value == table[(TransactionPk, key)]
    ensures r.Failure? ==> r.error == NotFoundMessage
  {
    if (TransactionPk, key) in table then Success(table[(TransactionPk, key)])
    else Failure(NotFoundMessage)
  }

  /**
   * `updateInvoiceTransaction`: `SET transactionStatus` under `attribute_exists(pk)`.
   * The flag says whether the row existed; the previous status plays no part.
   */
  function UpdateStatus(table: TransactionTable, key: string, status: Status): (r: (bool, TransactionTable))
    ensures r.0 <==> (TransactionPk, key) in table
    ensures !r.0 ==> r.1 == table
    ensures r.1.Keys == table.Keys
    ensures r.0 ==> r.1[(TransactionPk, key)] == table[(TransactionPk, key)].(transactionStatus := status)
    ensures forall k | k in table && k != (TransactionPk, key) :: r.1[k] == table[k]
  {
    var k := (TransactionPk, key);
    if k in table then (true, table[k := table[k].(transactionStatus := status)]) else (false, table)
  }

  /** After `create(r)` with r.pk == "#transaction", `findByKey(r.sk)` returns r. */
  lemma FindAfterCreate(table: TransactionTable, t: InvoiceTransactionRecord)
    requires t.pk == TransactionPk
    ensures Lookup(table[KeyOf(t) := t], t.sk) == Success(t)
  {
  }

  /** A status update is seen by the next lookup, and the failed update of a missing row leaves it missing. */
  lemma FindAfterUpdate(table: TransactionTable, key: string, status: Status)
    ensures var (ok, table') := UpdateStatus(table, key, status);
      && (ok ==> Lookup(table', key) == Success(table[(TransactionPk, key)].(transactionStatus := status)))
      && (!ok ==> Lookup(table', key) == Failure(NotFoundMessage))
  {
  }

  /** Updates do not look at the old status: any status can be overwritten by any other. */
  lemma UpdateIgnoresPreviousStatus(table: TransactionTable, key: string, s1: Status, s2: Status)
    requires (TransactionPk, key) in table
    ensures UpdateStatus(table[(TransactionPk, key) := table[(TransactionPk, key)].(transactionStatus := s1)], key, s2)
         == UpdateStatus(table, key, s2)
  {
    var k := (TransactionPk, key);
    var t1 := table[k := table[k].(transactionStatus := s1)];
    assert t1[k := t1[k].(transactionStatus := s2)] == table[k := table[k].(transactionStatus := s2)];
  }

  class InvoiceTransactionRepository {
    var table: TransactionTable

    ghost predicate Valid()
      reads this
    {
      WellKeyed(table)
    }

    constructor(initial: TransactionTable)
      requires WellKeyed(initial)
      ensures Valid()
      ensures table == initial
    {
      table := initial;
    }

    /** A plain put: the row is stored under its own key, replacing any row already there. */
    method Create(invoiceTransaction: InvoiceTransactionRecord) returns (created: InvoiceTransactionRecord)
      requires Valid()
      modifies this
      ensures Valid()
      ensures table == old(table)[KeyOf(invoiceTransaction) := invoiceTransaction]
      ensures created == invoiceTransaction
    {
      table := table[KeyOf(invoiceTransaction) := invoiceTransaction];
      created := invoiceTransaction;
    }

    method FindByKey(key: string) returns (r: Result<InvoiceTransactionRecord, string>)
      ensures r == Lookup(table, key)
    {
      if (TransactionPk, key) in table {
        r := Success(table[(TransactionPk, key)]);
      } else {
        r := Failure(NotFoundMessage);
      }
    }

    method UpdateInvoiceTransaction(key: string, status: Status) returns (ok: bool)
      requires Valid()
      modifies this
      ensures Valid()
      ensures (ok, table) == UpdateStatus(old(table), key, status)
    {
      var k := (TransactionPk, key);
      if k in table {
        table := table[k := table[k].(transactionStatus := status)];
        ok := true;
      } else {
        ok := false;
      }
    }
  }
}
