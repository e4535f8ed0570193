/**
 * The backing store as the request handlers see it through a caller-scoped
 * client. Row-level security is not re-implemented: which rows the caller may
 * see, and whether the store accepts or refuses each query, are inputs
 * (`Backend`). What is modelled is the query each handler sends (table,
 * filter, ordering, inserted record) and how the store's reply is built from
 * the visible rows.
 */
module Store {
  import opened Common
  import opened Uuid
  import opened Ordering

  /** A row of `transactions` as `select("*")` returns it; `date` and `createdAt` are ordinals. */
  datatype TransactionRow = TransactionRow(
    id: string, tenantId: string, kind: string, amount: real, description: string,
    date: int, category: string, createdBy: string, createdAt: int)

  /** A row of `documents` as `select("*")` returns it. */
  datatype DocumentRow = DocumentRow(id: string, transactionId: string, fileUrl: string, createdAt: int)

  /** A row of `select("type, amount")` on `transactions`. */
  datatype AmountRow = AmountRow(kind: string, amount: real)

  /** The record `POST /transactions` inserts. */
  datatype NewTransaction = NewTransaction(
    tenantId: string, kind: string, amount: real, description: string,
    date: string, category: string, createdBy: string)

  /** The record `POST /documents` inserts. */
  datatype NewDocument = NewDocument(transactionId: string, fileUrl: string)

  /** The queries the handlers issue, one per request at most. */
  datatype Query =
    | InsertTransaction(transaction: NewTransaction)   // insert(...).select("id").single()
    | InsertDocument(document: NewDocument)            // insert(...).select("id").single()
    | SelectTransactions(tenantId: string)               // eq tenant_id, order date desc, created_at desc
    | SelectDocuments(transactionId: string)             // eq transaction_id, order created_at desc
    | SelectAmounts(tenantId: string)                    // select type, amount; eq tenant_id

  /** A store-reported failure (a PostgREST error object). */
  datatype StoreError = StoreError(code: string, message: string)

  /** The store's answer to one query: served, served with `data: null`, or refused. */
  datatype Verdict = Granted | GrantedWithoutData | Refused(error: StoreError)

  /** The `{ data, error }` pair a query resolves to. */
  datatype Reply<+T> = Data(data: Option<T>) | Failure(error: StoreError)

  /** What the store shows one caller: the rows row-level security lets it see, and its answers. */
  datatype Backend = Backend(
    transactions: seq<TransactionRow>,
    documents: seq<DocumentRow>,
    verdict: Query -> Verdict,
    generatedId: Query -> string)

  function TransactionOrder(r: TransactionRow): (int, int) { (r.date, r.createdAt) }

  function DocumentOrder(r: DocumentRow): (int, int) { (r.createdAt, 0) }

  /** The rows `GET /transactions` asks for: this tenant's rows, newest date first, then newest creation. */
  function TenantTransactions(b: Backend, tenantId: string): (rows: seq<TransactionRow>)
    ensures SortedDesc(rows, TransactionOrder)
    ensures forall i :: 0 <= i < |rows| ==> SameUuid(rows[i].tenantId, tenantId) && rows[i] in b.transactions
    ensures forall i :: 0 <= i < |b.transactions| && SameUuid(b.transactions[i].tenantId, tenantId) ==>
      b.transactions[i] in rows
  {
    FilterSortDesc(b.transactions, (r: TransactionRow) => SameUuid(r.tenantId, tenantId), TransactionOrder)
  }

  /** The rows `GET /documents` asks for: this transaction's documents, newest first. */
  function TransactionDocuments(b: Backend, transactionId: string): (rows: seq<DocumentRow>)
    ensures SortedDesc(rows, DocumentOrder)
    ensures forall i :: 0 <= i < |rows| ==> SameUuid(rows[i].transactionId, transactionId) && rows[i] in b.documents
    ensures forall i :: 0 <= i < |b.documents| && SameUuid(b.documents[i].transactionId, transactionId) ==>
      b.documents[i] in rows
  {
    FilterSortDesc(b.documents, (r: DocumentRow) => SameUuid(r.transactionId, transactionId), DocumentOrder)
  }

  function AmountOf(r: TransactionRow): AmountRow { AmountRow(r.kind, r.amount) }

  /** The rows `GET /summary` asks for: the `(type, amount)` of this tenant's rows, in no particular order. */
  function TenantAmounts(b: Backend, tenantId: string): (rows: seq<AmountRow>)
  {
    var matching := Filter(b.transactions, (r: TransactionRow) => SameUuid(r.tenantId, tenantId));
    seq(|matching|, i requires 0 <= i < |matching| => AmountOf(matching[i]))
  }

  /** The reply to `q` whose data, when served, is `value`. */
  function Answer<T>(b: Backend, q: Query, value: T): (reply: Reply<T>)
    ensures reply.Failure? <==> b.verdict(q).Refused?
    ensures reply.Failure? ==> reply.error == b.verdict(q).error
    ensures reply.Data? && reply.data.Some? <==> b.verdict(q) == Granted
    ensures reply.Data? && reply.data.Some? ==> reply.data.value == value
  {
    match b.verdict(q)
    case Granted => Data(Some(value))
    case GrantedWithoutData => Data(None)
    case Refused(e) => Failure(e)
  }

  /**
   * The tenant-scoped client `createClient(url, key, { global: { headers: { Authorization } } })`.
   * Every query it sends is appended to `log`; the store answers as `backend` says.
   */
  class ScopedClient {
    const url: string
    const anonKey: string
    const authorization: string
    const backend: Backend
    var log: seq<Query>

    constructor (url: string, anonKey: string, authorization: string, backend: Backend)
      ensures this.url == url && this.anonKey == anonKey
      ensures this.authorization == authorization && this.backend == backend
      ensures log == []
    {
      this.url := url;
      this.anonKey := anonKey;
      this.authorization := authorization;
      this.backend := backend;
      log := [];
    }

    method InsertTransaction(t: NewTransaction) returns (reply: Reply<string>)
      modifies this
      ensures log == old(log) + [Query.InsertTransaction(t)]
      ensures reply == Answer(backend, Query.InsertTransaction(t), backend.generatedId(Query.InsertTransaction(t)))
    {
      var q := Query.InsertTransaction(t);
      log := log + [q];
      reply := Answer(backend, q, backend.generatedId(q));
    }

    method InsertDocument(d: NewDocument) returns (reply: Reply<string>)
      modifies this
      ensures log == old(log) + [Query.InsertDocument(d)]
      ensures reply == Answer(backend, Query.InsertDocument(d), backend.generatedId(Query.InsertDocument(d)))
    {
      var q := Query.InsertDocument(d);
      log := log + [q];
      reply := Answer(backend, q, backend.generatedId(q));
    }

    method SelectTransactions(tenantId: string) returns (reply: Reply<seq<TransactionRow>>)
      modifies this
      ensures log == old(log) + [Query.SelectTransactions(tenantId)]
      ensures reply == Answer(backend, Query.SelectTransactions(tenantId), TenantTransactions(backend, tenantId))
    {
      var q := Query.SelectTransactions(tenantId);
      log := log + [q];
      reply := Answer(backend, q, TenantTransactions(backend, tenantId));
    }

    method SelectDocuments(transactionId: string) returns (reply: Reply<seq<DocumentRow>>)
      modifies this
      ensures log == old(log) + [Query.SelectDocuments(transactionId)]
      ensures reply == Answer(backend, Query.SelectDocuments(transactionId), TransactionDocuments(backend, transactionId))
    {
      var q := Query.SelectDocuments(transactionId);
      log := log + [q];
      reply := Answer(backend, q, TransactionDocuments(backend, transactionId));
    }

    method SelectAmounts(tenantId: string) returns (reply: Reply<seq<AmountRow>>)
      modifies this
      ensures log == old(log) + [Query.SelectAmounts(tenantId)]
      ensures reply == Answer(backend, Query.SelectAmounts(tenantId), TenantAmounts(backend, tenantId))
    {
      var q := Query.SelectAmounts(tenantId);
      log := log + [q];
      reply := Answer(backend, q, TenantAmounts(backend, tenantId));
    }
  }
}
