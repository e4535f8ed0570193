/**
 * A protected request end to end: `authMiddleware` runs first and, when it
 * calls `next()`, the route's handler runs with the request it prepared.
 */
module Pipeline {
  import opened Common
  import opened Uuid
  import opened Store
  import opened Http
  import opened Auth
  import Transactions
  import Documents
  import Summary

  /** The five protected routes with the request input each handler reads. */
  datatype Route =
    | PostTransaction(body: Json)
    | ListTransactions(tenantId: QueryValue)
    | PostDocument(body: Json)
    | ListDocuments(transactionId: QueryValue)
    | GetSummary(tenantId: QueryValue)

  /** What the route's handler answers for the verified `userId` when the store behaves as `b`. */
  function Respond(route: Route, userId: string, b: Backend, isUrl: string -> bool): HttpResponse
  {
    match route
    case PostTransaction(body) => Transactions.PostTransactionResponse(body, userId, b)
    case ListTransactions(tenantId) => Transactions.ListTransactionsResponse(tenantId, b)
    case PostDocument(body) => Documents.PostDocumentResponse(body, isUrl, b)
    case ListDocuments(transactionId) => Documents.ListDocumentsResponse(transactionId, b)
    case GetSummary(tenantId) => Summary.SummaryResponse(tenantId, b)
  }

  /**
   * A request the gate let through is never answered 401: every route answers
   * with one of the handlers' own statuses, and only an insert answers 201.
   */
  lemma HandlersNeverUnauthorized(route: Route, userId: string, b: Backend, isUrl: string -> bool)
    ensures Respond(route, userId, b, isUrl).status in {200, 201, 400, 403, 500}
    ensures Respond(route, userId, b, isUrl).status == 201 ==> route.PostTransaction? || route.PostDocument?
    ensures Respond(route, userId, b, isUrl).status == 500 ==> route.PostTransaction? || route.PostDocument?
  {
    match route
    case PostTransaction(body) =>
    case PostDocument(body) =>
    case ListTransactions(tenantId) =>
      var r := Transactions.ListTransactionsResponse(tenantId, b);
      assert r.status in {200, 400, 403} by {
        var id := QueryString(tenantId);
        if id.Some? && IsUuid(id.value) {
          var reply := Answer(b, Query.SelectTransactions(id.value), TenantTransactions(b, id.value));
          if reply.Failure? {
            assert r.status == StoreErrorStatus(reply.error);
          }
        }
      }
    case ListDocuments(transactionId) =>
      var r := Documents.ListDocumentsResponse(transactionId, b);
      assert r.status in {200, 400, 403} by {
        var id := QueryString(transactionId);
        if id.Some? && IsUuid(id.value) {
          var reply := Answer(b, Query.SelectDocuments(id.value), TransactionDocuments(b, id.value));
          if reply.Failure? {
            assert r.status == StoreErrorStatus(reply.error);
          }
        }
      }
    case GetSummary(tenantId) =>
      var r := Summary.SummaryResponse(tenantId, b);
      assert r.status in {200, 400, 403} by {
        var id := QueryString(tenantId);
        if id.Some? && IsUuid(id.value) {
          var reply := Answer(b, Query.SelectAmounts(id.value), TenantAmounts(b, id.value));
          if reply.Failure? {
            assert r.status == StoreErrorStatus(reply.error);
          }
        }
      }
  }

  /**
   * `router.METHOD("/", authMiddleware, handler)`. The gate's own responses
   * (401, 500) are the only responses for a request it stops, and a request
   * it lets through is answered by the route's handler (`Respond`) under the
   * verified user and the store seen through the caller's token, never with 401.
   */
  method Serve(req: AuthRequest, env: Env, provider: IdentityProvider, storeFor: string -> Backend,
               isUrl: string -> bool, route: Route) returns (res: HttpResponse)
    modifies req, provider
    ensures res.status in {200, 201, 400, 401, 403, 500}
    ensures provider.queries == old(provider.queries) +
      (if Consults(req.authorization, env) then [TokenOf(req.authorization.value)] else [])
    ensures Gate(req.authorization, env, provider.answers).Reject? ==>
      res == Gate(req.authorization, env, provider.answers).response
    ensures Gate(req.authorization, env, provider.answers).Accept? ==>
      var d := Gate(req.authorization, env, provider.answers);
      && res.status in {200, 201, 400, 403, 500}
      && res == Respond(route, d.userId, storeFor("Bearer " + d.token), isUrl)
    ensures !HasBearerHeader(req.authorization) ==>
      res == HttpResponse(401, ErrorMessage("Missing or invalid authorization header"))
  {
    var outcome := AuthMiddleware(req, env, provider, storeFor);
    if outcome.Responded? {
      return outcome.response;
    }
    match route {
      case PostTransaction(body) => res := Transactions.PostTransaction(req, body);
      case ListTransactions(tenantId) => res := Transactions.GetTransactions(req, tenantId);
      case PostDocument(body) => res := Documents.PostDocument(req, body, isUrl);
      case ListDocuments(transactionId) => res := Documents.GetDocuments(req, transactionId);
      case GetSummary(tenantId) => res := Summary.GetSummary(req, tenantId);
    }
  }
}
