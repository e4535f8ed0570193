/**
 * `POST /transactions` and `GET /transactions?tenantId=...`: the
 * create-transaction schema, the insert the POST handler sends under the
 * caller's identity, and the tenant-filtered, date-ordered listing.
 */
module Transactions {
  import opened Common
  import opened Uuid
  import opened Store
  import opened Schema
  import opened Http
  import opened Auth

  predicate IsDigit(c: char)
  {
    '0' <= c <= '9'
  }

  /** `/^\d{4}-\d{2}-\d{2}$/`: the shape of a date only; month and day are not range-checked. */
  predicate IsDateShape(s: string)
  {
    |s| == 10 &&
    forall i :: 0 <= i < |s| ==> if i == 4 || i == 7 then s[i] == '-' else IsDigit(s[i])
  }

  const TransactionKinds: set<string> := {"income", "expense"}

  /** `createTransactionSchema.safeParse(body).success`, stated field by field. */
  predicate AcceptsTransaction(body: Json)
  {
    && body.JObject?
    && StringMember(body, "tenantId").Some? && IsUuid(StringMember(body, "tenantId").value)
    && StringMember(body, "type").Some? && StringMember(body, "type").value in TransactionKinds
    && NumberMember(body, "amount").Some? && NumberMember(body, "amount").value > 0.0
    && StringMember(body, "description").Some? && |StringMember(body, "description").value| >= 1
    && StringMember(body, "date").Some? && IsDateShape(StringMember(body, "date").value)
    && StringMember(body, "category").Some? && |StringMember(body, "category").value| >= 1
  }

  /** The validated body: `validation.data`. */
  datatype TransactionInput = TransactionInput(
    tenantId: string, kind: string, amount: real, description: string, date: string, category: string)

  const TransactionFields: set<string> := {"tenantId", "type", "amount", "description", "date", "category"}

  /** `validation.error.errors` for `createTransactionSchema`: one issue per failed check. */
  function TransactionIssues(body: Json): (issues: seq<Issue>)
    ensures issues == [] <==> AcceptsTransaction(body)
    ensures !body.JObject? ==> issues == [Issue("", InvalidType)]
    ensures body.JObject? ==> forall i :: 0 <= i < |issues| ==> issues[i].field in TransactionFields
  {
    if !body.JObject? then [Issue("", InvalidType)]
    else
      UuidFieldIssues(body, "tenantId")
      + (match StringMember(body, "type")
         case Some(s) => Check("type", s in TransactionKinds, NotEnumMember)
         case None => [Issue("type", InvalidType)])
      + (match NumberMember(body, "amount")
         case Some(n) => Check("amount", n > 0.0, NotPositive)
         case None => [Issue("amount", InvalidType)])
      + NonEmptyFieldIssues(body, "description")
      + (match StringMember(body, "date")
         case Some(s) => Check("date", IsDateShape(s), NotDateShape)
         case None => [Issue("date", InvalidType)])
      + NonEmptyFieldIssues(body, "category")
  }

  /** `createTransactionSchema.safeParse(body)`: the typed fields, or the issues. */
  function ParseTransaction(body: Json): (r: Result<TransactionInput, seq<Issue>>)
    ensures r.Ok? <==> AcceptsTransaction(body)
    ensures r.Err? ==> r.error == TransactionIssues(body) && r.error != []
    ensures r.Ok? ==>
      && Member(body, "tenantId") == Some(JString(r.value.tenantId))
      && Member(body, "type") == Some(JString(r.value.kind))
      && Member(body, "amount") == Some(JNumber(r.value.amount))
      && Member(body, "description") == Some(JString(r.value.description))
      && Member(body, "date") == Some(JString(r.value.date))
      && Member(body, "category") == Some(JString(r.value.category))
  {
    var issues := TransactionIssues(body);
    if issues != [] then Err(issues)
    else
      Ok(TransactionInput(
        StringMember(body, "tenantId").value, StringMember(body, "type").value,
        NumberMember(body, "amount").value, StringMember(body, "description").value,
        StringMember(body, "date").value, StringMember(body, "category").value))
  }

  /** The date check is about shape only: impossible calendar dates pass. */
  lemma DateCheckIsShapeOnly()
    ensures IsDateShape("9999-99-99")
    ensures IsDateShape("2024-02-31")
    ensures !IsDateShape("2024-1-15")
    ensures !IsDateShape("2024-01-15T00:00")
  {
  }

  /** An amount that is zero or negative is rejected, and the issue names the amount. */
  lemma NonPositiveAmountRejected(body: Json)
    requires body.JObject? && NumberMember(body, "amount").Some? && NumberMember(body, "amount").value <= 0.0
    ensures ParseTransaction(body).Err?
    ensures Issue("amount", NotPositive) in TransactionIssues(body)
  {
    var before := UuidFieldIssues(body, "tenantId")
      + (match StringMember(body, "type")
         case Some(s) => Check("type", s in TransactionKinds, NotEnumMember)
         case None => [Issue("type", InvalidType)]);
    var issues := TransactionIssues(body);
    assert issues[|before|] == Issue("amount", NotPositive);
  }

  /** The answer of `POST /transactions` for caller `userId` when the store behaves as `b`. */
  function PostTransactionResponse(body: Json, userId: string, b: Backend): HttpResponse
  {
    match ParseTransaction(body)
    case Err(issues) => HttpResponse(400, InvalidInput(issues))
    case Ok(v) =>
      var q := Query.InsertTransaction(NewTransaction(
        v.tenantId, v.kind, v.amount, v.description, v.date, v.category, userId));
      CreatedResponse(Answer(b, q, b.generatedId(q)), "Failed to create transaction", false)
  }

  /** The answer of `GET /transactions` when the store behaves as `b`. */
  function ListTransactionsResponse(tenantId: QueryValue, b: Backend): HttpResponse
  {
    match QueryString(tenantId)
    case None => HttpResponse(400, ErrorMessage("tenantId query parameter is required"))
    case Some(id) =>
      if !IsUuid(id) then HttpResponse(400, ErrorMessage("Invalid tenantId format"))
      else
        match Answer(b, Query.SelectTransactions(id), TenantTransactions(b, id))
        case Failure(e) => ListFailure(e, "Failed to fetch transactions")
        case Data(data) => HttpResponse(200, TransactionList(OrEmpty(data)))
  }

  /**
   * `POST /transactions`. An invalid body is answered 400 with its issues and
   * nothing is sent to the store; a valid one is inserted exactly once as the
   * validated fields plus `created_by` = the caller, and the store's reply
   * decides between 201 `{ id }`, 403, 400 and (no row returned) 500.
   */
  method PostTransaction(req: AuthRequest, body: Json) returns (res: HttpResponse)
    requires req.userId.Some? && req.supabaseClient != null
    modifies req.supabaseClient
    ensures res.status in {201, 400, 403, 500}
    ensures ParseTransaction(body).Err? ==>
      && res == HttpResponse(400, InvalidInput(TransactionIssues(body)))
      && req.supabaseClient.log == old(req.supabaseClient.log)
    ensures ParseTransaction(body).Ok? ==>
      var v := ParseTransaction(body).value;
      var q := Query.InsertTransaction(NewTransaction(
        v.tenantId, v.kind, v.amount, v.description, v.date, v.category, req.userId.value));
      var b := req.supabaseClient.backend;
      && req.supabaseClient.log == old(req.supabaseClient.log) + [q]
      && res == CreatedResponse(Answer(b, q, b.generatedId(q)), "Failed to create transaction", false)
    ensures res == PostTransactionResponse(body, req.userId.value, req.supabaseClient.backend)
  {
    var validation := ParseTransaction(body);
    if validation.Err? {
      return HttpResponse(400, InvalidInput(validation.error));
    }
    var input := validation.value;
    var supabase := req.supabaseClient;
    var userId := req.userId.value;
    var reply := supabase.InsertTransaction(NewTransaction(
      input.tenantId, input.kind, input.amount, input.description, input.date, input.category, userId));
    res := CreatedResponse(reply, "Failed to create transaction", false);
  }

  /**
   * `GET /transactions?tenantId=...`. A missing or non-UUID `tenantId` is
   * answered 400 before any query; otherwise one query is sent, a failure
   * is classified, and the rows come back sorted by date, then creation time,
   * both descending, all of the requested tenant (`data || []`).
   */
  method GetTransactions(req: AuthRequest, tenantId: QueryValue) returns (res: HttpResponse)
    requires req.supabaseClient != null
    modifies req.supabaseClient
    ensures res.status in {200, 400, 403}
    ensures QueryString(tenantId).None? ==>
      && res == HttpResponse(400, ErrorMessage("tenantId query parameter is required"))
      && req.supabaseClient.log == old(req.supabaseClient.log)
    ensures QueryString(tenantId).Some? && !IsUuid(tenantId.text) ==>
      && res == HttpResponse(400, ErrorMessage("Invalid tenantId format"))
      && req.supabaseClient.log == old(req.supabaseClient.log)
    ensures QueryString(tenantId).Some? && IsUuid(tenantId.text) ==>
      var q := Query.SelectTransactions(tenantId.text);
      var b := req.supabaseClient.backend;
      && req.supabaseClient.log == old(req.supabaseClient.log) + [q]
      && res == match Answer(b, q, TenantTransactions(b, tenantId.text))
                case Failure(e) => ListFailure(e, "Failed to fetch transactions")
                case Data(data) => HttpResponse(200, TransactionList(OrEmpty(data)))
    ensures res.status == 200 ==>
      && res.body.TransactionList?
      && Ordering.SortedDesc(res.body.transactions, TransactionOrder)
      && forall i :: 0 <= i < |res.body.transactions| ==> SameUuid(res.body.transactions[i].tenantId, tenantId.text)
    ensures res == ListTransactionsResponse(tenantId, req.supabaseClient.backend)
  {
    var t := QueryString(tenantId);
    if t.None? {
      return HttpResponse(400, ErrorMessage("tenantId query parameter is required"));
    }
    if !IsUuid(t.value) {
      return HttpResponse(400, ErrorMessage("Invalid tenantId format"));
    }
    var supabase := req.supabaseClient;
    var reply := supabase.SelectTransactions(t.value);
    match reply {
      case Failure(e) =>
        res := ListFailure(e, "Failed to fetch transactions");
      case Data(data) =>
        res := HttpResponse(200, TransactionList(OrEmpty(data)));
    }
  }
}
