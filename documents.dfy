/**
 * `POST /documents` and `GET /documents?transactionId=...`: the
 * create-document schema with its URL refinements, the insert, and the
 * per-transaction, newest-first listing.
 */
module Documents {
  import opened Common
  import opened Uuid
  import opened Store
  import opened Schema
  import opened Http
  import opened Auth

  const FilePrefix := "file://"
  const HttpPrefix := "http://"
  const HttpsPrefix := "https://"

  /** The second refinement: the URL starts with `http://` or `https://`. */
  predicate IsWebUrl(s: string)
  {
    StartsWith(s, HttpPrefix) || StartsWith(s, HttpsPrefix)
  }

  /**
   * `createDocumentSchema.safeParse(body).success`, where `isUrl` is zod's
   * `.url()` check, which this model does not re-implement.
   */
  predicate AcceptsDocument(body: Json, isUrl: string -> bool)
  {
    && body.JObject?
    && StringMember(body, "transactionId").Some? && IsUuid(StringMember(body, "transactionId").value)
    && StringMember(body, "fileUrl").Some?
    && var s := StringMember(body, "fileUrl").value;
       isUrl(s) && |s| >= 1 && !StartsWith(s, FilePrefix) && IsWebUrl(s)
  }

  /** `z.string().url().min(1).refine(no file://).refine(http or https)` on `fileUrl`. */
  function FileUrlIssues(body: Json, isUrl: string -> bool): (issues: seq<Issue>)
    ensures issues == [] <==>
      StringMember(body, "fileUrl").Some? &&
      var s := StringMember(body, "fileUrl").value;
      isUrl(s) && |s| >= 1 && !StartsWith(s, FilePrefix) && IsWebUrl(s)
    ensures forall i :: 0 <= i < |issues| ==> issues[i].field == "fileUrl"
  {
    match StringMember(body, "fileUrl")
    case Some(s) =>
      Check("fileUrl", isUrl(s), NotUrl)
      + Check("fileUrl", |s| >= 1, TooShort)
      + Check("fileUrl", !StartsWith(s, FilePrefix), LocalFileUrl)
      + Check("fileUrl", IsWebUrl(s), NotHttpUrl)
    case None => [Issue("fileUrl", InvalidType)]
  }

  /** `validation.error.errors` for `createDocumentSchema`. */
  function DocumentIssues(body: Json, isUrl: string -> bool): (issues: seq<Issue>)
    ensures issues == [] <==> AcceptsDocument(body, isUrl)
    ensures !body.JObject? ==> issues == [Issue("", InvalidType)]
    ensures body.JObject? ==> forall i :: 0 <= i < |issues| ==> issues[i].field in {"transactionId", "fileUrl"}
  {
    if !body.JObject? then [Issue("", InvalidType)]
    else UuidFieldIssues(body, "transactionId") + FileUrlIssues(body, isUrl)
  }

  /** The validated body: `validation.data`. */
  datatype DocumentInput = DocumentInput(transactionId: string, fileUrl: string)

  /** `createDocumentSchema.safeParse(body)`: the typed fields, or the issues. */
  function ParseDocument(body: Json, isUrl: string -> bool): (r: Result<DocumentInput, seq<Issue>>)
    ensures r.Ok? <==> AcceptsDocument(body, isUrl)
    ensures r.Err? ==> r.error == DocumentIssues(body, isUrl) && r.error != []
    ensures r.Ok? ==>
      && Member(body, "transactionId") == Some(JString(r.value.transactionId))
      && Member(body, "fileUrl") == Some(JString(r.value.fileUrl))
  {
    var issues := DocumentIssues(body, isUrl);
    if issues != [] then Err(issues)
    else Ok(DocumentInput(StringMember(body, "transactionId").value, StringMember(body, "fileUrl").value))
  }

  /** A URL that passes the `http(s)://` refinement cannot start with `file://`. */
  lemma WebUrlIsNotLocal(s: string)
    requires IsWebUrl(s)
    ensures !StartsWith(s, FilePrefix)
  {
    assert s[0] == 'h';
  }

  /** Whenever the `file://` refinement fails, the `http(s)://` refinement fails too. */
  lemma LocalFileIssueImpliesWebIssue(body: Json, isUrl: string -> bool)
    requires Issue("fileUrl", LocalFileUrl) in DocumentIssues(body, isUrl)
    ensures Issue("fileUrl", NotHttpUrl) in DocumentIssues(body, isUrl)
  {
    var s := StringMember(body, "fileUrl").value;
    if IsWebUrl(s) {
      WebUrlIsNotLocal(s);
    }
    var issues := DocumentIssues(body, isUrl);
    var k := |issues| - 1;
    assert issues[k] == Issue("fileUrl", NotHttpUrl);
  }

  /** The schema with the `file://` refinement dropped accepts exactly the same bodies. */
  lemma LocalFileRuleIsRedundant(body: Json, isUrl: string -> bool)
    ensures AcceptsDocument(body, isUrl) <==>
      && body.JObject?
      && StringMember(body, "transactionId").Some? && IsUuid(StringMember(body, "transactionId").value)
      && StringMember(body, "fileUrl").Some?
      && var s := StringMember(body, "fileUrl").value;
         isUrl(s) && |s| >= 1 && IsWebUrl(s)
  {
    if StringMember(body, "fileUrl").Some? && IsWebUrl(StringMember(body, "fileUrl").value) {
      WebUrlIsNotLocal(StringMember(body, "fileUrl").value);
    }
  }

  /** An `ftp://` URL is rejected by the `http(s)://` refinement, even when `.url()` accepts it. */
  lemma FtpUrlRejected(body: Json, isUrl: string -> bool)
    requires body.JObject?
    requires StringMember(body, "fileUrl").Some? && StartsWith(StringMember(body, "fileUrl").value, "ftp://")
    ensures ParseDocument(body, isUrl).Err?
    ensures Issue("fileUrl", NotHttpUrl) in DocumentIssues(body, isUrl)
  {
    var s := StringMember(body, "fileUrl").value;
    assert s[0] == 'f';
    assert !IsWebUrl(s);
    var issues := DocumentIssues(body, isUrl);
    assert issues[|issues| - 1] == Issue("fileUrl", NotHttpUrl);
  }

  /** A `file://` URL is rejected with both refinement issues. */
  lemma LocalFileUrlRejected(body: Json, isUrl: string -> bool)
    requires body.JObject?
    requires StringMember(body, "fileUrl").Some? && StartsWith(StringMember(body, "fileUrl").value, FilePrefix)
    ensures ParseDocument(body, isUrl).Err?
    ensures Issue("fileUrl", LocalFileUrl) in DocumentIssues(body, isUrl)
    ensures Issue("fileUrl", NotHttpUrl) in DocumentIssues(body, isUrl)
  {
    var s := StringMember(body, "fileUrl").value;
    var issues := DocumentIssues(body, isUrl);
    var own := Check("fileUrl", isUrl(s), NotUrl) + Check("fileUrl", |s| >= 1, TooShort);
    assert issues[|UuidFieldIssues(body, "transactionId")| + |own|] == Issue("fileUrl", LocalFileUrl);
    LocalFileIssueImpliesWebIssue(body, isUrl);
  }

  /** A well-formed `https://` URL for a valid transaction id is accepted. */
  lemma HttpsUrlAccepted(body: Json, isUrl: string -> bool)
    requires body.JObject?
    requires StringMember(body, "transactionId").Some? && IsUuid(StringMember(body, "transactionId").value)
    requires StringMember(body, "fileUrl") == Some("https://x") && isUrl("https://x")
    ensures ParseDocument(body, isUrl).Ok?
    ensures ParseDocument(body, isUrl).value.fileUrl == "https://x"
  {
    assert "https://x"[..|HttpsPrefix|] == HttpsPrefix;
    WebUrlIsNotLocal("https://x");
  }

  /** The answer of `POST /documents` when the store behaves as `b`. */
  function PostDocumentResponse(body: Json, isUrl: string -> bool, b: Backend): HttpResponse
  {
    match ParseDocument(body, isUrl)
    case Err(issues) => HttpResponse(400, InvalidInput(issues))
    case Ok(v) =>
      var q := Query.InsertDocument(NewDocument(v.transactionId, v.fileUrl));
      CreatedResponse(Answer(b, q, b.generatedId(q)), "Failed to create document", true)
  }

  /** The answer of `GET /documents` when the store behaves as `b`. */
  function ListDocumentsResponse(transactionId: QueryValue, b: Backend): HttpResponse
  {
    match QueryString(transactionId)
    case None => HttpResponse(400, ErrorMessage("transactionId query parameter is required"))
    case Some(id) =>
      if !IsUuid(id) then HttpResponse(400, ErrorMessage("Invalid transactionId format"))
      else
        match Answer(b, Query.SelectDocuments(id), TransactionDocuments(b, id))
        case Failure(e) => ListFailure(e, "Failed to fetch documents")
        case Data(data) => HttpResponse(200, DocumentList(OrEmpty(data)))
  }

  /**
   * `POST /documents`. An invalid body is answered 400 before any store
   * access; a valid one is inserted once as `{ transaction_id, file_url }`,
   * and the reply decides between 201 `{ id }`, 403, 400 (with the store's
   * `code`) and (no row returned) 500.
   */
  method PostDocument(req: AuthRequest, body: Json, isUrl: string -> bool) returns (res: HttpResponse)
    requires req.supabaseClient != null
    modifies req.supabaseClient
    ensures res.status in {201, 400, 403, 500}
    ensures ParseDocument(body, isUrl).Err? ==>
      && res == HttpResponse(400, InvalidInput(DocumentIssues(body, isUrl)))
      && req.supabaseClient.log == old(req.supabaseClient.log)
    ensures ParseDocument(body, isUrl).Ok? ==>
      var v := ParseDocument(body, isUrl).value;
      var q := Query.InsertDocument(NewDocument(v.transactionId, v.fileUrl));
      var b := req.supabaseClient.backend;
      && req.supabaseClient.log == old(req.supabaseClient.log) + [q]
      && res == CreatedResponse(Answer(b, q, b.generatedId(q)), "Failed to create document", true)
    ensures res == PostDocumentResponse(body, isUrl, req.supabaseClient.backend)
  {
    var validation := ParseDocument(body, isUrl);
    if validation.Err? {
      return HttpResponse(400, InvalidInput(validation.error));
    }
    var input := validation.value;
    var supabase := req.supabaseClient;
    var reply := supabase.InsertDocument(NewDocument(input.transactionId, input.fileUrl));
    res := CreatedResponse(reply, "Failed to create document", true);
  }

  /**
   * `GET /documents?transactionId=...`. A missing or non-UUID id is answered
   * 400 before any query; otherwise the transaction's documents come back
   * newest first (`data || []`), or the failure is classified.
   */
  method GetDocuments(req: AuthRequest, transactionId: QueryValue) returns (res: HttpResponse)
    requires req.supabaseClient != null
    modifies req.supabaseClient
    ensures res.status in {200, 400, 403}
    ensures QueryString(transactionId).None? ==>
      && res == HttpResponse(400, ErrorMessage("transactionId query parameter is required"))
      && req.supabaseClient.log == old(req.supabaseClient.log)
    ensures QueryString(transactionId).Some? && !IsUuid(transactionId.text) ==>
      && res == HttpResponse(400, ErrorMessage("Invalid transactionId format"))
      && req.supabaseClient.log == old(req.supabaseClient.log)
    ensures QueryString(transactionId).Some? && IsUuid(transactionId.text) ==>
      var q := Query.SelectDocuments(transactionId.text);
      var b := req.supabaseClient.backend;
      && req.supabaseClient.log == old(req.supabaseClient.log) + [q]
      && res == match Answer(b, q, TransactionDocuments(b, transactionId.text))
                case Failure(e) => ListFailure(e, "Failed to fetch documents")
                case Data(data) => HttpResponse(200, DocumentList(OrEmpty(data)))
    ensures res.status == 200 ==>
      && res.body.DocumentList?
      && Ordering.SortedDesc(res.body.documents, DocumentOrder)
      && forall i :: 0 <= i < |res.body.documents| ==>
           SameUuid(res.body.documents[i].transactionId, transactionId.text)
    ensures res == ListDocumentsResponse(transactionId, req.supabaseClient.backend)
  {
    var t := QueryString(transactionId);
    if t.None? {
      return HttpResponse(400, ErrorMessage("transactionId query parameter is required"));
    }
    if !IsUuid(t.value) {
      return HttpResponse(400, ErrorMessage("Invalid transactionId format"));
    }
    var supabase := req.supabaseClient;
    var reply := supabase.SelectDocuments(t.value);
    match reply {
      case Failure(e) =>
        res := ListFailure(e, "Failed to fetch documents");
      case Data(data) =>
        res := HttpResponse(200, DocumentList(OrEmpty(data)));
    }
  }
}
