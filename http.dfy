/**
 * HTTP responses as the handlers write them (`res.status(code).json(body)`),
 * and the classification of store-reported failures that every handler shares.
 */
module Http {
  import opened Common
  import opened Store
  import opened Schema

  /** The JSON bodies the handlers send. `details` and `code` are left out of the JSON when undefined. */
  datatype Body =
    | ErrorMessage(error: string)                               // { error }
    | ErrorDetails(error: string, details: Option<string>)      // { error, details }
    | ErrorCode(error: string, code: string)                    // { error, code }
    | InvalidInput(issues: seq<Issue>)                          // { error: "Invalid input", details }
    | Created(id: string)                                       // { id }
    | TransactionList(transactions: seq<TransactionRow>)        // { transactions }
    | DocumentList(documents: seq<DocumentRow>)                 // { documents }
    | Summary(totalIncome: real, totalExpense: real, balance: real)

  datatype HttpResponse = HttpResponse(status: int, body: Body)

  /** The code PostgreSQL reports for an insufficient-privilege (row-level security) violation. */
  const InsufficientPrivilege := "42501"

  /** `error.code === "42501" || error.message.includes("permission") ? 403 : 400` */
  function StoreErrorStatus(e: StoreError): (status: int)
    ensures status == 400 || status == 403
    ensures status == 403 <==>
      (e.code == InsufficientPrivilege || exists i :: 0 <= i <= |e.message| && StartsWith(e.message[i..], "permission"))
  {
    ContainsAt(e.message, "permission");
    if e.code == InsufficientPrivilege || Contains(e.message, "permission") then 403 else 400
  }

  /** `error.message || fallback`: the store's message, or the fallback when that message is empty. */
  function MessageOr(message: string, fallback: string): (text: string)
    ensures message != "" ==> text == message
    ensures message == "" ==> text == fallback
  {
    if message != "" then message else fallback
  }

  /** The 500 a handler's `catch` block sends. */
  function InternalError(details: string): HttpResponse
  {
    HttpResponse(500, ErrorDetails("Internal server error", Some(details)))
  }

  /**
   * The response to `insert(...).select("id").single()`: 201 with the new id;
   * a store failure classified as above; and, when the store returns no row,
   * `data.id` throws and the handler's `catch` answers 500.
   */
  function CreatedResponse(reply: Reply<string>, fallback: string, withCode: bool): (res: HttpResponse)
    ensures res.status in {201, 400, 403, 500}
    ensures res.status == 201 <==> reply.Data? && reply.data.Some?
    ensures res.status == 201 ==> res.body == Created(reply.data.value)
    ensures res.status == 500 <==> reply == Data(None)
    ensures reply.Failure? ==> res.status == StoreErrorStatus(reply.error)
  {
    match reply
    case Failure(e) =>
      var message := MessageOr(e.message, fallback);
      HttpResponse(StoreErrorStatus(e), if withCode then ErrorCode(message, e.code) else ErrorMessage(message))
    case Data(None) => InternalError("Cannot read properties of null (reading 'id')")
    case Data(Some(id)) => HttpResponse(201, Created(id))
  }

  /** The response to a list query that failed: classified status, the message and the store's code. */
  function ListFailure(e: StoreError, fallback: string): HttpResponse
  {
    HttpResponse(StoreErrorStatus(e), ErrorCode(MessageOr(e.message, fallback), e.code))
  }

  /** A query parameter as Express parses it: absent, a single string, or repeated/structured. */
  datatype QueryValue = Absent | Text(text: string) | Structured

  /** `value && typeof value === "string"`: a present, non-empty string. */
  function QueryString(v: QueryValue): (s: Option<string>)
    ensures s.Some? <==> v.Text? && v.text != ""
    ensures s.Some? ==> s.value == v.text
  {
    if v.Text? && v.text != "" then Some(v.text) else None
  }

  /** `data || []` */
  function OrEmpty<T>(data: Option<seq<T>>): (rows: seq<T>)
    ensures data.None? ==> rows == []
    ensures data.Some? ==> rows == data.value
  {
    if data.Some? then data.value else []
  }
}
