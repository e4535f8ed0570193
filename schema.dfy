/**
 * The parts of zod's object validation that the two request-body schemas
 * share: a body that is not an object is rejected as a whole; otherwise every
 * field of the shape is checked, and every failing check contributes one
 * issue, in the order the shape declares the fields and the checks.
 * Unknown keys are ignored. A field whose value has the wrong JSON type (or
 * is missing) contributes a single type issue and none of its other checks run.
 */
module Schema {
  import opened Common
  import opened Uuid

  /** Which check failed (zod's issue codes, one per check kind). */
  datatype Rule =
    | InvalidType       // not an object, missing field, or wrong JSON type
    | NotUuid           // .uuid()
    | NotEnumMember     // z.enum([...])
    | NotPositive       // .positive()
    | TooShort          // .min(1)
    | NotDateShape      // .regex(/^\d{4}-\d{2}-\d{2}$/)
    | NotUrl            // .url()
    | LocalFileUrl      // refine: must not start with file://
    | NotHttpUrl        // refine: must start with http:// or https://

  /** One entry of `validation.error.errors`: the field path ("" for the body itself) and the failed check. */
  datatype Issue = Issue(field: string, rule: Rule)

  /** One check of one field: no issue when it passes. */
  function Check(field: string, ok: bool, rule: Rule): (issues: seq<Issue>)
    ensures issues == [] <==> ok
    ensures |issues| <= 1
    ensures forall i :: 0 <= i < |issues| ==> issues[i] == Issue(field, rule)
  {
    if ok then [] else [Issue(field, rule)]
  }

  /** The string value of a field, if it is present and a string. */
  function StringMember(body: Json, key: string): (v: Option<string>)
    ensures v.Some? <==> Member(body, key).Some? && Member(body, key).value.JString?
    ensures v.Some? ==> Member(body, key) == Some(JString(v.value))
  {
    match Member(body, key)
    case Some(JString(s)) => Some(s)
    case _ => None
  }

  /** The numeric value of a field, if it is present and a number. */
  function NumberMember(body: Json, key: string): (v: Option<real>)
    ensures v.Some? <==> Member(body, key).Some? && Member(body, key).value.JNumber?
    ensures v.Some? ==> Member(body, key) == Some(JNumber(v.value))
  {
    match Member(body, key)
    case Some(JNumber(n)) => Some(n)
    case _ => None
  }

  /** `z.string().uuid()` on one field. */
  function UuidFieldIssues(body: Json, field: string): (issues: seq<Issue>)
    ensures issues == [] <==> StringMember(body, field).Some? && IsUuid(StringMember(body, field).value)
    ensures forall i :: 0 <= i < |issues| ==> issues[i].field == field
  {
    match StringMember(body, field)
    case Some(s) => Check(field, IsUuid(s), NotUuid)
    case None => [Issue(field, InvalidType)]
  }

  /** `z.string().min(1)` on one field. */
  function NonEmptyFieldIssues(body: Json, field: string): (issues: seq<Issue>)
    ensures issues == [] <==> StringMember(body, field).Some? && StringMember(body, field).value != ""
    ensures forall i :: 0 <= i < |issues| ==> issues[i].field == field
  {
    match StringMember(body, field)
    case Some(s) => Check(field, |s| >= 1, TooShort)
    case None => [Issue(field, InvalidType)]
  }
}
