# Bookkeeping API gateway — a Dafny model

This project models the request-handling core of a multi-tenant bookkeeping
API (an Express backend over a Supabase/PostgreSQL store). It covers
four parts:

- **Authentication gate** (`authMiddleware`). It checks the `Authorization`
  header, extracts and checks the bearer token, and reads the identity
  provider's configuration from the environment. It then asks the provider
  once who the token belongs to. After that it either answers 401/500 itself,
  or sets `req.userId` and `req.supabaseClient` and calls `next()`.
- **Validation layer.** This is the create-transaction and create-document
  body schemas (zod), and the hand-written UUID regex used on query
  parameters.
- **Resource handlers.** These are `POST`/`GET /transactions` and
  `POST`/`GET /documents`. Each one validates first, so no store query is sent
  for a bad request. It then sends exactly one query through the caller-scoped
  client. Finally it maps the store's reply to 201/200, 400, 403, or (no row
  returned by an insert) 500.
- **Summary aggregator** (`GET /summary`). A loop folds the tenant's
  `(type, amount)` rows into total income, total expense and balance. Every
  row whose type is not `"income"` counts as an expense.

Modules, leaves first:

- `Common` covers options, results, JSON values, prefix and substring tests,
  and JavaScript `trim()`.
- `Uuid` is the UUID regex.
- `Ordering` covers the store's filter and descending sort.
- `Store` covers rows, queries and the store's answers, plus the
  `ScopedClient` class, which records every query it sends.
- `Schema` holds zod issues and the field checks the schemas share.
- `Http` covers response bodies and the classification of store errors.
- `Auth`, `Transactions`, `Documents` and `Summary` model the gate and the
  routes.
- `Pipeline` chains the gate and a route.

The store is not re-implemented. Row-level security decides which rows a
caller sees and whether a query is accepted, and here that decision is an
input (`Store.Backend`). The model captures the query each handler sends and
how the handler answers each possible reply:

- a reply with data;
- a reply with `data: null`;
- an error with its `code` and `message`.

The identity provider is also an input (`Auth.IdentityProvider.answers`).
Environment variables are a parameter (`Auth.Env`). zod's `.url()` check is a
predicate parameter (`isUrl`).

The handlers are imperative and are modelled that way. `AuthMiddleware`
updates the request object in place. Each handler works on a request whose
client logs its queries: an unchanged `log` shows "no store access", and
`log == old(log) + [q]` shows the one query that was sent. The summary loop is
a `for` loop with invariants. Each method is proved against pure
specification functions (`Auth.Gate`, `Transactions.ParseTransaction`,
`Store.TenantTransactions`, `Summary.IncomeTotal`, ...), and the lemmas state
the properties of those functions.

The documented intent is a 500 for an identity provider that is unreachable
or misconfigured. The code answers an exception from `getUser` with **401**
"Authentication failed" (`backend/src/middleware/auth.ts:78-84`), and the
model follows the code: the only 500 from the gate is the
missing-configuration answer (`backend/src/middleware/auth.ts:42-45`). The
documented intent also calls the totals non-negative, but the summary code
does not enforce that. `Summary.TotalsNonNegative` proves it only for
rows whose amounts are not negative, which creation guarantees through the
`amount > 0` check.

## Model

| member | source | states |
|---|---|---|
| Common.ContainsAt | backend/src/routes/transactions.ts:49 | `includes(part)` holds iff `part` occurs at some position of the string |
| Common.TrimStart | backend/src/middleware/auth.ts:37 | the result is a suffix of the input; what was removed is all whitespace; the result does not start with whitespace |
| Common.TrimEnd | backend/src/middleware/auth.ts:37 | the result is a prefix of the input; what was removed is all whitespace; the result does not end with whitespace |
| Common.TrimEmptyIffBlank | backend/src/middleware/auth.ts:37 | `token.trim() === ""` holds exactly when every character of the token is JavaScript whitespace |
| Uuid.UuidIsGroups | backend/src/routes/transactions.ts:75 | the position-wise reading of the 8-4-4-4-12 hex regex is the same as the reading as five hex groups joined by hyphens, in both directions |
| Uuid.SameUuidIgnoresCase | backend/src/routes/transactions.ts:86 | for all texts, the equality filter on a uuid column matches two spellings iff their lower-case forms are equal; every spelling matches its lower-case form, which is again a UUID when the spelling is one |
| Ordering.Filter | backend/src/routes/transactions.ts:86 | every element of the result satisfies the predicate and comes from the input, and every input element that satisfies it is in the result |
| Ordering.FilterCount | backend/src/routes/transactions.ts:86 | the filter keeps each element satisfying the predicate exactly as many times as it occurs in the input, and no other element |
| Ordering.InsertDesc | backend/src/routes/transactions.ts:87-88 | inserting into a descending sequence keeps it descending and adds exactly the new element |
| Ordering.SortDesc | backend/src/routes/transactions.ts:87-88 | the sort result is descending by (primary, secondary) key and is a permutation of its input |
| Ordering.FilterSortDesc | backend/src/routes/transactions.ts:86-88 | a filtered, ordered query returns exactly the matching elements, each as often as it appears among the matching ones, in descending key order |
| Store.TenantTransactions | backend/src/routes/transactions.ts:83-88 | the listing is sorted by `date`, then `created_at`, both descending; every row is a visible row of the requested tenant; every visible row of that tenant is listed |
| Store.TransactionDocuments | backend/src/routes/documents.ts:84-88 | the listing is sorted by `created_at` descending; exactly the visible documents of the requested transaction are listed |
| Store.ScopedClient.constructor | backend/src/middleware/auth.ts:62-72 | the client keeps the URL, the key and the `Authorization` header it was built with, and has sent nothing yet |
| Store.ScopedClient.InsertTransaction | backend/src/routes/transactions.ts:33-45 | one insert into `transactions` is sent and recorded; the reply is the store's answer with the generated id |
| Store.ScopedClient.InsertDocument | backend/src/routes/documents.ts:38-45 | one insert into `documents` is sent and recorded; the reply is the store's answer with the generated id |
| Store.ScopedClient.SelectTransactions | backend/src/routes/transactions.ts:83-88 | one tenant-filtered, ordered select is sent and recorded; the served data is the tenant's ordered rows |
| Store.ScopedClient.SelectDocuments | backend/src/routes/documents.ts:84-88 | one transaction-filtered, ordered select is sent and recorded; the served data is the transaction's ordered documents |
| Store.ScopedClient.SelectAmounts | backend/src/routes/summary.ts:24-27 | one select of `type, amount` for the tenant is sent and recorded |
| Schema.UuidFieldIssues | backend/src/routes/transactions.ts:9 | `z.string().uuid()` raises no issue iff the field is a string of UUID shape; every issue names that field |
| Schema.NonEmptyFieldIssues | backend/src/routes/transactions.ts:12 | `z.string().min(1)` raises no issue iff the field is a non-empty string; every issue names that field |
| Http.StoreErrorStatus | backend/src/routes/transactions.ts:49 | a store error gives 403 iff its code is `42501` or its message contains `permission`; otherwise 400 |
| Http.CreatedResponse | backend/src/routes/transactions.ts:47-62 | an insert reply gives 201 `{ id }` iff a row came back; 500 iff the reply has no data and no error; on a store error, the classified status |
| Auth.IdentityProvider.constructor | backend/src/middleware/auth.ts:48 | a provider with the given per-token answers has been asked nothing yet |
| Auth.IdentityProvider.GetUser | backend/src/middleware/auth.ts:48-49 | asking about a token records it and returns the provider's answer for it |
| Auth.AuthRequest.constructor | backend/src/middleware/auth.ts:19-22 | a request starts with its header, no user id and no client |
| Auth.Prechecks | backend/src/middleware/auth.ts:5-45 | the gate gets past its own checks iff the header has the case-sensitive prefix, the token is not blank and the configuration is present; the configuration is present iff both variables are set and non-empty, and it holds their values; the failures are 401, except missing configuration, which is 500 and only reached once header and token passed |
| Auth.Gate | backend/src/middleware/auth.ts:29-84 | every request is rejected with 401 or 500, or accepted; 500 only for missing configuration after good header and token; accepted iff the checks pass and the provider names a user, with that user id, the token and the configuration |
| Auth.ProviderRejection | backend/src/middleware/auth.ts:51-84 | a provider error, no user, or an exception is 401, carrying the provider's message as `details` when it has one |
| Auth.AuthMiddleware | backend/src/middleware/auth.ts:24-85 | the outcome is the gate's decision; the provider is asked exactly once, only when the checks pass; a rejected request is left untouched; an accepted one gets the verified user id and a new client whose `Authorization` is `Bearer <token>`, then `next()` |
| Auth.BadHeaderIsUnauthorized | backend/src/middleware/auth.ts:30-33 | a missing header, or one without `Bearer `, is the 401 "Missing or invalid authorization header", and the provider is not asked |
| Auth.HeaderCheckPrecedesConfig | backend/src/middleware/auth.ts:30-45 | for every header, with the configuration missing: a failing header or token is still its 401, every other request is the configuration 500, and the provider is never asked |
| Auth.HeaderCheckExamples | backend/src/middleware/auth.ts:30-45 | with the configuration missing, a missing, lower-case or blank-token header is 401; only `Bearer abc` gets 500 |
| Auth.ProviderFailureIsUnauthorized | backend/src/middleware/auth.ts:49-57 | a provider answer that names no user is 401, with the provider's message as `details` |
| Transactions.TransactionIssues | backend/src/routes/transactions.ts:8-15 | no issues iff every field satisfies its rule; a non-object body has one issue; every issue names a schema field |
| Transactions.ParseTransaction | backend/src/routes/transactions.ts:20-28 | parsing succeeds iff the body is acceptable, and then yields exactly the body's fields; otherwise it yields the non-empty issue list |
| Transactions.DateCheckIsShapeOnly | backend/src/routes/transactions.ts:13 | the date rule checks shape only: `9999-99-99` and `2024-02-31` pass; a short field or a time suffix fails |
| Transactions.NonPositiveAmountRejected | backend/src/routes/transactions.ts:11 | an amount of zero or less is rejected, with a positivity issue on `amount` |
| Transactions.PostTransaction | backend/src/routes/transactions.ts:18-63 | an invalid body is 400 with its issues and no query; a valid one sends one insert of the validated fields with `created_by` set to the caller, and is answered from the insert's reply |
| Transactions.GetTransactions | backend/src/routes/transactions.ts:66-107 | a missing or non-UUID `tenantId` is 400 before any query; otherwise one select is sent; a 200 lists only the tenant's rows, ordered by date then creation time, descending |
| Documents.FileUrlIssues | backend/src/routes/documents.ts:10-20 | `fileUrl` raises no issue iff it is a string that is a URL, non-empty, not `file://` and `http(s)://` |
| Documents.DocumentIssues | backend/src/routes/documents.ts:8-21 | no issues iff the body is acceptable; a non-object body has one issue; every issue names a schema field |
| Documents.ParseDocument | backend/src/routes/documents.ts:26-34 | parsing succeeds iff the body is acceptable, and then yields exactly the body's fields; otherwise the non-empty issue list |
| Documents.WebUrlIsNotLocal | backend/src/routes/documents.ts:13-20 | every string that passes the `http(s)://` refinement also passes the `file://` refinement |
| Documents.LocalFileIssueImpliesWebIssue | backend/src/routes/documents.ts:13-20 | whenever the `file://` issue is raised, the `http(s)://` issue is raised too |
| Documents.LocalFileRuleIsRedundant | backend/src/routes/documents.ts:8-21 | the schema without the `file://` refinement accepts exactly the same bodies |
| Documents.FtpUrlRejected | backend/src/routes/documents.ts:17-20 | an `ftp://` URL is rejected with the `http(s)://` issue, even when `.url()` accepts it |
| Documents.LocalFileUrlRejected | backend/src/routes/documents.ts:13-16 | a `file://` URL is rejected with both refinement issues |
| Documents.HttpsUrlAccepted | backend/src/routes/documents.ts:8-21 | `https://x` with a valid transaction id is accepted when `.url()` accepts it |
| Documents.PostDocument | backend/src/routes/documents.ts:24-64 | an invalid body is 400 with its issues and no query; a valid one sends one insert of `{ transaction_id, file_url }`, and is answered from the insert's reply, with the store's code on a failure |
| Documents.GetDocuments | backend/src/routes/documents.ts:67-107 | a missing or non-UUID `transactionId` is 400 before any query; a 200 lists only that transaction's documents, newest first |
| Summary.SumOfAppend | backend/src/routes/summary.ts:42-48 | a sum over two row lists one after the other is the sum of the two sums |
| Summary.SumOfPermutation | backend/src/routes/summary.ts:42-48 | a sum over rows does not depend on their order |
| Summary.Summarize | backend/src/routes/summary.ts:39-50 | after the loop, `totalIncome` is the income total and `totalExpense` the expense total of the rows, and `balance` is their difference |
| Summary.TotalsAreFilteredSums | backend/src/routes/summary.ts:43-47 | `totalIncome` is the sum of the amounts of the rows typed `income`; `totalExpense` is that of all other rows |
| Summary.TotalsPartitionAmounts | backend/src/routes/summary.ts:42-48 | income total plus expense total is the sum of all amounts |
| Summary.SummaryIgnoresOrder | backend/src/routes/summary.ts:42-48 | any permutation of the rows gives the same totals |
| Summary.TotalsNonNegative | backend/src/routes/summary.ts:42-48 | with no negative amounts, neither total is negative |
| Summary.UnknownTypeIsExpense | backend/src/routes/summary.ts:45-47 | appending a row of any type other than `income` (e.g. `refund`) to any rows leaves the income total unchanged and adds its amount to the expense total |
| Summary.WorkedExample | backend/src/tests/financial-summary.test.ts:45-104 | income 1000 and 500 with expense 200 and 300 give totals 1500 and 500 and balance 1000 |
| Summary.EmptySummary | backend/src/routes/summary.ts:39-42 | no rows, or null data, give 0 and 0 |
| Summary.GetSummary | backend/src/routes/summary.ts:7-64 | a missing or non-UUID `tenantId` is 400 before any query; on a 200 the body holds the income total, the expense total and their difference |
| Pipeline.Serve | backend/src/routes/transactions.ts:18 | a rejected request gets the gate's 401/500; an accepted one gets exactly what its route's handler answers (`Respond`) for the verified user, against the store seen through `Bearer <token>` |
| Pipeline.HandlersNeverUnauthorized | backend/src/routes/transactions.ts:18-107 | whatever the route and the store's answer, a handler answers 200, 201, 400, 403 or 500, never 401; only the two inserts answer 201 or 500 |

## Left out

- HTTP transport, Express routing, JSON parsing and serialisation, CORS, the
  server bootstrap and the `/health` route belong to
  `backend/src/index.ts`, which is not part of this model.
- The frontend (`frontend/src/...`) is not part of this model. Its checks are
  only UI guards in front of the same server rules.
- The test setup and the live-store tests are not part of this model. Only
  the worked summary example is restated, as `Summary.WorkedExample`.
- Row-level-security policies live in the database. Which rows a caller sees,
  and whether a query is refused and with what error, are inputs.
- Supabase client internals. `createClient` and `auth.getUser` are reduced to
  the provider's per-token answer. Building the scoped client
  (`backend/src/middleware/auth.ts:62-72`) is modelled as never throwing.
- zod internals:
  - `.url()` is the parameter `isUrl`.
  - `.uuid()` is given the same shape as the hand-written regex.
  - Issues carry the field and the failed rule, not zod's message text or
    path objects.
  - A field of the wrong JSON type gives one type issue, and its other checks
    do not run.
- Floating point: amounts are mathematical reals. `Number(...)` conversion and
  double rounding in `+=` are not modelled.
- Dates and timestamps in stored rows are integer ordinals. The store orders
  the text `YYYY-MM-DD` dates and the timestamps that these ordinals stand
  for.
- Store.TenantTransactions and Store.TransactionDocuments: ties on both sort
  keys come back in an order the store does not fix. The model's listing has
  one particular order, and the contracts state only sortedness and
  membership.
- Handlers' `catch` blocks reach 500 only through `data.id` on a reply with
  neither data nor error. There are other ways to throw that the model does
  not include:
  - a store error without a `message` (`includes` on undefined);
  - a rejected promise from the client.
- `console.error` logging is not modelled.
- Summary.GetSummary: the `type, amount` rows are in the store's filter
  order. `Summary.SummaryIgnoresOrder` shows that any order gives the same
  answer.
