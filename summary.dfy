/**
 * `GET /summary?tenantId=...`: the tenant's `(type, amount)` rows folded
 * into total income, total expense and balance. A row counts as income
 * exactly when its type is "income"; every other row, whatever its type,
 * counts as an expense.
 */
module Summary {
  import opened Common
  import opened Uuid
  import opened Store
  import opened Http
  import opened Auth
  import Ordering

  /** The sum of `part` over the rows. */
  function SumOf(rows: seq<AmountRow>, part: AmountRow -> real): real
  {
    if rows == [] then 0.0 else part(rows[0]) + SumOf(rows[1..], part)
  }

  predicate IsIncome(r: AmountRow) { r.kind == "income" }

  predicate IsExpense(r: AmountRow) { r.kind != "income" }

  function Amount(r: AmountRow): real { r.amount }

  /** What one row adds to `totalIncome`. */
  function IncomeShare(r: AmountRow): real { if IsIncome(r) then r.amount else 0.0 }

  /** What one row adds to `totalExpense`. */
  function ExpenseShare(r: AmountRow): real { if IsIncome(r) then 0.0 else r.amount }

  function IncomeTotal(rows: seq<AmountRow>): real { SumOf(rows, IncomeShare) }

  function ExpenseTotal(rows: seq<AmountRow>): real { SumOf(rows, ExpenseShare) }

  /** Sums split over concatenation. */
  lemma {:induction false} SumOfAppend(a: seq<AmountRow>, b: seq<AmountRow>, part: AmountRow -> real)
    ensures SumOf(a + b, part) == SumOf(a, part) + SumOf(b, part)
  {
    if a == [] {
      assert a + b == b;
    } else {
      assert (a + b)[1..] == a[1..] + b;
      SumOfAppend(a[1..], b, part);
    }
  }

  /** A sum does not depend on the order of the rows. */
  lemma {:induction false} SumOfPermutation(a: seq<AmountRow>, b: seq<AmountRow>, part: AmountRow -> real)
    requires multiset(a) == multiset(b)
    ensures SumOf(a, part) == SumOf(b, part)
    decreases |a|
  {
    if a == [] {
      assert |b| == |multiset(b)| == 0;
    } else {
      var x := a[0];
      assert x in multiset(b);
      var j :| 0 <= j < |b| && b[j] == x;
      var rest := b[..j] + b[j + 1..];
      assert b == b[..j] + ([b[j]] + b[j + 1..]);
      assert a == [x] + a[1..];
      assert multiset(rest) == multiset(b) - multiset{x};
      SumOfPermutation(a[1..], rest, part);
      SumOfAppend(b[..j], [b[j]] + b[j + 1..], part);
      SumOfAppend([b[j]], b[j + 1..], part);
      SumOfAppend(b[..j], b[j + 1..], part);
    }
  }

  /**
   * The `forEach` over the rows: `totalIncome` and `totalExpense` start at 0
   * and each row adds its amount to one of them; `balance` is their difference.
   */
  method Summarize(rows: seq<AmountRow>) returns (totalIncome: real, totalExpense: real, balance: real)
    ensures totalIncome == IncomeTotal(rows)
    ensures totalExpense == ExpenseTotal(rows)
    ensures balance == totalIncome - totalExpense
  {
    totalIncome := 0.0;
    totalExpense := 0.0;
    for i := 0 to |rows|
      invariant totalIncome == SumOf(rows[..i], IncomeShare)
      invariant totalExpense == SumOf(rows[..i], ExpenseShare)
    {
      var transaction := rows[i];
      assert rows[..i + 1] == rows[..i] + [transaction];
      SumOfAppend(rows[..i], [transaction], IncomeShare);
      SumOfAppend(rows[..i], [transaction], ExpenseShare);
      if transaction.kind == "income" {
        totalIncome := totalIncome + transaction.amount;
      } else {
        totalExpense := totalExpense + transaction.amount;
      }
    }
    assert rows[..|rows|] == rows;
    balance := totalIncome - totalExpense;
  }

  /** `totalIncome` is the sum of the amounts of the income rows, `totalExpense` of all the others. */
  lemma {:induction false} TotalsAreFilteredSums(rows: seq<AmountRow>)
    ensures IncomeTotal(rows) == SumOf(Ordering.Filter(rows, IsIncome), Amount)
    ensures ExpenseTotal(rows) == SumOf(Ordering.Filter(rows, IsExpense), Amount)
  {
    if rows != [] {
      TotalsAreFilteredSums(rows[1..]);
    }
  }

  /** Every row is counted exactly once: the two totals add up to the sum of all amounts. */
  lemma {:induction false} TotalsPartitionAmounts(rows: seq<AmountRow>)
    ensures IncomeTotal(rows) + ExpenseTotal(rows) == SumOf(rows, Amount)
  {
    if rows != [] {
      TotalsPartitionAmounts(rows[1..]);
    }
  }

  /** The summary is the same for every order in which the store returns the rows. */
  lemma SummaryIgnoresOrder(a: seq<AmountRow>, b: seq<AmountRow>)
    requires multiset(a) == multiset(b)
    ensures IncomeTotal(a) == IncomeTotal(b)
    ensures ExpenseTotal(a) == ExpenseTotal(b)
  {
    SumOfPermutation(a, b, IncomeShare);
    SumOfPermutation(a, b, ExpenseShare);
  }

  /** With no negative amounts, neither total is negative. */
  lemma {:induction false} TotalsNonNegative(rows: seq<AmountRow>)
    requires forall i :: 0 <= i < |rows| ==> rows[i].amount >= 0.0
    ensures IncomeTotal(rows) >= 0.0 && ExpenseTotal(rows) >= 0.0
  {
    if rows != [] {
      TotalsNonNegative(rows[1..]);
    }
  }

  /** A row of any type other than "income", added to any rows, adds its amount to the expense total only. */
  lemma UnknownTypeIsExpense(rows: seq<AmountRow>, r: AmountRow)
    requires r.kind != "income"
    ensures IncomeTotal(rows + [r]) == IncomeTotal(rows)
    ensures ExpenseTotal(rows + [r]) == ExpenseTotal(rows) + r.amount
  {
    SumOfAppend(rows, [r], IncomeShare);
    SumOfAppend(rows, [r], ExpenseShare);
    assert [r][1..] == [];
  }

  /** Two income and two expense rows: 1000 + 500 income, 200 + 300 expense. */
  lemma WorkedExample()
    ensures var rows := [AmountRow("income", 1000.0), AmountRow("income", 500.0),
                         AmountRow("expense", 200.0), AmountRow("expense", 300.0)];
      IncomeTotal(rows) == 1500.0 && ExpenseTotal(rows) == 500.0 &&
      IncomeTotal(rows) - ExpenseTotal(rows) == 1000.0
  {
  }

  /** The answer of `GET /summary` when the store behaves as `b`. */
  function SummaryResponse(tenantId: QueryValue, b: Backend): HttpResponse
  {
    match QueryString(tenantId)
    case None => HttpResponse(400, ErrorMessage("tenantId query parameter is required"))
    case Some(id) =>
      if !IsUuid(id) then HttpResponse(400, ErrorMessage("Invalid tenantId format"))
      else
        match Answer(b, Query.SelectAmounts(id), TenantAmounts(b, id))
        case Failure(e) => ListFailure(e, "Failed to fetch summary")
        case Data(data) =>
          var rows := OrEmpty(data);
          HttpResponse(200, Summary(IncomeTotal(rows), ExpenseTotal(rows), IncomeTotal(rows) - ExpenseTotal(rows)))
  }

  /**
   * `GET /summary?tenantId=...`. A missing or non-UUID id is answered 400
   * before any query; a failed query is classified; otherwise the totals of
   * the returned rows (`data || []`) are answered with 200.
   */
  method GetSummary(req: AuthRequest, tenantId: QueryValue) returns (res: HttpResponse)
    requires req.supabaseClient != null
    modifies req.supabaseClient
    ensures res.status in {200, 400, 403}
    ensures QueryString(tenantId).None? ==>
      && res == HttpResponse(400, ErrorMessage("tenantId query parameter is required"))
      && req.supabaseClient.log == old(req.supabaseClient.log)
    ensures QueryString(tenantId).Some? && !IsUuid(tenantId.text) ==>
      && res == HttpResponse(400, ErrorMessage("Invalid tenantId format"))
      && req.supabaseClient.log == old(req.supabaseClient.log)
    ensures QueryString(tenantId).Some? && IsUuid(tenantId.text) ==>
      var q := Query.SelectAmounts(tenantId.text);
      var b := req.supabaseClient.backend;
      && req.supabaseClient.log == old(req.supabaseClient.log) + [q]
      && res == match Answer(b, q, TenantAmounts(b, tenantId.text))
                case Failure(e) => ListFailure(e, "Failed to fetch summary")
                case Data(data) =>
                  var rows := OrEmpty(data);
                  HttpResponse(200, Summary(IncomeTotal(rows), ExpenseTotal(rows), IncomeTotal(rows) - ExpenseTotal(rows)))
    ensures res.status == 200 ==> res.body.Summary? && res.body.balance == res.body.totalIncome - res.body.totalExpense
    ensures res == SummaryResponse(tenantId, req.supabaseClient.backend)
  {
    var t := QueryString(tenantId);
    if t.None? {
      return HttpResponse(400, ErrorMessage("tenantId query parameter is required"));
    }
    if !IsUuid(t.value) {
      return HttpResponse(400, ErrorMessage("Invalid tenantId format"));
    }
    var supabase := req.supabaseClient;
    var reply := supabase.SelectAmounts(t.value);
    match reply {
      case Failure(e) =>
        res := ListFailure(e, "Failed to fetch summary");
      case Data(data) =>
        var totalIncome, totalExpense, balance := Summarize(OrEmpty(data));
        res := HttpResponse(200, Summary(totalIncome, totalExpense, balance));
    }
  }

  /** No rows, or `data: null`, give a summary of zeros. */
  lemma EmptySummary()
    ensures IncomeTotal([]) == 0.0 && ExpenseTotal([]) == 0.0
    ensures IncomeTotal(OrEmpty<AmountRow>(None)) == 0.0 && ExpenseTotal(OrEmpty<AmountRow>(None)) == 0.0
  {
  }
}
