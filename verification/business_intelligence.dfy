/**
 * Agent #1, Business Intelligence: a fixed table of monthly figures, the six actions that
 * summarise it and the sentences its voice replies are made of. The agent's lifecycle and
 * event state live in `Agents.Agent`; this module holds what its actions compute.
 */
module BusinessIntelligence {
  import opened Wrappers
  import opened Strings
  import opened Json
  import opened Protocol
  import opened McpAgent

  const AgentNumber := 1
  const Name := "Business Intelligence"
  const Description := "Revenue tracking and financial analytics with Stripe integration"

  /** One month of figures; `growth` is in tenths of a percent (`5.6` is 56). */
  datatype Row = Row(month: string, revenue: int, expenses: int, profit: int, growth: int)

  /** The agent's built-in table. */
  const SampleData: seq<Row> := [
    Row("January", 125000, 85000, 40000, 0),
    Row("February", 132000, 88000, 44000, 56),
    Row("March", 145000, 92000, 53000, 98),
    Row("April", 138000, 90000, 48000, -48),
    Row("May", 155000, 95000, 60000, 123),
    Row("June", 168000, 98000, 70000, 84)
  ]

  /** The voice commands `initialize` registers, in registration order. */
  const VoiceCommands: seq<VoicePattern> := [
    VoicePattern([Phrase("show revenue"), Phrase("display income"), Phrase("financial status"), Phrase("how much money")],
                 "get_revenue", map[], "Display current revenue data"),
    VoicePattern([Phrase("show expenses"), Phrase("display costs"), Phrase("spending report")],
                 "get_expenses", map[], "Display expense breakdown"),
    VoicePattern([PhraseThenRest("revenue for "), PhraseThenRest("income in ")],
                 "get_revenue_period", map[], "Get revenue for specific period"),
    VoicePattern([Phrase("profit margin"), Phrase("show profit"), Phrase("net income")],
                 "get_profit", map[], "Display profit analysis"),
    VoicePattern([Phrase("growth rate"), Phrase("show growth"), Phrase("performance trend")],
                 "get_growth", map[], "Display growth metrics")
  ]

  /** The actions `execute` dispatches on. */
  const Actions: set<string> :=
    {"get_revenue", "get_expenses", "get_revenue_period", "get_profit", "get_growth", "get_metrics"}

  function Last(rows: seq<Row>): Row
    requires rows != []
  {
    rows[|rows| - 1]
  }

  // ----- totals, averages and extremes ------------------------------------------------

  /** The numeric columns of the table. */
  datatype Figure = Revenue | Expenses | Profit | Growth

  function Of(r: Row, f: Figure): int {
    match f
    case Revenue => r.revenue
    case Expenses => r.expenses
    case Profit => r.profit
    case Growth => r.growth
  }

  /** The property name a column has in the results. */
  function Key(f: Figure): string {
    match f
    case Revenue => "revenue"
    case Expenses => "expenses"
    case Profit => "profit"
    case Growth => "growth"
  }

  /** `rows.reduce((sum, month) => sum + month[f], 0)`. */
  function Total(rows: seq<Row>, f: Figure): int
  {
    if rows == [] then 0 else Total(rows[..|rows| - 1], f) + Of(Last(rows), f)
  }

  /** When every month's profit is its revenue minus its expenses, so are the totals. */
  lemma {:induction false} TotalProfitIsDifference(rows: seq<Row>)
    requires forall i :: 0 <= i < |rows| ==> rows[i].profit == rows[i].revenue - rows[i].expenses
    ensures Total(rows, Profit) == Total(rows, Revenue) - Total(rows, Expenses)
  {
    if rows != [] {
      TotalProfitIsDifference(rows[..|rows| - 1]);
    }
  }

  /** The built-in table is consistent: each profit is revenue minus expenses. */
  lemma SampleDataConsistent()
    ensures forall i :: 0 <= i < |SampleData| ==>
              SampleData[i].profit == SampleData[i].revenue - SampleData[i].expenses
    ensures Total(SampleData, Profit) == Total(SampleData, Revenue) - Total(SampleData, Expenses)
  {
    TotalProfitIsDifference(SampleData);
  }

  /** The non-zero growth rates, in table order (`map(...).filter(g => g !== 0)`). */
  function NonZeroGrowth(rows: seq<Row>): (g: seq<int>)
    ensures |g| <= |rows|
    ensures forall i :: 0 <= i < |g| ==> g[i] != 0
  {
    if rows == [] then []
    else NonZeroGrowth(rows[..|rows| - 1]) + (if Last(rows).growth != 0 then [Last(rows).growth] else [])
  }

  function SumOf(xs: seq<int>): int {
    if xs == [] then 0 else SumOf(xs[..|xs| - 1]) + xs[|xs| - 1]
  }

  /** Dropping the zero rates does not change the sum of the rates. */
  lemma {:induction false} NonZeroGrowthSum(rows: seq<Row>)
    ensures SumOf(NonZeroGrowth(rows)) == Total(rows, Growth)
  {
    if rows != [] {
      var init := rows[..|rows| - 1];
      NonZeroGrowthSum(init);
      var g := NonZeroGrowth(init);
      if Last(rows).growth != 0 {
        assert (g + [Last(rows).growth])[..|g|] == g;
      } else {
        assert g + [] == g;
      }
    }
  }

  /**
   * `rows.reduce((best, m) => m.profit > best.profit ? m : best)`: the index of the month with
   * the highest profit, the earliest one on a tie.
   */
  function BestIndex(rows: seq<Row>): (i: nat)
    requires rows != []
    ensures i < |rows|
    ensures forall j :: 0 <= j < |rows| ==> rows[j].profit <= rows[i].profit
    ensures forall j :: 0 <= j < i ==> rows[j].profit < rows[i].profit
  {
    if |rows| == 1 then 0
    else
      var b := BestIndex(rows[..|rows| - 1]);
      if Last(rows).profit > rows[b].profit then |rows| - 1 else b
  }

  /** The index of the month with the lowest profit, the earliest one on a tie. */
  function WorstIndex(rows: seq<Row>): (i: nat)
    requires rows != []
    ensures i < |rows|
    ensures forall j :: 0 <= j < |rows| ==> rows[i].profit <= rows[j].profit
    ensures forall j :: 0 <= j < i ==> rows[i].profit < rows[j].profit
  {
    if |rows| == 1 then 0
    else
      var w := WorstIndex(rows[..|rows| - 1]);
      if Last(rows).profit < rows[w].profit then |rows| - 1 else w
  }

  /** `data.month.toLowerCase() === period.toLowerCase()` with `Array.prototype.find`: the first such month. */
  function FindMonth(rows: seq<Row>, period: string): (r: Option<nat>)
    ensures r.Some? ==> r.value < |rows| && Lower(rows[r.value].month) == Lower(period)
    ensures r.Some? ==> forall j :: 0 <= j < r.value ==> Lower(rows[j].month) != Lower(period)
    ensures r.None? <==> forall j :: 0 <= j < |rows| ==> Lower(rows[j].month) != Lower(period)
  {
    if rows == [] then None
    else if Lower(rows[0].month) == Lower(period) then Some(0)
    else
      var tail := rows[1..];
      assert forall j :: 1 <= j < |rows| ==> tail[j - 1] == rows[j];
      match FindMonth(tail, period)
      case None => None
      case Some(k) => Some(k + 1)
  }

  // ----- number formatting --------------------------------------------------------------

  /** `` `$${n.toLocaleString()}` `` for an integer amount (en-US digit grouping). */
  function Money(n: int): string {
    "$" + Grouped(n)
  }

  /** A growth rate as the number it is: tenths of a percent. */
  function GrowthNumber(t: int): Value {
    Number(t, 1)
  }

  /** `` `${g > 0 ? '+' : ''}${g}%` `` for a rate of `t` tenths. */
  function GrowthText(t: int): string {
    (if t > 0 then "+" else "") + DecimalText(t, 1) + "%"
  }

  /**
   * The integer `n` that `toFixed(1)` rounds `10 * a / b` to: the nearest one, the larger on
   * a tie.
   */
  function RoundedTenths(a: nat, b: nat): (n: nat)
    requires b > 0
    ensures -(b as int) < 2 * (n * b - 10 * a) <= b
  {
    var n := (20 * a + b) / (2 * b);
    assert n * (2 * b) <= 20 * a + b < (n + 1) * (2 * b);
    n
  }

  /**
   * `(num / den).toFixed(1)`: a leading minus for a negative quotient, then the rounded
   * absolute value with one decimal; a zero denominator gives `Infinity`, `-Infinity` or `NaN`.
   */
  function ToFixed1(num: int, den: int): (s: string)
    ensures den == 0 ==> s == (if num > 0 then "Infinity" else if num < 0 then "-Infinity" else "NaN")
  {
    if den == 0 then (if num > 0 then "Infinity" else if num < 0 then "-Infinity" else "NaN")
    else
      var a := if num < 0 then -num else num;
      var b := if den < 0 then -den else den;
      var n := RoundedTenths(a, b);
      (if (num < 0) != (den < 0) && num != 0 then "-" else "") + NatToString(n / 10) + "." + [DigitChar(n % 10)]
  }

  /** `((profit / revenue) * 100).toFixed(1)`. */
  function Margin(r: Row): string {
    ToFixed1(100 * r.profit, r.revenue)
  }

  /**
   * The `formatted` average growth: the mean of the non-zero rates with one decimal and a `+`
   * when positive; `NaN%` when there is none.
   */
  function AverageGrowthText(rows: seq<Row>): string {
    var g := NonZeroGrowth(rows);
    if g == [] then "NaN%"
    else (if SumOf(g) > 0 then "+" else "") + ToFixed1(SumOf(g), 10 * |g|) + "%"
  }

  /** `currentGrowth > averageGrowth`; a comparison with `NaN` (no non-zero rate) is false. */
  predicate Improving(rows: seq<Row>)
    requires rows != []
  {
    var g := NonZeroGrowth(rows);
    g != [] && Last(rows).growth * |g| > SumOf(g)
  }

  // ----- the results of the actions -------------------------------------------------------

  /** `{month, <k>: amount, formatted}`: one month of one figure. */
  function MonthEntry(k: string, month: string, amount: Value, formatted: string): Value {
    Obj([("month", Str(month)), (k, amount), ("formatted", Str(formatted))])
  }

  function AmountEntry(r: Row, f: Figure): Value {
    MonthEntry(Key(f), r.month, Int(Of(r, f)), Money(Of(r, f)))
  }

  /** `{<f>: total, formatted}`. */
  function TotalEntry(t: int, f: Figure): Value {
    Obj([(Key(f), Int(t)), ("formatted", Str(Money(t)))])
  }

  /** `{current, total, monthly}`. */
  function AmountResult(current: Value, total: Value, monthly: Value): Value {
    Obj([("current", current), ("total", total), ("monthly", monthly)])
  }

  /** Every month of one column. */
  function AmountMonthly(rows: seq<Row>, f: Figure): Value {
    Arr(seq(|rows|, i requires 0 <= i < |rows| => AmountEntry(rows[i], f)))
  }

  /** The result of `getRevenue` and `getExpenses`: the current (last) month, the total and every month. */
  function AmountData(rows: seq<Row>, f: Figure): Value
    requires rows != []
  {
    AmountResult(AmountEntry(Last(rows), f), TotalEntry(Total(rows, f), f), AmountMonthly(rows, f))
  }

  /** `{month, profit, margin, formatted}`. */
  function ProfitMonth(month: string, profit: int, margin: string, formatted: string): Value {
    Obj([("month", Str(month)), ("profit", Int(profit)), ("margin", Str(margin)), ("formatted", Str(formatted))])
  }

  function ProfitEntry(r: Row): Value {
    ProfitMonth(r.month, r.profit, Margin(r), Money(r.profit))
  }

  /** `{current, total, average, monthly}`. */
  function ProfitResult(current: Value, total: Value, average: Value, monthly: Value): Value {
    Obj([("current", current), ("total", total), ("average", average), ("monthly", monthly)])
  }

  function ProfitMonthly(rows: seq<Row>): Value {
    Arr(seq(|rows|, i requires 0 <= i < |rows| => ProfitEntry(rows[i])))
  }

  /** The result of `getProfit`; the raw floating-point average is not part of it (see README). */
  function ProfitData(rows: seq<Row>): Value
    requires rows != []
  {
    var t := Total(rows, Profit);
    ProfitResult(ProfitEntry(Last(rows)), TotalEntry(t, Profit),
                 Obj([("formatted", Str(Money(RoundQuotient(t, |rows|))))]), ProfitMonthly(rows))
  }

  function GrowthEntry(r: Row): Value {
    MonthEntry("growth", r.month, GrowthNumber(r.growth), GrowthText(r.growth))
  }

  function AverageEntry(rows: seq<Row>): Value {
    Obj([("formatted", Str(AverageGrowthText(rows)))])
  }

  function TrendText(rows: seq<Row>): string
    requires rows != []
  {
    if Improving(rows) then "improving" else "declining"
  }

  /** `{current, average, trend, monthly}`. */
  function GrowthResult(current: Value, average: Value, trend: string, monthly: Value): Value {
    Obj([("current", current), ("average", average), ("trend", Str(trend)), ("monthly", monthly)])
  }

  function GrowthMonthly(rows: seq<Row>): Value {
    Arr(seq(|rows|, i requires 0 <= i < |rows| => GrowthEntry(rows[i])))
  }

  /** The result of `getGrowth`; the raw floating-point average is not part of it (see README). */
  function GrowthData(rows: seq<Row>): Value
    requires rows != []
  {
    GrowthResult(GrowthEntry(Last(rows)), AverageEntry(rows), TrendText(rows), GrowthMonthly(rows))
  }

  /** `{revenue, expenses, profit, growth}`, each already formatted. */
  function FormattedFigures(revenue: string, expenses: string, profit: string, growth: string): Value {
    Obj([("revenue", Str(revenue)), ("expenses", Str(expenses)), ("profit", Str(profit)), ("growth", Str(growth))])
  }

  /** The `formatted` part of a period result. */
  function PeriodFormatted(r: Row): Value {
    FormattedFigures(Money(r.revenue), Money(r.expenses), Money(r.profit), GrowthText(r.growth))
  }

  /** `{month, revenue, expenses, profit, growth, formatted}`. */
  function PeriodResult(month: string, revenue: int, expenses: int, profit: int, growth: Value, formatted: Value): Value {
    Obj([("month", Str(month)), ("revenue", Int(revenue)), ("expenses", Int(expenses)),
         ("profit", Int(profit)), ("growth", growth), ("formatted", formatted)])
  }

  /** The result of `getRevenuePeriod` for a month that was found. */
  function PeriodData(r: Row): Value {
    PeriodResult(r.month, r.revenue, r.expenses, r.profit, GrowthNumber(r.growth), PeriodFormatted(r))
  }

  /** The result of `getMetrics`; the raw floating-point average growth is not part of it (see README). */
  function MetricsData(rows: seq<Row>): Value
    requires rows != []
  {
    Obj([("totalRevenue", Int(Total(rows, Revenue))), ("totalExpenses", Int(Total(rows, Expenses))),
         ("totalProfit", Int(Total(rows, Profit))),
         ("bestMonth", Str(rows[BestIndex(rows)].month)), ("worstMonth", Str(rows[WorstIndex(rows)].month))])
  }

  /** `v` is an array with one object per row, each naming the row's month. */
  predicate OnePerMonth(v: Option<Value>, rows: seq<Row>) {
    v.Some? && v.value.Arr? && |v.value.items| == |rows|
    && forall i :: 0 <= i < |rows| ==> Get(v.value.items[i], "month") == Some(Str(rows[i].month))
  }

  /** `command.parameters?.period || command.parameters?.param1`. */
  function PeriodArg(params: map<string, Value>): (p: Option<Value>)
    ensures Truthy(FromMap(params, "period")) ==> p == FromMap(params, "period")
    ensures !Truthy(FromMap(params, "period")) ==> p == FromMap(params, "param1")
  {
    var p := FromMap(params, "period");
    if Truthy(p) then p else FromMap(params, "param1")
  }

  /**
   * `getRevenuePeriod(period)`. The `find` callback lower-cases `period`, so anything but a
   * string fails with the TypeError JavaScript raises; a string that names no month fails
   * with the agent's own error.
   */
  function RevenuePeriod(rows: seq<Row>, period: Option<Value>): (r: Outcome<Value>)
    ensures r.Returned? <==> rows != [] && period.Some? && period.value.Str? && FindMonth(rows, period.value.s).Some?
    ensures r.Returned? ==> r.value == PeriodData(rows[FindMonth(rows, period.value.s).value])
    ensures rows != [] && period.Some? && period.value.Str? && FindMonth(rows, period.value.s).None? ==>
              r == Threw("No data found for period: " + period.value.s)
  {
    if rows == [] then Threw("No data found for period: " + Show(period))
    else
      match period
      case None => Threw("Cannot read properties of undefined (reading 'toLowerCase')")
      case Some(Null) => Threw("Cannot read properties of null (reading 'toLowerCase')")
      case Some(Str(p)) =>
        (match FindMonth(rows, p)
         case None => Threw("No data found for period: " + p)
         case Some(i) => Returned(PeriodData(rows[i])))
      case Some(_) => Threw("period.toLowerCase is not a function")
  }

  /**
   * The `switch` of `execute`: the result of one action on `rows`, or the message of the error
   * it throws. With an empty table the actions fail where JavaScript would.
   */
  function Run(rows: seq<Row>, action: string, params: map<string, Value>): (r: Outcome<Value>)
    ensures action !in Actions ==> r == Threw("Unknown action: " + action)
    ensures rows == [] ==> r.Threw?
    ensures rows != [] && action in Actions && action != "get_revenue_period" ==> r.Returned?
    ensures action == "get_revenue_period" ==> r == RevenuePeriod(rows, PeriodArg(params))
  {
    if action == "get_revenue_period" then RevenuePeriod(rows, PeriodArg(params))
    else if action !in Actions then Threw("Unknown action: " + action)
    else if rows == [] then
      if action == "get_growth" then Threw("Cannot read properties of undefined (reading 'growth')")
      else if action == "get_metrics" then Threw("Reduce of empty array with no initial value")
      else Threw("Cannot read properties of undefined (reading 'month')")
    else if action == "get_revenue" then Returned(AmountData(rows, Revenue))
    else if action == "get_expenses" then Returned(AmountData(rows, Expenses))
    else if action == "get_profit" then Returned(ProfitData(rows))
    else if action == "get_growth" then Returned(GrowthData(rows))
    else Returned(MetricsData(rows))
  }

  /** With data in the table, each reading action returns its own result built from every row. */
  lemma RunActions(rows: seq<Row>, params: map<string, Value>)
    requires rows != []
    ensures Run(rows, "get_revenue", params) == Returned(AmountData(rows, Revenue))
    ensures Run(rows, "get_expenses", params) == Returned(AmountData(rows, Expenses))
    ensures Run(rows, "get_profit", params) == Returned(ProfitData(rows))
    ensures Run(rows, "get_growth", params) == Returned(GrowthData(rows))
    ensures Run(rows, "get_metrics", params) == Returned(MetricsData(rows))
  {
  }

  // ----- voice replies --------------------------------------------------------------------

  /**
   * The agent's `formatVoiceResponse`: a failure reads as the base agent's reply; otherwise a
   * sentence chosen by which fields the data has. `None` stands for the TypeError a read
   * through `null` or `undefined` raises.
   */
  function FormatVoice(r: Response): (s: Option<string>)
    ensures !r.success ==> s == Some(FormatDefault(r))
    ensures r.success && Nullish(r.data) ==> s.None?
    ensures r.success && !Nullish(r.data) ==> s == FormatData(r.data.value)
  {
    if !r.success then Some(FormatDefault(r))
    else if Nullish(r.data) then None
    else FormatData(r.data.value)
  }

  /** The checks on the data, tested for truthiness in the order `formatVoiceResponse` tests them. */
  function FormatData(data: Value): Option<string> {
    var current := Get(data, "current");
    var total := Get(data, "total");
    if Truthy(current) && Truthy(total) && HasAmount(current.value) then
      Some(AmountSentence(current.value, total.value))
    else if Truthy(current) && Get(current.value, "growth").Some? then
      GrowthSentence(data, current.value)
    else if Truthy(Get(data, "month")) then
      PeriodSentence(data)
    else Some("Financial data retrieved successfully.")
  }

  predicate HasAmount(current: Value) {
    Truthy(Get(current, "revenue")) || Truthy(Get(current, "expenses")) || Truthy(Get(current, "profit"))
  }

  /** The sentence for `current` and `total`: revenue, else expenses, else profit. */
  function AmountSentence(current: Value, total: Value): string
    requires HasAmount(current)
  {
    var month := Show(Get(current, "month"));
    var formatted := Show(Get(current, "formatted"));
    var overall := Show(Get(total, "formatted"));
    if Truthy(Get(current, "revenue")) then
      "Current revenue for " + month + " is " + formatted + ". Total revenue is " + overall + "."
    else if Truthy(Get(current, "expenses")) then
      "Current expenses for " + month + " are " + formatted + ". Total expenses are " + overall + "."
    else
      "Current profit for " + month + " is " + formatted + " with a margin of " + Show(Get(current, "margin"))
      + "%. Total profit is " + overall + "."
  }

  function GrowthSentence(data: Value, current: Value): Option<string> {
    var average := Get(data, "average");
    if Nullish(average) then None
    else
      Some("Growth rate for " + Show(Get(current, "month")) + " is " + Show(Get(current, "formatted"))
           + ". Average growth is " + Show(Get(average.value, "formatted")) + ". The trend is "
           + Show(Get(data, "trend")) + ".")
  }

  function PeriodSentence(data: Value): Option<string> {
    var f := Get(data, "formatted");
    if Nullish(f) then None
    else
      Some("For " + Show(Get(data, "month")) + ": Revenue is " + Show(Get(f.value, "revenue"))
           + ", expenses are " + Show(Get(f.value, "expenses")) + ", profit is " + Show(Get(f.value, "profit"))
           + " with " + Show(Get(f.value, "growth")) + " growth.")
  }

  function Succeeded(data: Value): Response {
    Response(true, Some(data), None, None)
  }

  // ----- the keys of the result objects ---------------------------------------------------

  lemma MonthEntryKeys(k: string, month: string, amount: Value, formatted: string)
    requires k != "month" && k != "formatted"
    ensures Get(MonthEntry(k, month, amount, formatted), "month") == Some(Str(month))
    ensures Get(MonthEntry(k, month, amount, formatted), k) == Some(amount)
    ensures Get(MonthEntry(k, month, amount, formatted), "formatted") == Some(Str(formatted))
  {
    var a, b, c := ("month", Str(month)), (k, amount), ("formatted", Str(formatted));
    Field3(a, b, c, "month");
    Field3(a, b, c, k);
    Field3(a, b, c, "formatted");
  }

  lemma MonthEntryAbsent(k: string, month: string, amount: Value, formatted: string, other: string)
    requires other != "month" && other != k && other != "formatted"
    ensures Get(MonthEntry(k, month, amount, formatted), other).None?
  {    Field3(("month", Str(month)), (k, amount), ("formatted", Str(formatted)), other);
  }

  lemma ProfitMonthKeys(month: string, profit: int, margin: string, formatted: string)
    ensures Get(ProfitMonth(month, profit, margin, formatted), "month") == Some(Str(month))
    ensures Get(ProfitMonth(month, profit, margin, formatted), "profit") == Some(Int(profit))
    ensures Get(ProfitMonth(month, profit, margin, formatted), "margin") == Some(Str(margin))
    ensures Get(ProfitMonth(month, profit, margin, formatted), "formatted") == Some(Str(formatted))
    ensures Get(ProfitMonth(month, profit, margin, formatted), "revenue").None?
    ensures Get(ProfitMonth(month, profit, margin, formatted), "expenses").None?
  {
    var a, b, c, d := ("month", Str(month)), ("profit", Int(profit)), ("margin", Str(margin)), ("formatted", Str(formatted));
    Field4(a, b, c, d, "month");
    Field4(a, b, c, d, "profit");
    Field4(a, b, c, d, "margin");
    Field4(a, b, c, d, "formatted");
    Field4(a, b, c, d, "revenue");
    Field4(a, b, c, d, "expenses");
  }

  lemma AmountResultKeys(current: Value, total: Value, monthly: Value)
    ensures Get(AmountResult(current, total, monthly), "current") == Some(current)
    ensures Get(AmountResult(current, total, monthly), "total") == Some(total)
    ensures Get(AmountResult(current, total, monthly), "month").None?
    ensures Get(AmountResult(current, total, monthly), "monthly") == Some(monthly)
  {
    var a, b, c := ("current", current), ("total", total), ("monthly", monthly);
    Field3(a, b, c, "current");
    Field3(a, b, c, "total");
    Field3(a, b, c, "month");
    Field3(a, b, c, "monthly");
  }

  lemma ProfitResultKeys(current: Value, total: Value, average: Value, monthly: Value)
    ensures Get(ProfitResult(current, total, average, monthly), "current") == Some(current)
    ensures Get(ProfitResult(current, total, average, monthly), "total") == Some(total)
    ensures Get(ProfitResult(current, total, average, monthly), "average") == Some(average)
    ensures Get(ProfitResult(current, total, average, monthly), "monthly") == Some(monthly)
  {
    var a, b, c, d := ("current", current), ("total", total), ("average", average), ("monthly", monthly);
    Field4(a, b, c, d, "current");
    Field4(a, b, c, d, "total");
    Field4(a, b, c, d, "average");
    Field4(a, b, c, d, "monthly");
  }

  lemma GrowthResultKeys(current: Value, average: Value, trend: string, monthly: Value)
    ensures Get(GrowthResult(current, average, trend, monthly), "current") == Some(current)
    ensures Get(GrowthResult(current, average, trend, monthly), "total").None?
    ensures Get(GrowthResult(current, average, trend, monthly), "average") == Some(average)
    ensures Get(GrowthResult(current, average, trend, monthly), "trend") == Some(Str(trend))
    ensures Get(GrowthResult(current, average, trend, monthly), "monthly") == Some(monthly)
  {
    var a, b, c, d := ("current", current), ("average", average), ("trend", Str(trend)), ("monthly", monthly);
    Field4(a, b, c, d, "current");
    Field4(a, b, c, d, "total");
    Field4(a, b, c, d, "average");
    Field4(a, b, c, d, "trend");
    Field4(a, b, c, d, "monthly");
  }

  lemma FormattedFiguresKeys(revenue: string, expenses: string, profit: string, growth: string)
    ensures Get(FormattedFigures(revenue, expenses, profit, growth), "revenue") == Some(Str(revenue))
    ensures Get(FormattedFigures(revenue, expenses, profit, growth), "expenses") == Some(Str(expenses))
    ensures Get(FormattedFigures(revenue, expenses, profit, growth), "profit") == Some(Str(profit))
    ensures Get(FormattedFigures(revenue, expenses, profit, growth), "growth") == Some(Str(growth))
  {
    var a, b, c, d := ("revenue", Str(revenue)), ("expenses", Str(expenses)), ("profit", Str(profit)), ("growth", Str(growth));
    Field4(a, b, c, d, "revenue");
    Field4(a, b, c, d, "expenses");
    Field4(a, b, c, d, "profit");
    Field4(a, b, c, d, "growth");
  }

  lemma PeriodResultKeys(month: string, revenue: int, expenses: int, profit: int, growth: Value, formatted: Value)
    ensures Get(PeriodResult(month, revenue, expenses, profit, growth, formatted), "current").None?
    ensures Get(PeriodResult(month, revenue, expenses, profit, growth, formatted), "month") == Some(Str(month))
    ensures Get(PeriodResult(month, revenue, expenses, profit, growth, formatted), "formatted") == Some(formatted)
    ensures Get(PeriodResult(month, revenue, expenses, profit, growth, formatted), "revenue") == Some(Int(revenue))
    ensures Get(PeriodResult(month, revenue, expenses, profit, growth, formatted), "expenses") == Some(Int(expenses))
    ensures Get(PeriodResult(month, revenue, expenses, profit, growth, formatted), "profit") == Some(Int(profit))
    ensures Get(PeriodResult(month, revenue, expenses, profit, growth, formatted), "growth") == Some(growth)
  {
    var a, b, c := ("month", Str(month)), ("revenue", Int(revenue)), ("expenses", Int(expenses));
    var d, e, f := ("profit", Int(profit)), ("growth", growth), ("formatted", formatted);
    Field6(a, b, c, d, e, f, "current");
    Field6(a, b, c, d, e, f, "month");
    Field6(a, b, c, d, e, f, "formatted");
    Field6(a, b, c, d, e, f, "revenue");
    Field6(a, b, c, d, e, f, "expenses");
    Field6(a, b, c, d, e, f, "profit");
    Field6(a, b, c, d, e, f, "growth");
  }

  /** The properties of one month of one column. */
  lemma AmountEntryFields(r: Row, f: Figure)
    ensures Get(AmountEntry(r, f), "month") == Some(Str(r.month))
    ensures Get(AmountEntry(r, f), "formatted") == Some(Str(Money(Of(r, f))))
    ensures forall g: Figure :: Get(AmountEntry(r, f), Key(g)) == (if g == f then Some(Int(Of(r, f))) else None)
  {
    MonthEntryKeys(Key(f), r.month, Int(Of(r, f)), Money(Of(r, f)));
    forall g: Figure | g != f
      ensures Get(AmountEntry(r, f), Key(g)).None?
    {
      MonthEntryAbsent(Key(f), r.month, Int(Of(r, f)), Money(Of(r, f)), Key(g));
    }
  }

  lemma TotalEntryFormatted(t: int, f: Figure)
    ensures Get(TotalEntry(t, f), "formatted") == Some(Str(Money(t)))
    ensures Get(TotalEntry(t, f), Key(f)) == Some(Int(t))
  {
    Field2((Key(f), Int(t)), ("formatted", Str(Money(t))), "formatted");
    Field2((Key(f), Int(t)), ("formatted", Str(Money(t))), Key(f));
  }

  lemma ProfitEntryFields(r: Row)
    ensures Get(ProfitEntry(r), "month") == Some(Str(r.month))
    ensures Get(ProfitEntry(r), "profit") == Some(Int(r.profit))
    ensures Get(ProfitEntry(r), "margin") == Some(Str(Margin(r)))
    ensures Get(ProfitEntry(r), "formatted") == Some(Str(Money(r.profit)))
    ensures Get(ProfitEntry(r), "revenue").None? && Get(ProfitEntry(r), "expenses").None?
  {
    ProfitMonthKeys(r.month, r.profit, Margin(r), Money(r.profit));
  }

  lemma GrowthEntryFields(r: Row)
    ensures Get(GrowthEntry(r), "month") == Some(Str(r.month))
    ensures Get(GrowthEntry(r), "growth") == Some(GrowthNumber(r.growth))
    ensures Get(GrowthEntry(r), "formatted") == Some(Str(GrowthText(r.growth)))
    ensures Get(GrowthEntry(r), "revenue").None? && Get(GrowthEntry(r), "expenses").None?
    ensures Get(GrowthEntry(r), "profit").None?
  {
    var month, amount, formatted := r.month, GrowthNumber(r.growth), GrowthText(r.growth);
    MonthEntryKeys("growth", month, amount, formatted);
    MonthEntryAbsent("growth", month, amount, formatted, "revenue");
    MonthEntryAbsent("growth", month, amount, formatted, "expenses");
    MonthEntryAbsent("growth", month, amount, formatted, "profit");
  }

  lemma PeriodFormattedFields(r: Row)
    ensures Get(PeriodFormatted(r), "revenue") == Some(Str(Money(r.revenue)))
    ensures Get(PeriodFormatted(r), "expenses") == Some(Str(Money(r.expenses)))
    ensures Get(PeriodFormatted(r), "profit") == Some(Str(Money(r.profit)))
    ensures Get(PeriodFormatted(r), "growth") == Some(Str(GrowthText(r.growth)))
  {
    FormattedFiguresKeys(Money(r.revenue), Money(r.expenses), Money(r.profit), GrowthText(r.growth));
  }

  /** `{formatted}` read back. */
  lemma Field1Formatted(v: Value)
    ensures Get(Obj([("formatted", v)]), "formatted") == Some(v)
  {
    assert [("formatted", v)][1..] == [];
  }

  /**
   * `getRevenue` and `getExpenses`: the current entry is the last month's figure, the total
   * is the column's sum, and the monthly list has every month's figure in table order.
   */
  lemma AmountDataFields(rows: seq<Row>, f: Figure)
    requires rows != []
    ensures var d := AmountData(rows, f);
            && GetOpt(Get(d, "current"), "month") == Some(Str(Last(rows).month))
            && GetOpt(Get(d, "current"), Key(f)) == Some(Int(Of(Last(rows), f)))
            && GetOpt(Get(d, "current"), "formatted") == Some(Str(Money(Of(Last(rows), f))))
            && GetOpt(Get(d, "total"), Key(f)) == Some(Int(Total(rows, f)))
            && GetOpt(Get(d, "total"), "formatted") == Some(Str(Money(Total(rows, f))))
            && OnePerMonth(Get(d, "monthly"), rows)
            && forall i :: 0 <= i < |rows| ==> Get(Get(d, "monthly").value.items[i], Key(f)) == Some(Int(Of(rows[i], f)))
  {
    var d := AmountData(rows, f);
    var cur, monthly := AmountEntry(Last(rows), f), AmountMonthly(rows, f);
    AmountResultKeys(cur, TotalEntry(Total(rows, f), f), monthly);
    AmountEntryFields(Last(rows), f);
    TotalEntryFormatted(Total(rows, f), f);
    forall i | 0 <= i < |rows|
      ensures Get(monthly.items[i], "month") == Some(Str(rows[i].month))
      ensures Get(monthly.items[i], Key(f)) == Some(Int(Of(rows[i], f)))
    {
      AmountEntryFields(rows[i], f);
    }
  }

  /**
   * `getProfit`: the last month's profit and margin, the total profit, the rounded average
   * and every month's profit and margin.
   */
  lemma ProfitDataFields(rows: seq<Row>)
    requires rows != []
    ensures var d := ProfitData(rows);
            && GetOpt(Get(d, "current"), "month") == Some(Str(Last(rows).month))
            && GetOpt(Get(d, "current"), "profit") == Some(Int(Last(rows).profit))
            && GetOpt(Get(d, "current"), "margin") == Some(Str(Margin(Last(rows))))
            && GetOpt(Get(d, "total"), "profit") == Some(Int(Total(rows, Profit)))
            && GetOpt(Get(d, "average"), "formatted") == Some(Str(Money(RoundQuotient(Total(rows, Profit), |rows|))))
            && OnePerMonth(Get(d, "monthly"), rows)
            && forall i :: 0 <= i < |rows| ==>
                 && Get(Get(d, "monthly").value.items[i], "profit") == Some(Int(rows[i].profit))
                 && Get(Get(d, "monthly").value.items[i], "margin") == Some(Str(Margin(rows[i])))
  {
    var t := Total(rows, Profit);
    ProfitDataShape(rows);
    ProfitResultFields(Last(rows), t, Money(RoundQuotient(t, |rows|)), ProfitMonthly(rows));
    ProfitMonthlyFields(rows);
  }

  /** `getProfit`'s result assembled from its parts. */
  lemma ProfitDataShape(rows: seq<Row>)
    requires rows != []
    ensures var t := Total(rows, Profit);
            ProfitData(rows) == ProfitResult(ProfitEntry(Last(rows)), TotalEntry(t, Profit),
                                             Obj([("formatted", Str(Money(RoundQuotient(t, |rows|))))]), ProfitMonthly(rows))
  {
  }

  /** The parts of a profit result read back: the current month, the total, the average text and the months. */
  lemma ProfitResultFields(cur: Row, t: int, average: string, monthly: Value)
    ensures var d := ProfitResult(ProfitEntry(cur), TotalEntry(t, Profit), Obj([("formatted", Str(average))]), monthly);
            && GetOpt(Get(d, "current"), "month") == Some(Str(cur.month))
            && GetOpt(Get(d, "current"), "profit") == Some(Int(cur.profit))
            && GetOpt(Get(d, "current"), "margin") == Some(Str(Margin(cur)))
            && GetOpt(Get(d, "total"), "profit") == Some(Int(t))
            && GetOpt(Get(d, "average"), "formatted") == Some(Str(average))
            && Get(d, "monthly") == Some(monthly)
  {
    ProfitResultKeys(ProfitEntry(cur), TotalEntry(t, Profit), Obj([("formatted", Str(average))]), monthly);
    ProfitEntryFields(cur);
    TotalEntryFormatted(t, Profit);
    Field1Formatted(Str(average));
  }

  /** Every month's profit and margin, in table order. */
  lemma ProfitMonthlyFields(rows: seq<Row>)
    ensures OnePerMonth(Some(ProfitMonthly(rows)), rows)
    ensures forall i :: 0 <= i < |rows| ==>
              && Get(ProfitMonthly(rows).items[i], "profit") == Some(Int(rows[i].profit))
              && Get(ProfitMonthly(rows).items[i], "margin") == Some(Str(Margin(rows[i])))
  {
    var monthly := ProfitMonthly(rows);
    forall i | 0 <= i < |rows|
      ensures Get(monthly.items[i], "month") == Some(Str(rows[i].month))
      ensures Get(monthly.items[i], "profit") == Some(Int(rows[i].profit))
      ensures Get(monthly.items[i], "margin") == Some(Str(Margin(rows[i])))
    {
      ProfitEntryFields(rows[i]);
    }
  }

  /**
   * `getGrowth`: the last month's growth, the average of the non-zero rates as text, the trend
   * `improving` exactly when the last rate beats that average, and every month's growth.
   */
  lemma GrowthDataFields(rows: seq<Row>)
    requires rows != []
    ensures var d := GrowthData(rows);
            && GetOpt(Get(d, "current"), "month") == Some(Str(Last(rows).month))
            && GetOpt(Get(d, "current"), "growth") == Some(GrowthNumber(Last(rows).growth))
            && GetOpt(Get(d, "average"), "formatted") == Some(Str(AverageGrowthText(rows)))
            && (Get(d, "trend") == Some(Str("improving")) <==> Improving(rows))
            && (Get(d, "trend") == Some(Str("declining")) <==> !Improving(rows))
            && OnePerMonth(Get(d, "monthly"), rows)
            && forall i :: 0 <= i < |rows| ==> Get(Get(d, "monthly").value.items[i], "growth") == Some(GrowthNumber(rows[i].growth))
  {
    var monthly := GrowthMonthly(rows);
    GrowthResultKeys(GrowthEntry(Last(rows)), AverageEntry(rows), TrendText(rows), monthly);
    GrowthEntryFields(Last(rows));
    Field1Formatted(Str(AverageGrowthText(rows)));
    forall i | 0 <= i < |rows|
      ensures Get(monthly.items[i], "month") == Some(Str(rows[i].month))
      ensures Get(monthly.items[i], "growth") == Some(GrowthNumber(rows[i].growth))
    {
      GrowthEntryFields(rows[i]);
    }
  }

  /** `getRevenuePeriod` for a month that was found: that month's figures, raw and formatted. */
  lemma PeriodDataFields(r: Row)
    ensures var d := PeriodData(r);
            && Get(d, "month") == Some(Str(r.month))
            && Get(d, "revenue") == Some(Int(r.revenue))
            && Get(d, "expenses") == Some(Int(r.expenses))
            && Get(d, "profit") == Some(Int(r.profit))
            && Get(d, "growth") == Some(GrowthNumber(r.growth))
            && GetOpt(Get(d, "formatted"), "revenue") == Some(Str(Money(r.revenue)))
            && GetOpt(Get(d, "formatted"), "expenses") == Some(Str(Money(r.expenses)))
            && GetOpt(Get(d, "formatted"), "profit") == Some(Str(Money(r.profit)))
            && GetOpt(Get(d, "formatted"), "growth") == Some(Str(GrowthText(r.growth)))
  {
    PeriodResultKeys(r.month, r.revenue, r.expenses, r.profit, GrowthNumber(r.growth), PeriodFormatted(r));
    PeriodFormattedFields(r);
  }

  /**
   * `getMetrics`: the three column totals, and the months of the most and the least profitable
   * rows (the first such row in both cases).
   */
  lemma MetricsDataFields(rows: seq<Row>)
    requires rows != []
    ensures var d := MetricsData(rows);
            && Get(d, "totalRevenue") == Some(Int(Total(rows, Revenue)))
            && Get(d, "totalExpenses") == Some(Int(Total(rows, Expenses)))
            && Get(d, "totalProfit") == Some(Int(Total(rows, Profit)))
            && Get(d, "bestMonth") == Some(Str(rows[BestIndex(rows)].month))
            && Get(d, "worstMonth") == Some(Str(rows[WorstIndex(rows)].month))
  {
    var a, b, c := ("totalRevenue", Int(Total(rows, Revenue))), ("totalExpenses", Int(Total(rows, Expenses))),
                   ("totalProfit", Int(Total(rows, Profit)));
    var e, w := ("bestMonth", Str(rows[BestIndex(rows)].month)), ("worstMonth", Str(rows[WorstIndex(rows)].month));
    Field5(a, b, c, e, w, "totalRevenue");
    Field5(a, b, c, e, w, "totalExpenses");
    Field5(a, b, c, e, w, "totalProfit");
    Field5(a, b, c, e, w, "bestMonth");
    Field5(a, b, c, e, w, "worstMonth");
  }

  // ----- which sentence the data gets -----------------------------------------------------

  /** Data with a truthy `current` amount and a `total` is answered with the amount sentence. */
  lemma AmountReply(d: Value, cur: Value, tot: Value)
    requires Get(d, "current") == Some(cur) && Get(d, "total") == Some(tot)
    requires cur.Obj? && tot.Obj? && HasAmount(cur)
    ensures FormatVoice(Succeeded(d)) == Some(AmountSentence(cur, tot))
  {
  }

  /** Data with a `current` that has a `growth` but no amount, and no `total`, gets the growth sentence. */
  lemma GrowthShapeReply(d: Value, cur: Value)
    requires Get(d, "current") == Some(cur) && cur.Obj? && Get(d, "total").None?
    requires Get(cur, "growth").Some?
    ensures FormatVoice(Succeeded(d)) == GrowthSentence(d, cur)
  {
  }

  /** Data whose `current` has neither an amount nor a `growth`, and without `month`, gets the generic reply. */
  lemma PlainShapeReply(d: Value, cur: Value)
    requires Get(d, "current") == Some(cur) && !HasAmount(cur) && Get(cur, "growth").None?
    requires Get(d, "month").None?
    ensures FormatVoice(Succeeded(d)) == Some("Financial data retrieved successfully.")
  {
  }

  /** Data without `current` but with a truthy `month` gets the period sentence. */
  lemma PeriodShapeReply(d: Value)
    requires Get(d, "current").None? && Truthy(Get(d, "month"))
    ensures FormatVoice(Succeeded(d)) == PeriodSentence(d)
  {
  }

  // ----- the replies to each action -------------------------------------------------------

  /** The revenue reply names the current month, its amount and the total. */
  lemma RevenueReply(rows: seq<Row>)
    requires rows != [] && Last(rows).revenue != 0
    ensures FormatVoice(Succeeded(AmountData(rows, Revenue))) ==
              Some("Current revenue for " + Last(rows).month + " is " + Money(Last(rows).revenue)
                   + ". Total revenue is " + Money(Total(rows, Revenue)) + ".")
  {
    var cur := AmountEntry(Last(rows), Revenue);
    var tot := TotalEntry(Total(rows, Revenue), Revenue);
    AmountResultKeys(cur, tot, AmountMonthly(rows, Revenue));
    AmountEntryFields(Last(rows), Revenue);
    TotalEntryFormatted(Total(rows, Revenue), Revenue);
    assert Get(cur, Key(Revenue)) == Some(Int(Last(rows).revenue));
    AmountReply(AmountData(rows, Revenue), cur, tot);
  }

  /** A current month without revenue is not reported at all: the reply falls through to the generic one. */
  lemma RevenueZeroReply(rows: seq<Row>)
    requires rows != [] && Last(rows).revenue == 0
    ensures FormatVoice(Succeeded(AmountData(rows, Revenue))) ==
              Some("Financial data retrieved successfully.")
  {
    var cur := AmountEntry(Last(rows), Revenue);
    AmountResultKeys(cur, TotalEntry(Total(rows, Revenue), Revenue), AmountMonthly(rows, Revenue));
    AmountEntryFields(Last(rows), Revenue);
    assert Get(cur, Key(Revenue)) == Some(Int(0));
    assert Get(cur, Key(Expenses)).None? && Get(cur, Key(Profit)).None? && Get(cur, Key(Growth)).None?;
    PlainShapeReply(AmountData(rows, Revenue), cur);
  }

  lemma ExpensesReply(rows: seq<Row>)
    requires rows != [] && Last(rows).expenses != 0
    ensures FormatVoice(Succeeded(AmountData(rows, Expenses))) ==
              Some("Current expenses for " + Last(rows).month + " are " + Money(Last(rows).expenses)
                   + ". Total expenses are " + Money(Total(rows, Expenses)) + ".")
  {
    var cur := AmountEntry(Last(rows), Expenses);
    var tot := TotalEntry(Total(rows, Expenses), Expenses);
    AmountResultKeys(cur, tot, AmountMonthly(rows, Expenses));
    AmountEntryFields(Last(rows), Expenses);
    TotalEntryFormatted(Total(rows, Expenses), Expenses);
    assert Get(cur, Key(Revenue)).None?;
    assert Get(cur, Key(Expenses)) == Some(Int(Last(rows).expenses));
    AmountReply(AmountData(rows, Expenses), cur, tot);
  }

  lemma ProfitReply(rows: seq<Row>)
    requires rows != [] && Last(rows).profit != 0
    ensures FormatVoice(Succeeded(ProfitData(rows))) ==
              Some("Current profit for " + Last(rows).month + " is " + Money(Last(rows).profit)
                   + " with a margin of " + Margin(Last(rows)) + "%. Total profit is "
                   + Money(Total(rows, Profit)) + ".")
  {
    var t := Total(rows, Profit);
    var cur := ProfitEntry(Last(rows));
    var tot := TotalEntry(t, Profit);
    ProfitResultKeys(cur, tot, Obj([("formatted", Str(Money(RoundQuotient(t, |rows|))))]), ProfitMonthly(rows));
    ProfitEntryFields(Last(rows));
    TotalEntryFormatted(t, Profit);
    AmountReply(ProfitData(rows), cur, tot);
  }

  /** The growth reply is given whatever the figures, since only the presence of `growth` is tested. */
  lemma GrowthReply(rows: seq<Row>)
    requires rows != []
    ensures FormatVoice(Succeeded(GrowthData(rows))) ==
              Some("Growth rate for " + Last(rows).month + " is " + GrowthText(Last(rows).growth)
                   + ". Average growth is " + AverageGrowthText(rows) + ". The trend is "
                   + TrendText(rows) + ".")
  {
    var cur := GrowthEntry(Last(rows));
    GrowthResultKeys(cur, AverageEntry(rows), TrendText(rows), GrowthMonthly(rows));
    GrowthEntryFields(Last(rows));
    assert Get(AverageEntry(rows), "formatted") == Some(Str(AverageGrowthText(rows)));
    GrowthShapeReply(GrowthData(rows), cur);
  }

  lemma PeriodReply(r: Row)
    requires r.month != []
    ensures FormatVoice(Succeeded(PeriodData(r))) ==
              Some("For " + r.month + ": Revenue is " + Money(r.revenue) + ", expenses are " + Money(r.expenses)
                   + ", profit is " + Money(r.profit) + " with " + GrowthText(r.growth) + " growth.")
  {
    PeriodResultKeys(r.month, r.revenue, r.expenses, r.profit, GrowthNumber(r.growth), PeriodFormatted(r));
    PeriodFormattedFields(r);
    PeriodShapeReply(PeriodData(r));
  }

  lemma MetricsReply(rows: seq<Row>)
    requires rows != []
    ensures FormatVoice(Succeeded(MetricsData(rows))) == Some("Financial data retrieved successfully.")
  {
    var d := MetricsData(rows);
    assert Get(d, "current").None? && Get(d, "month").None?;
  }
}
