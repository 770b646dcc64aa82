/** The preference store: six optional interpretive choices that user
    answers resolve by keyword sniffing, and the generation hints rendered
    from them. */
module Preferences {
  import opened Text

  datatype Option<T> = None | Some(value: T)

  /** The values the source stores as strings ("ShipCountry"/"Country",
      "OrderDate"/"ShippedDate", "revenue"/"quantity"/"orders",
      "month"/"quarter"/"year"). */
  datatype CountryField = ShipCountry | CustomerCountry
  datatype DateField = OrderDate | ShippedDate
  datatype Metric = Revenue | Quantity | Orders
  datatype Granularity = Month | Quarter | Year

  datatype Prefs = Prefs(
    countryField: Option<CountryField>,
    dateField: Option<DateField>,
    metric: Option<Metric>,
    netRevenue: Option<bool>,
    topN: Option<nat>,
    granularity: Option<Granularity>)

  const NoPrefs := Prefs(None, None, None, None, None, None)

  /** Python truthiness of `top_n`: unset and `0` are both false. */
  predicate TopNSet(p: Prefs) {
    p.topN.Some? && p.topN.value != 0
  }

  // ---------------------------------------------------------------------------
  // The regular expression `top\s*(\d+)` (no word boundary: "stop5" matches)

  /** `top`, then optional whitespace, then a digit, starting at `i`. */
  predicate TopMatchAt(a: string, i: nat) {
    OccursAt(a, "top", i) && SkipSpace(a, i + 3) < |a| && IsDigit(a[SkipSpace(a, i + 3)])
  }

  /** The integer of the digits the match at `i` captures. */
  function TopValueAt(a: string, i: nat): nat
    requires TopMatchAt(a, i)
  {
    ParseNat(DigitRun(a, SkipSpace(a, i + 3)))
  }

  /** `re.search` from position `i`. */
  function TopNumberFrom(a: string, i: nat): Option<nat>
    decreases |a| - i
  {
    if i + 3 > |a| then None
    else if TopMatchAt(a, i) then Some(TopValueAt(a, i))
    else TopNumberFrom(a, i + 1)
  }

  function TopNumber(a: string): Option<nat> {
    TopNumberFrom(a, 0)
  }

  /** The search finds a number exactly when some position matches, and then
      it is the number of the leftmost match. */
  lemma {:induction false} TopNumberFromSpec(a: string, i: nat)
    ensures TopNumberFrom(a, i).None? <==> forall j: nat :: i <= j ==> !TopMatchAt(a, j)
    ensures TopNumberFrom(a, i).Some? ==>
              exists j: nat :: i <= j && TopMatchAt(a, j) && TopNumberFrom(a, i).value == TopValueAt(a, j) &&
                               forall m: nat :: i <= m < j ==> !TopMatchAt(a, m)
    decreases |a| - i
  {
    if i + 3 > |a| {
    } else if TopMatchAt(a, i) {
    } else {
      TopNumberFromSpec(a, i + 1);
      if TopNumberFrom(a, i).Some? {
        var j: nat :| i + 1 <= j && TopMatchAt(a, j) && TopNumberFrom(a, i + 1).value == TopValueAt(a, j) &&
                      forall m: nat :: i + 1 <= m < j ==> !TopMatchAt(a, m);
        assert forall m: nat :: i <= m < j ==> !TopMatchAt(a, m);
      }
    }
  }

  // ---------------------------------------------------------------------------
  // The resolution rules, one per field, over the lower-cased answer `a`.
  // Where the source lets a later statement overwrite an earlier one, the
  // later rule is tested first here.

  predicate MentionsQuarter(a: string) {
    Contains(a, "quarter") || Contains(a, "q1") || Contains(a, "q2") ||
    Contains(a, "q3") || Contains(a, "q4")
  }

  function CountryFrom(a: string): Option<CountryField> {
    if Contains(a, "ship") && Contains(a, "country") then Some(ShipCountry)
    else if Contains(a, "customer") && Contains(a, "country") then Some(CustomerCountry)
    else None
  }

  function DateFrom(a: string): Option<DateField> {
    if Contains(a, "shippeddate") || Contains(a, "ship date") then Some(ShippedDate)
    else if Contains(a, "orderdate") then Some(OrderDate)
    else None
  }

  function MetricFrom(a: string): Option<Metric> {
    if Contains(a, "orders") || Contains(a, "order count") then Some(Orders)
    else if Contains(a, "quantity") then Some(Quantity)
    else if Contains(a, "revenue") then Some(Revenue)
    else None
  }

  function NetFrom(a: string): Option<bool> {
    if !Contains(a, "revenue") then None
    else if Contains(a, "gross") then Some(false)
    else if Contains(a, "net") || Contains(a, "discount") then Some(true)
    else None
  }

  function GranularityFrom(a: string): Option<Granularity> {
    if Contains(a, "month") then Some(Month)
    else if MentionsQuarter(a) then Some(Quarter)
    else if Contains(a, "year") then Some(Year)
    else None
  }

  /** Last writer wins: a resolution replaces the stored value, no resolution keeps it. */
  function Override<T>(stored: Option<T>, resolved: Option<T>): Option<T> {
    if resolved.Some? then resolved else stored
  }

  predicate DateMentioned(a: string) {
    Contains(a, "orderdate") || Contains(a, "shippeddate") || Contains(a, "ship date")
  }

  predicate MetricMentioned(a: string) {
    Contains(a, "revenue") || Contains(a, "quantity") || Contains(a, "orders") ||
    Contains(a, "order count")
  }

  predicate GranularityMentioned(a: string) {
    Contains(a, "month") || MentionsQuarter(a) || Contains(a, "year")
  }

  /** What `integrate_answer(answer)` makes of the preferences `p`. */
  function Integrate(p: Prefs, answer: string): (r: Prefs)
    // a field is touched only when one of its trigger words occurs
    ensures !Contains(ToLower(answer), "country") ==> r.countryField == p.countryField
    ensures !DateMentioned(ToLower(answer)) ==> r.dateField == p.dateField
    ensures !MetricMentioned(ToLower(answer)) ==> r.metric == p.metric
    ensures !Contains(ToLower(answer), "revenue") ==> r.netRevenue == p.netRevenue
    ensures (forall j: nat :: !TopMatchAt(ToLower(answer), j)) ==> r.topN == p.topN
    ensures !GranularityMentioned(ToLower(answer)) ==> r.granularity == p.granularity
    // a resolved field is never reset
    ensures p.countryField.Some? ==> r.countryField.Some?
    ensures p.dateField.Some? ==> r.dateField.Some?
    ensures p.metric.Some? ==> r.metric.Some?
    ensures p.netRevenue.Some? ==> r.netRevenue.Some?
    ensures p.topN.Some? ==> r.topN.Some?
    ensures p.granularity.Some? ==> r.granularity.Some?
  {
    var a := ToLower(answer);
    TopNumberFromSpec(a, 0);
    Prefs(
      Override(p.countryField, CountryFrom(a)),
      Override(p.dateField, DateFrom(a)),
      Override(p.metric, MetricFrom(a)),
      Override(p.netRevenue, NetFrom(a)),
      Override(p.topN, TopNumber(a)),
      Override(p.granularity, GranularityFrom(a)))
  }

  /** Within one answer the later rules of the source win. */
  lemma IntegratePriority(p: Prefs, answer: string)
    ensures var a := ToLower(answer); var r := Integrate(p, answer);
      && (Contains(a, "ship") && Contains(a, "country") ==> r.countryField == Some(ShipCountry))
      && (Contains(a, "shippeddate") || Contains(a, "ship date") ==> r.dateField == Some(ShippedDate))
      && (Contains(a, "revenue") && Contains(a, "gross") ==> r.netRevenue == Some(false))
      && (Contains(a, "orders") || Contains(a, "order count") ==> r.metric == Some(Orders))
      && (Contains(a, "quantity") && !Contains(a, "orders") && !Contains(a, "order count")
          ==> r.metric == Some(Quantity))
      && (Contains(a, "month") ==> r.granularity == Some(Month))
      && (!Contains(a, "month") && MentionsQuarter(a) ==> r.granularity == Some(Quarter))
  {
  }

  /** The number in the first `top<digits>` is stored, even without a word boundary. */
  lemma IntegrateTopN(p: Prefs, answer: string, j: nat)
    requires TopMatchAt(ToLower(answer), j)
    requires forall m: nat :: m < j ==> !TopMatchAt(ToLower(answer), m)
    ensures Integrate(p, answer).topN == Some(TopValueAt(ToLower(answer), j))
  {
    var a := ToLower(answer);
    var r := TopNumberFrom(a, 0);
    TopNumberFromSpec(a, 0);
    assert r.Some?;
    var j' :| 0 <= j' && TopMatchAt(a, j') && r.value == TopValueAt(a, j') &&
              forall m: nat :: 0 <= m < j' ==> !TopMatchAt(a, m);
    assert j' == j;
  }

  /** Integrating the same answer twice is integrating it once. */
  lemma IntegrateIdempotent(p: Prefs, answer: string)
    ensures Integrate(Integrate(p, answer), answer) == Integrate(p, answer)
  {
  }

  /** The answer is read case-insensitively. */
  lemma IntegrateIgnoresCase(p: Prefs, answer: string)
    ensures Integrate(p, ToLower(answer)) == Integrate(p, answer)
  {
    ToLowerIdempotent(answer);
  }

  // ---------------------------------------------------------------------------
  // Hints

  const ShipCountryHint := "Use Orders.ShipCountry as the country field."
  const CustomerCountryHint := "Use Customers.Country as the country field."
  const OrderDateHint := "Use OrderDate for date filtering."
  const ShippedDateHint := "Use ShippedDate for date filtering."
  const NetRevenueHint := "Rank by net revenue: " + "SUM(od.UnitPrice*od.Quantity*(1-od.Discount))."
  const GrossRevenueHint := "Rank by gross revenue: " + "SUM(od.UnitPrice*od.Quantity)."
  const PreferRevenueHint := "Prefer revenue for ranking unless specified."
  const QuantityHint := "Rank by total quantity sold."
  const OrdersHint := "Rank by number of orders."
  const MonthHint := "Aggregate by month."
  const QuarterHint := "Aggregate by quarter."
  const YearHint := "Aggregate by year."


  function CountryHint(c: CountryField): string {
    if c == ShipCountry then ShipCountryHint else CustomerCountryHint
  }

  function DateHint(d: DateField): string {
    if d == OrderDate then OrderDateHint else ShippedDateHint
  }

  /** For revenue the hint follows `net_revenue`: True, False or unset. */
  function MetricHint(m: Metric, net: Option<bool>): string {
    match m
    case Revenue =>
      (match net
       case Some(true) => NetRevenueHint
       case Some(false) => GrossRevenueHint
       case None => PreferRevenueHint)
    case Quantity => QuantityHint
    case Orders => OrdersHint
  }

  function GranularityHint(g: Granularity): string {
    match g
    case Month => MonthHint
    case Quarter => QuarterHint
    case Year => YearHint
  }

  /** Fields that yield a hint: set fields, with a zero `top_n` counted as unset. */
  function ResolvedCount(p: Prefs): nat {
    (if p.countryField.Some? then 1 else 0) + (if p.dateField.Some? then 1 else 0) +
    (if p.metric.Some? then 1 else 0) + (if TopNSet(p) then 1 else 0) +
    (if p.granularity.Some? then 1 else 0)
  }

  /** Shape of a LIMIT hint: the prefix, a numeral, a full stop. */
  predicate IsLimitHint(h: string) {
    |h| >= 12 && h[..10] == "Use LIMIT " && h[|h| - 1] == '.' &&
    forall m :: 10 <= m < |h| - 1 ==> IsDigit(h[m])
  }

  /** The field a hint speaks about, in the order country, date, metric,
      top-n, granularity; 5 for a string that is no hint. */
  function HintRank(h: string): nat {
    if h == ShipCountryHint || h == CustomerCountryHint then 0
    else if h == OrderDateHint || h == ShippedDateHint then 1
    else if h == NetRevenueHint || h == GrossRevenueHint || h == PreferRevenueHint ||
            h == QuantityHint || h == OrdersHint then 2
    else if IsLimitHint(h) then 3
    else if h == MonthHint || h == QuarterHint || h == YearHint then 4
    else 5
  }

  /** Each fixed hint is ranked with its own field, the ship-country hint
      differs from the revenue preference hint, and no granularity hint has
      the LIMIT shape. */
  lemma FixedHints()
    ensures ShipCountryHint != PreferRevenueHint
    ensures HintRank(ShipCountryHint) == 0 && HintRank(CustomerCountryHint) == 0
    ensures HintRank(OrderDateHint) == 1 && HintRank(ShippedDateHint) == 1
    ensures HintRank(NetRevenueHint) == 2 && HintRank(GrossRevenueHint) == 2
    ensures HintRank(PreferRevenueHint) == 2 && HintRank(QuantityHint) == 2
    ensures HintRank(OrdersHint) == 2
    ensures !IsLimitHint(MonthHint) && !IsLimitHint(QuarterHint) && !IsLimitHint(YearHint)
    ensures HintRank(MonthHint) == 4 && HintRank(QuarterHint) == 4 && HintRank(YearHint) == 4
  {
    assert ShipCountryHint[0] != PreferRevenueHint[0];
    assert MonthHint[0] == QuarterHint[0] == YearHint[0] == 'A';
  }

  /** `Use LIMIT <n>.`: it has the LIMIT shape, carries the numeral of `n`
      and is none of the fixed hints. */
  function LimitHint(n: nat): (h: string)
    ensures IsLimitHint(h)
    ensures h[10..|h| - 1] == NatToString(n)
    ensures HintRank(h) == 3
  {
    var h := "Use LIMIT " + NatToString(n) + ".";
    assert h[..10] == "Use LIMIT ";
    assert h[4] == 'L' && h[0] == 'U';
    assert ShipCountryHint[4] == 'O' && CustomerCountryHint[4] == 'C';
    assert OrderDateHint[4] == 'O' && ShippedDateHint[4] == 'S';
    assert NetRevenueHint[0] == 'R' && GrossRevenueHint[0] == 'R';
    assert QuantityHint[0] == 'R' && OrdersHint[0] == 'R';
    assert PreferRevenueHint[0] == 'P';
    h
  }

  /** `to_hints`: one instruction per resolved field. */
  function Hints(p: Prefs): (r: seq<string>)
    ensures |r| == ResolvedCount(p) <= 5
  {
    var country := if p.countryField.Some? then [CountryHint(p.countryField.value)] else [];
    var date := if p.dateField.Some? then [DateHint(p.dateField.value)] else [];
    var metric := if p.metric.Some? then [MetricHint(p.metric.value, p.netRevenue)] else [];
    var limit := if TopNSet(p) then [LimitHint(p.topN.value)] else [];
    var granularity := if p.granularity.Some? then [GranularityHint(p.granularity.value)] else [];
    country + date + metric + limit + granularity
  }

  /** Strictly increasing field ranks: at most one hint per field, in order. */
  predicate Increasing(r: seq<string>) {
    forall i, j :: 0 <= i < j < |r| ==> HintRank(r[i]) < HintRank(r[j])
  }

  predicate RanksBelow(r: seq<string>, n: nat) {
    forall i :: 0 <= i < |r| ==> HintRank(r[i]) < n
  }

  lemma AppendRanked(a: seq<string>, b: seq<string>, n: nat)
    requires Increasing(a) && RanksBelow(a, n)
    requires |b| <= 1 && forall i :: 0 <= i < |b| ==> HintRank(b[i]) == n
    ensures Increasing(a + b) && RanksBelow(a + b, n + 1)
  {
  }

  /** The hints for country, date and metric, in that order. */
  function FieldHints(p: Prefs): seq<string> {
    (if p.countryField.Some? then [CountryHint(p.countryField.value)] else []) +
    (if p.dateField.Some? then [DateHint(p.dateField.value)] else []) +
    (if p.metric.Some? then [MetricHint(p.metric.value, p.netRevenue)] else [])
  }

  lemma FieldHintsOrdered(p: Prefs)
    ensures Increasing(FieldHints(p)) && RanksBelow(FieldHints(p), 3)
  {
    var country := if p.countryField.Some? then [CountryHint(p.countryField.value)] else [];
    var date := if p.dateField.Some? then [DateHint(p.dateField.value)] else [];
    var metric := if p.metric.Some? then [MetricHint(p.metric.value, p.netRevenue)] else [];
    if p.countryField.Some? { HintRanks(p.countryField.value, OrderDate, Revenue, p.netRevenue, Month); }
    if p.dateField.Some? { HintRanks(ShipCountry, p.dateField.value, Revenue, p.netRevenue, Month); }
    if p.metric.Some? { HintRanks(ShipCountry, OrderDate, p.metric.value, p.netRevenue, Month); }
    AppendRanked([], country, 0);
    assert [] + country == country;
    AppendRanked(country, date, 1);
    AppendRanked(country + date, metric, 2);
  }

  /** The hints come in the order country, date, metric, top-n, granularity,
      at most one per field, and each is a recognised hint. */
  lemma HintsOrdered(p: Prefs)
    ensures Increasing(Hints(p)) && RanksBelow(Hints(p), 5)
  {
    var limit := if TopNSet(p) then [LimitHint(p.topN.value)] else [];
    var granularity := if p.granularity.Some? then [GranularityHint(p.granularity.value)] else [];
    assert Hints(p) == FieldHints(p) + limit + granularity;
    FieldHintsOrdered(p);
    if p.granularity.Some? { HintRanks(ShipCountry, OrderDate, Revenue, p.netRevenue, p.granularity.value); }
    AppendRanked(FieldHints(p), limit, 3);
    AppendRanked(FieldHints(p) + limit, granularity, 4);
  }

  lemma HintRanks(c: CountryField, d: DateField, m: Metric, net: Option<bool>, g: Granularity)
    ensures HintRank(CountryHint(c)) == 0
    ensures HintRank(DateHint(d)) == 1
    ensures HintRank(MetricHint(m, net)) == 2
    ensures HintRank(GranularityHint(g)) == 4
  {
    FixedHints();
  }

  // ---------------------------------------------------------------------------
  // Reading the hints back

  /** The preferences the hints can express: a zero `top_n` is unset, and the
      net/gross choice is only shown when the metric is revenue. */
  function Normalize(p: Prefs): Prefs {
    p.(topN := if TopNSet(p) then p.topN else None,
       netRevenue := if p.metric == Some(Revenue) then p.netRevenue else None)
  }

  function ReadHint(p: Prefs, h: string): Prefs {
    if h == ShipCountryHint then p.(countryField := Some(ShipCountry))
    else if h == CustomerCountryHint then p.(countryField := Some(CustomerCountry))
    else if h == OrderDateHint then p.(dateField := Some(OrderDate))
    else if h == ShippedDateHint then p.(dateField := Some(ShippedDate))
    else if h == NetRevenueHint then p.(metric := Some(Revenue), netRevenue := Some(true))
    else if h == GrossRevenueHint then p.(metric := Some(Revenue), netRevenue := Some(false))
    else if h == PreferRevenueHint then p.(metric := Some(Revenue), netRevenue := None)
    else if h == QuantityHint then p.(metric := Some(Quantity))
    else if h == OrdersHint then p.(metric := Some(Orders))
    else if IsLimitHint(h) then p.(topN := Some(ParseNat(h[10..|h| - 1])))
    else if h == MonthHint then p.(granularity := Some(Month))
    else if h == QuarterHint then p.(granularity := Some(Quarter))
    else if h == YearHint then p.(granularity := Some(Year))
    else p
  }

  function ReadFrom(p: Prefs, hs: seq<string>): Prefs
    decreases |hs|
  {
    if hs == [] then p else ReadFrom(ReadHint(p, hs[0]), hs[1..])
  }

  lemma {:induction false} ReadFromConcat(p: Prefs, a: seq<string>, b: seq<string>)
    ensures ReadFrom(p, a + b) == ReadFrom(ReadFrom(p, a), b)
    decreases |a|
  {
    if a != [] {
      ReadFromConcat(ReadHint(p, a[0]), a[1..], b);
      assert (a + b)[1..] == a[1..] + b;
    } else {
      assert a + b == b;
    }
  }

  lemma ReadCountryHint(q: Prefs, c: CountryField)
    ensures ReadFrom(q, [CountryHint(c)]) == q.(countryField := Some(c))
  {
    FixedHints();
  }

  lemma ReadDateHint(q: Prefs, d: DateField)
    ensures ReadFrom(q, [DateHint(d)]) == q.(dateField := Some(d))
  {
    FixedHints();
  }

  lemma ReadMetricHint(q: Prefs, m: Metric, net: Option<bool>)
    ensures ReadFrom(q, [MetricHint(m, net)]) ==
            q.(metric := Some(m), netRevenue := if m == Revenue then net else q.netRevenue)
  {
    FixedHints();
    assert ReadFrom(q, [MetricHint(m, net)]) == ReadHint(q, MetricHint(m, net));
    match m {
      case Revenue =>
        match net {
          case Some(true) =>
            assert ReadHint(q, NetRevenueHint) == q.(metric := Some(Revenue), netRevenue := Some(true));
          case Some(false) =>
            assert ReadHint(q, GrossRevenueHint) == q.(metric := Some(Revenue), netRevenue := Some(false));
          case None =>
            assert ReadHint(q, PreferRevenueHint) == q.(metric := Some(Revenue), netRevenue := None);
        }
      case Quantity =>
      case Orders =>
    }
  }

  lemma ReadLimitHint(q: Prefs, n: nat)
    ensures ReadFrom(q, [LimitHint(n)]) == q.(topN := Some(n))
  {
    FixedHints();
    ParseNatToString(n);
  }

  lemma ReadGranularityHint(q: Prefs, g: Granularity)
    ensures ReadFrom(q, [GranularityHint(g)]) == q.(granularity := Some(g))
  {
    FixedHints();
  }

  /** The hints determine the preferences they render: reading them back into
      empty preferences restores every resolved field. */
  lemma HintsRoundTrip(p: Prefs)
    ensures ReadFrom(NoPrefs, Hints(p)) == Normalize(p)
  {
    var country := if p.countryField.Some? then [CountryHint(p.countryField.value)] else [];
    var date := if p.dateField.Some? then [DateHint(p.dateField.value)] else [];
    var metric := if p.metric.Some? then [MetricHint(p.metric.value, p.netRevenue)] else [];
    var limit := if TopNSet(p) then [LimitHint(p.topN.value)] else [];
    var granularity := if p.granularity.Some? then [GranularityHint(p.granularity.value)] else [];
    assert Hints(p) == country + date + metric + limit + granularity;
    ReadFromConcat(NoPrefs, country + date + metric + limit, granularity);
    ReadFromConcat(NoPrefs, country + date + metric, limit);
    ReadFromConcat(NoPrefs, country + date, metric);
    ReadFromConcat(NoPrefs, country, date);
    var q1 := ReadFrom(NoPrefs, country);
    if p.countryField.Some? { ReadCountryHint(NoPrefs, p.countryField.value); }
    assert q1 == NoPrefs.(countryField := p.countryField);
    var q2 := ReadFrom(q1, date);
    if p.dateField.Some? { ReadDateHint(q1, p.dateField.value); }
    assert q2 == q1.(dateField := p.dateField);
    var q3 := ReadFrom(q2, metric);
    if p.metric.Some? { ReadMetricHint(q2, p.metric.value, p.netRevenue); }
    assert q3 == q2.(metric := p.metric, netRevenue := Normalize(p).netRevenue);
    var q4 := ReadFrom(q3, limit);
    if TopNSet(p) { ReadLimitHint(q3, p.topN.value); }
    assert q4 == q3.(topN := Normalize(p).topN);
    var q5 := ReadFrom(q4, granularity);
    if p.granularity.Some? { ReadGranularityHint(q4, p.granularity.value); }
    assert q5 == q4.(granularity := p.granularity);
  }

  // ---------------------------------------------------------------------------
  // The store the source mutates in place

  class PreferenceStore {
    var countryField: Option<CountryField>
    var dateField: Option<DateField>
    var metric: Option<Metric>
    var netRevenue: Option<bool>
    var topN: Option<nat>
    var granularity: Option<Granularity>

    function View(): Prefs
      reads this
    {
      Prefs(countryField, dateField, metric, netRevenue, topN, granularity)
    }

    constructor ()
      ensures View() == NoPrefs
    {
      countryField, dateField, metric := None, None, None;
      netRevenue, topN, granularity := None, None, None;
    }

    /** `integrate_answer`: the rules run in the source's order, each
        assignment overwriting what an earlier one in this call wrote. */
    method IntegrateAnswer(answer: string)
      modifies this
      ensures View() == Integrate(old(View()), answer)
    {
      var a := ToLower(answer);
      ResolveCountry(a);
      ResolveDate(a);
      ResolveMetric(a);
      ResolveTopN(a);
      ResolveGranularity(a);
    }

    method ResolveCountry(a: string)
      modifies this
      ensures View() == old(View()).(countryField := Override(old(countryField), CountryFrom(a)))
    {
      if Contains(a, "ship") && Contains(a, "country") {
        countryField := Some(ShipCountry);
      } else if Contains(a, "customer") && Contains(a, "country") {
        countryField := Some(CustomerCountry);
      }
    }

    method ResolveDate(a: string)
      modifies this
      ensures View() == old(View()).(dateField := Override(old(dateField), DateFrom(a)))
    {
      if Contains(a, "orderdate") {
        dateField := Some(OrderDate);
      }
      if Contains(a, "shippeddate") || Contains(a, "ship date") {
        dateField := Some(ShippedDate);
      }
    }

    /** The revenue block (which also settles net versus gross), then the
        quantity and order-count rules that may overwrite its metric. */
    method ResolveMetric(a: string)
      modifies this
      ensures View() == old(View()).(metric := Override(old(metric), MetricFrom(a)),
                                     netRevenue := Override(old(netRevenue), NetFrom(a)))
    {
      if Contains(a, "revenue") {
        metric := Some(Revenue);
        if Contains(a, "net") || Contains(a, "discount") {
          netRevenue := Some(true);
        }
        if Contains(a, "gross") {
          netRevenue := Some(false);
        }
      }
      if Contains(a, "quantity") {
        metric := Some(Quantity);
      }
      if Contains(a, "orders") || Contains(a, "order count") {
        metric := Some(Orders);
      }
    }

    method ResolveTopN(a: string)
      modifies this
      ensures View() == old(View()).(topN := Override(old(topN), TopNumber(a)))
    {
      var m := TopNumber(a);
      if m.Some? {
        topN := m;
      }
    }

    method ResolveGranularity(a: string)
      modifies this
      ensures View() == old(View()).(granularity := Override(old(granularity), GranularityFrom(a)))
    {
      if Contains(a, "month") {
        granularity := Some(Month);
      } else if MentionsQuarter(a) {
        granularity := Some(Quarter);
      } else if Contains(a, "year") {
        granularity := Some(Year);
      }
    }
  }
}
