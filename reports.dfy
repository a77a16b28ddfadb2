/** The monthly report and the dashboard's month-to-date figures, both
    computed afresh from the current list of purchases. */
module Reports {
  import opened Wrappers
  import opened Records
  import opened Seqs

  /** The report's row test: a dated purchase in the selected month and year. */
  predicate InReportMonth(p: Purchase, month: int, year: int)
  {
    p.date.Some? && p.date.value.month == month && p.date.value.year == year
  }

  function InMonth(month: int, year: int): Purchase -> bool
  {
    p => InReportMonth(p, month, year)
  }

  /** `getFilteredReportData()` */
  function ReportRows(purchases: seq<Purchase>, month: int, year: int): (r: seq<Purchase>)
    ensures |r| <= |purchases|
    ensures forall i :: 0 <= i < |r| ==> r[i] in purchases && InReportMonth(r[i], month, year)
  {
    Filter(purchases, InMonth(month, year))
  }

  /** The report's TOTAL line: the rows' prices, a missing price as 0. */
  function ReportTotal(rows: seq<Purchase>): (r: real)
    ensures (forall i :: 0 <= i < |rows| ==> PriceOrZero(rows[i]) >= 0.0) ==> r >= 0.0
    ensures rows == [] ==> r == 0.0
  {
    Sum(rows, PriceOrZero)
  }

  /** The report lists, in their original order, exactly the purchases
      that carry a date in the selected month and year. */
  lemma ReportRowsExact(purchases: seq<Purchase>, month: int, year: int, p: Purchase)
    ensures IsSubsequence(ReportRows(purchases, month, year), purchases)
    ensures multiset(ReportRows(purchases, month, year))[p]
         == if InReportMonth(p, month, year) then multiset(purchases)[p] else 0
    ensures p.date.None? ==> p !in ReportRows(purchases, month, year)
  {
    FilterIsSubsequence(purchases, InMonth(month, year));
    FilterMultiplicity(purchases, InMonth(month, year), p);
    FilterMember(purchases, InMonth(month, year), p);
  }

  function ReportPrice(month: int, year: int): Purchase -> real
  {
    p => if InReportMonth(p, month, year) then PriceOrZero(p) else 0.0
  }

  /** The report total adds up the price of every purchase of the month
      and nothing else. */
  lemma ReportTotalMeaning(purchases: seq<Purchase>, month: int, year: int)
    ensures ReportTotal(ReportRows(purchases, month, year)) == Sum(purchases, ReportPrice(month, year))
  {
    SumFilter(purchases, InMonth(month, year), PriceOrZero, ReportPrice(month, year));
  }

  /** Reporting over two lists at once adds their reports. */
  lemma ReportTotalAppend(a: seq<Purchase>, b: seq<Purchase>, month: int, year: int)
    ensures ReportTotal(ReportRows(a + b, month, year))
         == ReportTotal(ReportRows(a, month, year)) + ReportTotal(ReportRows(b, month, year))
  {
    FilterAppend(a, b, InMonth(month, year));
    SumAppend(ReportRows(a, month, year), ReportRows(b, month, year), PriceOrZero);
  }

  /** The dashboard's three figures. */
  datatype Analytics = Analytics(totalSpentMonth: real, totalGramsMonth: real, count: nat)

  /** `p.date >= start`; a missing date compares false. */
  predicate DatedFrom(p: Purchase, start: Date)
  {
    p.date.Some? && DateLeq(start, p.date.value)
  }

  function Since(start: Date): Purchase -> bool
  {
    p => DatedFrom(p, start)
  }

  /** `p.itemType === 'Gold'` */
  predicate IsGold(p: Purchase)
  {
    p.itemType == Some("Gold")
  }

  /** `getAnalytics()` at the moment `now`. */
  function GetAnalytics(purchases: seq<Purchase>, now: Date): (r: Analytics)
    ensures r.count <= |purchases|
    ensures purchases == [] ==> r == Analytics(0.0, 0.0, 0)
    // no negative price or weight recorded: neither total is negative
    ensures (forall p :: p in purchases ==> PriceOrZero(p) >= 0.0) ==> r.totalSpentMonth >= 0.0
    ensures (forall p :: p in purchases ==> WeightOrZero(p) >= 0.0) ==> r.totalGramsMonth >= 0.0
  {
    var thisMonth := Filter(purchases, Since(StartOfMonth(now)));
    assert forall i :: 0 <= i < |thisMonth| ==> thisMonth[i] in purchases;
    assert forall i :: 0 <= i < |Filter(thisMonth, IsGold)| ==> Filter(thisMonth, IsGold)[i] in purchases;
    Analytics(Sum(thisMonth, PriceOrZero), Sum(Filter(thisMonth, IsGold), WeightOrZero), |thisMonth|)
  }

  /** The month window starts on the first of the current month and has
      no upper end: a purchase dated in a later month counts too. */
  lemma MonthWindowMeaning(p: Purchase, now: Date)
    ensures DatedFrom(p, StartOfMonth(now)) <==>
      p.date.Some? &&
      (p.date.value.year > now.year || (p.date.value.year == now.year && p.date.value.month >= now.month))
  {
  }

  /** The count is the number of purchases dated on or after the first of the month. */
  lemma AnalyticsCount(purchases: seq<Purchase>, now: Date)
    ensures GetAnalytics(purchases, now).count == Count(purchases, Since(StartOfMonth(now)))
  {
    FilterLength(purchases, Since(StartOfMonth(now)));
  }

  function MonthPrice(now: Date): Purchase -> real
  {
    p => if DatedFrom(p, StartOfMonth(now)) then PriceOrZero(p) else 0.0
  }

  function MonthGoldWeight(now: Date): Purchase -> real
  {
    p => if DatedFrom(p, StartOfMonth(now)) && IsGold(p) then WeightOrZero(p) else 0.0
  }

  /** Spent sums the prices of the month's purchases; grams sums the
      weights of the month's Gold purchases only. */
  lemma AnalyticsSums(purchases: seq<Purchase>, now: Date)
    ensures GetAnalytics(purchases, now).totalSpentMonth == Sum(purchases, MonthPrice(now))
    ensures GetAnalytics(purchases, now).totalGramsMonth == Sum(purchases, MonthGoldWeight(now))
  {
    var since := Since(StartOfMonth(now));
    var goldSince: Purchase -> bool := p => DatedFrom(p, StartOfMonth(now)) && IsGold(p);
    SumFilter(purchases, since, PriceOrZero, MonthPrice(now));
    FilterFilter(purchases, since, IsGold, goldSince);
    SumFilter(purchases, goldSince, WeightOrZero, MonthGoldWeight(now));
  }

  /** One more purchase changes the figures by its own contribution only:
      a purchase that is not Gold never adds grams. */
  lemma AnalyticsAddOne(purchases: seq<Purchase>, q: Purchase, now: Date)
    ensures var before, after := GetAnalytics(purchases, now), GetAnalytics(purchases + [q], now);
      && after.count == before.count + (if DatedFrom(q, StartOfMonth(now)) then 1 else 0)
      && after.totalSpentMonth == before.totalSpentMonth + MonthPrice(now)(q)
      && after.totalGramsMonth == before.totalGramsMonth + MonthGoldWeight(now)(q)
      && (!IsGold(q) ==> after.totalGramsMonth == before.totalGramsMonth)
  {
    var since := Since(StartOfMonth(now));
    FilterAppend(purchases, [q], since);
    AnalyticsSums(purchases, now);
    AnalyticsSums(purchases + [q], now);
    SumAppend(purchases, [q], MonthPrice(now));
    SumAppend(purchases, [q], MonthGoldWeight(now));
  }

  /** The current month's report never lists more purchases than the
      dashboard counts for the month. */
  lemma ReportWithinMonthCount(purchases: seq<Purchase>, now: Date)
    ensures |ReportRows(purchases, now.month, now.year)| <= GetAnalytics(purchases, now).count
  {
    FilterLength(purchases, InMonth(now.month, now.year));
    AnalyticsCount(purchases, now);
    CountMonotone(purchases, InMonth(now.month, now.year), Since(StartOfMonth(now)));
  }

  /** Two purchases this month priced 50 and 75 give a month total of 125
      over two transactions. */
  lemma TwoPurchasesThisMonth(a: Purchase, b: Purchase, now: Date)
    requires a.date == Some(now) && b.date == Some(now)
    requires a.price == Some(50.0) && b.price == Some(75.0)
    ensures GetAnalytics([a, b], now).totalSpentMonth == 125.0
    ensures GetAnalytics([a, b], now).count == 2
  {
    AnalyticsAddOne([a], b, now);
    AnalyticsAddOne([], a, now);
    assert [] + [a] == [a];
    assert [a] + [b] == [a, b];
  }
}
