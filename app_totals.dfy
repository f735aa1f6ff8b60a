/** The totals row under the table: column sums of the rows shown, the rates recomputed
    from those sums, and a blank marker for the columns that cannot be summed. */
module AppTotals {
  import opened JsText
  import opened AdTypes
  import opened Sorting
  import opened Seqs
  import AppAggregate
  import opened AppTable

  /** The columns the totals row adds up (besides the two that may be undefined). */
  datatype SumColumn =
    | Impressions | Clicks | Spend | Reach | LinkClicks | WebsitePurchases
    | ConversionValueColumn | NewMessagingConnections | MessagingConversationsStarted

  /** The fold state: nine sums, and the video and landing-page view sums, which become
      NaN (`None`) as soon as one row lacks the value. */
  datatype TableSums = TableSums(
    impressions: real, clicks: real, spend: real, reach: real, linkClicks: real,
    websitePurchases: real, videoViews: Option<real>, landingPageViews: Option<real>,
    conversionValue: real, newMessagingConnections: real, messagingConversationsStarted: real)

  const NoTableSums := TableSums(0.0, 0.0, 0.0, 0.0, 0.0, 0.0, Some(0.0), Some(0.0), 0.0, 0.0, 0.0)

  /** The value shown as '-' in the totals row. */
  const Excluded: real := -1.0

  function RowAmount(c: SumColumn, r: AdRow): real {
    match c
    case Impressions => r.impressions
    case Clicks => r.clicks
    case Spend => r.spend
    case Reach => r.reach
    case LinkClicks => r.linkClicks
    case WebsitePurchases => r.websitePurchases
    case ConversionValueColumn => r.conversionValue
    case NewMessagingConnections => r.newMessagingConnections
    case MessagingConversationsStarted => r.messagingConversationsStarted
  }

  function SumAmount(c: SumColumn, t: TableSums): real {
    match c
    case Impressions => t.impressions
    case Clicks => t.clicks
    case Spend => t.spend
    case Reach => t.reach
    case LinkClicks => t.linkClicks
    case WebsitePurchases => t.websitePurchases
    case ConversionValueColumn => t.conversionValue
    case NewMessagingConnections => t.newMessagingConnections
    case MessagingConversationsStarted => t.messagingConversationsStarted
  }

  function Amount(c: SumColumn): AdRow -> real {
    (r: AdRow) => RowAmount(c, r)
  }

  /** `a + b` where an undefined operand makes the sum NaN. */
  function AddDefined(a: Option<real>, b: Option<real>): Option<real> {
    if a.Some? && b.Some? then Some(a.value + b.value) else None
  }

  /** One step of the `reduce`. */
  function AddToSums(acc: TableSums, r: AdRow): TableSums {
    TableSums(
      acc.impressions + r.impressions, acc.clicks + r.clicks, acc.spend + r.spend,
      acc.reach + r.reach, acc.linkClicks + r.linkClicks, acc.websitePurchases + r.websitePurchases,
      AddDefined(acc.videoViews, r.videoViews), AddDefined(acc.landingPageViews, r.landingPageViews),
      acc.conversionValue + r.conversionValue, acc.newMessagingConnections + r.newMessagingConnections,
      acc.messagingConversationsStarted + r.messagingConversationsStarted)
  }

  /** The `reduce` over the rows shown, left to right. */
  function TableSumsOf(rows: seq<AdRow>): TableSums {
    if rows == [] then NoTableSums else AddToSums(TableSumsOf(rows[..|rows| - 1]), rows[|rows| - 1])
  }

  /** The totals row. */
  datatype TotalsRow = TotalsRow(
    id: string, sums: TableSums,
    ctr: real, cpc: real, linkCtr: real, linkCpc: real, cpm: real, frequency: real, roas: real,
    costPerNewMessagingConnection: real,
    conversions: real, costPerResult: real, cpa: real, conversionRate: real,
    costPerPageEngagement: real)

  /** `tableTotals`: nothing for an empty table; otherwise the sums, the rates computed
      from them with 0 for a zero divisor, and the excluded columns marked. */
  function TableTotals(rows: seq<AdRow>): (t: Option<TotalsRow>)
    ensures t.None? <==> rows == []
    ensures t.Some? ==> t.value.id == "totals" && t.value.sums == TableSumsOf(rows)
    ensures t.Some? ==> var x := t.value;
      x.conversions == Excluded && x.costPerResult == Excluded && x.cpa == Excluded
      && x.conversionRate == Excluded && x.costPerPageEngagement == Excluded
  {
    if rows == [] then None
    else
      var s := TableSumsOf(rows);
      Some(TotalsRow(
        "totals", s,
        AppAggregate.Ratio(s.clicks, s.impressions) * 100.0,
        AppAggregate.Ratio(s.spend, s.clicks),
        AppAggregate.Ratio(s.linkClicks, s.impressions) * 100.0,
        AppAggregate.Ratio(s.spend, s.linkClicks),
        AppAggregate.Ratio(s.spend, s.impressions) * 1000.0,
        AppAggregate.Ratio(s.impressions, s.reach),
        AppAggregate.Ratio(s.conversionValue, s.spend),
        AppAggregate.Ratio(s.spend, s.newMessagingConnections),
        Excluded, Excluded, Excluded, Excluded, Excluded))
  }

  /** Each summed column of the totals is the sum of that column over the rows. */
  lemma {:induction false} TableSumsExact(rows: seq<AdRow>, c: SumColumn)
    ensures SumAmount(c, TableSumsOf(rows)) == Sum(rows, Amount(c))
    decreases |rows|
  {
    if rows != [] {
      TableSumsExact(rows[..|rows| - 1], c);
    }
  }

  /** The left-to-right sum of a value that may be undefined, NaN once one is. */
  function DefinedSum(rows: seq<AdRow>, g: AdRow -> Option<real>): Option<real> {
    if rows == [] then Some(0.0) else AddDefined(DefinedSum(rows[..|rows| - 1], g), g(rows[|rows| - 1]))
  }

  function ValueOrZero(g: AdRow -> Option<real>): AdRow -> real {
    (r: AdRow) => if g(r).Some? then g(r).value else 0.0
  }

  /** The sum is defined exactly when every value is, and then it is the plain sum. */
  lemma {:induction false} DefinedSumExact(rows: seq<AdRow>, g: AdRow -> Option<real>)
    ensures DefinedSum(rows, g).Some? <==> forall i :: 0 <= i < |rows| ==> g(rows[i]).Some?
    ensures DefinedSum(rows, g).Some? ==> DefinedSum(rows, g).value == Sum(rows, ValueOrZero(g))
    decreases |rows|
  {
    if rows != [] {
      var init := rows[..|rows| - 1];
      DefinedSumExact(init, g);
      assert forall i :: 0 <= i < |init| ==> init[i] == rows[i];
    }
  }

  function VideoViews(r: AdRow): Option<real> {
    r.videoViews
  }

  function LandingPageViews(r: AdRow): Option<real> {
    r.landingPageViews
  }

  lemma {:induction false} TableSumsOptional(rows: seq<AdRow>)
    ensures TableSumsOf(rows).videoViews == DefinedSum(rows, VideoViews)
    ensures TableSumsOf(rows).landingPageViews == DefinedSum(rows, LandingPageViews)
    decreases |rows|
  {
    if rows != [] {
      TableSumsOptional(rows[..|rows| - 1]);
    }
  }

  /** The video-view total is a number exactly when every row has video views, and is
      then their sum. */
  lemma VideoViewsTotal(rows: seq<AdRow>)
    ensures TableSumsOf(rows).videoViews.Some? <==> forall i :: 0 <= i < |rows| ==> rows[i].videoViews.Some?
    ensures TableSumsOf(rows).videoViews.Some? ==>
      TableSumsOf(rows).videoViews.value == Sum(rows, ValueOrZero(VideoViews))
  {
    TableSumsOptional(rows);
    DefinedSumExact(rows, VideoViews);
  }

  /** The same for landing-page views. */
  lemma LandingPageViewsTotal(rows: seq<AdRow>)
    ensures TableSumsOf(rows).landingPageViews.Some? <==> forall i :: 0 <= i < |rows| ==> rows[i].landingPageViews.Some?
    ensures TableSumsOf(rows).landingPageViews.Some? ==>
      TableSumsOf(rows).landingPageViews.value == Sum(rows, ValueOrZero(LandingPageViews))
  {
    TableSumsOptional(rows);
    DefinedSumExact(rows, LandingPageViews);
  }

  /** A defined-or-NaN sum does not depend on the order of the rows. */
  lemma DefinedSumPermutation(a: seq<AdRow>, b: seq<AdRow>, g: AdRow -> Option<real>)
    requires multiset(a) == multiset(b)
    ensures DefinedSum(a, g) == DefinedSum(b, g)
  {
    DefinedSumExact(a, g);
    DefinedSumExact(b, g);
    if forall i :: 0 <= i < |a| ==> g(a[i]).Some? {
      forall j | 0 <= j < |b| ensures g(b[j]).Some? {
        assert b[j] in multiset(a);
      }
      SumPermutation(a, b, ValueOrZero(g));
    } else {
      var i :| 0 <= i < |a| && g(a[i]).None?;
      assert a[i] in multiset(b);
      var j :| 0 <= j < |b| && b[j] == a[i];
    }
  }

  lemma ColumnPermutation(a: seq<AdRow>, b: seq<AdRow>, c: SumColumn)
    requires multiset(a) == multiset(b)
    ensures SumAmount(c, TableSumsOf(a)) == SumAmount(c, TableSumsOf(b))
  {
    TableSumsExact(a, c);
    TableSumsExact(b, c);
    SumPermutation(a, b, Amount(c));
  }

  lemma CountedSumsPermutation(a: seq<AdRow>, b: seq<AdRow>)
    requires multiset(a) == multiset(b)
    ensures var x, y := TableSumsOf(a), TableSumsOf(b);
      x.impressions == y.impressions && x.clicks == y.clicks && x.spend == y.spend
      && x.reach == y.reach && x.linkClicks == y.linkClicks && x.websitePurchases == y.websitePurchases
  {
    ColumnPermutation(a, b, Impressions);
    ColumnPermutation(a, b, Clicks);
    ColumnPermutation(a, b, Spend);
    ColumnPermutation(a, b, Reach);
    ColumnPermutation(a, b, LinkClicks);
    ColumnPermutation(a, b, WebsitePurchases);
  }

  /** The sums do not depend on the order of the rows. */
  lemma TableSumsPermutation(a: seq<AdRow>, b: seq<AdRow>)
    requires multiset(a) == multiset(b)
    ensures TableSumsOf(a) == TableSumsOf(b)
  {
    TableSumsOptional(a);
    TableSumsOptional(b);
    DefinedSumPermutation(a, b, VideoViews);
    DefinedSumPermutation(a, b, LandingPageViews);
    CountedSumsPermutation(a, b);
    ColumnPermutation(a, b, ConversionValueColumn);
    ColumnPermutation(a, b, NewMessagingConnections);
    ColumnPermutation(a, b, MessagingConversationsStarted);
  }

  /** Nor does the totals row. */
  lemma TableTotalsPermutation(a: seq<AdRow>, b: seq<AdRow>)
    requires multiset(a) == multiset(b)
    ensures TableTotals(a) == TableTotals(b)
  {
    TableSumsPermutation(a, b);
    if a == [] {
      assert |b| == |multiset(b)| == 0;
    } else {
      assert |b| == |multiset(b)| == |a| > 0;
    }
  }

  /** The rates of the totals row are the ratios of its sums. */
  lemma TotalsRates(rows: seq<AdRow>)
    requires rows != []
    ensures var t := TableTotals(rows).value; var s := t.sums;
      (s.impressions != 0.0 ==>
         t.ctr * s.impressions == s.clicks * 100.0 && t.linkCtr * s.impressions == s.linkClicks * 100.0
         && t.cpm * s.impressions == s.spend * 1000.0)
      && (s.impressions == 0.0 ==> t.ctr == 0.0 && t.linkCtr == 0.0 && t.cpm == 0.0)
      && (s.clicks != 0.0 ==> t.cpc * s.clicks == s.spend)
      && (s.linkClicks != 0.0 ==> t.linkCpc * s.linkClicks == s.spend)
      && (s.reach != 0.0 ==> t.frequency * s.reach == s.impressions)
      && (s.spend != 0.0 ==> t.roas * s.spend == s.conversionValue)
      && (s.newMessagingConnections != 0.0 ==> t.costPerNewMessagingConnection * s.newMessagingConnections == s.spend)
      && (s.clicks == 0.0 ==> t.cpc == 0.0) && (s.linkClicks == 0.0 ==> t.linkCpc == 0.0)
      && (s.reach == 0.0 ==> t.frequency == 0.0) && (s.spend == 0.0 ==> t.roas == 0.0)
      && (s.newMessagingConnections == 0.0 ==> t.costPerNewMessagingConnection == 0.0)
  {
    var s := TableSumsOf(rows);
    var q1 := AppAggregate.Ratio(s.clicks, s.impressions);
    var q2 := AppAggregate.Ratio(s.linkClicks, s.impressions);
    var q3 := AppAggregate.Ratio(s.spend, s.impressions);
    assert s.impressions != 0.0 ==> q1 * 100.0 * s.impressions == (q1 * s.impressions) * 100.0;
    assert s.impressions != 0.0 ==> q2 * 100.0 * s.impressions == (q2 * s.impressions) * 100.0;
    assert s.impressions != 0.0 ==> q3 * 1000.0 * s.impressions == (q3 * s.impressions) * 1000.0;
  }

  /** The totals of the table do not depend on the sort: they are those of the filtered rows
      in project order. */
  lemma TotalsIgnoreSort(rows: seq<AdRow>, tab: AppAggregate.Tab, f: StatusFilter, q: string, cfg: Option<SortConfig>,
                         before: (string, string) -> bool)
    ensures TableTotals(Visible(rows, tab, f, q, cfg, before)) == TableTotals(Filter(rows, KeepTest(tab, f, q)))
  {
    TableTotalsPermutation(Visible(rows, tab, f, q, cfg, before), Filter(rows, KeepTest(tab, f, q)));
  }
}
