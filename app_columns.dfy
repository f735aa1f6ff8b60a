/** The table's column catalogue, the report presets, and the order in which the chosen
    columns are laid out. */
module AppColumns {
  import opened AdTypes
  import opened Sorting

  /** Every column the table can show, in display order (widths are left out). */
  const AvailableColumns: seq<ColumnDef> := [
    ColumnDef("campaignName", "行銷活動名稱", TextColumn),
    ColumnDef("imageUrl", "素材預覽", ImageColumn),
    ColumnDef("name", "名稱", TextColumn),
    ColumnDef("status", "投遞狀態", TextColumn),
    ColumnDef("budget", "預算", CurrencyColumn),
    ColumnDef("impressions", "曝光次數", NumberColumn),
    ColumnDef("reach", "觸及人數", NumberColumn),
    ColumnDef("clicks", "點擊次數 (全部)", NumberColumn),
    ColumnDef("ctr", "CTR (全部)", PercentColumn),
    ColumnDef("cpc", "CPC (全部)", CurrencyColumn),
    ColumnDef("linkClicks", "連結點擊", NumberColumn),
    ColumnDef("linkCtr", "連結 CTR", PercentColumn),
    ColumnDef("linkCpc", "連結 CPC", CurrencyColumn),
    ColumnDef("landingPageViews", "頁面瀏覽", NumberColumn),
    ColumnDef("videoViews", "影片觀看(3秒)", NumberColumn),
    ColumnDef("spend", "花費金額", CurrencyColumn),
    ColumnDef("conversions", "成果", NumberColumn),
    ColumnDef("costPerResult", "每次成果成本", CurrencyColumn),
    ColumnDef("cpm", "CPM", CurrencyColumn),
    ColumnDef("frequency", "頻率", NumberColumn),
    ColumnDef("costPerPageEngagement", "每次粉絲專頁互動成本", CurrencyColumn),
    ColumnDef("newMessagingConnections", "新的訊息聯繫對象", NumberColumn),
    ColumnDef("costPerNewMessagingConnection", "每位新訊息聯繫對象成本", CurrencyColumn),
    ColumnDef("messagingConversationsStarted", "訊息對話開始次數", NumberColumn),
    ColumnDef("websitePurchases", "網站購買", NumberColumn),
    ColumnDef("cpa", "CPA", CurrencyColumn),
    ColumnDef("conversionRate", "轉換率", PercentColumn),
    ColumnDef("roas", "ROAS", NumberColumn)
  ]

  /** The columns of the age and gender reports. */
  const DemoColumns: seq<string> := [
    "campaignName", "name", "clicks", "impressions", "ctr", "cpc",
    "linkClicks", "linkCtr", "linkCpc", "websitePurchases", "cpa", "conversionRate", "spend"
  ]

  /** The columns of the demographic breakdown table, after its name column. */
  const DemoTableColumns: seq<ColumnDef> := [
    ColumnDef("clicks", "點擊次數", NumberColumn),
    ColumnDef("impressions", "曝光次數", NumberColumn),
    ColumnDef("ctr", "CTR", PercentColumn),
    ColumnDef("cpc", "CPC", CurrencyColumn),
    ColumnDef("linkClicks", "連結點擊", NumberColumn),
    ColumnDef("linkCtr", "連結CTR", PercentColumn),
    ColumnDef("linkCpc", "連結CPC", CurrencyColumn),
    ColumnDef("websitePurchases", "網站購買", NumberColumn),
    ColumnDef("cpa", "CPA", CurrencyColumn),
    ColumnDef("conversionRate", "轉換率", PercentColumn),
    ColumnDef("spend", "花費金額", CurrencyColumn)
  ]

  datatype Preset = Preset(id: string, name: string, columns: seq<string>)

  const CampaignReport := Preset("campaign_report", "廣告活動報表", [
    "name", "status", "reach", "clicks", "impressions", "ctr", "cpc",
    "linkClicks", "linkCtr", "linkCpc", "conversions", "costPerResult", "cpa", "conversionRate", "spend"])

  const AudienceReport := Preset("audience_report", "受眾/組合報表", [
    "campaignName", "name", "status", "clicks", "impressions", "ctr", "cpc",
    "linkClicks", "linkCtr", "linkCpc", "websitePurchases", "cpa", "conversionRate", "spend"])

  const CreativeReport := Preset("creative_report", "素材/廣告報表", [
    "campaignName", "imageUrl", "name", "clicks", "impressions", "ctr", "cpc",
    "linkClicks", "linkCtr", "linkCpc", "websitePurchases", "cpa", "conversionRate", "spend"])

  const AgeReport := Preset("age_report", "年齡分佈報表", DemoColumns)

  const GenderReport := Preset("gender_report", "性別分佈報表", DemoColumns)

  const YangyuDefault := Preset("yangyu_default", "秧語預設", [
    "name", "status", "budget", "impressions", "reach", "clicks", "ctr", "cpc",
    "linkClicks", "linkCtr", "linkCpc", "spend", "conversions", "costPerResult",
    "costPerPageEngagement", "cpm", "frequency", "newMessagingConnections",
    "costPerNewMessagingConnection", "messagingConversationsStarted"])

  /** The built-in report presets, in menu order. */
  const DefaultPresets: seq<Preset> :=
    [CampaignReport, AudienceReport, CreativeReport, AgeReport, GenderReport, YangyuDefault]

  /** `cols.findIndex(c => c.id === id)`: the first position of the id, -1 when absent. */
  function ColumnIndexIn(cols: seq<ColumnDef>, id: string): (i: int)
    ensures -1 <= i < |cols|
    ensures i == -1 <==> forall k :: 0 <= k < |cols| ==> cols[k].id != id
    ensures i >= 0 ==> cols[i].id == id && forall k :: 0 <= k < i ==> cols[k].id != id
  {
    if cols == [] then -1
    else if cols[0].id == id then 0
    else
      var i := ColumnIndexIn(cols[1..], id);
      if i == -1 then -1 else i + 1
  }

  /** The layout comparator over a catalogue: catalogue positions subtracted, and a column
      missing from the catalogue pushed back (checked for the first operand before the
      second). */
  function ColumnCompare(cols: seq<ColumnDef>, a: string, b: string): int {
    var ia, ib := ColumnIndexIn(cols, a), ColumnIndexIn(cols, b);
    if ia != -1 && ib != -1 then ia - ib
    else if ia == -1 then 1
    else if ib == -1 then -1
    else 0
  }

  function ColumnOrder(cols: seq<ColumnDef>): (string, string) -> bool {
    (a: string, b: string) => ColumnCompare(cols, a, b) <= 0
  }

  function KnownIn(cols: seq<ColumnDef>): string -> bool {
    (id: string) => ColumnIndexIn(cols, id) != -1
  }

  /** `sortedVisibleColumns`: a sorted copy of the chosen columns. */
  function SortedVisibleColumns(visible: seq<string>): seq<string> {
    SortBy(visible, ColumnOrder(AvailableColumns))
  }

  lemma ColumnOrderSplits(cols: seq<ColumnDef>)
    ensures SplitsAt(ColumnOrder(cols), Everything, KnownIn(cols))
    ensures PreorderOn(ColumnOrder(cols), Everything, KnownIn(cols))
  {
  }

  /** Laid out against any catalogue, the chosen columns are kept, every catalogue column
      comes before any unknown one, and the catalogue columns follow the catalogue. */
  lemma LayoutAgainst(cols: seq<ColumnDef>, visible: seq<string>)
    ensures var r := SortBy(visible, ColumnOrder(cols));
      multiset(r) == multiset(visible)
      && Partitioned(r, KnownIn(cols))
      && forall i, j :: 0 <= i < j < |r| && KnownIn(cols)(r[i]) && KnownIn(cols)(r[j])
           ==> ColumnIndexIn(cols, r[i]) <= ColumnIndexIn(cols, r[j])
               && (r[i] != r[j] ==> ColumnIndexIn(cols, r[i]) < ColumnIndexIn(cols, r[j]))
  {
    ColumnOrderSplits(cols);
    SortBySortedOn(visible, ColumnOrder(cols), Everything, KnownIn(cols));
    var r := SortBy(visible, ColumnOrder(cols));
    forall i, j | 0 <= i < j < |r| && KnownIn(cols)(r[i]) && KnownIn(cols)(r[j])
      ensures ColumnIndexIn(cols, r[i]) <= ColumnIndexIn(cols, r[j])
              && (r[i] != r[j] ==> ColumnIndexIn(cols, r[i]) < ColumnIndexIn(cols, r[j]))
    {
      assert ColumnOrder(cols)(r[i], r[j]);
    }
  }

  /** The table's layout: the chosen columns, catalogue columns first and in catalogue
      order. */
  lemma SortedVisibleColumnsLayout(visible: seq<string>)
    ensures var r := SortedVisibleColumns(visible); var known := KnownIn(AvailableColumns);
      multiset(r) == multiset(visible)
      && Partitioned(r, known)
      && forall i, j :: 0 <= i < j < |r| && known(r[i]) && known(r[j])
           ==> ColumnIndexIn(AvailableColumns, r[i]) < ColumnIndexIn(AvailableColumns, r[j]) || r[i] == r[j]
  {
    LayoutAgainst(AvailableColumns, visible);
  }
}
