/** The CSV importer (services/dataService.ts): currency cleanup, platform detection from the
    header row, image discovery and the normalisation of every parsed row into an `AdRow`.
    A parsed row is the list of its (column, text) pairs in column order, as the CSV parser
    produces them with `header: true`; a column the row lacks reads as undefined. */
module CsvData {
  import opened JsText
  import opened JsNumber
  import opened AdTypes

  type RawRow = seq<(string, string)>

  // ---------------------------------------------------------------------------
  // parseCurrency
  // ---------------------------------------------------------------------------

  predicate IsNumeric(c: char) {
    IsDigit(c) || c == '.' || c == '-'
  }

  /** `String(val).replace(/[^0-9.-]+/g, '')`: the digits, points and minus signs, in order. */
  function KeepNumeric(s: string): (r: string)
    ensures |r| <= |s|
    ensures forall i :: 0 <= i < |r| ==> IsNumeric(r[i])
    ensures (forall i :: 0 <= i < |s| ==> IsNumeric(s[i])) ==> r == s
  {
    if s == "" then ""
    else (if IsNumeric(s[0]) then [s[0]] else []) + KeepNumeric(s[1..])
  }

  /** `parseCurrency(val)`: a number passes through, a falsy value is 0, anything else is
      cleaned of every character but digits, '.' and '-' and read with `parseFloat(..) || 0`.
      An array is not a value the importer passes. */
  function ParseCurrency(val: JsValue): (n: real)
    ensures val.JsNumber? ==> n == val.num
    ensures val == JsUndefined || val == JsString("") || val == JsNumber(0.0) ==> n == 0.0
    ensures val.JsString? && val.str != "" ==> n == ParseFloatOr0(KeepNumeric(val.str))
  {
    match val
    case JsNumber(x) => x
    case JsString(s) => if s == "" then 0.0 else ParseFloatOr0(KeepNumeric(s))
    case _ => 0.0
  }

  lemma KeepNumericOfDollars()
    ensures KeepNumeric("$9.5") == "9.5"
  {
  }

  lemma KeepNumericOfTaiwanDollars()
    ensures KeepNumeric("NT$1,234") == "1234"
  {
    assert KeepNumeric("1,234") == "1234";
  }

  lemma ParseFloatOfInteger()
    ensures ParseFloatPrefix("1234") == Some(1234.0)
  {
    var a := "1234";
    assert SkipSpaces(a, 0) == 0;
    assert DigitRun(a, 0) == 4 by {
      assert DigitRun(a, 4) == 0;
    }
    assert a[0..4] == a;
    assert DecimalValue("1234") == 1234 by {
      assert "1234"[..3] == "123" && "123"[..2] == "12" && "12"[..1] == "1" && "1"[..0] == "";
    }
    assert MantissaAt(a, 0) == Mantissa(4, 4, 1234.0);
    assert ExponentAt(a, 4) == 0;
  }

  lemma ParseFloatOfDecimal()
    ensures ParseFloatPrefix("9.5") == Some(9.5)
  {
    var a := "9.5";
    assert SkipSpaces(a, 0) == 0;
    assert DigitRun(a, 0) == 1 by {
      assert DigitRun(a, 1) == 0;
    }
    assert DigitRun(a, 2) == 1 by {
      assert DigitRun(a, 3) == 0;
    }
    assert a[0..1] == "9" && a[2..3] == "5";
    assert ScaleByPowerOfTen(5.0, -1) == 0.5;
    assert MantissaAt(a, 0) == Mantissa(3, 2, 9.5);
    assert ExponentAt(a, 3) == 0;
  }

  lemma ParseCurrencyThrough(s: string, t: string, v: real)
    requires s != "" && KeepNumeric(s) == t && ParseFloatPrefix(t) == Some(v)
    ensures ParseCurrency(JsString(s)) == v
  {
  }

  /** Thousands separators and currency marks are dropped before reading. */
  lemma ParseCurrencyOfFormattedAmount()
    ensures ParseCurrency(JsString("$9.5")) == 9.5
    ensures ParseCurrency(JsString("NT$1,234")) == 1234.0
  {
    KeepNumericOfDollars();
    KeepNumericOfTaiwanDollars();
    ParseFloatOfDecimal();
    ParseFloatOfInteger();
    ParseCurrencyThrough("$9.5", "9.5", 9.5);
    ParseCurrencyThrough("NT$1,234", "1234", 1234.0);
  }

  /** Cleaning keeps only characters of the text, so it adds no digit. */
  lemma {:induction false} KeepNumericAddsNoDigit(s: string)
    requires forall i :: 0 <= i < |s| ==> !IsDigit(s[i])
    ensures forall i :: 0 <= i < |KeepNumeric(s)| ==> !IsDigit(KeepNumeric(s)[i])
  {
    if s != "" {
      KeepNumericAddsNoDigit(s[1..]);
    }
  }

  /** A text with no digit at all, such as "N/A" or "--", reads as 0. */
  lemma ParseCurrencyOfNonNumber(s: string)
    requires forall i :: 0 <= i < |s| ==> !IsDigit(s[i])
    ensures ParseCurrency(JsString(s)) == 0.0
  {
    if s != "" {
      KeepNumericAddsNoDigit(s);
      ParseFloatOfNoDigits(KeepNumeric(s));
    }
  }

  // ---------------------------------------------------------------------------
  // Cells
  // ---------------------------------------------------------------------------

  /** `row[k1] || row[k2] || ...`: the first non-empty cell among the aliases, `None` when
      every alias is missing or empty. */
  function FirstCell(row: RawRow, keys: seq<string>): (r: Option<string>)
    ensures r.Some? ==> Truthy(r) && exists i :: 0 <= i < |keys| && Lookup(row, keys[i]) == r
    ensures r.None? <==> forall i :: 0 <= i < |keys| ==> !Truthy(Lookup(row, keys[i]))
  {
    if keys == [] then None
    else if Truthy(Lookup(row, keys[0])) then Lookup(row, keys[0])
    else
      var r := FirstCell(row, keys[1..]);
      assert forall i :: 1 <= i < |keys| ==> keys[1..][i - 1] == keys[i];
      r
  }

  /** The first non-empty alias wins over every later one. */
  lemma {:induction false} FirstCellIsFirst(row: RawRow, keys: seq<string>, i: nat)
    requires i < |keys| && Truthy(Lookup(row, keys[i]))
    requires forall j :: 0 <= j < i ==> !Truthy(Lookup(row, keys[j]))
    ensures FirstCell(row, keys) == Lookup(row, keys[i])
  {
    if i > 0 {
      assert keys[1..][i - 1] == keys[i];
      forall j | 0 <= j < i - 1 ensures !Truthy(Lookup(row, keys[1..][j])) {
        assert keys[1..][j] == keys[j + 1];
      }
      FirstCellIsFirst(row, keys[1..], i - 1);
    }
  }

  /** `parseCurrency(row[k1] || row[k2] || ... )`. */
  function CurrencyOf(row: RawRow, keys: seq<string>): real {
    var c := FirstCell(row, keys);
    if c.Some? then ParseCurrency(JsString(c.value)) else 0.0
  }

  // ---------------------------------------------------------------------------
  // detectPlatform
  // ---------------------------------------------------------------------------

  const MetaMarkers: seq<string> := ["ad set name", "delivery status", "廣告組合名稱", "行銷活動投遞", "age", "gender", "年齡"]
  const GoogleMarkers: seq<string> := ["ad group", "interaction rate", "廣告群組"]

  /** Some marker is one of the (lowered) headers. */
  function IncludesAny(h: seq<string>, markers: seq<string>): (b: bool)
    ensures b <==> exists k :: 0 <= k < |markers| && markers[k] in h
  {
    if markers == [] then false
    else if markers[0] in h then true
    else
      var b := IncludesAny(h, markers[1..]);
      assert forall k :: 1 <= k < |markers| ==> markers[1..][k - 1] == markers[k];
      b
  }

  function Lowered(headers: seq<string>): (h: seq<string>)
    ensures |h| == |headers| && forall i :: 0 <= i < |headers| ==> h[i] == ToLower(headers[i])
  {
    seq(|headers|, i requires 0 <= i < |headers| => ToLower(headers[i]))
  }

  /** A header is a marker when its lower-cased text equals that marker. */
  ghost predicate HasMarker(headers: seq<string>, markers: seq<string>) {
    exists i, k :: 0 <= i < |headers| && 0 <= k < |markers| && ToLower(headers[i]) == markers[k]
  }

  /** `detectPlatform(headers)`: Meta markers first, then Google markers. */
  function DetectPlatform(headers: seq<string>): (p: Platform)
    ensures p == Meta <==> HasMarker(headers, MetaMarkers)
    ensures p == Google <==> !HasMarker(headers, MetaMarkers) && HasMarker(headers, GoogleMarkers)
    ensures p == UnknownPlatform <==> !HasMarker(headers, MetaMarkers) && !HasMarker(headers, GoogleMarkers)
  {
    var h := Lowered(headers);
    if IncludesAny(h, MetaMarkers) then Meta
    else if IncludesAny(h, GoogleMarkers) then Google
    else UnknownPlatform
  }

  // ---------------------------------------------------------------------------
  // findImageUrl
  // ---------------------------------------------------------------------------

  const ImageKeys: seq<string> := ["Image URL", "Ad Image URL", "Preview Link", "Thumbnail", "Image", "圖片連結", "影像連結", "預覽連結", "素材連結"]

  predicate IsHttp(v: Option<string>) {
    v.Some? && StartsWith(v.value, "http")
  }

  /** The lowered column name mentions an image, a URL or a link. */
  predicate ImageHint(key: string) {
    var k := ToLower(key);
    Contains(k, "image") || Contains(k, "url") || Contains(k, "link") || Contains(k, "圖片")
  }

  /** The first of `keys` whose cell starts with "http". */
  function CandidateImage(row: RawRow, keys: seq<string>): (r: Option<string>)
    ensures r.Some? ==> StartsWith(r.value, "http") && exists i :: 0 <= i < |keys| && Lookup(row, keys[i]) == r
    ensures r.None? <==> forall i :: 0 <= i < |keys| ==> !IsHttp(Lookup(row, keys[i]))
  {
    if keys == [] then None
    else if IsHttp(Lookup(row, keys[0])) then Lookup(row, keys[0])
    else
      var r := CandidateImage(row, keys[1..]);
      assert forall i :: 1 <= i < |keys| ==> keys[1..][i - 1] == keys[i];
      r
  }

  function KeysOf(row: RawRow): (ks: seq<string>)
    ensures |ks| == |row| && forall i :: 0 <= i < |row| ==> ks[i] == row[i].0
  {
    seq(|row|, i requires 0 <= i < |row| => row[i].0)
  }

  /** The first of `keys` with an image hint whose cell starts with "http". */
  function ScanImage(row: RawRow, keys: seq<string>): (r: Option<string>)
    ensures r.Some? ==> StartsWith(r.value, "http") && exists i :: 0 <= i < |keys| && ImageHint(keys[i]) && Lookup(row, keys[i]) == r
    ensures r.None? <==> forall i :: 0 <= i < |keys| ==> !(ImageHint(keys[i]) && IsHttp(Lookup(row, keys[i])))
  {
    if keys == [] then None
    else if ImageHint(keys[0]) && IsHttp(Lookup(row, keys[0])) then Lookup(row, keys[0])
    else
      var r := ScanImage(row, keys[1..]);
      assert forall i :: 1 <= i < |keys| ==> keys[1..][i - 1] == keys[i];
      r
  }

  /** The image URL of a row: a fixed column first, else any hinted column in column order. */
  function ImageUrlOf(row: RawRow): (r: Option<string>)
    ensures r.Some? ==> StartsWith(r.value, "http")
    ensures CandidateImage(row, ImageKeys).Some? ==> r == CandidateImage(row, ImageKeys)
    ensures r.None? <==> CandidateImage(row, ImageKeys).None? && ScanImage(row, KeysOf(row)).None?
  {
    var c := CandidateImage(row, ImageKeys);
    if c.Some? then c else ScanImage(row, KeysOf(row))
  }

  /** The first loop of `findImageUrl`: the fixed columns, in order. */
  method FirstHttpCell(row: RawRow, keys: seq<string>) returns (r: Option<string>)
    ensures r == CandidateImage(row, keys)
  {
    var i := 0;
    while i < |keys|
      invariant i <= |keys|
      invariant CandidateImage(row, keys) == CandidateImage(row, keys[i..])
    {
      var v := Lookup(row, keys[i]);
      if Truthy(v) && StartsWith(v.value, "http") {
        return v;
      }
      assert keys[i..][1..] == keys[i + 1..];
      i := i + 1;
    }
    return None;
  }

  /** The second loop of `findImageUrl`: every column, in order. */
  method ScanHintedCells(row: RawRow, keys: seq<string>) returns (r: Option<string>)
    ensures r == ScanImage(row, keys)
  {
    var j := 0;
    while j < |keys|
      invariant j <= |keys|
      invariant ScanImage(row, keys) == ScanImage(row, keys[j..])
    {
      var k := keys[j];
      var v := Lookup(row, k);
      if ImageHint(k) && v.Some? && StartsWith(v.value, "http") {
        return v;
      }
      assert keys[j..][1..] == keys[j + 1..];
      j := j + 1;
    }
    return None;
  }

  /** `findImageUrl(row)`: the fixed columns, then the scan over `Object.keys(row)`. */
  method FindImageUrl(row: RawRow) returns (r: Option<string>)
    ensures r == ImageUrlOf(row)
  {
    r := FirstHttpCell(row, ImageKeys);
    if r.None? {
      r := ScanHintedCells(row, KeysOf(row));
    }
  }

  // ---------------------------------------------------------------------------
  // Level and name
  // ---------------------------------------------------------------------------

  const DemoKeys: seq<string> := ["Age", "Gender", "年齡", "性別"]
  const CreativeKeys: seq<string> := ["Creative Name", "素材名稱", "Headline", "標題"]
  const AdKeys: seq<string> := ["Ad Name", "廣告名稱", "Ad", "廣告標題"]
  const AdSetKeys: seq<string> := ["Ad Set Name", "廣告組合名稱", "Ad group", "廣告群組"]
  const CampaignKeys: seq<string> := ["Campaign Name", "行銷活動名稱", "Campaign", "廣告活動"]

  /** `${age} ${gender}`.trim(), each part the first non-empty alias or ''. */
  function DemoLabel(row: RawRow): string {
    Trim(OrElse(FirstCell(row, ["Age", "年齡"]), "") + " " + OrElse(FirstCell(row, ["Gender", "性別"]), ""))
  }

  /** First match of the level tests, in the order demographics, creative (an image found in
      the row counts), ad, ad set, campaign; a row matching none is a campaign called
      'Unknown'. */
  ghost predicate LevelRule(row: RawRow, imageUrl: Option<string>, idx: nat, level: Level, name: string) {
    var demo := FirstCell(row, DemoKeys).Some?;
    var creative := FirstCell(row, CreativeKeys).Some? || Truthy(imageUrl);
    var ad := FirstCell(row, AdKeys).Some?;
    var adSet := FirstCell(row, AdSetKeys).Some?;
    && (level == Demographics <==> demo)
    && (level == Creative <==> !demo && creative)
    && (level == Ad <==> !demo && !creative && ad)
    && (level == AdSet <==> !demo && !creative && !ad && adSet)
    && (level == Campaign <==> !demo && !creative && !ad && !adSet)
    && (level == Demographics ==> name == if DemoLabel(row) != "" then DemoLabel(row) else "Demo Row " + NatToString(idx))
    && (level == Creative ==> name == OrElse(FirstCell(row, CreativeKeys), "Creative " + NatToString(idx)))
    && (level == Ad ==> FirstCell(row, AdKeys) == Some(name))
    && (level == AdSet ==> FirstCell(row, AdSetKeys) == Some(name))
    && (level == Campaign ==> name == OrElse(FirstCell(row, CampaignKeys), "Unknown"))
  }

  // ---------------------------------------------------------------------------
  // Platform columns
  // ---------------------------------------------------------------------------

  /** The values the platform branch assigns. */
  datatype Columns = Columns(
    status: string, campaignName: string, adGroupName: string,
    impressions: real, clicks: real, spend: real, conversions: real, conversionValue: real,
    reach: real, linkClicks: real, websitePurchases: real, cpm: real, frequency: real,
    costPerResult: real, budget: real, costPerPageEngagement: real, newMessagingConnections: real,
    costPerNewMessagingConnection: real, messagingConversationsStarted: real)

  /** The Meta export's column aliases, English and Chinese; the '(TWD)' in several of them is
      part of the header text. */
  function MetaColumns(row: RawRow): Columns {
    Columns(
      status := OrElse(FirstCell(row, ["Delivery Status", "Delivery", "行銷活動投遞", "廣告組合投遞", "投遞狀態", "投遞狀況"]), "Unknown"),
      campaignName := OrElse(FirstCell(row, ["Campaign Name", "行銷活動名稱"]), ""),
      adGroupName := OrElse(FirstCell(row, ["Ad Set Name", "廣告組合名稱"]), ""),
      impressions := CurrencyOf(row, ["Impressions", "曝光次數"]),
      clicks := CurrencyOf(row, ["Clicks (All)", "點擊次數（全部）", "Clicks", "點擊次數"]),
      spend := CurrencyOf(row, ["Amount Spent (TWD)", "Amount Spent", "Cost", "花費金額 (TWD)", "花費金額"]),
      conversions := CurrencyOf(row, ["Results", "成果", "Purchases"]),
      conversionValue := CurrencyOf(row, ["Purchase Conversion Value", "總轉換價值"]),
      reach := CurrencyOf(row, ["Reach", "觸及人數"]),
      linkClicks := CurrencyOf(row, ["Link Clicks", "連結點擊次數"]),
      websitePurchases := CurrencyOf(row, ["Website Purchases", "網站購買", "Purchases"]),
      cpm := CurrencyOf(row, ["CPM (Cost per 1,000 Impressions) (TWD)", "CPM（每千次廣告曝光成本） (TWD)", "CPM", "CPM (Cost per 1,000 Impressions)"]),
      frequency := CurrencyOf(row, ["Frequency", "頻率"]),
      costPerResult := CurrencyOf(row, ["Cost per Result", "每次成果成本", "CPR"]),
      budget := CurrencyOf(row, ["廣告組合預算", "Budget"]),
      costPerPageEngagement := CurrencyOf(row, ["每次粉絲專頁互動成本 (TWD)", "Cost per Page Engagement"]),
      newMessagingConnections := CurrencyOf(row, ["新的訊息聯繫對象", "New Messaging Connections"]),
      costPerNewMessagingConnection := CurrencyOf(row, ["每位新訊息聯繫對象成本", "Cost per New Messaging Connection", " (TWD)"]),
      messagingConversationsStarted := CurrencyOf(row, ["訊息對話開始次數", "Messaging Conversations Started"]))
  }

  /** Every other platform reads the Google Ads columns: no link clicks, reach, frequency or
      CPM columns, so those come from the counts; the messaging fields stay 0. */
  function OtherColumns(row: RawRow): (c: Columns)
    ensures c.linkClicks == c.clicks && c.reach == c.impressions && c.frequency == 1.0
    ensures c.cpm == RatioIfPositive(c.spend, c.impressions) * 1000.0
    ensures c.costPerResult == RatioIfPositive(c.spend, c.conversions)
    ensures c.websitePurchases == 0.0 && c.costPerPageEngagement == 0.0 && c.newMessagingConnections == 0.0
    ensures c.costPerNewMessagingConnection == 0.0 && c.messagingConversationsStarted == 0.0
  {
    var impressions := CurrencyOf(row, ["Impressions", "曝光"]);
    var clicks := CurrencyOf(row, ["Clicks", "點擊"]);
    var spend := CurrencyOf(row, ["Cost", "費用"]);
    var conversions := CurrencyOf(row, ["Conversions", "轉換"]);
    Columns(
      status := OrElse(FirstCell(row, ["Campaign state", "Ad group state", "Status", "廣告活動狀態", "廣告群組狀態"]), "Unknown"),
      campaignName := OrElse(FirstCell(row, ["Campaign", "廣告活動"]), ""),
      adGroupName := OrElse(FirstCell(row, ["Ad group", "廣告群組"]), ""),
      impressions := impressions, clicks := clicks, spend := spend, conversions := conversions,
      conversionValue := CurrencyOf(row, ["Total conv. value", "總轉換價值"]),
      reach := impressions, linkClicks := clicks, websitePurchases := 0.0,
      cpm := if impressions > 0.0 then (spend / impressions) * 1000.0 else 0.0,
      frequency := 1.0,
      costPerResult := if conversions > 0.0 then spend / conversions else 0.0,
      budget := CurrencyOf(row, ["Budget", "預算"]),
      costPerPageEngagement := 0.0, newMessagingConnections := 0.0,
      costPerNewMessagingConnection := 0.0, messagingConversationsStarted := 0.0)
  }

  function PlatformColumns(platform: Platform, row: RawRow): Columns {
    if platform == Meta then MetaColumns(row) else OtherColumns(row)
  }

  // ---------------------------------------------------------------------------
  // The normalised row
  // ---------------------------------------------------------------------------

  /** `${platform}-${level}-${idx}`. */
  function RowId(platform: Platform, level: Level, idx: nat): string {
    PlatformName(platform) + "-" + LevelName(level) + "-" + NatToString(idx)
  }

  /** `conversions` if positive, else the website purchases. */
  function ConversionBasis(r: AdRow): real {
    if r.conversions > 0.0 then r.conversions else r.websitePurchases
  }

  /** The computed rates: every ratio guarded by its denominator, CPA and conversion rate on
      the conversion basis, and a zero cost per result replaced by the CPA. */
  ghost predicate RatesDerived(r: AdRow, costPerResult: real) {
    && RatesConsistent(r)
    && r.cpa == RatioIfPositive(r.spend, ConversionBasis(r))
    && r.conversionRate == RatioIfPositive(ConversionBasis(r), r.clicks) * 100.0
    && r.costPerResult == if costPerResult == 0.0 && ConversionBasis(r) > 0.0 then r.cpa else costPerResult
  }

  /** The counts and texts of the row are the platform columns. */
  ghost predicate ColumnsCopied(r: AdRow, c: Columns) {
    && r.status == c.status && r.campaignName == Some(c.campaignName) && r.adGroupName == Some(c.adGroupName)
    && r.impressions == c.impressions && r.clicks == c.clicks && r.spend == c.spend
    && r.conversions == c.conversions && r.conversionValue == c.conversionValue
    && r.reach == c.reach && r.linkClicks == c.linkClicks && r.websitePurchases == c.websitePurchases
    && r.cpm == c.cpm && r.frequency == c.frequency && r.budget == c.budget
    && r.costPerPageEngagement == c.costPerPageEngagement && r.newMessagingConnections == c.newMessagingConnections
    && r.costPerNewMessagingConnection == c.costPerNewMessagingConnection
    && r.messagingConversationsStarted == c.messagingConversationsStarted
  }

  /** What the record built at the end of the callback holds, given the platform columns
      `c` and the image found: id, counts, derived rates, the raw columns spread last. */
  ghost predicate BuiltFrom(platform: Platform, idx: nat, c: Columns, imageUrl: Option<string>, row: RawRow, r: AdRow) {
    && r.platform == platform
    && r.id == RowId(platform, r.level, idx)
    && ColumnsCopied(r, c)
    && RatesDerived(r, c.costPerResult)
    && r.imageUrl == imageUrl
    && r.extra == row
    && r.originalId.None? && r.videoViews.None? && r.landingPageViews.None? && r.age.None? && r.gender.None?
    && r.resultType.None? && r.budgetType.None? && r.optimizationGoal.None?
    && r.rawActions.None? && r.costPerActionType.None?
  }

  /** Everything the normaliser promises about the row it builds from `row`, the `idx`-th
      of a file whose headers gave `platform`. */
  ghost predicate NormalizedFrom(platform: Platform, row: RawRow, idx: nat, r: AdRow) {
    && LevelRule(row, ImageUrlOf(row), idx, r.level, r.name)
    && BuiltFrom(platform, idx, PlatformColumns(platform, row), ImageUrlOf(row), row, r)
  }

  /** The level tests of the callback: the first that matches sets the level and the name. */
  method ClassifyRow(row: RawRow, imageUrl: Option<string>, idx: nat) returns (level: Level, name: string)
    ensures LevelRule(row, imageUrl, idx, level, name)
  {
    name := "Unknown";
    level := Campaign;
    if FirstCell(row, DemoKeys).Some? {
      level := Demographics;
      var demoName := DemoLabel(row);
      name := if demoName != "" then demoName else "Demo Row " + NatToString(idx);
    } else if FirstCell(row, CreativeKeys).Some? || Truthy(imageUrl) {
      level := Creative;
      name := OrElse(FirstCell(row, CreativeKeys), "Creative " + NatToString(idx));
    } else if FirstCell(row, AdKeys).Some? {
      level := Ad;
      name := FirstCell(row, AdKeys).value;
    } else if FirstCell(row, AdSetKeys).Some? {
      level := AdSet;
      name := FirstCell(row, AdSetKeys).value;
    } else if FirstCell(row, CampaignKeys).Some? {
      level := Campaign;
      name := FirstCell(row, CampaignKeys).value;
    }
  }

  /** The calculations and the returned record, from the platform columns; each
      `x > 0 ? a / x : 0` of the callback is `RatioIfPositive(a, x)`. */
  method BuildRow(platform: Platform, idx: nat, level: Level, name: string, c: Columns,
                  imageUrl: Option<string>, row: RawRow) returns (r: AdRow)
    ensures BuiltFrom(platform, idx, c, imageUrl, row, r)
    ensures r.level == level && r.name == if name != "" then name else "Row " + NatToString(idx)
  {
    var costPerResult := c.costPerResult;

    var ctr := RatioIfPositive(c.clicks, c.impressions) * 100.0;
    var cpc := RatioIfPositive(c.spend, c.clicks);
    var linkCtr := RatioIfPositive(c.linkClicks, c.impressions) * 100.0;
    var linkCpc := RatioIfPositive(c.spend, c.linkClicks);
    var conversionBasis := if c.conversions > 0.0 then c.conversions else c.websitePurchases;
    var cpa := RatioIfPositive(c.spend, conversionBasis);
    var conversionRate := RatioIfPositive(conversionBasis, c.clicks) * 100.0;
    var roas := RatioIfPositive(c.conversionValue, c.spend);
    if costPerResult == 0.0 && conversionBasis > 0.0 {
      costPerResult := cpa;
    }

    r := AdRow(
      id := RowId(platform, level, idx), originalId := None, platform := platform, level := level,
      name := if name != "" then name else "Row " + NatToString(idx),
      status := c.status,
      impressions := c.impressions, clicks := c.clicks, spend := c.spend,
      conversions := c.conversions, conversionValue := c.conversionValue,
      reach := c.reach, linkClicks := c.linkClicks, websitePurchases := c.websitePurchases,
      videoViews := None, landingPageViews := None, age := None, gender := None,
      ctr := ctr, cpc := cpc, cpa := cpa, roas := roas, linkCtr := linkCtr, linkCpc := linkCpc,
      conversionRate := conversionRate, cpm := c.cpm, frequency := c.frequency,
      costPerResult := costPerResult, resultType := None,
      budget := c.budget, budgetType := None, optimizationGoal := None,
      costPerPageEngagement := c.costPerPageEngagement,
      newMessagingConnections := c.newMessagingConnections,
      costPerNewMessagingConnection := c.costPerNewMessagingConnection,
      messagingConversationsStarted := c.messagingConversationsStarted,
      campaignName := Some(c.campaignName), adGroupName := Some(c.adGroupName), imageUrl := imageUrl,
      rawActions := None, costPerActionType := None, extra := row);
    assert ColumnsCopied(r, c);
    assert ConversionBasis(r) == conversionBasis;
    assert RatesConsistent(r);
  }

  /** The `data.map((row, idx) => ...)` callback: the image, the level tests, the platform
      columns, then the derived rates and the record. */
  method NormalizeRow(platform: Platform, row: RawRow, idx: nat) returns (r: AdRow)
    ensures NormalizedFrom(platform, row, idx, r)
    ensures r.id == RowId(platform, r.level, idx) && r.name != ""
  {
    var imageUrl := FindImageUrl(row);
    var level, name := ClassifyRow(row, imageUrl, idx);
    NameNeverEmpty(row, imageUrl, idx, level, name);
    var c := PlatformColumns(platform, row);
    r := BuildRow(platform, idx, level, name, c, imageUrl, row);
  }

  /** One more normalised row keeps every earlier one normalised. */
  lemma NormalizedSnoc(platform: Platform, data: seq<RawRow>, rows: seq<AdRow>, r: AdRow)
    requires |rows| < |data|
    requires forall k :: 0 <= k < |rows| ==> NormalizedFrom(platform, data[k], k, rows[k])
    requires NormalizedFrom(platform, data[|rows|], |rows|, r)
    ensures forall k :: 0 <= k < |rows| + 1 ==> NormalizedFrom(platform, data[k], k, (rows + [r])[k])
  {
  }

  /** The `complete` callback once the parser has the rows: an empty file gives no rows,
      otherwise the platform comes from the headers and every row is normalised with its
      index; the indices make the ids distinct. */
  method NormalizeRows(headers: seq<string>, data: seq<RawRow>) returns (rows: seq<AdRow>)
    ensures |rows| == |data|
    ensures forall i :: 0 <= i < |data| ==> NormalizedFrom(DetectPlatform(headers), data[i], i, rows[i])
    ensures forall i, j :: 0 <= i < j < |rows| ==> rows[i].id != rows[j].id
  {
    if |data| == 0 {
      return [];
    }
    var platform := DetectPlatform(headers);
    rows := [];
    var i := 0;
    while i < |data|
      invariant i <= |data| && |rows| == i
      invariant forall k :: 0 <= k < i ==> NormalizedFrom(platform, data[k], k, rows[k])
      invariant forall k :: 0 <= k < i ==> rows[k].id == RowId(platform, rows[k].level, k)
    {
      var r := NormalizeRow(platform, data[i], i);
      NormalizedSnoc(platform, data, rows, r);
      rows := rows + [r];
      i := i + 1;
    }
    forall i, j | 0 <= i < j < |rows|
      ensures rows[i].id != rows[j].id
    {
      if rows[i].id == rows[j].id {
        RowIdInjective(platform, rows[i].level, i, rows[j].level, j);
      }
    }
  }

  // ---------------------------------------------------------------------------
  // Properties
  // ---------------------------------------------------------------------------

  lemma PrefixCancel(p: string, a: string, b: string)
    requires p + a == p + b
    ensures a == b
  {
    assert a == (p + a)[|p|..];
    assert b == (p + b)[|p|..];
  }

  /** `NatToString` is one-to-one: parsing the digits back gives the number. */
  lemma NatToStringInjective(m: nat, n: nat)
    requires NatToString(m) == NatToString(n)
    ensures m == n
  {
    JsNumber.DecimalValueOfNatToString(m);
    JsNumber.DecimalValueOfNatToString(n);
  }

  /** Splitting at the first '-': neither head may hold one. */
  lemma DashSplit(x1: string, n1: string, x2: string, n2: string)
    requires '-' !in x1 && '-' !in x2
    requires x1 + "-" + n1 == x2 + "-" + n2
    ensures x1 == x2 && n1 == n2
  {
    var s := x1 + "-" + n1;
    assert s == x1 + ['-'] + n1;
    assert x2 + "-" + n2 == x2 + ['-'] + n2;
    IndexOfAfter(x1, '-', n1);
    IndexOfAfter(x2, '-', n2);
    assert x1 == s[..|x1|];
    assert x2 == s[..|x2|];
    PrefixCancel(x1 + "-", n1, n2);
  }

  /** `${p}-${x}-${n}` with no '-' in `x` determines `x` and `n`. */
  lemma IdParts(p: string, x1: string, n1: string, x2: string, n2: string)
    requires '-' !in x1 && '-' !in x2
    requires p + "-" + x1 + "-" + n1 == p + "-" + x2 + "-" + n2
    ensures x1 == x2 && n1 == n2
  {
    assert p + "-" + x1 + "-" + n1 == (p + "-") + (x1 + "-" + n1);
    assert p + "-" + x2 + "-" + n2 == (p + "-") + (x2 + "-" + n2);
    PrefixCancel(p + "-", x1 + "-" + n1, x2 + "-" + n2);
    DashSplit(x1, n1, x2, n2);
  }

  /** A row id determines its level and index: level names hold no '-'. */
  lemma RowIdInjective(platform: Platform, l1: Level, i1: nat, l2: Level, i2: nat)
    requires RowId(platform, l1, i1) == RowId(platform, l2, i2)
    ensures l1 == l2 && i1 == i2
  {
    LevelNameInjective(l1, l2);
    LevelNameInjective(l2, l1);
    IdParts(PlatformName(platform), LevelName(l1), NatToString(i1), LevelName(l2), NatToString(i2));
    NatToStringInjective(i1, i2);
  }

  /** A row name is never empty, so the `Row idx` fallback is never taken. */
  lemma NameNeverEmpty(row: RawRow, imageUrl: Option<string>, idx: nat, level: Level, name: string)
    requires LevelRule(row, imageUrl, idx, level, name)
    ensures name != ""
  {
    if level == Demographics {
      assert ("Demo Row " + NatToString(idx))[0] == 'D';
    } else if level == Creative {
      assert ("Creative " + NatToString(idx))[0] == 'C';
    }
  }

  /** Outside Meta, link clicks and reach repeat clicks and impressions, frequency is 1 and
      CPM and cost per result are the guarded ratios. */
  lemma OtherPlatformMirrors(platform: Platform, row: RawRow, idx: nat, r: AdRow)
    requires platform != Meta && NormalizedFrom(platform, row, idx, r)
    ensures r.linkClicks == r.clicks && r.reach == r.impressions && r.frequency == 1.0
    ensures r.cpm == RatioIfPositive(r.spend, r.impressions) * 1000.0
    ensures r.conversions > 0.0 ==> r.costPerResult == r.spend / r.conversions
    ensures r.conversions <= 0.0 ==> r.costPerResult == 0.0
  {
  }

  /** A raw column shadows the computed property of the same name: the spread comes last. */
  lemma RawColumnsShadow(platform: Platform, row: RawRow, idx: nat, r: AdRow, key: string)
    requires NormalizedFrom(platform, row, idx, r)
    requires Lookup(row, key).Some?
    ensures Prop(r, key) == JsString(Lookup(row, key).value)
  {
  }
}
