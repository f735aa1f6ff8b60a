/** Building one report row from a Meta insights record (services/metaApiService.ts):
    the creative image lookup, the status table, the budget unit and budget choice, and the
    row itself with its guarded ratios. */
module MetaMetrics {
  import opened JsText
  import opened JsNumber
  import opened AdTypes
  import opened MetaResult

  // ---------------------------------------------------------------------------
  // Creative image
  // ---------------------------------------------------------------------------

  datatype LinkData = LinkData(picture: Option<string>)
  datatype VideoData = VideoData(imageUrl: Option<string>)
  datatype StorySpec = StorySpec(linkData: Option<LinkData>, videoData: Option<VideoData>)
  datatype Creative = Creative(imageUrl: Option<string>, thumbnailUrl: Option<string>, storySpec: Option<StorySpec>)

  /** The four places an image URL can sit in a creative, in the order they are tried. */
  function ImageCandidates(c: Creative): seq<Option<string>> {
    var spec := c.storySpec;
    [ c.imageUrl,
      c.thumbnailUrl,
      if spec.Some? && spec.value.linkData.Some? then spec.value.linkData.value.picture else None,
      if spec.Some? && spec.value.videoData.Some? then spec.value.videoData.value.imageUrl else None ]
  }

  /** `getCreativeImageUrl(creative)`: the first non-empty of the image URL, the thumbnail,
      the link picture and the video image; nothing for a missing creative. */
  function GetCreativeImageUrl(creative: Option<Creative>): (r: Option<string>)
    ensures creative.None? ==> r.None?
    ensures r.Some? ==> Truthy(r)
  {
    if creative.None? then None
    else
      var c := creative.value;
      if Truthy(c.imageUrl) then c.imageUrl
      else if Truthy(c.thumbnailUrl) then c.thumbnailUrl
      else if c.storySpec.Some? then
        var spec := c.storySpec.value;
        if spec.linkData.Some? && Truthy(spec.linkData.value.picture) then spec.linkData.value.picture
        else if spec.videoData.Some? && Truthy(spec.videoData.value.imageUrl) then spec.videoData.value.imageUrl
        else None
      else None
  }

  /** The lookup is the `||` chain over the four candidates. */
  lemma CreativeImageIsFirstCandidate(c: Creative)
    ensures GetCreativeImageUrl(Some(c)) == FirstTruthy(ImageCandidates(c))
  {
    var xs := ImageCandidates(c);
    assert FirstTruthy(xs[4..]) == None;
    assert FirstTruthy(xs[3..]) == if Truthy(xs[3]) then xs[3] else FirstTruthy(xs[4..]);
    assert FirstTruthy(xs[2..]) == if Truthy(xs[2]) then xs[2] else FirstTruthy(xs[3..]);
    assert FirstTruthy(xs[1..]) == if Truthy(xs[1]) then xs[1] else FirstTruthy(xs[2..]);
  }

  // ---------------------------------------------------------------------------
  // Status
  // ---------------------------------------------------------------------------

  predicate IsRunning(s: string) {
    s == "ACTIVE" || s == "IN_PROCESS" || s == "WITH_ISSUES"
  }

  /** The delivery statuses and their display names. */
  const StatusTable: map<string, string> := map[
    "ACTIVE" := "進行中", "PAUSED" := "已關閉", "DELETED" := "已刪除", "ARCHIVED" := "已封存",
    "IN_PROCESS" := "進行中", "WITH_ISSUES" := "錯誤", "CAMPAIGN_PAUSED" := "行銷活動已關閉",
    "ADSET_PAUSED" := "廣告組合已關閉", "PENDING_REVIEW" := "審查中", "DISAPPROVED" := "未通過",
    "PREAPPROVED" := "預審通過", "PENDING_BILLING_INFO" := "需更新付款資訊"]

  const Completed := "已完成"
  const NotDelivering := "未投遞"

  /** The `switch` on the effective status. */
  function StatusName(s: string): string {
    if s == "ACTIVE" then "進行中"
    else if s == "PAUSED" then "已關閉"
    else if s == "DELETED" then "已刪除"
    else if s == "ARCHIVED" then "已封存"
    else if s == "IN_PROCESS" then "進行中"
    else if s == "WITH_ISSUES" then "錯誤"
    else if s == "CAMPAIGN_PAUSED" then "行銷活動已關閉"
    else if s == "ADSET_PAUSED" then "廣告組合已關閉"
    else if s == "PENDING_REVIEW" then "審查中"
    else if s == "DISAPPROVED" then "未通過"
    else if s == "PREAPPROVED" then "預審通過"
    else if s == "PENDING_BILLING_INFO" then "需更新付款資訊"
    else NotDelivering
  }

  /** The stop time has passed: `new Date(stopTime).getTime() < Date.now()`. The date reader
      is `timeOf` (None for an unreadable date, whose NaN compares false) and the clock `now`. */
  predicate Ended(stopTime: string, timeOf: string -> Option<int>, now: int) {
    timeOf(stopTime).Some? && timeOf(stopTime).value < now
  }

  /** `mapStatus(effectiveStatus, stopTime)`. */
  function MapStatus(effectiveStatus: string, stopTime: Option<string>, timeOf: string -> Option<int>, now: int): (r: string)
    ensures IsRunning(effectiveStatus) && Truthy(stopTime) && Ended(stopTime.value, timeOf, now) ==> r == Completed
    ensures !(IsRunning(effectiveStatus) && Truthy(stopTime) && Ended(stopTime.value, timeOf, now)) ==>
              r == if effectiveStatus in StatusTable then StatusTable[effectiveStatus] else NotDelivering
  {
    if IsRunning(effectiveStatus) && Truthy(stopTime) && Ended(stopTime.value, timeOf, now) then Completed
    else StatusName(effectiveStatus)
  }

  /** '已完成' comes only from a running status whose stop time has passed: no table entry
      is '已完成'. */
  lemma CompletedIff(s: string, stopTime: Option<string>, timeOf: string -> Option<int>, now: int)
    ensures MapStatus(s, stopTime, timeOf, now) == Completed <==>
              IsRunning(s) && Truthy(stopTime) && Ended(stopTime.value, timeOf, now)
  {
    assert Completed !in StatusTable.Values;
  }

  /** A status that is not running ignores the stop time; an unknown status is '未投遞'. */
  lemma StatusIgnoresStopTime(s: string, stopTime: Option<string>, timeOf: string -> Option<int>, now: int)
    requires !IsRunning(s)
    ensures MapStatus(s, stopTime, timeOf, now) == MapStatus(s, None, timeOf, now)
    ensures s !in StatusTable ==> MapStatus(s, stopTime, timeOf, now) == NotDelivering
  {
  }

  // ---------------------------------------------------------------------------
  // Budget
  // ---------------------------------------------------------------------------

  /** The currencies whose budgets the API reports in whole units. */
  const ZeroDecimalCurrencies: seq<string> := [
    "BIF", "CLP", "DJF", "GNF", "ISK", "JPY", "KMF", "KRW", "MGA",
    "PYG", "RWF", "UGX", "VND", "VUV", "XAF", "XOF", "XPF", "TWD", "HUF"]

  /** `getBudgetDivider(currency)`: 1 for a zero-decimal currency, 100 otherwise. */
  function GetBudgetDivider(currency: string): (d: real)
    ensures d == 1.0 || d == 100.0
    ensures d == 1.0 <==> ToUpper(currency) in ZeroDecimalCurrencies
  {
    if currency != "" && ToUpper(currency) in ZeroDecimalCurrencies then 1.0 else 100.0
  }

  /** The currency code is compared without regard to case. */
  lemma BudgetDividerIgnoresCase(currency: string)
    ensures GetBudgetDivider(ToUpper(currency)) == GetBudgetDivider(currency)
  {
    ToUpperIdempotent(currency);
  }

  /** Every listed code, in lower case too, has divider 1. */
  lemma LowerCaseCodesAreZeroDecimal(code: string)
    requires code in ZeroDecimalCurrencies
    ensures GetBudgetDivider(code) == 1.0 && GetBudgetDivider(ToLower(code)) == 1.0
  {
    var k :| 0 <= k < |ZeroDecimalCurrencies| && ZeroDecimalCurrencies[k] == code;
    ZeroDecimalCodeUpper(k);
    UpperLettersRoundTrip(code);
  }

  predicate UpperLetters(s: string) {
    forall i :: 0 <= i < |s| ==> 'A' <= s[i] <= 'Z'
  }

  lemma ZeroDecimalCodeUpper(k: nat)
    requires k < |ZeroDecimalCurrencies|
    ensures UpperLetters(ZeroDecimalCurrencies[k])
  {
  }

  /** Upper-case Latin letters are their own upper case, and lowering them is undone by
      raising them. */
  lemma UpperLettersRoundTrip(s: string)
    requires UpperLetters(s)
    ensures ToUpper(s) == s && ToUpper(ToLower(s)) == s
  {
    assert forall i :: 0 <= i < |s| ==> UpperChar(s[i]) == s[i] && UpperChar(LowerChar(s[i])) == s[i];
  }

  /** The fields of the structure record a row's budget and stop time are read from. */
  datatype StructInfo = StructInfo(stopTime: Option<string>, endTime: Option<string>,
                                   dailyBudget: Option<string>, lifetimeBudget: Option<string>)

  /** `raw && parseInt(raw) > 0`. */
  predicate PositiveBudget(raw: Option<string>) {
    Truthy(raw) && ParseIntPrefix(raw.value, false).Some? && ParseIntPrefix(raw.value, false).value > 0
  }

  /** `parseInt` without a radix reads a number only where `parseInt(_, 10)` reads one too:
      an "0x" prefix starts with the digit 0. Without that prefix the two agree. */
  lemma DecimalReadWhereAutoReads(s: string)
    ensures ParseIntPrefix(s, false).Some? ==> ParseIntPrefix(s, true).Some?
    ensures !HexPrefixAt(s, SignAt(s, SkipSpaces(s, 0)).0) ==> ParseIntPrefix(s, false) == ParseIntPrefix(s, true)
  {
    var (i, negative) := SignAt(s, SkipSpaces(s, 0));
    if HexPrefixAt(s, i) {
      assert IsDigit(s[i]);
      assert DigitRun(s, i) >= 1;
    }
  }

  /** `parseInt(raw, 10) / divider` for a budget that passed `PositiveBudget`. */
  function BudgetAmount(raw: string, divider: real): (amount: real)
    requires PositiveBudget(Some(raw))
    requires divider > 0.0
    ensures ParseIntPrefix(raw, true).Some? && amount * divider == ParseIntPrefix(raw, true).value as real
  {
    DecimalReadWhereAutoReads(raw);
    (ParseIntPrefix(raw, true).value as real) / divider
  }

  datatype Budget = Budget(amount: real, budgetType: string)

  /** The budget cascade: a positive daily budget, then a positive lifetime budget, then
      'ABO' for a campaign row (its budget lives on its ad sets), else no budget. */
  function SelectBudget(info: Option<StructInfo>, level: Level, divider: real): (b: Budget)
    requires divider > 0.0
    ensures b.budgetType in {"Daily", "Lifetime", "ABO", ""}
    ensures b.budgetType == "Daily" <==> info.Some? && PositiveBudget(info.value.dailyBudget)
    ensures b.budgetType == "Lifetime" <==>
              info.Some? && !PositiveBudget(info.value.dailyBudget) && PositiveBudget(info.value.lifetimeBudget)
    ensures b.budgetType == "ABO" <==>
              level == Campaign && !(info.Some? && (PositiveBudget(info.value.dailyBudget) || PositiveBudget(info.value.lifetimeBudget)))
    ensures b.budgetType == "Daily" ==> b.amount == BudgetAmount(info.value.dailyBudget.value, divider)
    ensures b.budgetType == "Lifetime" ==> b.amount == BudgetAmount(info.value.lifetimeBudget.value, divider)
    ensures b.budgetType in {"ABO", ""} ==> b.amount == 0.0
  {
    if info.Some? && PositiveBudget(info.value.dailyBudget) then
      Budget(BudgetAmount(info.value.dailyBudget.value, divider), "Daily")
    else if info.Some? && PositiveBudget(info.value.lifetimeBudget) then
      Budget(BudgetAmount(info.value.lifetimeBudget.value, divider), "Lifetime")
    else if level == Campaign then Budget(0.0, "ABO")
    else Budget(0.0, "")
  }

  /** Without an "0x" prefix a positive budget is a positive amount. */
  lemma DecimalBudgetIsPositive(raw: string, divider: real)
    requires PositiveBudget(Some(raw)) && divider > 0.0
    requires !HexPrefixAt(raw, SignAt(raw, SkipSpaces(raw, 0)).0)
    ensures BudgetAmount(raw, divider) > 0.0
  {
    DecimalReadWhereAutoReads(raw);
  }

  /** A budget written in hexadecimal passes the positivity test, which reads it in base 16,
      and is then read in base 10 as 0. */
  lemma HexBudgetReadsAsZero()
    ensures SelectBudget(Some(StructInfo(None, None, Some("0x10"), None)), Ad, 100.0) == Budget(0.0, "Daily")
  {
    var s := "0x10";
    assert SkipSpaces(s, 0) == 0;
    assert HexRun(s, 2) == 2 by {
      assert HexRun(s, 4) == 0;
    }
    assert s[2..4] == "10";
    assert HexValue("10") == 16 by {
      assert "10"[..1] == "1";
      assert "1"[..0] == "";
    }
    assert DigitRun(s, 0) == 1 by {
      assert DigitRun(s, 1) == 0;
    }
    assert s[0..1] == "0";
    assert DecimalValue("0") == 0 by {
      assert "0"[..0] == "";
    }
  }

  // ---------------------------------------------------------------------------
  // The row
  // ---------------------------------------------------------------------------

  /** The fields of one insights record that the row is built from; numbers are text, as
      the API sends them. */
  datatype Insight = Insight(
    id: Option<string>,
    adId: Option<string>,
    adsetId: Option<string>,
    campaignId: Option<string>,
    campaignName: Option<string>,
    adsetName: Option<string>,
    adName: Option<string>,
    objective: Option<string>,
    spend: Option<string>,
    clicks: Option<string>,
    impressions: Option<string>,
    reach: Option<string>,
    inlineLinkClicks: Option<string>,
    cpm: Option<string>,
    frequency: Option<string>,
    gender: Option<string>,
    age: Option<string>,
    actions: Option<seq<Action>>,
    actionValues: Option<seq<Action>>)

  /** The `extraProps` a caller spreads over the row: the name and breakdown of a
      demographic row. */
  datatype Extras = NoExtras | GenderExtras(name: string, gender: Option<string>) | AgeExtras(age: Option<string>)

  const MessagingConnectionAction := "onsite_conversion.messaging_connection"
  const MessagingConnectionShortAction := "messaging_connection"

  /** Index of the first action whose type is `a` or `b`. */
  function FirstIndexOfEither(actions: seq<Action>, a: string, b: string): (i: nat)
    ensures i <= |actions|
    ensures forall j :: 0 <= j < i ==> actions[j].actionType != a && actions[j].actionType != b
    ensures i < |actions| ==> actions[i].actionType == a || actions[i].actionType == b
    decreases |actions|
  {
    if actions == [] then 0
    else if actions[0].actionType == a || actions[0].actionType == b then 0
    else 1 + FirstIndexOfEither(actions[1..], a, b)
  }

  /** New messaging connections: the first action of either naming, in list order. */
  function NewMessagingConnections(actions: seq<Action>): real {
    var i := FirstIndexOfEither(actions, MessagingConnectionAction, MessagingConnectionShortAction);
    if i < |actions| then ParseFloatOr0(actions[i].value) else 0.0
  }

  /** The conversion value: the first 'purchase' entry of `action_values` when there is one
      (whatever its value), otherwise the first 'omni_purchase' entry. */
  function ConversionValue(actionValues: seq<Action>): real {
    if FirstIndexOfType(actionValues, PurchaseAction) < |actionValues| then FindVal(actionValues, PurchaseAction)
    else FindVal(actionValues, OmniPurchaseAction)
  }

  /** `adImageMap && item.ad_id ? adImageMap.get(item.ad_id) : undefined`. */
  function ImageFor(adImageMap: Option<map<Option<string>, string>>, adId: Option<string>): (r: Option<string>)
    ensures r.Some? <==> adImageMap.Some? && Truthy(adId) && adId in adImageMap.value
    ensures r.Some? ==> r.value == adImageMap.value[adId]
  {
    if adImageMap.Some? && Truthy(adId) && adId in adImageMap.value then Some(adImageMap.value[adId])
    else None
  }

  /** The counts read from an insights record, before any ratio is formed. */
  datatype Counts = Counts(
    spend: real, clicks: real, impressions: real, reach: real, linkClicks: real, cpm: real,
    frequency: real, websitePurchases: real, conversionValue: real, messagingStarted: real,
    newMessagingConnections: real, postEngagement: real)

  function ReadCounts(item: Insight): Counts {
    var actions := if item.actions.Some? then item.actions.value else [];
    var actionValues := if item.actionValues.Some? then item.actionValues.value else [];
    Counts(
      NumberOr0(item.spend), NumberOr0(item.clicks), NumberOr0(item.impressions),
      NumberOr0(item.reach), NumberOr0(item.inlineLinkClicks), NumberOr0(item.cpm),
      NumberOr0(item.frequency),
      FindVal(actions, PixelPurchaseAction),
      ConversionValue(actionValues),
      FindVal(actions, MessagingStartedAction),
      NewMessagingConnections(actions),
      FindVal(actions, PostEngagementAction))
  }

  /** Every ratio of a Meta row is the guarded quotient of the row's own counts; the cost
      per post engagement divides by the post-engagement count, which the row does not keep. */
  ghost predicate MetaRatiosGuarded(r: AdRow, postEngagement: real) {
    && RatesConsistent(r)
    && r.cpa == RatioIfPositive(r.spend, r.websitePurchases)
    && r.costPerResult == RatioIfPositive(r.spend, r.conversions)
    && r.conversionRate == RatioIfPositive(r.conversions, r.clicks) * 100.0
    && r.costPerNewMessagingConnection == RatioIfPositive(r.spend, r.newMessagingConnections)
    && r.costPerPageEngagement == RatioIfPositive(r.spend, postEngagement)
  }

  /** The object literal of `calculateMetrics`, over the counts, result, status, budget and
      image already worked out; `fallbackId` stands for the random id used when the record
      has none. */
  function MetricsRow(item: Insight, level: Level, c: Counts, result: ResultData, status: string,
                      budget: Budget, imageUrl: Option<string>, fallbackId: string): (r: AdRow)
    ensures r.platform == Meta && r.level == level
    ensures MetaRatiosGuarded(r, c.postEngagement)
    ensures r.spend == c.spend && r.clicks == c.clicks && r.impressions == c.impressions
    ensures r.conversions == result.value && r.resultType == Some(Caption(result.kind))
  {
    AdRow(
      id := "meta-" + LevelName(level) + "-" + OrElse(item.id, fallbackId),
      originalId := Or(Or(Or(item.id, item.adId), item.adsetId), item.campaignId),
      platform := Meta,
      level := level,
      name := OrElse(Or(Or(item.adName, item.adsetName), item.campaignName), "Unknown"),
      status := status,
      impressions := c.impressions,
      clicks := c.clicks,
      spend := c.spend,
      conversions := result.value,
      conversionValue := c.conversionValue,
      reach := c.reach,
      linkClicks := c.linkClicks,
      websitePurchases := c.websitePurchases,
      videoViews := None,
      landingPageViews := None,
      age := None,
      gender := None,
      ctr := RatioIfPositive(c.clicks, c.impressions) * 100.0,
      cpc := RatioIfPositive(c.spend, c.clicks),
      cpa := RatioIfPositive(c.spend, c.websitePurchases),
      roas := RatioIfPositive(c.conversionValue, c.spend),
      linkCtr := RatioIfPositive(c.linkClicks, c.impressions) * 100.0,
      linkCpc := RatioIfPositive(c.spend, c.linkClicks),
      conversionRate := RatioIfPositive(result.value, c.clicks) * 100.0,
      cpm := c.cpm,
      frequency := c.frequency,
      costPerResult := RatioIfPositive(c.spend, result.value),
      resultType := Some(Caption(result.kind)),
      budget := budget.amount,
      budgetType := Some(budget.budgetType),
      optimizationGoal := None,
      costPerPageEngagement := RatioIfPositive(c.spend, c.postEngagement),
      newMessagingConnections := c.newMessagingConnections,
      costPerNewMessagingConnection := RatioIfPositive(c.spend, c.newMessagingConnections),
      messagingConversationsStarted := c.messagingStarted,
      campaignName := item.campaignName,
      adGroupName := item.adsetName,
      imageUrl := imageUrl,
      rawActions := None,
      costPerActionType := None,
      extra := [])
  }

  /** `...extraProps`: the demographic name and breakdown replace the row's own. */
  function ApplyExtras(row: AdRow, extras: Extras): (r: AdRow)
    ensures extras.NoExtras? ==> r == row
    ensures extras.GenderExtras? ==> r == row.(name := extras.name, gender := extras.gender)
    ensures extras.AgeExtras? ==> r == row.(name := if extras.age.Some? then extras.age.value else "", age := extras.age)
  {
    match extras
    case NoExtras => row
    case GenderExtras(n, g) => row.(name := n, gender := g)
    case AgeExtras(a) => row.(name := if a.Some? then a.value else "", age := a)
  }

  /** `calculateMetrics(item, level, effectiveStatus, structInfo, currency, adImageMap,
      extraProps, objective)`. The Date reader `timeOf` and the clock `now` feed the status;
      `fallbackId` stands for the random id used when the record has none. */
  function CalculateMetrics(item: Insight, level: Level, effectiveStatus: string, info: Option<StructInfo>,
                            currency: string, adImageMap: Option<map<Option<string>, string>>, extras: Extras,
                            objective: Option<string>, timeOf: string -> Option<int>, now: int,
                            fallbackId: string): (r: AdRow)
    ensures r.platform == Meta && r.level == level
    ensures MetaRatiosGuarded(r, ReadCounts(item).postEngagement)
    ensures var res := GetResultData(if item.actions.Some? then item.actions.value else [], objective,
                                     Or(item.campaignName, item.adName));
            r.conversions == res.value && r.resultType == Some(Caption(res.kind))
    ensures r.id == "meta-" + LevelName(level) + "-" + OrElse(item.id, fallbackId)
    ensures r.status == MapStatus(effectiveStatus, if info.Some? then Or(info.value.stopTime, info.value.endTime) else None, timeOf, now)
    ensures r.budget == SelectBudget(info, level, GetBudgetDivider(currency)).amount
    ensures r.budgetType == Some(SelectBudget(info, level, GetBudgetDivider(currency)).budgetType)
    ensures r.imageUrl == ImageFor(adImageMap, item.adId)
    ensures extras.NoExtras? ==>
              r.name == OrElse(Or(Or(item.adName, item.adsetName), item.campaignName), "Unknown") && r.gender.None? && r.age.None?
    ensures extras.GenderExtras? ==> r.name == extras.name && r.gender == extras.gender && r.age.None?
    ensures extras.AgeExtras? ==> r.name == (if extras.age.Some? then extras.age.value else "") && r.age == extras.age && r.gender.None?
  {
    var actions := if item.actions.Some? then item.actions.value else [];
    var stopTime := if info.Some? then Or(info.value.stopTime, info.value.endTime) else None;
    var row := MetricsRow(item, level, ReadCounts(item), GetResultData(actions, objective, Or(item.campaignName, item.adName)),
                          MapStatus(effectiveStatus, stopTime, timeOf, now),
                          SelectBudget(info, level, GetBudgetDivider(currency)),
                          ImageFor(adImageMap, item.adId), fallbackId);
    ExtrasKeepRatios(row, extras, ReadCounts(item).postEngagement);
    ApplyExtras(row, extras)
  }

  /** The spread fields are not ratios nor counts, so the ratios stay guarded. */
  lemma ExtrasKeepRatios(row: AdRow, extras: Extras, postEngagement: real)
    requires MetaRatiosGuarded(row, postEngagement)
    ensures MetaRatiosGuarded(ApplyExtras(row, extras), postEngagement)
  {
  }

  /** The row's conversions are 0 or the result its label names: a positive value read
      from the first action of a type tied to that label. */
  lemma ConversionsAreReported(item: Insight, level: Level, effectiveStatus: string, info: Option<StructInfo>,
                               currency: string, adImageMap: Option<map<Option<string>, string>>, extras: Extras,
                               objective: Option<string>, timeOf: string -> Option<int>, now: int,
                               fallbackId: string)
    ensures var r := CalculateMetrics(item, level, effectiveStatus, info, currency, adImageMap, extras,
                                      objective, timeOf, now, fallbackId);
            r.resultType.Some? &&
            (r.conversions == 0.0 || Reported(ValueLookup(if item.actions.Some? then item.actions.value else []),
                                              ResultData(r.conversions, KindOf(r.resultType.value))))
  {
    var res := GetResultData(if item.actions.Some? then item.actions.value else [], objective,
                             Or(item.campaignName, item.adName));
    CaptionInjective(res.kind);
  }

  /** The kind whose caption a label is; labels of distinct kinds differ. */
  function KindOf(caption: string): (k: ResultKind)
    ensures Caption(k) == caption || (k == NoKind && forall j :: Caption(j) != caption)
  {
    if caption == Caption(ThruPlay) then ThruPlay
    else if caption == Caption(Messaging) then Messaging
    else if caption == Caption(PostEngagement) then PostEngagement
    else if caption == Caption(LandingPage) then LandingPage
    else if caption == Caption(LinkClick) then LinkClick
    else if caption == Caption(Purchase) then Purchase
    else if caption == Caption(Lead) then Lead
    else NoKind
  }

  lemma CaptionInjective(k: ResultKind)
    ensures KindOf(Caption(k)) == k
  {
  }

  /** A guarded ratio is 0 exactly when its denominator is not positive or its numerator
      is 0, and otherwise multiplies back to the numerator. */
  lemma RatioIfPositiveMeaning(a: real, b: real)
    ensures b <= 0.0 ==> RatioIfPositive(a, b) == 0.0
    ensures b > 0.0 ==> RatioIfPositive(a, b) * b == a
    ensures RatioIfPositive(a, b) == 0.0 <==> b <= 0.0 || a == 0.0
  {
  }
}
