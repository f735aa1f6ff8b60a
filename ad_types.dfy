/** The dashboard's data model: advertising platforms, reporting levels, one normalised
    report row, projects and stored access tokens. */
module AdTypes {
  import opened JsText

  datatype Platform = Meta | Google | UnknownPlatform

  function PlatformName(p: Platform): string {
    match p
    case Meta => "meta"
    case Google => "google"
    case UnknownPlatform => "unknown"
  }

  datatype Level = Campaign | AdSet | Ad | Creative | Age | Gender | Demographics

  function LevelName(l: Level): string {
    match l
    case Campaign => "campaign"
    case AdSet => "adset"
    case Ad => "ad"
    case Creative => "creative"
    case Age => "age"
    case Gender => "gender"
    case Demographics => "demographics"
  }

  /** Level names are distinct, non-empty and contain no '-', so they can be read back out
      of a `platform-level-index` row id. */
  lemma LevelNameInjective(a: Level, b: Level)
    ensures LevelName(a) == LevelName(b) ==> a == b
    ensures LevelName(a) != "" && '-' !in LevelName(a)
  {
  }

  /** One `{action_type, value}` entry of an insights record; values are text. */
  datatype Action = Action(actionType: string, value: string)

  /** A normalised report row. Every numeric field is a real number; a property the source
      leaves `undefined` is `None`. The raw columns a CSV row is spread with are kept, in
      column order, in `extra`; they shadow own properties of the same name (see `Prop`). */
  datatype AdRow = AdRow(
    id: string,
    originalId: Option<string>,
    platform: Platform,
    level: Level,
    name: string,
    status: string,
    impressions: real,
    clicks: real,
    spend: real,
    conversions: real,
    conversionValue: real,
    reach: real,
    linkClicks: real,
    websitePurchases: real,
    videoViews: Option<real>,
    landingPageViews: Option<real>,
    age: Option<string>,
    gender: Option<string>,
    ctr: real,
    cpc: real,
    cpa: real,
    roas: real,
    linkCtr: real,
    linkCpc: real,
    conversionRate: real,
    cpm: real,
    frequency: real,
    costPerResult: real,
    resultType: Option<string>,
    budget: real,
    budgetType: Option<string>,
    optimizationGoal: Option<string>,
    costPerPageEngagement: real,
    newMessagingConnections: real,
    costPerNewMessagingConnection: real,
    messagingConversationsStarted: real,
    campaignName: Option<string>,
    adGroupName: Option<string>,
    imageUrl: Option<string>,
    rawActions: Option<seq<Action>>,
    costPerActionType: Option<seq<Action>>,
    extra: seq<(string, string)>)

  /** `obj[key]` on an object given as (key, value) pairs: the value of the first pair with
      that key, `None` (undefined) when there is none. */
  function Lookup<V>(pairs: seq<(string, V)>, key: string): (v: Option<V>)
    ensures v.Some? <==> exists i :: 0 <= i < |pairs| && pairs[i].0 == key
    ensures v.Some? ==> (key, v.value) in pairs
  {
    if pairs == [] then None
    else if pairs[0].0 == key then Some(pairs[0].1)
    else Lookup(pairs[1..], key)
  }

  /** A property value as script code sees it. */
  datatype JsValue = JsString(str: string) | JsNumber(num: real) | JsUndefined | JsArray

  function OptString(o: Option<string>): JsValue {
    if o.Some? then JsString(o.value) else JsUndefined
  }

  function OptNumber(o: Option<real>): JsValue {
    if o.Some? then JsNumber(o.value) else JsUndefined
  }

  /** The row's own property named `key`. */
  function OwnProp(r: AdRow, key: string): JsValue {
    if key == "id" then JsString(r.id)
    else if key == "originalId" then OptString(r.originalId)
    else if key == "platform" then JsString(PlatformName(r.platform))
    else if key == "level" then JsString(LevelName(r.level))
    else if key == "name" then JsString(r.name)
    else if key == "status" then JsString(r.status)
    else if key == "impressions" then JsNumber(r.impressions)
    else if key == "clicks" then JsNumber(r.clicks)
    else if key == "spend" then JsNumber(r.spend)
    else if key == "conversions" then JsNumber(r.conversions)
    else if key == "conversionValue" then JsNumber(r.conversionValue)
    else if key == "reach" then JsNumber(r.reach)
    else if key == "linkClicks" then JsNumber(r.linkClicks)
    else if key == "websitePurchases" then JsNumber(r.websitePurchases)
    else if key == "videoViews" then OptNumber(r.videoViews)
    else if key == "landingPageViews" then OptNumber(r.landingPageViews)
    else if key == "age" then OptString(r.age)
    else if key == "gender" then OptString(r.gender)
    else if key == "ctr" then JsNumber(r.ctr)
    else if key == "cpc" then JsNumber(r.cpc)
    else if key == "cpa" then JsNumber(r.cpa)
    else if key == "roas" then JsNumber(r.roas)
    else if key == "linkCtr" then JsNumber(r.linkCtr)
    else if key == "linkCpc" then JsNumber(r.linkCpc)
    else if key == "conversionRate" then JsNumber(r.conversionRate)
    else if key == "cpm" then JsNumber(r.cpm)
    else if key == "frequency" then JsNumber(r.frequency)
    else if key == "costPerResult" then JsNumber(r.costPerResult)
    else if key == "resultType" then OptString(r.resultType)
    else if key == "budget" then JsNumber(r.budget)
    else if key == "budgetType" then OptString(r.budgetType)
    else if key == "optimizationGoal" then OptString(r.optimizationGoal)
    else if key == "costPerPageEngagement" then JsNumber(r.costPerPageEngagement)
    else if key == "newMessagingConnections" then JsNumber(r.newMessagingConnections)
    else if key == "costPerNewMessagingConnection" then JsNumber(r.costPerNewMessagingConnection)
    else if key == "messagingConversationsStarted" then JsNumber(r.messagingConversationsStarted)
    else if key == "campaignName" then OptString(r.campaignName)
    else if key == "adGroupName" then OptString(r.adGroupName)
    else if key == "imageUrl" then OptString(r.imageUrl)
    else if key == "rawActions" then (if r.rawActions.Some? then JsArray else JsUndefined)
    else if key == "costPerActionType" then (if r.costPerActionType.Some? then JsArray else JsUndefined)
    else JsUndefined
  }

  /** `row[key]`: a spread raw column, else the own property. */
  function Prop(r: AdRow, key: string): (v: JsValue)
    ensures Lookup(r.extra, key).Some? ==> v == JsString(Lookup(r.extra, key).value)
    ensures Lookup(r.extra, key).None? ==> v == OwnProp(r, key)
  {
    var raw := Lookup(r.extra, key);
    if raw.Some? then JsString(raw.value) else OwnProp(r, key)
  }

  /** `a / b` guarded by `b > 0`, the form every per-row ratio takes. */
  function RatioIfPositive(a: real, b: real): real {
    if b > 0.0 then a / b else 0.0
  }

  /** The rates of a row agree with its own counts: each is the guarded ratio of the two
      counts it is defined by, and 0 when the denominator is not positive. */
  ghost predicate RatesConsistent(r: AdRow) {
    && r.ctr == RatioIfPositive(r.clicks, r.impressions) * 100.0
    && r.cpc == RatioIfPositive(r.spend, r.clicks)
    && r.linkCtr == RatioIfPositive(r.linkClicks, r.impressions) * 100.0
    && r.linkCpc == RatioIfPositive(r.spend, r.linkClicks)
    && r.roas == RatioIfPositive(r.conversionValue, r.spend)
  }

  datatype MetaConfig = MetaConfig(accountId: string, accountName: string, currency: string, token: string)

  datatype StoredToken = StoredToken(id: string, alias: string, token: string, createdAt: int)

  datatype Project = Project(
    id: string,
    name: string,
    data: seq<AdRow>,
    currency: Option<string>,
    metaConfig: Option<MetaConfig>,
    createdAt: int,
    updatedAt: int)

  datatype ColumnType = TextColumn | NumberColumn | CurrencyColumn | PercentColumn | ImageColumn

  datatype ColumnDef = ColumnDef(id: string, caption: string, kind: ColumnType)
}
