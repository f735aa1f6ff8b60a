/** The join at the end of `fetchMetaAdsData` (services/metaApiService.ts): the structure
    records are folded into id-keyed maps, then every insights record becomes a row, in the
    order campaign, ad set, ad, gender, age. The eight arrays are taken as already fetched. */
module MetaJoin {
  import opened JsText
  import opened AdTypes
  import opened Maps
  import opened MetaMetrics

  // ---------------------------------------------------------------------------
  // Structure records and the maps built from them
  // ---------------------------------------------------------------------------

  datatype CampaignStruct = CampaignStruct(id: Option<string>, effectiveStatus: Option<string>, objective: Option<string>,
                                           stopTime: Option<string>, dailyBudget: Option<string>, lifetimeBudget: Option<string>)

  datatype AdSetStruct = AdSetStruct(id: Option<string>, effectiveStatus: Option<string>, endTime: Option<string>,
                                     campaignId: Option<string>, dailyBudget: Option<string>, lifetimeBudget: Option<string>)

  datatype AdStruct = AdStruct(id: Option<string>, effectiveStatus: Option<string>, creative: Option<Creative>,
                               adsetId: Option<string>)

  datatype CampInfo = CampInfo(status: Option<string>, objective: Option<string>, stopTime: Option<string>,
                               dailyBudget: Option<string>, lifetimeBudget: Option<string>)

  datatype AdSetInfo = AdSetInfo(status: Option<string>, endTime: Option<string>, campaignId: Option<string>,
                                 dailyBudget: Option<string>, lifetimeBudget: Option<string>)

  /** Keys are the records' `id` properties as they are, `undefined` included. */
  datatype StructureMaps = StructureMaps(
    campaignMap: map<Option<string>, CampInfo>,
    adSetMap: map<Option<string>, AdSetInfo>,
    adStatusMap: map<Option<string>, Option<string>>,
    adImageMap: map<Option<string>, string>,
    adParentMap: map<Option<string>, Option<string>>)

  function CampInfoOf(c: CampaignStruct): CampInfo {
    CampInfo(c.effectiveStatus, c.objective, c.stopTime, c.dailyBudget, c.lifetimeBudget)
  }

  function AdSetInfoOf(s: AdSetStruct): AdSetInfo {
    AdSetInfo(s.effectiveStatus, s.endTime, s.campaignId, s.dailyBudget, s.lifetimeBudget)
  }

  function CampaignPairs(cs: seq<CampaignStruct>): (ps: seq<(Option<string>, CampInfo)>)
    ensures |ps| == |cs| && forall i :: 0 <= i < |cs| ==> ps[i] == (cs[i].id, CampInfoOf(cs[i]))
  {
    seq(|cs|, i requires 0 <= i < |cs| => (cs[i].id, CampInfoOf(cs[i])))
  }

  function AdSetPairs(ss: seq<AdSetStruct>): (ps: seq<(Option<string>, AdSetInfo)>)
    ensures |ps| == |ss| && forall i :: 0 <= i < |ss| ==> ps[i] == (ss[i].id, AdSetInfoOf(ss[i]))
  {
    seq(|ss|, i requires 0 <= i < |ss| => (ss[i].id, AdSetInfoOf(ss[i])))
  }

  function StatusPairs(ads: seq<AdStruct>): (ps: seq<(Option<string>, Option<string>)>)
    ensures |ps| == |ads| && forall i :: 0 <= i < |ads| ==> ps[i] == (ads[i].id, ads[i].effectiveStatus)
  {
    seq(|ads|, i requires 0 <= i < |ads| => (ads[i].id, ads[i].effectiveStatus))
  }

  function ParentPairs(ads: seq<AdStruct>): (ps: seq<(Option<string>, Option<string>)>)
    ensures |ps| == |ads| && forall i :: 0 <= i < |ads| ==> ps[i] == (ads[i].id, ads[i].adsetId)
  {
    seq(|ads|, i requires 0 <= i < |ads| => (ads[i].id, ads[i].adsetId))
  }

  /** Only ads whose creative yields an image URL are entered in the image map. */
  function ImagePairs(ads: seq<AdStruct>): (ps: seq<(Option<string>, string)>)
    ensures forall p :: p in ps ==> p.1 != ""
  {
    if ads == [] then []
    else
      var last := ads[|ads| - 1];
      var img := GetCreativeImageUrl(last.creative);
      ImagePairs(ads[..|ads| - 1]) + (if img.Some? then [(last.id, img.value)] else [])
  }

  /** The five maps as the three `forEach` loops leave them. */
  function StructureMapsOf(campStruct: seq<CampaignStruct>, setStruct: seq<AdSetStruct>, adStruct: seq<AdStruct>): StructureMaps {
    StructureMaps(
      MapFromPairs(CampaignPairs(campStruct)),
      MapFromPairs(AdSetPairs(setStruct)),
      MapFromPairs(StatusPairs(adStruct)),
      MapFromPairs(ImagePairs(adStruct)),
      MapFromPairs(ParentPairs(adStruct)))
  }

  /** `campStruct.forEach(c => campaignMap.set(c.id, {...}))`. */
  method BuildCampaignMap(campStruct: seq<CampaignStruct>) returns (campaignMap: map<Option<string>, CampInfo>)
    ensures campaignMap == MapFromPairs(CampaignPairs(campStruct))
  {
    campaignMap := map[];
    var i := 0;
    while i < |campStruct|
      invariant i <= |campStruct|
      invariant campaignMap == MapFromPairs(CampaignPairs(campStruct[..i]))
    {
      var c := campStruct[i];
      assert campStruct[..i + 1] == campStruct[..i] + [c];
      CampaignPairsSnoc(campStruct[..i], c);
      MapFromPairsSnoc(CampaignPairs(campStruct[..i]), c.id, CampInfoOf(c));
      campaignMap := campaignMap[c.id := CampInfoOf(c)];
      i := i + 1;
    }
    assert campStruct[..i] == campStruct;
  }

  /** `setStruct.forEach(s => adSetMap.set(s.id, {...}))`. */
  method BuildAdSetMap(setStruct: seq<AdSetStruct>) returns (adSetMap: map<Option<string>, AdSetInfo>)
    ensures adSetMap == MapFromPairs(AdSetPairs(setStruct))
  {
    adSetMap := map[];
    var i := 0;
    while i < |setStruct|
      invariant i <= |setStruct|
      invariant adSetMap == MapFromPairs(AdSetPairs(setStruct[..i]))
    {
      var s := setStruct[i];
      assert setStruct[..i + 1] == setStruct[..i] + [s];
      AdSetPairsSnoc(setStruct[..i], s);
      MapFromPairsSnoc(AdSetPairs(setStruct[..i]), s.id, AdSetInfoOf(s));
      adSetMap := adSetMap[s.id := AdSetInfoOf(s)];
      i := i + 1;
    }
    assert setStruct[..i] == setStruct;
  }

  /** The `adStruct.forEach` loop: status, parent ad set and (when there is one) image of
      every ad. */
  method BuildAdMaps(adStruct: seq<AdStruct>)
    returns (adStatusMap: map<Option<string>, Option<string>>, adImageMap: map<Option<string>, string>,
             adParentMap: map<Option<string>, Option<string>>)
    ensures adStatusMap == MapFromPairs(StatusPairs(adStruct))
    ensures adImageMap == MapFromPairs(ImagePairs(adStruct))
    ensures adParentMap == MapFromPairs(ParentPairs(adStruct))
  {
    adStatusMap, adImageMap, adParentMap := map[], map[], map[];
    var i := 0;
    while i < |adStruct|
      invariant i <= |adStruct|
      invariant adStatusMap == MapFromPairs(StatusPairs(adStruct[..i]))
      invariant adImageMap == MapFromPairs(ImagePairs(adStruct[..i]))
      invariant adParentMap == MapFromPairs(ParentPairs(adStruct[..i]))
    {
      var ad := adStruct[i];
      assert adStruct[..i + 1] == adStruct[..i] + [ad];
      AdPairsSnoc(adStruct[..i], ad);
      MapFromPairsSnoc(StatusPairs(adStruct[..i]), ad.id, ad.effectiveStatus);
      adStatusMap := adStatusMap[ad.id := ad.effectiveStatus];
      MapFromPairsSnoc(ParentPairs(adStruct[..i]), ad.id, ad.adsetId);
      adParentMap := adParentMap[ad.id := ad.adsetId];
      var imgUrl := GetCreativeImageUrl(ad.creative);
      if imgUrl.Some? {
        MapFromPairsSnoc(ImagePairs(adStruct[..i]), ad.id, imgUrl.value);
        adImageMap := adImageMap[ad.id := imgUrl.value];
      }
      i := i + 1;
    }
    assert adStruct[..i] == adStruct;
  }

  lemma CampaignPairsSnoc(cs: seq<CampaignStruct>, c: CampaignStruct)
    ensures CampaignPairs(cs + [c]) == CampaignPairs(cs) + [(c.id, CampInfoOf(c))]
  {
  }

  lemma AdSetPairsSnoc(ss: seq<AdSetStruct>, s: AdSetStruct)
    ensures AdSetPairs(ss + [s]) == AdSetPairs(ss) + [(s.id, AdSetInfoOf(s))]
  {
  }

  /** One more ad adds its status and its parent, and its image when it has one. */
  lemma AdPairsSnoc(ads: seq<AdStruct>, ad: AdStruct)
    ensures StatusPairs(ads + [ad]) == StatusPairs(ads) + [(ad.id, ad.effectiveStatus)]
    ensures ParentPairs(ads + [ad]) == ParentPairs(ads) + [(ad.id, ad.adsetId)]
    ensures var img := GetCreativeImageUrl(ad.creative);
            && (img.Some? ==> ImagePairs(ads + [ad]) == ImagePairs(ads) + [(ad.id, img.value)])
            && (img.None? ==> ImagePairs(ads + [ad]) == ImagePairs(ads))
  {
    assert (ads + [ad])[..|ads|] == ads;
  }

  /** The three `forEach` loops over the structure arrays. */
  method BuildStructureMaps(campStruct: seq<CampaignStruct>, setStruct: seq<AdSetStruct>, adStruct: seq<AdStruct>)
    returns (maps: StructureMaps)
    ensures maps == StructureMapsOf(campStruct, setStruct, adStruct)
  {
    var campaignMap := BuildCampaignMap(campStruct);
    var adSetMap := BuildAdSetMap(setStruct);
    var adStatusMap, adImageMap, adParentMap := BuildAdMaps(adStruct);
    maps := StructureMaps(campaignMap, adSetMap, adStatusMap, adImageMap, adParentMap);
  }

  /** Every image the ad map holds is a non-empty URL found in that ad's creative. */
  lemma {:induction false} ImageMapHoldsCreativeImages(ads: seq<AdStruct>, k: Option<string>)
    requires k in MapFromPairs(ImagePairs(ads))
    ensures MapFromPairs(ImagePairs(ads))[k] != ""
    ensures exists i :: 0 <= i < |ads| && ads[i].id == k && GetCreativeImageUrl(ads[i].creative) == Some(MapFromPairs(ImagePairs(ads))[k])
    decreases |ads|
  {
    var init, last := ads[..|ads| - 1], ads[|ads| - 1];
    assert ads == init + [last];
    AdPairsSnoc(init, last);
    var img := GetCreativeImageUrl(last.creative);
    var m0 := MapFromPairs(ImagePairs(init));
    var m := MapFromPairs(ImagePairs(ads));
    if img.Some? {
      MapFromPairsSnoc(ImagePairs(init), last.id, img.value);
      assert m == m0[last.id := img.value];
    } else {
      assert m == m0;
    }
    if img.Some? && last.id == k {
      assert (last.id, img.value) in ImagePairs(ads);
      assert ads[|ads| - 1] == last;
    } else {
      assert k in m0 && m[k] == m0[k];
      ImageMapHoldsCreativeImages(init, k);
      var i :| 0 <= i < |init| && init[i].id == k && GetCreativeImageUrl(init[i].creative) == Some(m0[k]);
      assert ads[i] == init[i];
    }
  }

  // ---------------------------------------------------------------------------
  // Rows
  // ---------------------------------------------------------------------------

  /** What every row build shares: the account currency, the Date reader and clock of the
      status test, and the stand-in for the random id. */
  datatype JoinContext = JoinContext(currency: string, timeOf: string -> Option<int>, now: int, fallbackId: string)

  /** The arguments one `calculateMetrics` call receives from the join. */
  datatype RowCall = RowCall(item: Insight, level: Level, status: string, info: Option<StructInfo>,
                             adImageMap: Option<map<Option<string>, string>>, extras: Extras, objective: Option<string>)

  /** The row a call produces. */
  function RowOf(ctx: JoinContext, c: RowCall): AdRow {
    CalculateMetrics(c.item, c.level, c.status, c.info, ctx.currency, c.adImageMap, c.extras, c.objective,
                     ctx.timeOf, ctx.now, ctx.fallbackId)
  }

  /** `map.get(key)`. */
  function Get<V>(m: map<Option<string>, V>, key: Option<string>): (r: Option<V>)
    ensures r.Some? <==> key in m
    ensures r.Some? ==> r.value == m[key]
  {
    if key in m then Some(m[key]) else None
  }

  /** `info?.status`. */
  function CampStatus(info: Option<CampInfo>): Option<string> {
    if info.Some? then info.value.status else None
  }

  /** `item.objective || info?.objective`. */
  function RowObjective(item: Insight, info: Option<CampInfo>): (o: Option<string>)
    ensures Truthy(item.objective) ==> o == item.objective
    ensures !Truthy(item.objective) ==> o == if info.Some? then info.value.objective else None
  {
    Or(item.objective, if info.Some? then info.value.objective else None)
  }

  /** A campaign row: the campaign's own record is its structure info. */
  function CampaignCall(maps: StructureMaps, item: Insight): (c: RowCall)
    ensures c.item == item && c.level == Campaign && c.extras == NoExtras && c.adImageMap.None?
  {
    var info := Get(maps.campaignMap, item.campaignId);
    RowCall(item, Campaign, OrElse(CampStatus(info), "UNKNOWN"),
            if info.Some? then Some(StructInfo(info.value.stopTime, None, info.value.dailyBudget, info.value.lifetimeBudget)) else None,
            None, NoExtras, RowObjective(item, info))
  }

  /** An ad-set row: `{ stopTime: info?.endTime, ...info }`, an object even when the ad set
      is unknown. */
  function AdSetCall(maps: StructureMaps, item: Insight): (c: RowCall)
    ensures c.item == item && c.level == AdSet && c.extras == NoExtras && c.adImageMap.None? && c.info.Some?
  {
    var info := Get(maps.adSetMap, item.adsetId);
    RowCall(item, AdSet, OrElse(if info.Some? then info.value.status else None, "UNKNOWN"),
            Some(if info.Some? then StructInfo(info.value.endTime, info.value.endTime, info.value.dailyBudget, info.value.lifetimeBudget)
                 else StructInfo(None, None, None, None)),
            None, NoExtras, RowObjective(item, Get(maps.campaignMap, item.campaignId)))
  }

  /** The ad set of an ad: the record's own, else the parent recorded for the ad. */
  function AdSetIdOf(maps: StructureMaps, item: Insight): (s: Option<string>)
    ensures Truthy(item.adsetId) ==> s == item.adsetId
    ensures !Truthy(item.adsetId) ==> s == if item.adId in maps.adParentMap then maps.adParentMap[item.adId] else None
  {
    var parent := Get(maps.adParentMap, item.adId);
    Or(item.adsetId, if parent.Some? then parent.value else None)
  }

  /** An ad row: status from the ad map, stop time from its ad set, image from the image map;
      no budget reaches it. */
  function AdCall(maps: StructureMaps, item: Insight): (c: RowCall)
    ensures c.item == item && c.level == Ad && c.extras == NoExtras && c.adImageMap == Some(maps.adImageMap)
  {
    var st := Get(maps.adStatusMap, item.adId);
    var adSetId := AdSetIdOf(maps, item);
    var adSetInfo := if Truthy(adSetId) then Get(maps.adSetMap, adSetId) else None;
    RowCall(item, Ad, OrElse(if st.Some? then st.value else None, "UNKNOWN"),
            Some(StructInfo(if adSetInfo.Some? then adSetInfo.value.endTime else None, None, None, None)),
            Some(maps.adImageMap), NoExtras, RowObjective(item, Get(maps.campaignMap, item.campaignId)))
  }

  /** The display name of a gender breakdown value. */
  function GenderName(g: Option<string>): (n: string)
    ensures n == "未知" <==> g == Some("unknown")
    ensures n == "女性" <==> g == Some("female")
    ensures n == "男性" <==> g != Some("unknown") && g != Some("female")
  {
    if g == Some("unknown") then "未知" else if g == Some("female") then "女性" else "男性"
  }

  /** A gender row: no structure info; the campaign's status or 'Active'. */
  function GenderCall(maps: StructureMaps, item: Insight): (c: RowCall)
    ensures c.item == item && c.level == Gender && c.info.None? && c.adImageMap.None?
  {
    var info := Get(maps.campaignMap, item.campaignId);
    RowCall(item, Gender, OrElse(CampStatus(info), "Active"), None, None,
            GenderExtras(GenderName(item.gender), item.gender), RowObjective(item, info))
  }

  /** An age row: as a gender row, named by the age bracket. */
  function AgeCall(maps: StructureMaps, item: Insight): (c: RowCall)
    ensures c.item == item && c.level == Age && c.info.None? && c.adImageMap.None?
  {
    var info := Get(maps.campaignMap, item.campaignId);
    RowCall(item, Age, OrElse(CampStatus(info), "Active"), None, None, AgeExtras(item.age), RowObjective(item, info))
  }

  /** The insights and structure arrays, as fetched. */
  datatype Fetched = Fetched(
    campData: seq<Insight>, setData: seq<Insight>, adData: seq<Insight>,
    campStruct: seq<CampaignStruct>, setStruct: seq<AdSetStruct>, adStruct: seq<AdStruct>,
    genderData: seq<Insight>, ageData: seq<Insight>)

  function CampaignCalls(maps: StructureMaps, items: seq<Insight>): (cs: seq<RowCall>)
    ensures |cs| == |items| && forall i :: 0 <= i < |items| ==> cs[i] == CampaignCall(maps, items[i])
  {
    seq(|items|, i requires 0 <= i < |items| => CampaignCall(maps, items[i]))
  }

  function AdSetCalls(maps: StructureMaps, items: seq<Insight>): (cs: seq<RowCall>)
    ensures |cs| == |items| && forall i :: 0 <= i < |items| ==> cs[i] == AdSetCall(maps, items[i])
  {
    seq(|items|, i requires 0 <= i < |items| => AdSetCall(maps, items[i]))
  }

  function AdCalls(maps: StructureMaps, items: seq<Insight>): (cs: seq<RowCall>)
    ensures |cs| == |items| && forall i :: 0 <= i < |items| ==> cs[i] == AdCall(maps, items[i])
  {
    seq(|items|, i requires 0 <= i < |items| => AdCall(maps, items[i]))
  }

  function GenderCalls(maps: StructureMaps, items: seq<Insight>): (cs: seq<RowCall>)
    ensures |cs| == |items| && forall i :: 0 <= i < |items| ==> cs[i] == GenderCall(maps, items[i])
  {
    seq(|items|, i requires 0 <= i < |items| => GenderCall(maps, items[i]))
  }

  function AgeCalls(maps: StructureMaps, items: seq<Insight>): (cs: seq<RowCall>)
    ensures |cs| == |items| && forall i :: 0 <= i < |items| ==> cs[i] == AgeCall(maps, items[i])
  {
    seq(|items|, i requires 0 <= i < |items| => AgeCall(maps, items[i]))
  }

  /** The `calculateMetrics` calls of the join, in the order of the returned rows. */
  function JoinCalls(maps: StructureMaps, f: Fetched): seq<RowCall> {
    CampaignCalls(maps, f.campData) + AdSetCalls(maps, f.setData) + AdCalls(maps, f.adData)
    + GenderCalls(maps, f.genderData) + AgeCalls(maps, f.ageData)
  }

  /** The rows `fetchMetaAdsData` returns once everything is fetched: the maps, then one row
      per call. */
  method JoinFetched(ctx: JoinContext, f: Fetched) returns (rows: seq<AdRow>)
    ensures var calls := JoinCalls(StructureMapsOf(f.campStruct, f.setStruct, f.adStruct), f);
            |rows| == |calls| && forall i :: 0 <= i < |rows| ==> rows[i] == RowOf(ctx, calls[i])
  {
    var maps := BuildStructureMaps(f.campStruct, f.setStruct, f.adStruct);
    var calls := JoinCalls(maps, f);
    rows := seq(|calls|, i requires 0 <= i < |calls| => RowOf(ctx, calls[i]));
  }

  // ---------------------------------------------------------------------------
  // Properties
  // ---------------------------------------------------------------------------

  function LevelRank(l: Level): nat {
    match l
    case Campaign => 0
    case AdSet => 1
    case Ad => 2
    case Gender => 3
    case Age => 4
    case _ => 5
  }

  /** One call per insights record; campaigns first, then ad sets, ads, genders and ages,
      each block in input order. */
  lemma JoinLayout(maps: StructureMaps, f: Fetched)
    ensures var calls := JoinCalls(maps, f);
            var n1 := |f.campData|;
            var n2 := n1 + |f.setData|;
            var n3 := n2 + |f.adData|;
            var n4 := n3 + |f.genderData|;
            && |calls| == n4 + |f.ageData|
            && (forall i :: 0 <= i < n1 ==> calls[i] == CampaignCall(maps, f.campData[i]))
            && (forall i :: 0 <= i < |f.setData| ==> calls[n1 + i] == AdSetCall(maps, f.setData[i]))
            && (forall i :: 0 <= i < |f.adData| ==> calls[n2 + i] == AdCall(maps, f.adData[i]))
            && (forall i :: 0 <= i < |f.genderData| ==> calls[n3 + i] == GenderCall(maps, f.genderData[i]))
            && (forall i :: 0 <= i < |f.ageData| ==> calls[n4 + i] == AgeCall(maps, f.ageData[i]))
  {
  }

  ghost predicate LevelsOrdered(cs: seq<RowCall>) {
    forall i, j :: 0 <= i < j < |cs| ==> LevelRank(cs[i].level) <= LevelRank(cs[j].level)
  }

  ghost predicate RanksIn(cs: seq<RowCall>, lo: nat, hi: nat) {
    forall i :: 0 <= i < |cs| ==> lo <= LevelRank(cs[i].level) <= hi
  }

  lemma ConcatOrdered(a: seq<RowCall>, b: seq<RowCall>, lo: nat, mid: nat, hi: nat)
    requires lo <= mid <= hi
    requires LevelsOrdered(a) && RanksIn(a, lo, mid)
    requires LevelsOrdered(b) && RanksIn(b, mid, hi)
    ensures LevelsOrdered(a + b) && RanksIn(a + b, lo, hi)
  {
    var ab := a + b;
    forall i, j | 0 <= i < j < |ab|
      ensures LevelRank(ab[i].level) <= LevelRank(ab[j].level)
    {
      if j < |a| { assert ab[i] == a[i] && ab[j] == a[j]; }
      else if i >= |a| { assert ab[i] == b[i - |a|] && ab[j] == b[j - |a|]; }
      else { assert ab[i] == a[i] && ab[j] == b[j - |a|]; }
    }
    forall i | 0 <= i < |ab|
      ensures lo <= LevelRank(ab[i].level) <= hi
    {
      if i < |a| { assert ab[i] == a[i]; } else { assert ab[i] == b[i - |a|]; }
    }
  }

  /** The levels of the joined rows never go back: campaign, ad set, ad, gender, age. */
  lemma JoinLevelsOrdered(maps: StructureMaps, f: Fetched)
    ensures LevelsOrdered(JoinCalls(maps, f))
  {
    var a := CampaignCalls(maps, f.campData);
    var b := AdSetCalls(maps, f.setData);
    var c := AdCalls(maps, f.adData);
    var d := GenderCalls(maps, f.genderData);
    var e := AgeCalls(maps, f.ageData);
    assert LevelsOrdered(a) && RanksIn(a, 0, 0);
    assert LevelsOrdered(b) && RanksIn(b, 1, 1);
    assert LevelsOrdered(c) && RanksIn(c, 2, 2);
    assert LevelsOrdered(d) && RanksIn(d, 3, 3);
    assert LevelsOrdered(e) && RanksIn(e, 4, 4);
    ConcatOrdered(a, b, 0, 0, 1);
    ConcatOrdered(a + b, c, 0, 1, 2);
    ConcatOrdered(a + b + c, d, 0, 2, 3);
    ConcatOrdered(a + b + c + d, e, 0, 3, 4);
  }

  /** A record whose campaign, ad set or ad is unknown to the maps gets the status
      'UNKNOWN'; a demographic record whose campaign is unknown gets 'Active'. */
  lemma MissingStructureStatus(maps: StructureMaps, item: Insight)
    ensures item.campaignId !in maps.campaignMap ==> CampaignCall(maps, item).status == "UNKNOWN"
    ensures item.adsetId !in maps.adSetMap ==> AdSetCall(maps, item).status == "UNKNOWN"
    ensures item.adId !in maps.adStatusMap ==> AdCall(maps, item).status == "UNKNOWN"
    ensures item.campaignId !in maps.campaignMap ==> GenderCall(maps, item).status == "Active" && AgeCall(maps, item).status == "Active"
  {
  }

  /** Both defaults are shown as '未投遞', whatever the stop time: the status table is
      case-sensitive, so 'Active' is not 'ACTIVE'. */
  lemma DefaultStatusesNotDelivering(stopTime: Option<string>, timeOf: string -> Option<int>, now: int)
    ensures MapStatus("UNKNOWN", stopTime, timeOf, now) == NotDelivering
    ensures MapStatus("Active", stopTime, timeOf, now) == NotDelivering
  {
    assert "UNKNOWN" !in StatusTable && "Active" !in StatusTable;
  }

  /** A known structure passes its own status on. */
  lemma KnownStructureStatus(maps: StructureMaps, item: Insight)
    ensures item.campaignId in maps.campaignMap && Truthy(maps.campaignMap[item.campaignId].status) ==>
              CampaignCall(maps, item).status == maps.campaignMap[item.campaignId].status.value &&
              GenderCall(maps, item).status == maps.campaignMap[item.campaignId].status.value
    ensures item.adsetId in maps.adSetMap && Truthy(maps.adSetMap[item.adsetId].status) ==>
              AdSetCall(maps, item).status == maps.adSetMap[item.adsetId].status.value
    ensures item.adId in maps.adStatusMap && Truthy(maps.adStatusMap[item.adId]) ==>
              AdCall(maps, item).status == maps.adStatusMap[item.adId].value
  {
  }

  /** The stop time each level's status test sees: the campaign's stop time, the ad set's
      end time for an ad set and for its ads, none for demographic rows. */
  function StopTimeOf(c: RowCall): Option<string> {
    if c.info.Some? then Or(c.info.value.stopTime, c.info.value.endTime) else None
  }

  /** An optional string with an empty one read as absent, as `a || b` leaves it when `b`
      is absent. */
  function NonEmpty(o: Option<string>): (r: Option<string>)
    ensures r.Some? <==> Truthy(o)
    ensures r.Some? ==> r == o
  {
    if Truthy(o) then o else None
  }

  lemma StopTimes(maps: StructureMaps, item: Insight)
    ensures StopTimeOf(CampaignCall(maps, item)) ==
              if item.campaignId in maps.campaignMap then NonEmpty(maps.campaignMap[item.campaignId].stopTime) else None
    ensures StopTimeOf(AdSetCall(maps, item)) == if item.adsetId in maps.adSetMap then maps.adSetMap[item.adsetId].endTime else None
    ensures var s := AdSetIdOf(maps, item);
            StopTimeOf(AdCall(maps, item)) == if Truthy(s) && s in maps.adSetMap then NonEmpty(maps.adSetMap[s].endTime) else None
    ensures StopTimeOf(GenderCall(maps, item)).None? && StopTimeOf(AgeCall(maps, item)).None?
  {
  }

  /** Only campaign and ad-set rows can carry a budget: ads and demographic rows pass none. */
  lemma BudgetsOnlyFromCampaignsAndAdSets(maps: StructureMaps, item: Insight, divider: real)
    requires divider > 0.0
    ensures SelectBudget(AdCall(maps, item).info, Ad, divider) == Budget(0.0, "")
    ensures SelectBudget(GenderCall(maps, item).info, Gender, divider) == Budget(0.0, "")
    ensures SelectBudget(AgeCall(maps, item).info, Age, divider) == Budget(0.0, "")
  {
  }

  /** The row of each call: its level, status, image and name as `calculateMetrics` makes them. */
  lemma RowOfCall(ctx: JoinContext, c: RowCall)
    ensures var r := RowOf(ctx, c);
            && r.level == c.level
            && r.status == MapStatus(c.status, StopTimeOf(c), ctx.timeOf, ctx.now)
            && r.imageUrl == ImageFor(c.adImageMap, c.item.adId)
            && (c.extras.GenderExtras? ==> r.name == c.extras.name && r.gender == c.extras.gender)
  {
  }
}
