/** Choosing the "result" of a Meta insights record: which action counts as the row's result,
    with its value and display label (services/metaApiService.ts, getResultData). */
module MetaResult {
  import opened JsText
  import opened JsNumber
  import opened AdTypes

  // Action types the selection looks at.
  const ThruPlayAction := "video_thruplay_watched_actions"
  const MessagingStartedAction := "onsite_conversion.messaging_conversation_started_7d"
  const PostEngagementAction := "post_engagement"
  const LandingPageViewAction := "landing_page_view"
  const LinkClickAction := "link_click"
  const PurchaseAction := "purchase"
  const OmniPurchaseAction := "omni_purchase"
  const PixelPurchaseAction := "offsite_conversion.fb_pixel_purchase"
  const LeadAction := "lead"
  const FacebookLeadAction := "on_facebook_lead"

  /** The kinds of result the selection can report, each with its display label. */
  datatype ResultKind = NoKind | ThruPlay | Messaging | PostEngagement | LandingPage | LinkClick | Purchase | Lead

  function Caption(k: ResultKind): string {
    match k
    case NoKind => "成果"
    case ThruPlay => "ThruPlay 次數"
    case Messaging => "開始訊息對話"
    case PostEngagement => "貼文互動"
    case LandingPage => "連結頁面瀏覽"
    case LinkClick => "連結點擊"
    case Purchase => "網站購買"
    case Lead => "潛在客戶"
  }

  /** `{ value, label }`; the label is `Caption(kind)`. */
  datatype ResultData = ResultData(value: real, kind: ResultKind)

  /** The neutral result `{0, '成果'}`. */
  const NoResult := ResultData(0.0, NoKind)

  /** Index of the first action of type `t`, or `|actions|` when there is none. */
  function FirstIndexOfType(actions: seq<Action>, t: string): (i: nat)
    ensures i <= |actions|
    ensures forall j :: 0 <= j < i ==> actions[j].actionType != t
    ensures i < |actions| ==> actions[i].actionType == t
    decreases |actions|
  {
    if actions == [] then 0
    else if actions[0].actionType == t then 0
    else 1 + FirstIndexOfType(actions[1..], t)
  }

  /** `findVal(t)`: the parsed value of the first action of type `t`, 0 when there is none.
      A value `parseFloat` cannot read (NaN in the source) is read as 0; the value is only
      ever compared with `> 0` or combined with `||`, where NaN and 0 behave alike. */
  function FindVal(actions: seq<Action>, t: string): real {
    var i := FirstIndexOfType(actions, t);
    if i < |actions| then ParseFloatOr0(actions[i].value) else 0.0
  }

  /** `a || b` on numbers: `b` when `a` is 0. */
  function NumOr(a: real, b: real): real {
    if a != 0.0 then a else b
  }

  /** `findVal` as the lookup the selection below is written against: the source defines it
      as a local closure over `actions`, and the selection only ever calls it. */
  function ValueLookup(actions: seq<Action>): string -> real {
    t => FindVal(actions, t)
  }

  /** The action types whose first value a result of this kind reports. */
  function KeysFor(k: ResultKind): seq<string> {
    match k
    case NoKind => []
    case ThruPlay => [ThruPlayAction]
    case Messaging => [MessagingStartedAction]
    case PostEngagement => [PostEngagementAction]
    case LandingPage => [LandingPageViewAction]
    case LinkClick => [LinkClickAction]
    case Purchase => [PurchaseAction, OmniPurchaseAction, PixelPurchaseAction]
    case Lead => [LeadAction, FacebookLeadAction]
  }

  /** The values `val` gives the action types of a kind, in the order of `KeysFor`. */
  function KeyValues(val: string -> real, k: ResultKind): (vs: seq<real>)
    ensures |vs| == |KeysFor(k)|
    ensures forall i :: 0 <= i < |vs| ==> vs[i] == val(KeysFor(k)[i])
  {
    match k
    case NoKind => []
    case ThruPlay => [val(ThruPlayAction)]
    case Messaging => [val(MessagingStartedAction)]
    case PostEngagement => [val(PostEngagementAction)]
    case LandingPage => [val(LandingPageViewAction)]
    case LinkClick => [val(LinkClickAction)]
    case Purchase => [val(PurchaseAction), val(OmniPurchaseAction), val(PixelPurchaseAction)]
    case Lead => [val(LeadAction), val(FacebookLeadAction)]
  }

  /** A result is genuine when its value is positive and is the value of one of the action
      types tied to its kind. */
  ghost predicate Reported(val: string -> real, r: ResultData) {
    r.value > 0.0 && r.value in KeyValues(val, r.kind)
  }

  /** The result reporting the value of action type `t` as a result of kind `k`. */
  function Candidate(val: string -> real, t: string, k: ResultKind): ResultData {
    ResultData(val(t), k)
  }

  /** `findVal('purchase') || findVal('omni_purchase') || findVal('offsite_conversion.fb_pixel_purchase')`. */
  function PurchaseValue(val: string -> real): real {
    NumOr(NumOr(val(PurchaseAction), val(OmniPurchaseAction)), val(PixelPurchaseAction))
  }

  // ---------------------------------------------------------------------------
  // Stage 1: campaign-name heuristic
  // ---------------------------------------------------------------------------

  predicate VideoName(name: Option<string>) {
    Truthy(name) && (Contains(name.value, "觀影") || Contains(name.value, "Video") || Contains(name.value, "View"))
  }

  function NameStage(val: string -> real, name: Option<string>): (r: Option<ResultData>)
    ensures r.Some? ==> Reported(val, r.value)
  {
    var thru := val(ThruPlayAction);
    if VideoName(name) && thru > 0.0 then Some(ResultData(thru, ThruPlay)) else None
  }

  // ---------------------------------------------------------------------------
  // Stage 2: objective-specific cascades
  // ---------------------------------------------------------------------------

  predicate IsMessagingObjective(o: string) {
    Contains(o, "MESSAGES") || o == "OUTCOME_ENGAGEMENT"
  }

  predicate IsTrafficObjective(o: string) {
    o == "OUTCOME_TRAFFIC" || o == "TRAFFIC" || o == "LINK_CLICKS"
  }

  predicate IsAwarenessObjective(o: string) {
    o == "OUTCOME_AWARENESS" || o == "VIDEO_VIEWS"
  }

  predicate IsSalesObjective(o: string) {
    o == "OUTCOME_SALES" || o == "CONVERSIONS"
  }

  predicate IsLeadsObjective(o: string) {
    o == "OUTCOME_LEADS" || o == "LEAD_GENERATION"
  }

  function MessagingBranch(val: string -> real): (r: Option<ResultData>)
    ensures r.Some? ==> Reported(val, r.value)
  {
    var msg := val(MessagingStartedAction);
    var thru := val(ThruPlayAction);
    var postEng := val(PostEngagementAction);
    if msg > 0.0 then Some(ResultData(msg, Messaging))
    else if thru > 0.0 then Some(ResultData(thru, ThruPlay))
    else if postEng > 0.0 then Some(ResultData(postEng, PostEngagement))
    else None
  }

  function TrafficBranch(val: string -> real): (r: Option<ResultData>)
    ensures r.Some? ==> Reported(val, r.value)
  {
    var lp := val(LandingPageViewAction);
    var lc := val(LinkClickAction);
    if lp > 0.0 then Some(ResultData(lp, LandingPage))
    else if lc > 0.0 then Some(ResultData(lc, LinkClick))
    else None
  }

  /** The awareness branch also reads the 'reach' action, but never uses it. */
  function AwarenessBranch(val: string -> real): (r: Option<ResultData>)
    ensures r.Some? ==> Reported(val, r.value)
  {
    var thru := val(ThruPlayAction);
    if thru > 0.0 then Some(ResultData(thru, ThruPlay)) else None
  }

  function SalesBranch(val: string -> real): (r: Option<ResultData>)
    ensures r.Some? ==> Reported(val, r.value)
  {
    var purch := PurchaseValue(val);
    if purch > 0.0 then Some(ResultData(purch, Purchase)) else None
  }

  function LeadsBranch(val: string -> real): (r: Option<ResultData>)
    ensures r.Some? ==> Reported(val, r.value)
  {
    var lead := NumOr(val(LeadAction), val(FacebookLeadAction));
    if lead > 0.0 then Some(ResultData(lead, Lead)) else None
  }

  /** The objective branches in the order the source tests them; a branch that finds no
      positive value lets the next matching branch, and then stage 3, decide. */
  function ObjectiveStage(val: string -> real, objective: Option<string>): (r: Option<ResultData>)
    ensures r.Some? ==> Reported(val, r.value)
  {
    if !Truthy(objective) then None
    else
      var o := objective.value;
      if IsMessagingObjective(o) && MessagingBranch(val).Some? then MessagingBranch(val)
      else if IsTrafficObjective(o) && TrafficBranch(val).Some? then TrafficBranch(val)
      else if IsAwarenessObjective(o) && AwarenessBranch(val).Some? then AwarenessBranch(val)
      else if IsSalesObjective(o) && SalesBranch(val).Some? then SalesBranch(val)
      else if IsLeadsObjective(o) && LeadsBranch(val).Some? then LeadsBranch(val)
      else None
  }

  // ---------------------------------------------------------------------------
  // Stage 3: generic priority
  // ---------------------------------------------------------------------------

  function GenericStage(val: string -> real): (r: ResultData)
    ensures r == NoResult || Reported(val, r)
  {
    var purchase := PurchaseValue(val);
    var leads := val(LeadAction);
    var messaging := val(MessagingStartedAction);
    var thruPlay := val(ThruPlayAction);
    var lpView := val(LandingPageViewAction);
    var linkClick := val(LinkClickAction);
    var engagement := val(PostEngagementAction);
    if purchase > 0.0 then ResultData(purchase, Purchase)
    else if leads > 0.0 then ResultData(leads, Lead)
    else if messaging > 0.0 then ResultData(messaging, Messaging)
    else if thruPlay > 0.0 then ResultData(thruPlay, ThruPlay)
    else if lpView > 0.0 then ResultData(lpView, LandingPage)
    else if linkClick > 0.0 then ResultData(linkClick, LinkClick)
    else if engagement > 0.0 then ResultData(engagement, PostEngagement)
    else NoResult
  }

  /** The three stages in order, over a lookup of action values. */
  function SelectResult(val: string -> real, objective: Option<string>, campaignName: Option<string>): (r: ResultData)
    ensures r == NoResult || Reported(val, r)
    ensures r.kind == NoKind <==> r == NoResult
  {
    var byName := NameStage(val, campaignName);
    if byName.Some? then byName.value
    else
      var byObjective := ObjectiveStage(val, objective);
      if byObjective.Some? then byObjective.value
      else GenericStage(val)
  }

  /** `getResultData(actions, objective, campaignName)`: the neutral `{0, '成果'}` for no
      actions, otherwise the three stages over `findVal`. The result is either neutral or a
      positive value read from an action type tied to its label. */
  function GetResultData(actions: seq<Action>, objective: Option<string>, campaignName: Option<string>): (r: ResultData)
    ensures r == NoResult || Reported(ValueLookup(actions), r)
    ensures |actions| == 0 ==> r == NoResult
    ensures r.kind == NoKind <==> r == NoResult
  {
    if |actions| == 0 then NoResult else SelectResult(ValueLookup(actions), objective, campaignName)
  }

  // ---------------------------------------------------------------------------
  // Properties
  // ---------------------------------------------------------------------------

  /** The value of a reported result is the value of an action actually present in the
      list: the first action of one of the label's types. */
  lemma ReportedValueIsPresent(actions: seq<Action>, r: ResultData)
    requires Reported(ValueLookup(actions), r)
    ensures exists i :: 0 <= i < |actions| && actions[i].actionType in KeysFor(r.kind)
              && r.value == ParseFloatOr0(actions[i].value)
              && forall j :: 0 <= j < i ==> actions[j].actionType != actions[i].actionType
  {
    var vs := KeyValues(ValueLookup(actions), r.kind);
    var n :| 0 <= n < |vs| && vs[n] == r.value;
    var k := KeysFor(r.kind)[n];
    assert r.value == FindVal(actions, k);
    var i := FirstIndexOfType(actions, k);
    assert i < |actions|;
  }

  /** Without an action of positive value the result is the neutral one. */
  lemma NothingPositiveIsNeutral(val: string -> real, objective: Option<string>, name: Option<string>)
    requires forall t :: val(t) <= 0.0
    ensures SelectResult(val, objective, name) == NoResult
  {
  }

  /** The name heuristic takes precedence over every objective and every other action. */
  lemma NameHeuristicWins(val: string -> real, objective: Option<string>, name: Option<string>)
    requires VideoName(name) && val(ThruPlayAction) > 0.0
    ensures SelectResult(val, objective, name) == Candidate(val, ThruPlayAction, ThruPlay)
  {
  }

  /** No traffic objective mentions MESSAGES: none of them contains a 'G'. */
  lemma NoMessagesInTraffic(o: string)
    requires IsTrafficObjective(o)
    ensures !Contains(o, "MESSAGES")
  {
    ContainsIff(o, "MESSAGES");
    assert forall k :: 0 <= k < |o| ==> o[k] != 'G';
    forall i | 0 <= i && i + 8 <= |o| ensures !OccursAt(o, "MESSAGES", i) {
      assert o[i..i + 8][5] == o[i + 5];
    }
  }

  /** Under a traffic objective, landing-page views come before link clicks. */
  lemma TrafficOrder(val: string -> real, objective: Option<string>, name: Option<string>)
    requires Truthy(objective) && IsTrafficObjective(objective.value)
    requires NameStage(val, name).None?
    ensures val(LandingPageViewAction) > 0.0 ==>
      SelectResult(val, objective, name) == Candidate(val, LandingPageViewAction, LandingPage)
    ensures val(LandingPageViewAction) <= 0.0 && val(LinkClickAction) > 0.0 ==>
      SelectResult(val, objective, name) == Candidate(val, LinkClickAction, LinkClick)
  {
    NoMessagesInTraffic(objective.value);
  }

  /** Under a messaging or engagement objective: conversations started, then ThruPlay,
      then post engagement. */
  lemma MessagingOrder(val: string -> real, objective: Option<string>, name: Option<string>)
    requires Truthy(objective) && IsMessagingObjective(objective.value)
    requires NameStage(val, name).None?
    ensures val(MessagingStartedAction) > 0.0 ==>
      SelectResult(val, objective, name) == Candidate(val, MessagingStartedAction, Messaging)
    ensures val(MessagingStartedAction) <= 0.0 && val(ThruPlayAction) > 0.0 ==>
      SelectResult(val, objective, name) == Candidate(val, ThruPlayAction, ThruPlay)
    ensures val(MessagingStartedAction) <= 0.0 && val(ThruPlayAction) <= 0.0 && val(PostEngagementAction) > 0.0 ==>
      SelectResult(val, objective, name) == Candidate(val, PostEngagementAction, PostEngagement)
  {
  }

  /** When no action type of the objective branches that match has a positive value, the
      objective plays no part: the result is what the generic priority gives. */
  lemma ObjectiveFallsThrough(val: string -> real, objective: Option<string>, name: Option<string>)
    requires NameStage(val, name).None?
    requires Truthy(objective)
    requires IsMessagingObjective(objective.value) ==>
               (val(MessagingStartedAction) <= 0.0 && val(ThruPlayAction) <= 0.0 && val(PostEngagementAction) <= 0.0)
    requires IsTrafficObjective(objective.value) ==>
               (val(LandingPageViewAction) <= 0.0 && val(LinkClickAction) <= 0.0)
    requires IsAwarenessObjective(objective.value) ==> val(ThruPlayAction) <= 0.0
    requires IsSalesObjective(objective.value) ==> PurchaseValue(val) <= 0.0
    requires IsLeadsObjective(objective.value) ==> NumOr(val(LeadAction), val(FacebookLeadAction)) <= 0.0
    ensures SelectResult(val, objective, name) == SelectResult(val, None, name)
    ensures SelectResult(val, objective, name) == GenericStage(val)
  {
  }

  /** The generic priority as a table: the first entry with a positive value wins. */
  function GenericTable(val: string -> real): seq<ResultData> {
    [ ResultData(PurchaseValue(val), Purchase),
      Candidate(val, LeadAction, Lead),
      Candidate(val, MessagingStartedAction, Messaging),
      Candidate(val, ThruPlayAction, ThruPlay),
      Candidate(val, LandingPageViewAction, LandingPage),
      Candidate(val, LinkClickAction, LinkClick),
      Candidate(val, PostEngagementAction, PostEngagement) ]
  }

  function FirstPositive(table: seq<ResultData>): ResultData {
    if table == [] then NoResult
    else if table[0].value > 0.0 then table[0]
    else FirstPositive(table[1..])
  }

  /** The generic cascade picks the first positive entry of its priority table: purchase,
      lead, messaging, ThruPlay, landing-page view, link click, post engagement. */
  lemma GenericStageIsFirstPositive(val: string -> real)
    ensures GenericStage(val) == FirstPositive(GenericTable(val))
  {
    var t := GenericTable(val);
    assert t[7..] == [];
    assert FirstPositive(t[6..]) == if t[6].value > 0.0 then t[6] else NoResult;
    assert FirstPositive(t[5..]) == if t[5].value > 0.0 then t[5] else FirstPositive(t[6..]);
    assert FirstPositive(t[4..]) == if t[4].value > 0.0 then t[4] else FirstPositive(t[5..]);
    assert FirstPositive(t[3..]) == if t[3].value > 0.0 then t[3] else FirstPositive(t[4..]);
    assert FirstPositive(t[2..]) == if t[2].value > 0.0 then t[2] else FirstPositive(t[3..]);
    assert FirstPositive(t[1..]) == if t[1].value > 0.0 then t[1] else FirstPositive(t[2..]);
  }

  /** The purchase value is the first of the three purchase counts that is not 0. */
  lemma PurchaseValueIsFirstNonZero(val: string -> real)
    ensures PurchaseValue(val) in KeyValues(val, Purchase)
    ensures PurchaseValue(val) != 0.0 <==>
      (val(PurchaseAction) != 0.0 || val(OmniPurchaseAction) != 0.0 || val(PixelPurchaseAction) != 0.0)
  {
  }
}
