/** The manual result-type override of the dashboard (App.tsx, `applyOverride`): the user picks
    a row of the active project and an action type, and that row's conversions, cost per
    result, result label and optimisation goal are recomputed for that action type. */
module AppOverride {
  import opened JsText
  import opened JsNumber
  import opened AdTypes
  import opened Seqs

  /** The action types offered, each with its caption. */
  const OverrideOptions: seq<(string, string)> := [
    ("purchase", "網站購買 (Purchase)"),
    ("on_facebook_lead", "潛在客戶 (Leads)"),
    ("link_click", "連結點擊 (Link Clicks)"),
    ("omni_landing_page_view", "頁面瀏覽 (Landing Page View)"),
    ("video_thruplay_watched_actions", "ThruPlay (Video)"),
    ("onsite_conversion.messaging_conversation_started_7d", "開始訊息對話 (Messages)"),
    ("post_engagement", "貼文互動 (Engagement)")
  ]

  /** `list.find(a => a.action_type === t)`. */
  function FindAction(actions: seq<Action>, t: string): (r: Option<Action>)
    ensures r.None? <==> forall i :: 0 <= i < |actions| ==> actions[i].actionType != t
    ensures r.Some? ==> exists i :: 0 <= i < |actions| && actions[i] == r.value && r.value.actionType == t
                                  && forall j :: 0 <= j < i ==> actions[j].actionType != t
  {
    if actions == [] then None
    else if actions[0].actionType == t then Some(actions[0])
    else
      var r := FindAction(actions[1..], t);
      if r.Some? then
        var i :| 0 <= i < |actions[1..]| && actions[1..][i] == r.value && r.value.actionType == t
                 && forall j :: 0 <= j < i ==> actions[1..][j].actionType != t;
        assert actions[i + 1] == r.value;
        assert forall j :: 0 <= j < i + 1 ==> actions[j].actionType != t by {
          forall j | 0 <= j < i + 1 ensures actions[j].actionType != t {
            if j > 0 { assert actions[j] == actions[1..][j - 1]; }
          }
        }
        r
      else
        assert forall i :: 1 <= i < |actions| ==> actions[i] == actions[1..][i - 1];
        r
  }

  /** The value of the first entry of `list` with action type `t`, through
      `parseFloat(value)`; 0 when the list is absent or has no such entry. */
  function ActionValue(list: Option<seq<Action>>, t: string): (v: real)
    ensures list.None? ==> v == 0.0
    ensures list.Some? && (forall i :: 0 <= i < |list.value| ==> list.value[i].actionType != t) ==> v == 0.0
    ensures list.Some? ==> forall i :: 0 <= i < |list.value| && list.value[i].actionType == t
                             && (forall j :: 0 <= j < i ==> list.value[j].actionType != t)
                             ==> v == ParseFloatOr0(list.value[i].value)
  {
    if list.None? then 0.0
    else match FindAction(list.value, t)
      case Some(a) => ParseFloatOr0(a.value)
      case None => 0.0
  }

  function OrZero(o: Option<real>): real {
    if o.Some? then o.value else 0.0
  }

  /** The four action types that have a column of their own. */
  const FallbackTypes: seq<string> := ["link_click", "purchase", "omni_landing_page_view", "video_thruplay_watched_actions"]

  /** The column read when the actions report nothing for `t`. */
  function ColumnFallback(row: AdRow, t: string): (v: real)
    ensures t !in FallbackTypes ==> v == 0.0
  {
    if t == "link_click" then row.linkClicks
    else if t == "purchase" then row.websitePurchases
    else if t == "omni_landing_page_view" then OrZero(row.landingPageViews)
    else if t == "video_thruplay_watched_actions" then OrZero(row.videoViews)
    else 0.0
  }

  /** The new conversions value: the reported action value, or the matching column when that
      value is 0. */
  function OverrideValue(row: AdRow, t: string): real {
    var v := ActionValue(row.rawActions, t);
    if v == 0.0 then ColumnFallback(row, t) else v
  }

  /** The new cost per result: the reported cost per action, or spend over the new value
      when that cost is 0 and the value positive. */
  function OverrideCost(row: AdRow, t: string, newVal: real): real {
    var c := ActionValue(row.costPerActionType, t);
    if c == 0.0 && newVal > 0.0 then row.spend / newVal else c
  }

  /** The caption of `t` up to " (", or `t` itself when it is not an offered option. */
  function OverrideLabel(t: string): string {
    match Lookup(OverrideOptions, t)
    case Some(caption) => PrefixBefore(caption, " (")
    case None => t
  }

  /** The keys the override writes after spreading the row. */
  const OverriddenKeys: seq<string> := ["conversions", "resultType", "costPerResult", "optimizationGoal"]

  predicate NotOverridden(kv: (string, string)) {
    kv.0 !in OverriddenKeys
  }

  /** Dropping the overridden keys leaves every other key's raw column in place. */
  lemma {:induction false} LookupKept(extra: seq<(string, string)>, k: string)
    ensures k in OverriddenKeys ==> Lookup(Filter(extra, NotOverridden), k).None?
    ensures k !in OverriddenKeys ==> Lookup(Filter(extra, NotOverridden), k) == Lookup(extra, k)
    decreases |extra|
  {
    if extra != [] {
      var x, rest := extra[0], extra[1..];
      var tail := Filter(rest, NotOverridden);
      assert extra == [x] + rest;
      FilterCons(x, rest, NotOverridden);
      LookupKept(rest, k);
      assert Lookup(extra, k) == if x.0 == k then Some(x.1) else Lookup(rest, k);
      if NotOverridden(x) {
        var f := [x] + tail;
        assert f[0] == x && f[1..] == tail;
        assert Lookup(f, k) == if x.0 == k then Some(x.1) else Lookup(tail, k);
      } else {
        assert Filter(extra, NotOverridden) == tail;
      }
    }
  }

  /** `{ ...row, conversions, resultType, costPerResult, optimizationGoal }`: everything but
      the four written keys is copied, and a raw column of one of those names is shadowed by
      the written value, so it is dropped. */
  function OverrideRow(row: AdRow, t: string): (r: AdRow)
    ensures r.(conversions := row.conversions, resultType := row.resultType, costPerResult := row.costPerResult,
               optimizationGoal := row.optimizationGoal, extra := row.extra) == row
    ensures forall i :: 0 <= i < |r.extra| ==> r.extra[i].0 !in OverriddenKeys
  {
    var newVal := OverrideValue(row, t);
    row.(conversions := newVal, resultType := Some(OverrideLabel(t)),
         costPerResult := OverrideCost(row, t, newVal),
         optimizationGoal := Some("MANUAL_" + ToUpper(t)),
         extra := Filter(row.extra, NotOverridden))
  }

  /** Where the four overridden keys sit among a row's own properties. */
  lemma OwnConversions(r: AdRow)
    ensures OwnProp(r, "conversions") == JsNumber(r.conversions)
  {
  }

  lemma OwnCostPerResult(r: AdRow)
    ensures OwnProp(r, "costPerResult") == JsNumber(r.costPerResult)
  {
  }

  lemma OwnResultType(r: AdRow)
    ensures OwnProp(r, "resultType") == OptString(r.resultType)
  {
  }

  lemma OwnOptimizationGoal(r: AdRow)
    ensures OwnProp(r, "optimizationGoal") == OptString(r.optimizationGoal)
  {
  }

  /** The overridden row, as script code reads it: the new value, cost, label and goal, over
      any raw column of the same name. */
  lemma OverrideRowProps(row: AdRow, t: string)
    ensures Prop(OverrideRow(row, t), "conversions") == JsNumber(OverrideValue(row, t))
    ensures Prop(OverrideRow(row, t), "costPerResult") == JsNumber(OverrideCost(row, t, OverrideValue(row, t)))
    ensures Prop(OverrideRow(row, t), "resultType") == JsString(OverrideLabel(t))
    ensures Prop(OverrideRow(row, t), "optimizationGoal") == JsString("MANUAL_" + ToUpper(t))
  {
    var r := OverrideRow(row, t);
    OwnConversions(r);
    OwnCostPerResult(r);
    OwnResultType(r);
    OwnOptimizationGoal(r);
    LookupKept(row.extra, "conversions");
    LookupKept(row.extra, "costPerResult");
    LookupKept(row.extra, "resultType");
    LookupKept(row.extra, "optimizationGoal");
  }

  /** Overriding twice with the same type gives the row of overriding once. */
  lemma OverrideIdempotent(row: AdRow, t: string)
    ensures OverrideRow(OverrideRow(row, t), t) == OverrideRow(row, t)
  {
    var r1 := OverrideRow(row, t);
    assert OverrideValue(r1, t) == OverrideValue(row, t);
    var kept := Filter(row.extra, NotOverridden);
    FilterAll(kept, NotOverridden);
  }

  /** A derived cost is the cost per result it names: times the new value it gives the spend. */
  lemma OverrideCostTimesValue(row: AdRow, t: string, v: real)
    requires ActionValue(row.costPerActionType, t) == 0.0 && v > 0.0
    ensures OverrideCost(row, t, v) * v == row.spend
  {
    assert OverrideCost(row, t, v) == row.spend / v;
  }

  /** With no reported cost and no positive value the cost is 0. */
  lemma OverrideCostWithoutValue(row: AdRow, t: string, v: real)
    requires ActionValue(row.costPerActionType, t) == 0.0 && v <= 0.0
    ensures OverrideCost(row, t, v) == 0.0
  {
  }

  /** The label of an offered type is its caption's text before " (". */
  lemma PurchaseLabel()
    ensures OverrideLabel("purchase") == "網站購買"
  {
    assert Lookup(OverrideOptions, "purchase") == Some("網站購買 (Purchase)");
    assert "網站購買 (Purchase)" == "網站購買" + " (" + "Purchase)";
    PrefixBeforeFirst("網站購買", " (", "Purchase)");
  }

  /** A type that is not offered is its own label. */
  lemma UnofferedLabel(t: string)
    requires forall i :: 0 <= i < |OverrideOptions| ==> OverrideOptions[i].0 != t
    ensures OverrideLabel(t) == t
  {
  }

  /** The override of the selected row inside one project. */
  function OverrideInProject(p: Project, selectedId: string, t: string, now: int): Project {
    p.(data := seq(|p.data|, j requires 0 <= j < |p.data| =>
                     if p.data[j].id == selectedId then OverrideRow(p.data[j], t) else p.data[j]),
       updatedAt := now)
  }

  /** `applyOverride()`: nothing happens without a selected row, an active project and a
      target type; otherwise only rows with the selected id inside projects with the active
      id change, and those projects take the new update time. */
  function ApplyOverride(projects: seq<Project>, selected: Option<AdRow>, active: Option<Project>,
                         t: string, now: int): (r: seq<Project>)
    ensures |r| == |projects|
    ensures selected.None? || active.None? || t == "" ==> r == projects
    ensures forall i :: 0 <= i < |r| && active.Some? && projects[i].id != active.value.id ==> r[i] == projects[i]
    ensures selected.Some? && active.Some? && t != "" ==>
              forall i :: 0 <= i < |r| && projects[i].id == active.value.id ==>
                && r[i].(data := projects[i].data, updatedAt := projects[i].updatedAt) == projects[i]
                && r[i].updatedAt == now
                && |r[i].data| == |projects[i].data|
                && forall j :: 0 <= j < |r[i].data| ==>
                     r[i].data[j] == if projects[i].data[j].id == selected.value.id
                                     then OverrideRow(projects[i].data[j], t) else projects[i].data[j]
  {
    if selected.None? || active.None? || t == "" then projects
    else
      seq(|projects|, i requires 0 <= i < |projects| =>
            if projects[i].id != active.value.id then projects[i]
            else OverrideInProject(projects[i], selected.value.id, t, now))
  }

  /** Applying the same override again changes nothing more. */
  lemma ApplyOverrideIdempotent(projects: seq<Project>, selected: Option<AdRow>, active: Option<Project>,
                                t: string, now: int)
    ensures ApplyOverride(ApplyOverride(projects, selected, active, t, now), selected, active, t, now)
            == ApplyOverride(projects, selected, active, t, now)
  {
    if selected.Some? && active.Some? && t != "" {
      var once := ApplyOverride(projects, selected, active, t, now);
      var twice := ApplyOverride(once, selected, active, t, now);
      forall i | 0 <= i < |projects| ensures twice[i] == once[i] {
        if projects[i].id == active.value.id {
          forall j | 0 <= j < |once[i].data| ensures twice[i].data[j] == once[i].data[j] {
            if projects[i].data[j].id == selected.value.id {
              OverrideIdempotent(projects[i].data[j], t);
            }
          }
        }
      }
    }
  }
}
