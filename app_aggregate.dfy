/** The dashboard's demographic breakdown: the rows of one level (age or gender) grouped by
    name, seven counts summed per group, the rates recomputed from those sums, the groups
    ordered by name, and a total row over all groups. */
module AppAggregate {
  import opened JsText
  import opened AdTypes
  import opened Sorting
  import opened Seqs

  /** The dashboard tab: one per level, plus every row and the campaign-level preset view. */
  datatype Tab = AllTab | YangyuTab | LevelTab(level: Level)

  /** The six counts every rate is computed from. */
  datatype Counts = Counts(impressions: real, clicks: real, spend: real, linkClicks: real,
                           websitePurchases: real, conversions: real)

  /** A group's accumulator: the six counts and the conversion value. */
  datatype Sums = Sums(counts: Counts, conversionValue: real)

  const NoCounts := Counts(0.0, 0.0, 0.0, 0.0, 0.0, 0.0)
  const NoSums := Sums(NoCounts, 0.0)

  function RowCounts(r: AdRow): Counts {
    Counts(r.impressions, r.clicks, r.spend, r.linkClicks, r.websitePurchases, r.conversions)
  }

  function AddCounts(c: Counts, d: Counts): Counts {
    Counts(c.impressions + d.impressions, c.clicks + d.clicks, c.spend + d.spend,
           c.linkClicks + d.linkClicks, c.websitePurchases + d.websitePurchases,
           c.conversions + d.conversions)
  }

  /** The seven `+=` of one row into its group. */
  function AddRow(s: Sums, r: AdRow): Sums {
    Sums(AddCounts(s.counts, RowCounts(r)), s.conversionValue + r.conversionValue)
  }

  // ---------------------------------------------------------------------------
  // The summed fields, one at a time
  // ---------------------------------------------------------------------------

  datatype CountMetric = Impressions | Clicks | Spend | LinkClicks | WebsitePurchases | Conversions
  datatype Metric = Counted(count: CountMetric) | ConversionValue

  function CountOf(c: Counts, m: CountMetric): real {
    match m
    case Impressions => c.impressions
    case Clicks => c.clicks
    case Spend => c.spend
    case LinkClicks => c.linkClicks
    case WebsitePurchases => c.websitePurchases
    case Conversions => c.conversions
  }

  function SumOf(s: Sums, m: Metric): real {
    match m
    case Counted(c) => CountOf(s.counts, c)
    case ConversionValue => s.conversionValue
  }

  function RowValue(r: AdRow, m: Metric): real {
    match m
    case Counted(c) => CountOf(RowCounts(r), c)
    case ConversionValue => r.conversionValue
  }

  function RowMetric(m: Metric): AdRow -> real {
    (r: AdRow) => RowValue(r, m)
  }

  // ---------------------------------------------------------------------------
  // Rates
  // ---------------------------------------------------------------------------

  datatype Rates = Rates(ctr: real, cpc: real, linkCtr: real, linkCpc: real, cpa: real,
                         conversionRate: real)

  /** `conversions || websitePurchases`: the conversions, or the purchases when there are none. */
  function Basis(c: Counts): real {
    if c.conversions != 0.0 then c.conversions else c.websitePurchases
  }

  /** `d ? n / d : 0` for a number `d`, which is falsy exactly when it is zero. */
  function Ratio(n: real, d: real): (q: real)
    ensures d != 0.0 ==> q * d == n
    ensures d == 0.0 ==> q == 0.0
  {
    if d != 0.0 then n / d else 0.0
  }

  /** The rates of a group or of the total row, recomputed from its counts. */
  function CalcRates(c: Counts): (r: Rates)
    ensures c.impressions != 0.0 ==> r.ctr * c.impressions == 100.0 * c.clicks
    ensures c.impressions != 0.0 ==> r.linkCtr * c.impressions == 100.0 * c.linkClicks
    ensures c.clicks != 0.0 ==> r.cpc * c.clicks == c.spend
    ensures c.linkClicks != 0.0 ==> r.linkCpc * c.linkClicks == c.spend
    ensures Basis(c) != 0.0 ==> r.cpa * Basis(c) == c.spend
    ensures c.linkClicks != 0.0 ==> r.conversionRate * c.linkClicks == 100.0 * Basis(c)
    ensures c.impressions == 0.0 ==> r.ctr == 0.0 && r.linkCtr == 0.0
    ensures c.clicks == 0.0 ==> r.cpc == 0.0
    ensures c.linkClicks == 0.0 ==> r.linkCpc == 0.0 && r.conversionRate == 0.0
    ensures Basis(c) == 0.0 ==> r.cpa == 0.0
  {
    var ctr := Ratio(c.clicks, c.impressions);
    var linkCtr := Ratio(c.linkClicks, c.impressions);
    var cvr := Ratio(Basis(c), c.linkClicks);
    assert (ctr * 100.0) * c.impressions == 100.0 * (ctr * c.impressions);
    assert (linkCtr * 100.0) * c.impressions == 100.0 * (linkCtr * c.impressions);
    assert (cvr * 100.0) * c.linkClicks == 100.0 * (cvr * c.linkClicks);
    Rates(ctr * 100.0, Ratio(c.spend, c.clicks), linkCtr * 100.0,
          Ratio(c.spend, c.linkClicks), Ratio(c.spend, Basis(c)), cvr * 100.0)
  }

  // ---------------------------------------------------------------------------
  // Grouping
  // ---------------------------------------------------------------------------

  /** A group: its name (the dictionary key) and its sums. */
  type Group = (string, Sums)

  /** Where `groups[name]` lives, or -1 when the dictionary has no such key. */
  function FindGroup(gs: seq<Group>, name: string): (i: int)
    ensures -1 <= i < |gs|
    ensures 0 <= i ==> gs[i].0 == name
    ensures i < 0 <==> forall j :: 0 <= j < |gs| ==> gs[j].0 != name
    decreases |gs|
  {
    if gs == [] then -1
    else if gs[|gs| - 1].0 == name then |gs| - 1
    else FindGroup(gs[..|gs| - 1], name)
  }

  /** One step of the `forEach`: create the row's group when its name is new, then add. */
  function AddToGroups(gs: seq<Group>, r: AdRow): seq<Group> {
    var i := FindGroup(gs, r.name);
    if i < 0 then gs + [(r.name, AddRow(NoSums, r))]
    else gs[i := (r.name, AddRow(gs[i].1, r))]
  }

  /** The groups the `forEach` builds, in the order their names first appear. */
  function Groups(rows: seq<AdRow>): seq<Group>
    decreases |rows|
  {
    if rows == [] then [] else AddToGroups(Groups(rows[..|rows| - 1]), rows[|rows| - 1])
  }

  function AtLevel(l: Level): AdRow -> bool {
    (r: AdRow) => r.level == l
  }

  function NameIs(n: string): AdRow -> bool {
    (r: AdRow) => r.name == n
  }

  /** The plain sums of a list of rows. */
  function SumRows(rs: seq<AdRow>): Sums
    decreases |rs|
  {
    if rs == [] then NoSums else AddRow(SumRows(rs[..|rs| - 1]), rs[|rs| - 1])
  }

  function GroupName(g: Group): string {
    g.0
  }

  function GroupMetric(m: Metric): Group -> real {
    (g: Group) => SumOf(g.1, m)
  }

  lemma GroupsSnoc(rows: seq<AdRow>, r: AdRow)
    ensures Groups(rows + [r]) == AddToGroups(Groups(rows), r)
  {
    assert (rows + [r])[..|rows|] == rows;
  }

  /** No two groups share a name. */
  lemma {:induction false} GroupNamesDistinct(rows: seq<AdRow>)
    ensures DistinctKeys(Groups(rows), GroupName)
    decreases |rows|
  {
    if rows != [] {
      var init, r := rows[..|rows| - 1], rows[|rows| - 1];
      GroupNamesDistinct(init);
      var gs := Groups(init);
      var i := FindGroup(gs, r.name);
      var gs' := Groups(rows);
      assert gs' == AddToGroups(gs, r);
      assert |gs'| >= |gs|;
      forall a, b | 0 <= a < b < |gs'| ensures GroupName(gs'[a]) != GroupName(gs'[b]) {
        if i < 0 {
          if b < |gs| {
            assert gs'[a] == gs[a] && gs'[b] == gs[b];
          } else {
            assert gs'[a] == gs[a] && gs'[b].0 == r.name;
          }
        } else {
          assert gs'[a].0 == gs[a].0 && gs'[b].0 == gs[b].0;
        }
      }
    }
  }

  /** A group exists for a name exactly when some row carries that name. */
  lemma {:induction false} GroupNamesCover(rows: seq<AdRow>, n: string)
    ensures (exists i :: 0 <= i < |Groups(rows)| && Groups(rows)[i].0 == n)
        <==> (exists j :: 0 <= j < |rows| && rows[j].name == n)
    decreases |rows|
  {
    if rows != [] {
      var init, r := rows[..|rows| - 1], rows[|rows| - 1];
      GroupNamesCover(init, n);
      var gs := Groups(init);
      var gs' := Groups(rows);
      var i := FindGroup(gs, r.name);
      if exists j :: 0 <= j < |rows| && rows[j].name == n {
        var j :| 0 <= j < |rows| && rows[j].name == n;
        if j == |rows| - 1 {
          if i < 0 {
            assert gs'[|gs|].0 == n;
          } else {
            assert gs'[i].0 == n;
          }
        } else {
          assert init[j].name == n;
          var k :| 0 <= k < |gs| && gs[k].0 == n;
          assert gs'[k].0 == n;
        }
      }
      if exists k :: 0 <= k < |gs'| && gs'[k].0 == n {
        var k :| 0 <= k < |gs'| && gs'[k].0 == n;
        if n == r.name {
          assert rows[|rows| - 1].name == n;
        } else {
          assert k < |gs| && gs[k].0 == n;
          var j :| 0 <= j < |init| && init[j].name == n;
          assert rows[j].name == n;
        }
      }
    }
  }

  lemma SumRowsSnoc(rs: seq<AdRow>, r: AdRow)
    ensures SumRows(rs + [r]) == AddRow(SumRows(rs), r)
  {
    assert (rs + [r])[..|rs|] == rs;
  }

  /** A first row with a new name opens a group holding just that row. */
  lemma NewGroupExact(init: seq<AdRow>, r: AdRow)
    requires FindGroup(Groups(init), r.name) < 0
    ensures SumRows(Filter(init + [r], NameIs(r.name))) == AddRow(NoSums, r)
  {
    GroupNamesCover(init, r.name);
    forall j | 0 <= j < |init| ensures !NameIs(r.name)(init[j]) {
      if init[j].name == r.name {
        assert false;
      }
    }
    FilterNone(init, NameIs(r.name));
    FilterSnoc(init, r, NameIs(r.name));
    assert Filter(init, NameIs(r.name)) + [r] == [] + [r];
    SumRowsSnoc([], r);
  }

  /** A row with a known name adds itself to that group, and to no other. */
  lemma SameGroupExact(init: seq<AdRow>, r: AdRow, s: Sums)
    requires s == SumRows(Filter(init, NameIs(r.name)))
    ensures AddRow(s, r) == SumRows(Filter(init + [r], NameIs(r.name)))
  {
    FilterSnoc(init, r, NameIs(r.name));
    SumRowsSnoc(Filter(init, NameIs(r.name)), r);
  }

  lemma OtherGroupExact(init: seq<AdRow>, r: AdRow, n: string)
    requires n != r.name
    ensures Filter(init + [r], NameIs(n)) == Filter(init, NameIs(n))
  {
    FilterSnoc(init, r, NameIs(n));
  }

  /** Each group holds exactly the sums of the rows that carry its name. */
  lemma {:induction false} GroupSumsExact(rows: seq<AdRow>, k: nat)
    requires k < |Groups(rows)|
    ensures Groups(rows)[k].1 == SumRows(Filter(rows, NameIs(Groups(rows)[k].0)))
    decreases |rows|
  {
    var init, r := rows[..|rows| - 1], rows[|rows| - 1];
    assert rows == init + [r];
    var gs := Groups(init);
    var gs' := Groups(rows);
    var i := FindGroup(gs, r.name);
    GroupNamesDistinct(init);
    if i < 0 {
      if k == |gs| {
        NewGroupExact(init, r);
      } else {
        assert gs'[k] == gs[k];
        GroupSumsExact(init, k);
        OtherGroupExact(init, r, gs[k].0);
      }
    } else if k == i {
      GroupSumsExact(init, i);
      SameGroupExact(init, r, gs[i].1);
    } else {
      assert gs'[k] == gs[k];
      assert GroupName(gs[i]) != GroupName(gs[k]);
      GroupSumsExact(init, k);
      OtherGroupExact(init, r, gs[k].0);
    }
  }

  lemma AddRowMetric(s: Sums, r: AdRow, m: Metric)
    ensures SumOf(AddRow(s, r), m) == SumOf(s, m) + RowValue(r, m)
  {
  }

  /** For every summed field, the groups together hold what the rows hold. */
  lemma {:induction false} GroupsConserve(rows: seq<AdRow>, m: Metric)
    ensures Sum(Groups(rows), GroupMetric(m)) == Sum(rows, RowMetric(m))
    decreases |rows|
  {
    if rows != [] {
      var init, r := rows[..|rows| - 1], rows[|rows| - 1];
      GroupsConserve(init, m);
      var gs := Groups(init);
      var i := FindGroup(gs, r.name);
      var f := GroupMetric(m);
      if i < 0 {
        var g := (r.name, AddRow(NoSums, r));
        SumAppend(gs, [g], f);
        AddRowMetric(NoSums, r, m);
        assert Sum([g], f) == Sum([], f) + f(g);
      } else {
        var g := (r.name, AddRow(gs[i].1, r));
        SumUpdate(gs, i, g, f);
        AddRowMetric(gs[i].1, r, m);
      }
    }
  }

  // ---------------------------------------------------------------------------
  // The aggregated rows
  // ---------------------------------------------------------------------------

  /** A group with its rates (`calcRates` spreads the sums and adds the rates). */
  datatype AggRow = AggRow(name: string, sums: Sums, rates: Rates)

  function Rated(g: Group): AggRow {
    AggRow(g.0, g.1, CalcRates(g.1.counts))
  }

  /** `Object.values(groups).map(calcRates)`. */
  function RatedAll(gs: seq<Group>): seq<AggRow> {
    seq(|gs|, i requires 0 <= i < |gs| => Rated(gs[i]))
  }

  function NameOf(a: AggRow): string {
    a.name
  }

  function AggMetric(m: Metric): AggRow -> real {
    (a: AggRow) => SumOf(a.sums, m)
  }

  /** `getAggregatedData(rows, level)`: the level's rows grouped, rated, and sorted by name under
      the collation order `before`. */
  function Aggregated(rows: seq<AdRow>, level: Level, before: (string, string) -> bool): seq<AggRow> {
    SortBy(RatedAll(Groups(Filter(rows, AtLevel(level)))), ByKey(NameOf, before))
  }

  /** The dictionary `groups` with its keys in insertion order agrees with the list `gs`. */
  ghost predicate Tracks(m: map<string, Sums>, keys: seq<string>, gs: seq<Group>) {
    |keys| == |gs|
    && (forall j :: 0 <= j < |gs| ==> keys[j] == gs[j].0 && keys[j] in m && m[keys[j]] == gs[j].1)
    && (forall k :: k in m ==> k in keys)
    && (forall a, b :: 0 <= a < b < |keys| ==> keys[a] != keys[b])
  }

  lemma TracksAdd(m: map<string, Sums>, keys: seq<string>, gs: seq<Group>, r: AdRow,
                  m': map<string, Sums>, keys': seq<string>)
    requires Tracks(m, keys, gs)
    requires keys' == if r.name in m then keys else keys + [r.name]
    requires m' == m[r.name := AddRow(if r.name in m then m[r.name] else NoSums, r)]
    ensures Tracks(m', keys', AddToGroups(gs, r))
  {
    var i := FindGroup(gs, r.name);
    if r.name in m {
      assert r.name in keys;
      assert i >= 0;
      forall j | 0 <= j < |gs| && j != i ensures keys[j] != r.name {
        assert keys[i] == r.name;
      }
    } else {
      assert i < 0;
    }
  }

  /** `Object.values(groups).map(calcRates)`, reading the dictionary in key order. */
  function RateValues(groups: map<string, Sums>, keys: seq<string>): seq<AggRow>
    requires forall j :: 0 <= j < |keys| ==> keys[j] in groups
  {
    seq(|keys|, j requires 0 <= j < |keys| => Rated((keys[j], groups[keys[j]])))
  }

  lemma TracksRated(groups: map<string, Sums>, keys: seq<string>, gs: seq<Group>)
    requires Tracks(groups, keys, gs)
    ensures RateValues(groups, keys) == RatedAll(gs)
  {
  }

  /** The `forEach` callback: open the row's group when its name is new, then add the row. */
  method AccumulateRow(groups: map<string, Sums>, keys: seq<string>, row: AdRow, ghost gs: seq<Group>)
    returns (groups': map<string, Sums>, keys': seq<string>)
    requires Tracks(groups, keys, gs)
    ensures Tracks(groups', keys', AddToGroups(gs, row))
  {
    var key := row.name;
    groups', keys' := groups, keys;
    if key !in groups' {
      groups' := groups'[key := NoSums];
      keys' := keys' + [key];
    }
    groups' := groups'[key := AddRow(groups'[key], row)];
    TracksAdd(groups, keys, gs, row, groups', keys');
  }

  /** `relevantRows.forEach(...)`: fills the dictionary, keys in insertion order. */
  method GroupRows(relevant: seq<AdRow>) returns (groups: map<string, Sums>, keys: seq<string>)
    ensures Tracks(groups, keys, Groups(relevant))
  {
    groups, keys := map[], [];
    ghost var gs: seq<Group> := [];
    for i := 0 to |relevant|
      invariant gs == Groups(relevant[..i])
      invariant Tracks(groups, keys, gs)
    {
      groups, keys := AccumulateRow(groups, keys, relevant[i], gs);
      GroupsPrefixStep(relevant, i);
      gs := AddToGroups(gs, relevant[i]);
    }
    assert relevant[..|relevant|] == relevant;
  }

  lemma GroupsPrefixStep(rows: seq<AdRow>, i: nat)
    requires i < |rows|
    ensures Groups(rows[..i + 1]) == AddToGroups(Groups(rows[..i]), rows[i])
  {
    GroupsSnoc(rows[..i], rows[i]);
    assert rows[..i + 1] == rows[..i] + [rows[i]];
  }

  method GetAggregatedData(rows: seq<AdRow>, level: Level, before: (string, string) -> bool)
    returns (result: seq<AggRow>)
    requires level == Age || level == Gender
    ensures result == Aggregated(rows, level, before)
  {
    var relevant := Filter(rows, AtLevel(level));
    var groups, keys := GroupRows(relevant);
    TracksRated(groups, keys, Groups(relevant));
    result := RateValues(groups, keys);
    result := SortBy(result, ByKey(NameOf, before));
  }

  // ---------------------------------------------------------------------------
  // What the aggregated rows are
  // ---------------------------------------------------------------------------

  lemma {:induction false} RatedAllConserves(gs: seq<Group>, m: Metric)
    ensures Sum(RatedAll(gs), AggMetric(m)) == Sum(gs, GroupMetric(m))
    decreases |gs|
  {
    if gs != [] {
      var init := gs[..|gs| - 1];
      RatedAllConserves(init, m);
      assert RatedAll(gs)[..|gs| - 1] == RatedAll(init);
    }
  }

  lemma RatedAllNames(gs: seq<Group>)
    requires DistinctKeys(gs, GroupName)
    ensures DistinctKeys(RatedAll(gs), NameOf)
  {
    forall i, j | 0 <= i < j < |gs| ensures NameOf(RatedAll(gs)[i]) != NameOf(RatedAll(gs)[j]) {
      assert GroupName(gs[i]) != GroupName(gs[j]);
    }
  }

  /** For every summed field, the aggregated rows together hold exactly what the level's rows
      hold: grouping and sorting lose and duplicate nothing. */
  lemma AggregatedConserves(rows: seq<AdRow>, level: Level, before: (string, string) -> bool, m: Metric)
    ensures Sum(Aggregated(rows, level, before), AggMetric(m)) == Sum(Filter(rows, AtLevel(level)), RowMetric(m))
  {
    var gs := Groups(Filter(rows, AtLevel(level)));
    SumPermutation(Aggregated(rows, level, before), RatedAll(gs), AggMetric(m));
    RatedAllConserves(gs, m);
    GroupsConserve(Filter(rows, AtLevel(level)), m);
  }

  /** Under a strict collation order the names strictly increase down the result, so no two
      aggregated rows share a name. */
  lemma AggregatedStrictlyByName(rows: seq<AdRow>, level: Level, before: (string, string) -> bool)
    requires StrictTotalOrder(before)
    ensures DistinctKeys(Aggregated(rows, level, before), NameOf)
    ensures StrictlyByKey(Aggregated(rows, level, before), NameOf, before)
  {
    var gs := Groups(Filter(rows, AtLevel(level)));
    var le := ByKey(NameOf, before);
    GroupNamesDistinct(Filter(rows, AtLevel(level)));
    RatedAllNames(gs);
    DistinctKeysPermutation(RatedAll(gs), Aggregated(rows, level, before), NameOf);
    KeyOrderIsPreorder(NameOf, before);
    SortBySorted(RatedAll(gs), le);
    SortedDistinctIsStrict(Aggregated(rows, level, before), NameOf, before);
  }

  /** The result does not depend on the order in which the dictionary yields its groups: any
      arrangement of the rated groups sorts to the same rows. */
  lemma AggregatedOrderIndependent(rows: seq<AdRow>, level: Level, before: (string, string) -> bool,
                                   values: seq<AggRow>)
    requires StrictTotalOrder(before)
    requires multiset(values) == multiset(RatedAll(Groups(Filter(rows, AtLevel(level)))))
    ensures SortBy(values, ByKey(NameOf, before)) == Aggregated(rows, level, before)
  {
    var gs := Groups(Filter(rows, AtLevel(level)));
    var le := ByKey(NameOf, before);
    var sorted := SortBy(values, le);
    AggregatedStrictlyByName(rows, level, before);
    GroupNamesDistinct(Filter(rows, AtLevel(level)));
    RatedAllNames(gs);
    DistinctKeysPermutation(RatedAll(gs), sorted, NameOf);
    KeyOrderIsPreorder(NameOf, before);
    SortBySorted(values, le);
    SortedDistinctIsStrict(sorted, NameOf, before);
    StrictOrderIsAsymmetric(before);
    StrictlySortedUnique(sorted, Aggregated(rows, level, before), NameOf, before);
  }

  /** Every aggregated row is one name's group: its sums are those of exactly the level's rows
      with that name, and its rates are recomputed from those sums. */
  lemma AggregatedRowExact(rows: seq<AdRow>, level: Level, before: (string, string) -> bool, i: nat)
    requires i < |Aggregated(rows, level, before)|
    ensures var a := Aggregated(rows, level, before)[i];
      && a.sums == SumRows(Filter(Filter(rows, AtLevel(level)), NameIs(a.name)))
      && a.rates == CalcRates(a.sums.counts)
      && exists j :: 0 <= j < |rows| && rows[j].level == level && rows[j].name == a.name
  {
    var relevant := Filter(rows, AtLevel(level));
    var gs := Groups(relevant);
    var a := Aggregated(rows, level, before)[i];
    assert a in multiset(RatedAll(gs));
    var k :| 0 <= k < |RatedAll(gs)| && RatedAll(gs)[k] == a;
    RatedRowExact(relevant, k);
    var j :| 0 <= j < |relevant| && relevant[j].name == a.name;
    FilterOrigin(rows, AtLevel(level), j);
    var t :| 0 <= t < |rows| && rows[t] == relevant[j];
  }

  /** The k-th rated group holds the sums of exactly its name's rows, and some row carries that name. */
  lemma RatedRowExact(relevant: seq<AdRow>, k: nat)
    requires k < |Groups(relevant)|
    ensures var a := RatedAll(Groups(relevant))[k];
      && a.sums == SumRows(Filter(relevant, NameIs(a.name)))
      && a.rates == CalcRates(a.sums.counts)
      && exists j :: 0 <= j < |relevant| && relevant[j].name == a.name
  {
    GroupSumsExact(relevant, k);
    GroupNamesCover(relevant, Groups(relevant)[k].0);
  }

  /** Every name carried by a row of the level has its aggregated row. */
  lemma AggregatedCoversNames(rows: seq<AdRow>, level: Level, before: (string, string) -> bool, j: nat)
    requires j < |rows| && rows[j].level == level
    ensures exists i :: 0 <= i < |Aggregated(rows, level, before)| && Aggregated(rows, level, before)[i].name == rows[j].name
  {
    var relevant := Filter(rows, AtLevel(level));
    var gs := Groups(relevant);
    FilterKeeps(rows, AtLevel(level), j);
    var t :| 0 <= t < |relevant| && relevant[t] == rows[j];
    GroupNamesCover(relevant, rows[j].name);
    var k :| 0 <= k < |gs| && gs[k].0 == rows[j].name;
    assert RatedAll(gs)[k] in multiset(Aggregated(rows, level, before));
    var i :| 0 <= i < |Aggregated(rows, level, before)| && Aggregated(rows, level, before)[i] == RatedAll(gs)[k];
  }

  // ---------------------------------------------------------------------------
  // The total row
  // ---------------------------------------------------------------------------

  /** The total row: id 'total', name 總計, the six counts summed over the groups (the
      conversion value is not carried), and the rates recomputed from them. */
  datatype TotalRow = TotalRow(id: string, name: string, counts: Counts, rates: Rates)

  /** `result.reduce(...)` of the six counts, left to right. */
  function TotalCounts(rs: seq<AggRow>): Counts
    decreases |rs|
  {
    if rs == [] then NoCounts else AddCounts(TotalCounts(rs[..|rs| - 1]), rs[|rs| - 1].sums.counts)
  }

  function DemoTotal(rs: seq<AggRow>): TotalRow {
    var c := TotalCounts(rs);
    TotalRow("total", "總計", c, CalcRates(c))
  }

  lemma {:induction false} TotalCountsSum(rs: seq<AggRow>, m: CountMetric)
    ensures CountOf(TotalCounts(rs), m) == Sum(rs, AggMetric(Counted(m)))
    decreases |rs|
  {
    if rs != [] {
      TotalCountsSum(rs[..|rs| - 1], m);
    }
  }

  /** The total row's counts are the level's row counts, summed; its rates come from them. */
  lemma DemoTotalOfRows(rows: seq<AdRow>, level: Level, before: (string, string) -> bool, m: CountMetric)
    ensures var t := DemoTotal(Aggregated(rows, level, before));
      && CountOf(t.counts, m) == Sum(Filter(rows, AtLevel(level)), RowMetric(Counted(m)))
      && t.rates == CalcRates(t.counts)
  {
    TotalCountsSum(Aggregated(rows, level, before), m);
    AggregatedConserves(rows, level, before, Counted(m));
  }

  /** The breakdown the age and gender tabs show. */
  datatype Breakdown = Breakdown(rows: seq<AggRow>, total: TotalRow)

  /** `demographicData`: nothing without an active project or off the age and gender tabs. */
  function DemographicData(active: Option<Project>, tab: Tab, before: (string, string) -> bool)
    : (r: Option<Breakdown>)
    ensures r.Some? <==> active.Some? && (tab == LevelTab(Age) || tab == LevelTab(Gender))
    ensures r.Some? ==> r.value.rows == Aggregated(active.value.data, tab.level, before)
                        && r.value.total == DemoTotal(r.value.rows)
  {
    if active.None? then None
    else if tab != LevelTab(Age) && tab != LevelTab(Gender) then None
    else
      var rs := Aggregated(active.value.data, tab.level, before);
      Some(Breakdown(rs, DemoTotal(rs)))
  }
}
