/** The dashboard table: which rows of the active project a tab, a status filter and a
    search query let through, the order a sort setting puts them in, and the sort toggle. */
module AppTable {
  import opened JsText
  import opened AdTypes
  import opened Sorting
  import opened Seqs
  import opened AppAggregate

  datatype StatusFilter = AnyStatus | ActiveOnly | DeliveredOnly
  datatype Direction = Asc | Desc
  datatype SortConfig = SortConfig(key: string, direction: Direction)

  /** The lower-cased statuses the 'active' filter accepts. */
  const ActiveStatuses: seq<string> :=
    ["active", "enabled", "in_process", "with_issues", "進行中", "審查中", "預審通過"]

  // ---------------------------------------------------------------------------
  // Filters
  // ---------------------------------------------------------------------------

  /** The tab filter: every row, campaign rows for the preset view, ad and creative rows
      for 'creative', and the rows of the tab's level otherwise. */
  predicate TabKeeps(tab: Tab, r: AdRow) {
    match tab
    case AllTab => true
    case YangyuTab => r.level == Campaign
    case LevelTab(l) => if l == Creative then r.level == Ad || r.level == Creative else r.level == l
  }

  predicate StatusKeeps(f: StatusFilter, r: AdRow) {
    match f
    case AnyStatus => true
    case ActiveOnly => ToLower(r.status) in ActiveStatuses
    case DeliveredOnly => r.impressions > 0.0
  }

  /** `field.toLowerCase().includes(query)`. */
  predicate Mentions(field: string, query: string) {
    Contains(ToLower(field), query)
  }

  /** The search filter, applied only when the query is not blank; the query is lower-cased
      but not trimmed. */
  predicate SearchKeeps(searchQuery: string, r: AdRow) {
    Trim(searchQuery) == ""
    || var query := ToLower(searchQuery);
       Mentions(r.name, query) || Mentions(r.status, query)
       || (r.campaignName.Some? && Mentions(r.campaignName.value, query))
       || (r.adGroupName.Some? && Mentions(r.adGroupName.value, query))
  }

  function TabTest(tab: Tab): AdRow -> bool {
    (r: AdRow) => TabKeeps(tab, r)
  }

  function StatusTest(f: StatusFilter): AdRow -> bool {
    (r: AdRow) => StatusKeeps(f, r)
  }

  function SearchTest(q: string): AdRow -> bool {
    (r: AdRow) => SearchKeeps(q, r)
  }

  function TabStatusTest(tab: Tab, f: StatusFilter): AdRow -> bool {
    (r: AdRow) => TabKeeps(tab, r) && StatusKeeps(f, r)
  }

  /** All three filters at once. */
  function KeepTest(tab: Tab, f: StatusFilter, q: string): AdRow -> bool {
    (r: AdRow) => TabKeeps(tab, r) && StatusKeeps(f, r) && SearchKeeps(q, r)
  }

  // ---------------------------------------------------------------------------
  // Orders
  // ---------------------------------------------------------------------------

  /** `a < b` on two property values of the same kind; values of different kinds are not
      ordered. */
  predicate ValueLess(a: JsValue, b: JsValue) {
    (a.JsNumber? && b.JsNumber? && a.num < b.num)
    || (a.JsString? && b.JsString? && StrLess(a.str, b.str))
  }

  /** The column comparator: equal values tie, an undefined value goes after a defined one
      in both directions, and the rest compare by `<` in the chosen direction. */
  function Compare(dir: Direction, a: JsValue, b: JsValue): int {
    if a == b then 0
    else if a.JsUndefined? then 1
    else if b.JsUndefined? then -1
    else if ValueLess(a, b) then (if dir == Asc then -1 else 1)
    else if ValueLess(b, a) then (if dir == Asc then 1 else -1)
    else 0
  }

  /** "The comparator does not put `b` before `a`" for the comparator on `val`. */
  function ByValue(dir: Direction, val: AdRow -> JsValue): (AdRow, AdRow) -> bool {
    (a: AdRow, b: AdRow) => Compare(dir, val(a), val(b)) <= 0
  }

  function PropOf(key: string): AdRow -> JsValue {
    (r: AdRow) => Prop(r, key)
  }

  /** `row.campaignName || row.name || ''`, the key of the default order. */
  function SortName(r: AdRow): string {
    OrElse(Or(r.campaignName, Some(r.name)), "")
  }

  /** The order of the table: by the chosen column, or by campaign name under the collation
      order `before` when no column is chosen. */
  function RowOrder(cfg: Option<SortConfig>, before: (string, string) -> bool): (AdRow, AdRow) -> bool {
    match cfg
    case None => ByKey(SortName, before)
    case Some(c) => ByValue(c.direction, PropOf(c.key))
  }

  /** The rows the table shows, as one filter and one sort. */
  function Visible(rows: seq<AdRow>, tab: Tab, f: StatusFilter, q: string, cfg: Option<SortConfig>,
                   before: (string, string) -> bool): seq<AdRow> {
    SortBy(Filter(rows, KeepTest(tab, f, q)), RowOrder(cfg, before))
  }

  /** The three filters in a row are one filter by all three tests. */
  lemma FiltersCompose(rows: seq<AdRow>, tab: Tab, f: StatusFilter, q: string)
    ensures Filter(Filter(Filter(rows, TabTest(tab)), StatusTest(f)), SearchTest(q))
         == Filter(rows, KeepTest(tab, f, q))
  {
    FilterFilter(rows, TabTest(tab), StatusTest(f), TabStatusTest(tab, f));
    FilterFilter(rows, TabStatusTest(tab, f), SearchTest(q), KeepTest(tab, f, q));
  }

  /** `filteredData`: nothing without an active project or on the age and gender tabs;
      otherwise the tab, status and search filters in turn, then the sort. */
  method FilteredData(active: Option<Project>, tab: Tab, statusFilter: StatusFilter,
                      searchQuery: string, sortConfig: Option<SortConfig>,
                      before: (string, string) -> bool)
    returns (data: seq<AdRow>)
    ensures active.None? || tab == LevelTab(Age) || tab == LevelTab(Gender) ==> data == []
    ensures active.Some? && tab != LevelTab(Age) && tab != LevelTab(Gender)
            ==> data == Visible(active.value.data, tab, statusFilter, searchQuery, sortConfig, before)
  {
    if active.None? {
      return [];
    }
    if tab == LevelTab(Age) || tab == LevelTab(Gender) {
      return [];
    }
    var rows := active.value.data;
    data := rows;
    if tab != AllTab {
      data := Filter(data, TabTest(tab));
    } else {
      FilterAll(rows, TabTest(tab));
    }
    ghost var afterTab := Filter(rows, TabTest(tab));
    assert data == afterTab;
    if statusFilter == ActiveOnly || statusFilter == DeliveredOnly {
      data := Filter(data, StatusTest(statusFilter));
    } else {
      FilterAll(afterTab, StatusTest(statusFilter));
    }
    ghost var afterStatus := Filter(afterTab, StatusTest(statusFilter));
    assert data == afterStatus;
    if Trim(searchQuery) != "" {
      data := Filter(data, SearchTest(searchQuery));
    } else {
      BlankSearchKeepsAll(afterStatus, searchQuery);
    }
    assert data == Filter(afterStatus, SearchTest(searchQuery));
    FiltersCompose(rows, tab, statusFilter, searchQuery);
    data := SortBy(data, RowOrder(sortConfig, before));
  }

  // ---------------------------------------------------------------------------
  // What the table shows
  // ---------------------------------------------------------------------------

  /** The table shows a reordering of some of the project's rows: exactly those that pass
      all three filters. */
  lemma VisibleRows(rows: seq<AdRow>, tab: Tab, f: StatusFilter, q: string, cfg: Option<SortConfig>,
                    before: (string, string) -> bool, x: AdRow)
    ensures multiset(Visible(rows, tab, f, q, cfg, before)) <= multiset(rows)
    ensures x in Visible(rows, tab, f, q, cfg, before)
            <==> x in rows && TabKeeps(tab, x) && StatusKeeps(f, x) && SearchKeeps(q, x)
  {
    var kept := Filter(rows, KeepTest(tab, f, q));
    FilterMember(rows, KeepTest(tab, f, q), x);
    assert x in Visible(rows, tab, f, q, cfg, before) <==> x in multiset(kept);
  }

  /** A blank query filters nothing. */
  lemma BlankSearchKeepsAll(rows: seq<AdRow>, q: string)
    requires Trim(q) == ""
    ensures Filter(rows, SearchTest(q)) == rows
  {
    FilterAll(rows, SearchTest(q));
  }

  /** With every status and no search, the table shows the rows of the tab, reordered. */
  lemma TabOnlyVisible(rows: seq<AdRow>, tab: Tab, cfg: Option<SortConfig>, before: (string, string) -> bool)
    ensures multiset(Visible(rows, tab, AnyStatus, "", cfg, before)) == multiset(Filter(rows, TabTest(tab)))
  {
    var byTab := Filter(rows, TabTest(tab));
    FilterAll(byTab, StatusTest(AnyStatus));
    assert Filter(byTab, StatusTest(AnyStatus)) == byTab;
    assert Trim("") == "";
    BlankSearchKeepsAll(byTab, "");
    FiltersCompose(rows, tab, AnyStatus, "");
    assert Filter(rows, KeepTest(tab, AnyStatus, "")) == byTab;
  }

  function Defined(val: AdRow -> JsValue): AdRow -> bool {
    (r: AdRow) => !val(r).JsUndefined?
  }

  /** Defined values come before undefined ones in either direction. */
  lemma CompareSplitsUndefined(dir: Direction, val: AdRow -> JsValue)
    ensures SplitsAt(ByValue(dir, val), Everything, Defined(val))
  {
  }

  /** Whatever the column and direction, every row whose value is undefined comes after
      every row whose value is defined. */
  lemma UndefinedLast(rows: seq<AdRow>, tab: Tab, f: StatusFilter, q: string, c: SortConfig,
                      before: (string, string) -> bool)
    ensures Partitioned(Visible(rows, tab, f, q, Some(c), before), Defined(PropOf(c.key)))
  {
    CompareSplitsUndefined(c.direction, PropOf(c.key));
    SortByPartitioned(Filter(rows, KeepTest(tab, f, q)), ByValue(c.direction, PropOf(c.key)),
                      Everything, Defined(PropOf(c.key)));
  }

  /** A numeric column: every value is a number or undefined. */
  function NumericOrUndefined(val: AdRow -> JsValue): AdRow -> bool {
    (r: AdRow) => val(r).JsNumber? || val(r).JsUndefined?
  }

  /** On numbers the comparator is consistent. */
  lemma NumbersPreordered(dir: Direction, val: AdRow -> JsValue)
    ensures PreorderOn(ByValue(dir, val), NumericOrUndefined(val), Defined(val))
  {
    var le := ByValue(dir, val);
    var D, P := NumericOrUndefined(val), Defined(val);
    forall a, b | D(a) && D(b) && P(a) && P(b) ensures le(a, b) || le(b, a) {
      assert val(a).JsNumber? && val(b).JsNumber?;
    }
    forall a, b, c | D(a) && D(b) && D(c) && P(a) && P(b) && P(c) && le(a, b) && le(b, c)
      ensures le(a, c)
    {
      assert val(a).JsNumber? && val(b).JsNumber? && val(c).JsNumber?;
    }
  }

  /** Down `v`, the numeric values of the column ascend (or descend); other values are
      not constrained. */
  ghost predicate NumbersInOrder(v: seq<AdRow>, dir: Direction, val: AdRow -> JsValue) {
    forall i, j :: 0 <= i < j < |v| && val(v[i]).JsNumber? && val(v[j]).JsNumber?
      ==> if dir == Asc then val(v[i]).num <= val(v[j]).num else val(v[i]).num >= val(v[j]).num
  }

  /** Sorting any rows by a numeric column puts the defined values in order. */
  lemma SortedNumbers(s: seq<AdRow>, dir: Direction, val: AdRow -> JsValue)
    requires forall i :: 0 <= i < |s| ==> NumericOrUndefined(val)(s[i])
    ensures NumbersInOrder(SortBy(s, ByValue(dir, val)), dir, val)
  {
    var le := ByValue(dir, val);
    CompareSplitsUndefined(dir, val);
    NumbersPreordered(dir, val);
    SortBySortedOn(s, le, NumericOrUndefined(val), Defined(val));
    var v := SortBy(s, le);
    forall i, j | 0 <= i < j < |v| && val(v[i]).JsNumber? && val(v[j]).JsNumber?
      ensures if dir == Asc then val(v[i]).num <= val(v[j]).num else val(v[i]).num >= val(v[j]).num
    {
      var x, y := val(v[i]).num, val(v[j]).num;
      assert Defined(val)(v[i]) && Defined(val)(v[j]);
      assert le(v[i], v[j]);
      NumberCompareMeaning(dir, x, y);
    }
  }

  /** Sorted by a numeric column, the defined values ascend (or descend) down the table. */
  lemma NumericColumnOrdered(rows: seq<AdRow>, tab: Tab, f: StatusFilter, q: string, c: SortConfig,
                             before: (string, string) -> bool)
    requires forall i :: 0 <= i < |rows| ==> NumericOrUndefined(PropOf(c.key))(rows[i])
    ensures NumbersInOrder(Visible(rows, tab, f, q, Some(c), before), c.direction, PropOf(c.key))
  {
    var val := PropOf(c.key);
    var kept := Filter(rows, KeepTest(tab, f, q));
    forall i | 0 <= i < |kept| ensures NumericOrUndefined(val)(kept[i]) {
      assert kept[i] in multiset(rows);
    }
    SortedNumbers(kept, c.direction, val);
  }

  /** A text column: every value is a string or undefined. */
  function TextOrUndefined(val: AdRow -> JsValue): AdRow -> bool {
    (r: AdRow) => val(r).JsString? || val(r).JsUndefined?
  }

  /** On two numbers the comparator is `<=` ascending and `>=` descending. */
  lemma NumberCompareMeaning(dir: Direction, x: real, y: real)
    ensures Compare(dir, JsNumber(x), JsNumber(y)) <= 0 <==> if dir == Asc then x <= y else x >= y
  {
  }

  /** On two strings the comparator is code-unit order, ascending or descending. */
  lemma StringCompareMeaning(dir: Direction, x: string, y: string)
    ensures Compare(dir, JsString(x), JsString(y)) <= 0
            <==> if dir == Asc then !StrLess(y, x) else !StrLess(x, y)
  {
    StrLessIrreflexive(x);
    StrLessTotal(x, y);
    StrLessAsymmetric(x, y);
  }

  /** On strings the comparator is transitive. */
  lemma StringCompareTransitive(dir: Direction, x: string, y: string, z: string)
    requires Compare(dir, JsString(x), JsString(y)) <= 0 && Compare(dir, JsString(y), JsString(z)) <= 0
    ensures Compare(dir, JsString(x), JsString(z)) <= 0
  {
    StringCompareMeaning(dir, x, y);
    StringCompareMeaning(dir, y, z);
    StringCompareMeaning(dir, x, z);
    if dir == Asc && StrLess(z, x) {
      StrLessTotal(x, y);
      if StrLess(x, y) { StrLessTransitive(z, x, y); }
    }
    if dir == Desc && StrLess(x, z) {
      StrLessTotal(y, z);
      if StrLess(z, y) { StrLessTransitive(x, z, y); }
    }
  }

  lemma StringsPreordered(dir: Direction, val: AdRow -> JsValue)
    ensures PreorderOn(ByValue(dir, val), TextOrUndefined(val), Defined(val))
  {
    var le := ByValue(dir, val);
    var D, P := TextOrUndefined(val), Defined(val);
    forall a, b | D(a) && D(b) && P(a) && P(b) ensures le(a, b) || le(b, a) {
      StringCompareMeaning(dir, val(a).str, val(b).str);
      StringCompareMeaning(dir, val(b).str, val(a).str);
      StrLessAsymmetric(val(a).str, val(b).str);
    }
    forall a, b, c | D(a) && D(b) && D(c) && P(a) && P(b) && P(c) && le(a, b) && le(b, c)
      ensures le(a, c)
    {
      StringCompareTransitive(dir, val(a).str, val(b).str, val(c).str);
    }
  }

  /** Down `v`, the string values of the column follow code-unit order (or its reverse). */
  ghost predicate StringsInOrder(v: seq<AdRow>, dir: Direction, val: AdRow -> JsValue) {
    forall i, j :: 0 <= i < j < |v| && val(v[i]).JsString? && val(v[j]).JsString?
      ==> if dir == Asc then !StrLess(val(v[j]).str, val(v[i]).str)
          else !StrLess(val(v[i]).str, val(v[j]).str)
  }

  /** Sorting any rows by a text column puts the defined values in code-unit order. */
  lemma SortedStrings(s: seq<AdRow>, dir: Direction, val: AdRow -> JsValue)
    requires forall i :: 0 <= i < |s| ==> TextOrUndefined(val)(s[i])
    ensures StringsInOrder(SortBy(s, ByValue(dir, val)), dir, val)
  {
    var le := ByValue(dir, val);
    CompareSplitsUndefined(dir, val);
    StringsPreordered(dir, val);
    SortBySortedOn(s, le, TextOrUndefined(val), Defined(val));
    var v := SortBy(s, le);
    forall i, j | 0 <= i < j < |v| && val(v[i]).JsString? && val(v[j]).JsString?
      ensures if dir == Asc then !StrLess(val(v[j]).str, val(v[i]).str)
              else !StrLess(val(v[i]).str, val(v[j]).str)
    {
      assert Defined(val)(v[i]) && Defined(val)(v[j]);
      assert le(v[i], v[j]);
      StringCompareMeaning(dir, val(v[i]).str, val(v[j]).str);
    }
  }

  /** Sorted by a text column, the defined values follow code-unit order (or its reverse). */
  lemma TextColumnOrdered(rows: seq<AdRow>, tab: Tab, f: StatusFilter, q: string, c: SortConfig,
                          before: (string, string) -> bool)
    requires forall i :: 0 <= i < |rows| ==> TextOrUndefined(PropOf(c.key))(rows[i])
    ensures StringsInOrder(Visible(rows, tab, f, q, Some(c), before), c.direction, PropOf(c.key))
  {
    var val := PropOf(c.key);
    var kept := Filter(rows, KeepTest(tab, f, q));
    forall i | 0 <= i < |kept| ensures TextOrUndefined(val)(kept[i]) {
      assert kept[i] in multiset(rows);
    }
    SortedStrings(kept, c.direction, val);
  }

  /** With no column chosen the rows follow their campaign names under the collation order. */
  lemma DefaultOrderByCampaign(rows: seq<AdRow>, tab: Tab, f: StatusFilter, q: string,
                               before: (string, string) -> bool)
    requires StrictTotalOrder(before)
    ensures var v := Visible(rows, tab, f, q, None, before);
      forall i, j :: 0 <= i < j < |v| ==> !before(SortName(v[j]), SortName(v[i]))
  {
    KeyOrderIsPreorder(SortName, before);
    SortBySorted(Filter(rows, KeepTest(tab, f, q)), ByKey(SortName, before));
    var v := Visible(rows, tab, f, q, None, before);
    forall i, j | 0 <= i < j < |v| ensures !before(SortName(v[j]), SortName(v[i])) {
      assert ByKey(SortName, before)(v[i], v[j]);
    }
  }

  // ---------------------------------------------------------------------------
  // The sort toggle
  // ---------------------------------------------------------------------------

  /** `requestSort(key)`: ascending only when the same key was sorted descending. */
  function NextSort(cfg: Option<SortConfig>, key: string): (r: SortConfig)
    ensures r.key == key
    ensures r.direction == Asc <==> cfg == Some(SortConfig(key, Desc))
  {
    if cfg.Some? && cfg.value.key == key && cfg.value.direction == Desc then SortConfig(key, Asc)
    else SortConfig(key, Desc)
  }

  /** Clicking the sorted column twice returns to where it was. */
  lemma NextSortTwice(c: SortConfig)
    ensures NextSort(Some(NextSort(Some(c), c.key)), c.key) == c
  {
  }

  /** A first click on a column always sorts it descending. */
  lemma NextSortNewKey(cfg: Option<SortConfig>, key: string)
    requires cfg.None? || cfg.value.key != key
    ensures NextSort(cfg, key) == SortConfig(key, Desc)
  {
  }
}
