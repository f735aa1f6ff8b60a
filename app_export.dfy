/** Which rows and columns go into each sheet of the Excel report. Writing the workbook is
    not modelled: the result is the `{filename, sheets}` value handed to the writer. */
module AppExport {
  import opened JsText
  import opened AdTypes
  import opened Seqs
  import opened Sorting
  import opened AppAggregate
  import opened AppTable
  import opened AppColumns

  datatype ExportType = ExportType(id: string, caption: string, presetId: string, level: string)

  /** The report types the export dialog offers, in dialog order. */
  const ExportTypes: seq<ExportType> := [
    ExportType("campaign", "廣告活動", "campaign_report", "campaign"),
    ExportType("adset", "廣告受眾", "audience_report", "adset"),
    ExportType("creative", "素材表現", "creative_report", "ad"),
    ExportType("age", "年齡", "age_report", "age"),
    ExportType("gender", "性別", "gender_report", "gender"),
    ExportType("yangyu", "秧語預設", "yangyu_default", "yangyu")
  ]

  /** `EXPORT_TYPES.find(t => t.id === id)`. */
  function FindExportType(types: seq<ExportType>, id: string): (r: Option<ExportType>)
    ensures r.None? <==> forall i :: 0 <= i < |types| ==> types[i].id != id
    ensures r.Some? ==> r.value.id == id
  {
    if types == [] then None
    else if types[0].id == id then Some(types[0])
    else FindExportType(types[1..], id)
  }

  /** `DEFAULT_PRESETS.find(p => p.id === id)`. */
  function FindPreset(presets: seq<Preset>, id: string): (r: Option<Preset>)
    ensures r.None? <==> forall i :: 0 <= i < |presets| ==> presets[i].id != id
    ensures r.Some? ==> r.value.id == id
  {
    if presets == [] then None
    else if presets[0].id == id then Some(presets[0])
    else FindPreset(presets[1..], id)
  }

  /** A sheet holds report rows, or for the demographic types the aggregated groups. */
  datatype SheetRows = ReportRows(rows: seq<AdRow>) | DemographicRows(groups: seq<AggRow>)

  datatype Sheet = Sheet(name: string, data: SheetRows, columns: seq<string>, columnDefs: seq<ColumnDef>)

  datatype Export = Export(filename: string, sheets: seq<Sheet>)

  function IsDemographicType(id: string): bool {
    id == "age" || id == "gender"
  }

  function LevelIs(level: string): AdRow -> bool {
    (r: AdRow) => LevelName(r.level) == level
  }

  /** The rows of one sheet. */
  function SheetData(data: seq<AdRow>, t: ExportType, before: (string, string) -> bool): SheetRows {
    if t.id == "age" then DemographicRows(Aggregated(data, Age, before))
    else if t.id == "gender" then DemographicRows(Aggregated(data, Gender, before))
    else if t.id == "yangyu" then ReportRows(Filter(data, TabTest(YangyuTab)))
    else if t.id == "creative" then ReportRows(Filter(data, TabTest(LevelTab(Creative))))
    else ReportRows(Filter(data, LevelIs(t.level)))
  }

  function ColumnIds(cols: seq<ColumnDef>): (ids: seq<string>)
    ensures |ids| == |cols| && forall i :: 0 <= i < |cols| ==> ids[i] == cols[i].id
  {
    seq(|cols|, i requires 0 <= i < |cols| => cols[i].id)
  }

  /** The columns of a sheet: demographic types list the group name and the breakdown
      columns, the others their preset's columns (every catalogue column when the preset
      is missing). */
  function SheetColumns(t: ExportType): seq<string> {
    if IsDemographicType(t.id) then ["name"] + ColumnIds(DemoTableColumns)
    else
      var preset := FindPreset(DefaultPresets, t.presetId);
      if preset.Some? then preset.value.columns else ColumnIds(AvailableColumns)
  }

  /** The column definitions a sheet is written with. */
  function SheetColumnDefs(t: ExportType): seq<ColumnDef> {
    if IsDemographicType(t.id) then
      [ColumnDef("name", if t.id == "age" then "年齡" else "性別", TextColumn)] + DemoTableColumns
    else AvailableColumns
  }

  function SheetFor(data: seq<AdRow>, t: ExportType, before: (string, string) -> bool): Sheet {
    Sheet(t.caption, SheetData(data, t, before), SheetColumns(t), SheetColumnDefs(t))
  }

  /** The sheet for one selected id, `null` for an id the dialog does not offer. */
  function SheetOf(data: seq<AdRow>, before: (string, string) -> bool): string -> Option<Sheet> {
    (id: string) =>
      var t := FindExportType(ExportTypes, id);
      if t.Some? then Some(SheetFor(data, t.value, before)) else None
  }

  /** `executeExport`: nothing without an active project or with no type selected;
      otherwise the workbook named after the project, one sheet per known selected type,
      in selection order. */
  function ExecuteExport(active: Option<Project>, selected: seq<string>, before: (string, string) -> bool)
    : (r: Option<Export>)
    ensures r.None? <==> active.None? || selected == []
    ensures r.Some? ==> r.value.filename == active.value.name + "_廣告報表"
    ensures r.Some? ==> var f := SheetOf(active.value.data, before); var kept := Filter(selected, Maps(f));
      |r.value.sheets| == |kept|
      && forall i :: 0 <= i < |kept| ==> r.value.sheets[i] == f(kept[i]).value
  {
    if active.None? || selected == [] then None
    else
      var f := SheetOf(active.value.data, before);
      MapSomeFilter(selected, f);
      Some(Export(active.value.name + "_廣告報表", MapSome(selected, f)))
  }

  /** The tab that shows the same rows as a report type. */
  function TabOf(id: string): Tab {
    if id == "campaign" then LevelTab(Campaign)
    else if id == "adset" then LevelTab(AdSet)
    else if id == "creative" then LevelTab(Creative)
    else if id == "yangyu" then YangyuTab
    else if id == "age" then LevelTab(Age)
    else LevelTab(Gender)
  }

  lemma LevelFilterIsTab(data: seq<AdRow>, l: Level)
    requires l == Campaign || l == AdSet
    ensures Filter(data, LevelIs(LevelName(l))) == Filter(data, TabTest(LevelTab(l)))
  {
    forall r: AdRow ensures LevelIs(LevelName(l))(r) == TabTest(LevelTab(l))(r) {
      LevelNameInjective(r.level, l);
    }
    FilterSame(data, LevelIs(LevelName(l)), TabTest(LevelTab(l)));
  }

  lemma {:induction false} TypeAt(types: seq<ExportType>, i: nat, id: string)
    requires i < |types| && types[i].id == id
    requires forall k :: 0 <= k < i ==> types[k].id != id
    ensures FindExportType(types, id) == Some(types[i])
    decreases i
  {
    if i > 0 {
      TypeAt(types[1..], i - 1, id);
    }
  }

  lemma {:induction false} PresetAt(presets: seq<Preset>, i: nat, id: string)
    requires i < |presets| && presets[i].id == id
    requires forall k :: 0 <= k < i ==> presets[k].id != id
    ensures FindPreset(presets, id) == Some(presets[i])
    decreases i
  {
    if i > 0 {
      PresetAt(presets[1..], i - 1, id);
    }
  }

  /** The dialog's ids are distinct, so each one selects its own entry. */
  lemma ExportTypeFound(i: nat)
    requires i < |ExportTypes|
    ensures FindExportType(ExportTypes, ExportTypes[i].id) == Some(ExportTypes[i])
  {
    TypeAt(ExportTypes, i, ExportTypes[i].id);
  }

  predicate IsReportIndex(i: nat) {
    i == 0 || i == 1 || i == 2 || i == 5
  }

  /** A report sheet holds the rows of its tab, in project order: the same rows the table
      shows on that tab with no status filter and no search, whatever the sort. */
  lemma ReportSheetMatchesTable(p: Project, i: nat, cfg: Option<SortConfig>, before: (string, string) -> bool)
    requires IsReportIndex(i)
    ensures var t := ExportTypes[i];
      SheetData(p.data, t, before) == ReportRows(Filter(p.data, TabTest(TabOf(t.id))))
      && multiset(SheetData(p.data, t, before).rows) == multiset(Visible(p.data, TabOf(t.id), AnyStatus, "", cfg, before))
  {
    var t := ExportTypes[i];
    assert t.id == "campaign" || t.id == "adset" || t.id == "creative" || t.id == "yangyu";
    assert t.id == "campaign" ==> t.level == "campaign";
    assert t.id == "adset" ==> t.level == "adset";
    ReportSheetRows(p.data, t, before);
    TabOnlyVisible(p.data, TabOf(t.id), cfg, before);
  }

  /** The rows of a report sheet are those of its tab. */
  lemma ReportSheetRows(data: seq<AdRow>, t: ExportType, before: (string, string) -> bool)
    requires t.id == "campaign" || t.id == "adset" || t.id == "creative" || t.id == "yangyu"
    requires t.id == "campaign" ==> t.level == "campaign"
    requires t.id == "adset" ==> t.level == "adset"
    ensures SheetData(data, t, before) == ReportRows(Filter(data, TabTest(TabOf(t.id))))
  {
    if t.id == "campaign" {
      LevelFilterIsTab(data, Campaign);
    } else if t.id == "adset" {
      LevelFilterIsTab(data, AdSet);
    }
  }

  /** A demographic sheet holds the same groups as the breakdown table of that tab, under
      the name column, captioned by the dimension, and the breakdown columns. */
  lemma DemographicSheetMatchesTable(p: Project, i: nat, before: (string, string) -> bool)
    requires i == 3 || i == 4
    ensures var t := ExportTypes[i];
      t.caption == (if i == 3 then "年齡" else "性別")
      && SheetData(p.data, t, before) == DemographicRows(DemographicData(Some(p), TabOf(t.id), before).value.rows)
      && SheetColumns(t) == ["name"] + ColumnIds(DemoTableColumns)
      && SheetColumnDefs(t) == [ColumnDef("name", t.caption, TextColumn)] + DemoTableColumns
  {
  }

  /** A report sheet lists its preset's columns over the whole catalogue. */
  lemma ReportSheetColumns(i: nat)
    requires IsReportIndex(i)
    ensures var t := ExportTypes[i]; var preset := FindPreset(DefaultPresets, t.presetId);
      preset.Some? && preset.value.id == t.presetId
      && SheetColumns(t) == preset.value.columns && SheetColumnDefs(t) == AvailableColumns
  {
    var j := if i == 0 then 0 else if i == 1 then 1 else if i == 2 then 2 else 5;
    PresetAt(DefaultPresets, j, ExportTypes[i].presetId);
  }
}
