/** The dashboard's project and token stores: the built-in token injected at start-up, and
    the operations that create, rename, delete, fill and re-sync projects and that save and
    delete tokens. Identifiers, clocks, confirmations and fetched data are parameters. */
module AppState {
  import opened JsText
  import opened AdTypes
  import opened Seqs

  const DevTokenId := "dev-auto-token"
  const DevTokenAlias := "秧語 (Dev)"
  const UntitledProject := "未命名專案"
  /** The interval under which a re-sync asks for confirmation: five minutes in milliseconds. */
  const SyncInterval := 5 * 60 * 1000

  // ---------------------------------------------------------------------------
  // Tokens
  // ---------------------------------------------------------------------------

  /** `tokens.findIndex(t => t.id === id)`. */
  function TokenIndex(tokens: seq<StoredToken>, id: string): (i: int)
    ensures -1 <= i < |tokens|
    ensures i == -1 <==> forall k :: 0 <= k < |tokens| ==> tokens[k].id != id
    ensures i >= 0 ==> tokens[i].id == id && forall k :: 0 <= k < i ==> tokens[k].id != id
  {
    if tokens == [] then -1
    else if tokens[0].id == id then 0
    else
      var i := TokenIndex(tokens[1..], id);
      if i == -1 then -1 else i + 1
  }

  function IsDevToken(t: StoredToken): bool {
    t.id == DevTokenId
  }

  function NotDevToken(t: StoredToken): bool {
    t.id != DevTokenId
  }

  /** The number of built-in token entries. */
  function DevCount(tokens: seq<StoredToken>): nat {
    |Filter(tokens, IsDevToken)|
  }

  /** The token list at start-up: the first built-in entry gets the current built-in token,
      or a new built-in entry is put in front when there is none. */
  method InitStoredTokens(saved: seq<StoredToken>, devToken: string, now: int) returns (tokens: seq<StoredToken>)
    ensures var k := TokenIndex(tokens, DevTokenId); k >= 0 && tokens[k].token == devToken
    ensures Filter(tokens, NotDevToken) == Filter(saved, NotDevToken)
    ensures DevCount(tokens) == if DevCount(saved) == 0 then 1 else DevCount(saved)
    ensures DevCount(saved) <= 1 ==> DevCount(tokens) == 1
    ensures TokenIndex(saved, DevTokenId) == -1 ==> tokens[0] == StoredToken(DevTokenId, DevTokenAlias, devToken, now)
    ensures TokenIndex(saved, DevTokenId) >= 0 ==> |tokens| == |saved|
  {
    tokens := saved;
    var devIndex := TokenIndex(tokens, DevTokenId);
    if devIndex >= 0 {
      tokens := tokens[devIndex := tokens[devIndex].(token := devToken)];
      DevTokenRefreshed(saved, devIndex, devToken);
    } else {
      tokens := [StoredToken(DevTokenId, DevTokenAlias, devToken, now)] + tokens;
      DevTokenPrepended(saved, devToken, now);
    }
  }

  lemma DevTokenRefreshed(saved: seq<StoredToken>, k: nat, devToken: string)
    requires k < |saved| && TokenIndex(saved, DevTokenId) == k
    ensures var tokens := saved[k := saved[k].(token := devToken)];
      TokenIndex(tokens, DevTokenId) == k && tokens[k].token == devToken
      && Filter(tokens, NotDevToken) == Filter(saved, NotDevToken)
      && DevCount(tokens) == DevCount(saved) && DevCount(saved) > 0
  {
    var t := saved[k].(token := devToken);
    var tokens := saved[k := t];
    FilterUpdate(saved, k, t, NotDevToken);
    FilterUpdate(saved, k, t, IsDevToken);
    FilterKeeps(saved, IsDevToken, k);
    TokenIndexKept(saved, k, t, DevTokenId);
  }

  /** Replacing the first entry with an id by another with that id keeps its position. */
  lemma {:induction false} TokenIndexKept(ts: seq<StoredToken>, k: nat, t: StoredToken, id: string)
    requires k < |ts| && TokenIndex(ts, id) == k && t.id == id
    ensures TokenIndex(ts[k := t], id) == k
    decreases k
  {
    if k > 0 {
      assert ts[k := t][1..] == ts[1..][k - 1 := t];
      TokenIndexKept(ts[1..], k - 1, t, id);
    }
  }

  lemma DevTokenPrepended(saved: seq<StoredToken>, devToken: string, now: int)
    requires TokenIndex(saved, DevTokenId) == -1
    ensures var dev := StoredToken(DevTokenId, DevTokenAlias, devToken, now);
      Filter([dev] + saved, NotDevToken) == Filter(saved, NotDevToken)
      && DevCount([dev] + saved) == 1 && DevCount(saved) == 0
  {
    var dev := StoredToken(DevTokenId, DevTokenAlias, devToken, now);
    FilterCons(dev, saved, NotDevToken);
    FilterCons(dev, saved, IsDevToken);
    FilterNone(saved, IsDevToken);
  }

  // ---------------------------------------------------------------------------
  // Project lists
  // ---------------------------------------------------------------------------

  /** `projects.map(p => p.id === id ? f(p) : p)`. */
  function UpdateById(ps: seq<Project>, id: string, f: Project -> Project): (r: seq<Project>)
    ensures |r| == |ps|
    ensures forall i :: 0 <= i < |ps| && ps[i].id != id ==> r[i] == ps[i]
    ensures forall i :: 0 <= i < |ps| && ps[i].id == id ==> r[i] == f(ps[i])
  {
    seq(|ps|, i requires 0 <= i < |ps| => if ps[i].id == id then f(ps[i]) else ps[i])
  }

  function Renamed(name: string, now: int): Project -> Project {
    (p: Project) => p.(name := name, updatedAt := now)
  }

  /** The upload merge: the new rows after the old ones, and the detected currency. */
  function WithRowsAppended(rows: seq<AdRow>, currency: Option<string>, now: int): Project -> Project {
    (p: Project) => p.(data := p.data + rows, currency := currency, updatedAt := now)
  }

  /** The re-sync merge: the fetched rows in place of the old ones. */
  function WithRowsReplaced(rows: seq<AdRow>, now: int): Project -> Project {
    (p: Project) => p.(data := rows, updatedAt := now)
  }

  function IdIsNot(id: string): Project -> bool {
    (p: Project) => p.id != id
  }

  /** `projects.filter(p => p.id !== id)`. */
  function WithoutProject(ps: seq<Project>, id: string): seq<Project> {
    Filter(ps, IdIsNot(id))
  }

  /** Deleting removes every project with the id and keeps every other one. */
  lemma WithoutProjectRemovesAll(ps: seq<Project>, id: string, p: Project)
    ensures p in WithoutProject(ps, id) <==> p in ps && p.id != id
    ensures forall i :: 0 <= i < |WithoutProject(ps, id)| ==> WithoutProject(ps, id)[i].id != id
  {
    FilterMember(ps, IdIsNot(id), p);
  }

  /** The rows of every parsed file, in file order (`results.map(r => r.rows).flat()`). */
  datatype ParsedFile = ParsedFile(rows: seq<AdRow>, currency: Option<string>)

  function AllRows(results: seq<ParsedFile>): (rows: seq<AdRow>)
    ensures rows == [] <==> forall i :: 0 <= i < |results| ==> results[i].rows == []
  {
    if results == [] then [] else results[0].rows + AllRows(results[1..])
  }

  /** The currency an upload records: the first file's, or 'USD' when there is no file. */
  function UploadCurrency(results: seq<ParsedFile>): Option<string> {
    if |results| > 0 then results[0].currency else Some("USD")
  }

  /** An upload changes only the projects with the active id, and those only by the new
      rows at the end, the currency and the time. */
  lemma UploadOnlyTouchesActive(ps: seq<Project>, id: string, rows: seq<AdRow>, currency: Option<string>,
                                now: int, i: nat)
    requires i < |ps|
    ensures var r := UpdateById(ps, id, WithRowsAppended(rows, currency, now));
      (ps[i].id != id ==> r[i] == ps[i])
      && (ps[i].id == id ==> r[i].data == ps[i].data + rows && r[i].data[..|ps[i].data|] == ps[i].data
                             && r[i].id == ps[i].id && r[i].name == ps[i].name
                             && r[i].metaConfig == ps[i].metaConfig && r[i].currency == currency)
  {
  }

  /** `projects.find(p => p.id === id)`. */
  function FindProject(ps: seq<Project>, id: Option<string>): (r: Option<Project>)
    ensures r.None? <==> id.None? || forall i :: 0 <= i < |ps| ==> ps[i].id != id.value
    ensures r.Some? ==> r.value.id == id.value && r.value in ps
  {
    if id.None? || ps == [] then None
    else if ps[0].id == id.value then Some(ps[0])
    else FindProject(ps[1..], id)
  }

  // ---------------------------------------------------------------------------
  // The store
  // ---------------------------------------------------------------------------

  /** The dashboard's state that the store operations read and write. */
  class Dashboard {
    var projects: seq<Project>
    var activeProjectId: Option<string>
    var editingProjectId: Option<string>
    var newProjectName: string
    var projectToDelete: Option<string>
    var storedTokens: seq<StoredToken>
    var selectedTokenId: string
    var newTokenAlias: string
    var newTokenValue: string

    /** Start-up: the saved projects, and the saved tokens with the built-in one injected. */
    constructor(savedProjects: seq<Project>, savedTokens: seq<StoredToken>, devToken: string, now: int)
      ensures projects == savedProjects && activeProjectId.None? && editingProjectId.None?
      ensures projectToDelete.None? && selectedTokenId == DevTokenId && newTokenAlias == "" && newTokenValue == ""
      ensures var k := TokenIndex(storedTokens, DevTokenId); k >= 0 && storedTokens[k].token == devToken
      ensures Filter(storedTokens, NotDevToken) == Filter(savedTokens, NotDevToken)
    {
      var tokens := InitStoredTokens(savedTokens, devToken, now);
      projects := savedProjects;
      activeProjectId := None;
      editingProjectId := None;
      newProjectName := "";
      projectToDelete := None;
      storedTokens := tokens;
      selectedTokenId := DevTokenId;
      newTokenAlias := "";
      newTokenValue := "";
    }

    function ActiveProject(): Option<Project>
      reads this
    {
      FindProject(projects, activeProjectId)
    }

    /** `createProject`: a new empty untitled project in front, made active and put under
        renaming. */
    method CreateProject(id: string, now: int)
      modifies this
      ensures projects == [Project(id, UntitledProject, [], None, None, now, now)] + old(projects)
      ensures activeProjectId == Some(id) && editingProjectId == Some(id) && newProjectName == UntitledProject
      ensures projectToDelete == old(projectToDelete) && storedTokens == old(storedTokens)
      ensures selectedTokenId == old(selectedTokenId)
      ensures newTokenAlias == old(newTokenAlias) && newTokenValue == old(newTokenValue)
    {
      projects := [Project(id, UntitledProject, [], None, None, now, now)] + projects;
      activeProjectId := Some(id);
      editingProjectId := Some(id);
      newProjectName := UntitledProject;
    }

    /** `updateProjectName`: every project with the id renamed, and renaming ended. */
    method UpdateProjectName(id: string, name: string, now: int)
      modifies this
      ensures projects == UpdateById(old(projects), id, Renamed(name, now))
      ensures editingProjectId.None?
      ensures activeProjectId == old(activeProjectId) && projectToDelete == old(projectToDelete)
      ensures newProjectName == old(newProjectName) && storedTokens == old(storedTokens)
      ensures selectedTokenId == old(selectedTokenId)
      ensures newTokenAlias == old(newTokenAlias) && newTokenValue == old(newTokenValue)
    {
      projects := UpdateById(projects, id, Renamed(name, now));
      editingProjectId := None;
    }

    method InitiateDeleteProject(id: string)
      modifies this
      ensures projectToDelete == Some(id)
      ensures projects == old(projects) && activeProjectId == old(activeProjectId)
      ensures editingProjectId == old(editingProjectId) && newProjectName == old(newProjectName)
      ensures storedTokens == old(storedTokens) && selectedTokenId == old(selectedTokenId)
      ensures newTokenAlias == old(newTokenAlias) && newTokenValue == old(newTokenValue)
    {
      projectToDelete := Some(id);
    }

    /** `confirmDeleteProject`: with a pending deletion (a truthy id), every project with
        that id goes, the active project is cleared when it was the one deleted, and the
        request ends; otherwise nothing changes. */
    method ConfirmDeleteProject()
      modifies this
      ensures !Truthy(old(projectToDelete)) ==> projects == old(projects) && activeProjectId == old(activeProjectId)
                                                && projectToDelete == old(projectToDelete)
      ensures Truthy(old(projectToDelete)) ==>
        && projects == WithoutProject(old(projects), old(projectToDelete).value)
        && activeProjectId == (if old(activeProjectId) == old(projectToDelete) then None else old(activeProjectId))
        && projectToDelete.None?
      ensures editingProjectId == old(editingProjectId) && newProjectName == old(newProjectName)
      ensures storedTokens == old(storedTokens) && selectedTokenId == old(selectedTokenId)
      ensures newTokenAlias == old(newTokenAlias) && newTokenValue == old(newTokenValue)
    {
      if Truthy(projectToDelete) {
        var id := projectToDelete.value;
        projects := WithoutProject(projects, id);
        if activeProjectId == Some(id) {
          activeProjectId := None;
        }
        projectToDelete := None;
      }
    }

    /** `handleUpload` once the files are parsed: nothing without a truthy active id or
        when no file has rows; otherwise the rows go to the end of the active project. */
    method HandleUpload(results: seq<ParsedFile>, now: int)
      modifies this
      ensures !Truthy(old(activeProjectId)) || AllRows(results) == [] ==> projects == old(projects)
      ensures Truthy(old(activeProjectId)) && AllRows(results) != [] ==>
        projects == UpdateById(old(projects), old(activeProjectId).value,
                               WithRowsAppended(AllRows(results), UploadCurrency(results), now))
      ensures activeProjectId == old(activeProjectId) && editingProjectId == old(editingProjectId)
      ensures newProjectName == old(newProjectName) && projectToDelete == old(projectToDelete)
      ensures storedTokens == old(storedTokens) && selectedTokenId == old(selectedTokenId)
      ensures newTokenAlias == old(newTokenAlias) && newTokenValue == old(newTokenValue)
    {
      if !Truthy(activeProjectId) {
        return;
      }
      var newRows := AllRows(results);
      var currency := UploadCurrency(results);
      if |newRows| == 0 {
        return;
      }
      projects := UpdateById(projects, activeProjectId.value, WithRowsAppended(newRows, currency, now));
    }

    /** `handleSyncMeta` once the rows are fetched: nothing unless the active project is
        connected to an ad account; a re-sync within five minutes of the last update goes
        ahead only when forced or confirmed; the fetched rows then replace the data of the
        projects with the active project's id. */
    method SyncMeta(force: bool, confirmed: bool, now: int, fetched: seq<AdRow>)
      modifies this
      ensures var a := old(ActiveProject());
        var proceeds := a.Some? && a.value.metaConfig.Some?
                        && (force || now - a.value.updatedAt >= SyncInterval || confirmed);
        (proceeds ==> projects == UpdateById(old(projects), a.value.id, WithRowsReplaced(fetched, now)))
        && (!proceeds ==> projects == old(projects))
      ensures activeProjectId == old(activeProjectId) && editingProjectId == old(editingProjectId)
      ensures newProjectName == old(newProjectName) && projectToDelete == old(projectToDelete)
      ensures storedTokens == old(storedTokens) && selectedTokenId == old(selectedTokenId)
      ensures newTokenAlias == old(newTokenAlias) && newTokenValue == old(newTokenValue)
    {
      var active := FindProject(projects, activeProjectId);
      if active.None? || active.value.metaConfig.None? {
        return;
      }
      if !force {
        var timeSinceUpdate := now - active.value.updatedAt;
        if timeSinceUpdate < SyncInterval && !confirmed {
          return;
        }
      }
      projects := UpdateById(projects, active.value.id, WithRowsReplaced(fetched, now));
    }

    /** `saveToken`: with both a name and a value typed, the new token goes to the end and
        the inputs are cleared; otherwise nothing changes. */
    method SaveToken(id: string, now: int)
      modifies this
      ensures old(newTokenAlias) == "" || old(newTokenValue) == "" ==>
        storedTokens == old(storedTokens) && newTokenAlias == old(newTokenAlias) && newTokenValue == old(newTokenValue)
      ensures old(newTokenAlias) != "" && old(newTokenValue) != "" ==>
        storedTokens == old(storedTokens) + [StoredToken(id, old(newTokenAlias), old(newTokenValue), now)]
        && newTokenAlias == "" && newTokenValue == ""
      ensures projects == old(projects) && activeProjectId == old(activeProjectId)
      ensures editingProjectId == old(editingProjectId) && newProjectName == old(newProjectName)
      ensures projectToDelete == old(projectToDelete) && selectedTokenId == old(selectedTokenId)
    {
      if newTokenAlias == "" || newTokenValue == "" {
        return;
      }
      storedTokens := storedTokens + [StoredToken(id, newTokenAlias, newTokenValue, now)];
      newTokenAlias := "";
      newTokenValue := "";
    }

    /** `deleteToken`: every token with the id goes, and the selection is cleared when it
        was that token. */
    method DeleteToken(id: string)
      modifies this
      ensures storedTokens == Filter(old(storedTokens), TokenIdIsNot(id))
      ensures selectedTokenId == if old(selectedTokenId) == id then "" else old(selectedTokenId)
      ensures projects == old(projects) && activeProjectId == old(activeProjectId)
      ensures editingProjectId == old(editingProjectId) && newProjectName == old(newProjectName)
      ensures projectToDelete == old(projectToDelete)
      ensures newTokenAlias == old(newTokenAlias) && newTokenValue == old(newTokenValue)
    {
      storedTokens := Filter(storedTokens, TokenIdIsNot(id));
      if selectedTokenId == id {
        selectedTokenId := "";
      }
    }
  }

  function TokenIdIsNot(id: string): StoredToken -> bool {
    (t: StoredToken) => t.id != id
  }

  /** Deleting a token removes every entry with its id and keeps the others in order. */
  lemma DeleteTokenRemovesAll(ts: seq<StoredToken>, id: string, t: StoredToken)
    ensures t in Filter(ts, TokenIdIsNot(id)) <==> t in ts && t.id != id
    ensures TokenIndex(Filter(ts, TokenIdIsNot(id)), id) == -1
  {
    FilterMember(ts, TokenIdIsNot(id), t);
  }
}
