/**
 * The two client-side stores. `ProjectStore` holds the current and past generated
 * projects, the editor and deployment flags and the user's preferences; of these
 * only the history and the preferences are persisted. `ApiStore` holds the API key
 * state and the usage counters.
 */
module Store {
  import opened Wrappers
  import opened Seqs

  datatype SourceFile = SourceFile(path: string, content: string)
  datatype GeneratedProject = GeneratedProject(files: seq<SourceFile>, preview: string)

  datatype Tab = Preview | Code
  datatype Theme = Light | Dark

  datatype Preferences = Preferences(theme: Theme, autoSave: bool, showLineNumbers: bool)

  /** A `Partial<preferences>`: None for a field the caller did not supply. */
  datatype PreferencesPatch = PreferencesPatch(theme: Option<Theme>, autoSave: Option<bool>, showLineNumbers: Option<bool>)

  /** Every field of the project store, as one value. */
  datatype StoreState = StoreState(
    currentProject: Option<GeneratedProject>,
    projectHistory: seq<GeneratedProject>,
    isGenerating: bool,
    error: Option<string>,
    showEditor: bool,
    selectedFile: string,
    activeTab: Tab,
    isDeploying: bool,
    deploymentUrl: Option<string>,
    preferences: Preferences)

  /** What `partialize` hands to local storage. */
  datatype PersistedState = PersistedState(projectHistory: seq<GeneratedProject>, preferences: Preferences)

  function Partialize(s: StoreState): PersistedState {
    PersistedState(s.projectHistory, s.preferences)
  }

  /** Changing a field other than the history and the preferences never changes what is persisted. */
  lemma PartializeSelectsTwoFields(s: StoreState, t: StoreState)
    ensures Partialize(s) == Partialize(t) <==> s.projectHistory == t.projectHistory && s.preferences == t.preferences
  {
  }

  const HistoryLimit: nat := 10

  /** `[project, ...history.slice(0, 9)]`. */
  function PushHistory(history: seq<GeneratedProject>, project: GeneratedProject): (h: seq<GeneratedProject>)
    ensures |h| == Min(|history| + 1, HistoryLimit)
    ensures h[0] == project
    ensures h[1..] == history[..|h| - 1]
  {
    [project] + history[..Min(|history|, HistoryLimit - 1)]
  }

  /** Only the oldest entries are dropped: what is gone is a suffix of the old history. */
  lemma PushEvictsOldest(history: seq<GeneratedProject>, project: GeneratedProject)
    ensures var h := PushHistory(history, project);
      history == h[1..] + history[|h| - 1..]
  {
  }

  function Reverse<T>(s: seq<T>): (r: seq<T>)
    ensures |r| == |s|
  {
    if s == [] then [] else Reverse(s[1..]) + [s[0]]
  }

  /** The history after adding `projects` one after another, first to last. */
  function PushAll(history: seq<GeneratedProject>, projects: seq<GeneratedProject>): seq<GeneratedProject>
    decreases |projects|
  {
    if projects == [] then history
    else PushAll(PushHistory(history, projects[0]), projects[1..])
  }

  /**
   * Repeated additions keep the newest ten: the added projects newest first, then
   * the old history, cut to ten entries.
   */
  lemma {:induction false} PushAllKeepsNewest(history: seq<GeneratedProject>, projects: seq<GeneratedProject>)
    requires |history| <= HistoryLimit
    ensures var all := Reverse(projects) + history;
      PushAll(history, projects) == all[..Min(|all|, HistoryLimit)]
    decreases |projects|
  {
    if projects != [] {
      var h1 := PushHistory(history, projects[0]);
      PushAllKeepsNewest(h1, projects[1..]);
      var rest := Reverse(projects[1..]);
      var all := Reverse(projects) + history;
      var all1 := rest + h1;
      assert Reverse(projects) == rest + [projects[0]];
      var n := Min(|all|, HistoryLimit);
      assert |all1| == |rest| + |h1|;
      assert all1[..Min(|all1|, HistoryLimit)] == all[..n] by {
        assert h1 == ([projects[0]] + history)[..|h1|];
        assert all == rest + ([projects[0]] + history);
        assert n == Min(|all1|, HistoryLimit);
        forall k | 0 <= k < n ensures all1[k] == all[k] {
          if k >= |rest| {
            assert all1[k] == h1[k - |rest|];
          }
        }
      }
    }
  }

  /** `{ ...state.preferences, ...prefs }`: supplied fields overwrite, the rest stay. */
  function MergePreferences(prefs: Preferences, patch: PreferencesPatch): (r: Preferences)
    ensures r.theme == (if patch.theme.Some? then patch.theme.value else prefs.theme)
    ensures r.autoSave == (if patch.autoSave.Some? then patch.autoSave.value else prefs.autoSave)
    ensures r.showLineNumbers == (if patch.showLineNumbers.Some? then patch.showLineNumbers.value else prefs.showLineNumbers)
  {
    Preferences(patch.theme.GetOr(prefs.theme), patch.autoSave.GetOr(prefs.autoSave),
                patch.showLineNumbers.GetOr(prefs.showLineNumbers))
  }

  /** Two patches applied in turn: each field takes the later supplied value. */
  function ThenPatch(first: PreferencesPatch, second: PreferencesPatch): PreferencesPatch {
    PreferencesPatch(
      if second.theme.Some? then second.theme else first.theme,
      if second.autoSave.Some? then second.autoSave else first.autoSave,
      if second.showLineNumbers.Some? then second.showLineNumbers else first.showLineNumbers)
  }

  /** Merging twice is merging once with the combined patch: the last supplied value wins. */
  lemma MergeCompose(prefs: Preferences, first: PreferencesPatch, second: PreferencesPatch)
    ensures MergePreferences(MergePreferences(prefs, first), second) == MergePreferences(prefs, ThenPatch(first, second))
  {
  }

  /** An empty patch changes nothing; merging the same patch again changes nothing more. */
  lemma MergeIdentityAndIdempotence(prefs: Preferences, patch: PreferencesPatch)
    ensures MergePreferences(prefs, PreferencesPatch(None, None, None)) == prefs
    ensures MergePreferences(MergePreferences(prefs, patch), patch) == MergePreferences(prefs, patch)
  {
  }

  const DefaultPreferences := Preferences(Light, true, true)

  function InitialState(): StoreState {
    StoreState(None, [], false, None, false, "", Preview, false, None, DefaultPreferences)
  }

  class ProjectStore {
    var currentProject: Option<GeneratedProject>
    var projectHistory: seq<GeneratedProject>
    var isGenerating: bool
    var error: Option<string>
    var showEditor: bool
    var selectedFile: string
    var activeTab: Tab
    var isDeploying: bool
    var deploymentUrl: Option<string>
    var preferences: Preferences

    /** The history never holds more than ten projects. */
    ghost predicate Valid()
      reads this
    {
      |projectHistory| <= HistoryLimit
    }

    function State(): StoreState
      reads this
    {
      StoreState(currentProject, projectHistory, isGenerating, error, showEditor,
                 selectedFile, activeTab, isDeploying, deploymentUrl, preferences)
    }

    constructor ()
      ensures Valid() && State() == InitialState()
    {
      currentProject := None;
      projectHistory := [];
      isGenerating := false;
      error := None;
      showEditor := false;
      selectedFile := "";
      activeTab := Preview;
      isDeploying := false;
      deploymentUrl := None;
      preferences := DefaultPreferences;
    }

    method SetCurrentProject(project: Option<GeneratedProject>)
      requires Valid()
      modifies this
      ensures Valid() && State() == old(State()).(currentProject := project)
      ensures Partialize(State()) == Partialize(old(State()))
    {
      currentProject := project;
    }

    /** Prepends `project`; the oldest entry falls off once ten are stored. */
    method AddToHistory(project: GeneratedProject)
      requires Valid()
      modifies this
      ensures Valid() && State() == old(State()).(projectHistory := PushHistory(old(projectHistory), project))
      ensures projectHistory[0] == project
      ensures |projectHistory| == Min(|old(projectHistory)| + 1, HistoryLimit)
    {
      var history := projectHistory;
      projectHistory := PushHistory(history, project);
    }

    method ClearHistory()
      requires Valid()
      modifies this
      ensures Valid() && State() == old(State()).(projectHistory := [])
    {
      projectHistory := [];
    }

    method SetIsGenerating(loading: bool)
      requires Valid()
      modifies this
      ensures Valid() && State() == old(State()).(isGenerating := loading)
      ensures Partialize(State()) == Partialize(old(State()))
    {
      isGenerating := loading;
    }

    method SetError(e: Option<string>)
      requires Valid()
      modifies this
      ensures Valid() && State() == old(State()).(error := e)
      ensures Partialize(State()) == Partialize(old(State()))
    {
      error := e;
    }

    method SetShowEditor(show: bool)
      requires Valid()
      modifies this
      ensures Valid() && State() == old(State()).(showEditor := show)
      ensures Partialize(State()) == Partialize(old(State()))
    {
      showEditor := show;
    }

    method SetSelectedFile(file: string)
      requires Valid()
      modifies this
      ensures Valid() && State() == old(State()).(selectedFile := file)
      ensures Partialize(State()) == Partialize(old(State()))
    {
      selectedFile := file;
    }

    method SetActiveTab(tab: Tab)
      requires Valid()
      modifies this
      ensures Valid() && State() == old(State()).(activeTab := tab)
      ensures Partialize(State()) == Partialize(old(State()))
    {
      activeTab := tab;
    }

    method SetIsDeploying(deploying: bool)
      requires Valid()
      modifies this
      ensures Valid() && State() == old(State()).(isDeploying := deploying)
      ensures Partialize(State()) == Partialize(old(State()))
    {
      isDeploying := deploying;
    }

    method SetDeploymentUrl(url: Option<string>)
      requires Valid()
      modifies this
      ensures Valid() && State() == old(State()).(deploymentUrl := url)
      ensures Partialize(State()) == Partialize(old(State()))
    {
      deploymentUrl := url;
    }

    method UpdatePreferences(patch: PreferencesPatch)
      requires Valid()
      modifies this
      ensures Valid() && State() == old(State()).(preferences := MergePreferences(old(preferences), patch))
    {
      preferences := MergePreferences(preferences, patch);
    }
  }

  /** The usage counters. `lastReset` is an ISO timestamp taken from the clock. */
  datatype Usage = Usage(tokensUsed: int, requestsCount: nat, lastReset: string)

  /** `{ ...usage, tokensUsed: tokensUsed + tokens, requestsCount: requestsCount + 1 }`. */
  function AddUsage(u: Usage, tokens: int): (r: Usage)
    ensures r.tokensUsed - u.tokensUsed == tokens
    ensures r.requestsCount == u.requestsCount + 1
    ensures r.lastReset == u.lastReset
  {
    u.(tokensUsed := u.tokensUsed + tokens, requestsCount := u.requestsCount + 1)
  }

  function Sum(ts: seq<int>): int {
    if ts == [] then 0 else Sum(ts[..|ts| - 1]) + ts[|ts| - 1]
  }

  /** The counters after one `updateUsage` per entry of `ts`, in order. */
  function AddAllUsage(u: Usage, ts: seq<int>): Usage
    decreases |ts|
  {
    if ts == [] then u else AddUsage(AddAllUsage(u, ts[..|ts| - 1]), ts[|ts| - 1])
  }

  /** After a run of updates the token count grew by their sum and the request count by their number. */
  lemma {:induction false} UsageAccumulates(u: Usage, ts: seq<int>)
    ensures AddAllUsage(u, ts) == Usage(u.tokensUsed + Sum(ts), u.requestsCount + |ts|, u.lastReset)
    decreases |ts|
  {
    if ts != [] {
      UsageAccumulates(u, ts[..|ts| - 1]);
    }
  }

  class ApiStore {
    var apiKey: Option<string>
    var isApiKeyValid: bool
    var usage: Usage

    constructor (now: string)
      ensures apiKey == None && !isApiKeyValid && usage == Usage(0, 0, now)
    {
      apiKey := None;
      isApiKeyValid := false;
      usage := Usage(0, 0, now);
    }

    method SetApiKey(key: Option<string>)
      modifies this
      ensures apiKey == key && isApiKeyValid == old(isApiKeyValid) && usage == old(usage)
    {
      apiKey := key;
    }

    method SetIsApiKeyValid(valid: bool)
      modifies this
      ensures isApiKeyValid == valid && apiKey == old(apiKey) && usage == old(usage)
    {
      isApiKeyValid := valid;
    }

    /** Counts one request of `tokens` tokens; the reset time is kept. */
    method UpdateUsage(tokens: int)
      modifies this
      ensures usage == AddUsage(old(usage), tokens)
      ensures apiKey == old(apiKey) && isApiKeyValid == old(isApiKeyValid)
    {
      var current := usage;
      usage := current.(tokensUsed := current.tokensUsed + tokens, requestsCount := current.requestsCount + 1);
    }

    /** Zeroes both counters and stamps the reset time `now`. */
    method ResetUsage(now: string)
      modifies this
      ensures usage == Usage(0, 0, now)
      ensures apiKey == old(apiKey) && isApiKeyValid == old(isApiKeyValid)
    {
      usage := Usage(0, 0, now);
    }
  }
}
