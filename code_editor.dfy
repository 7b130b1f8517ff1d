/**
 * The code editor screen: file icons, the initial file selection, copying the
 * selected file and the deploy button's effect on the store.
 */
module CodeEditor {
  import opened Wrappers
  import opened Strings
  import opened Store

  const TypeScriptIcon := "🔷"
  const StyleIcon := "🎨"
  const DocumentIcon := "📄"
  const MarkdownIcon := "📝"

  /** `getFileIcon`: the extension tests in source order, first hit wins. */
  function FileIcon(path: string): (icon: string)
    ensures icon in {TypeScriptIcon, StyleIcon, DocumentIcon, MarkdownIcon}
  {
    if EndsWith(path, ".tsx") || EndsWith(path, ".ts") then TypeScriptIcon
    else if EndsWith(path, ".css") then StyleIcon
    else if EndsWith(path, ".json") then DocumentIcon
    else if EndsWith(path, ".md") then MarkdownIcon
    else DocumentIcon
  }

  /**
   * Each icon by the extensions that lead to it. The TypeScript test (".tsx" or
   * ".ts") comes first; the ".json" test gives the same icon as the default, so
   * the document icon means exactly "none of .tsx, .ts, .css, .md".
   */
  lemma FileIconByExtension(path: string)
    ensures FileIcon(path) == TypeScriptIcon <==> EndsWith(path, ".ts") || EndsWith(path, ".tsx")
    ensures FileIcon(path) == StyleIcon <==>
              !EndsWith(path, ".ts") && !EndsWith(path, ".tsx") && EndsWith(path, ".css")
    ensures FileIcon(path) == MarkdownIcon <==>
              !EndsWith(path, ".ts") && !EndsWith(path, ".tsx") && !EndsWith(path, ".css") && EndsWith(path, ".md")
    ensures FileIcon(path) == DocumentIcon <==>
              !EndsWith(path, ".ts") && !EndsWith(path, ".tsx") && !EndsWith(path, ".css") && !EndsWith(path, ".md")
  {
  }

  /** The selection effect: with nothing selected and files to show, select the first file. */
  function InitialSelection(selected: string, files: seq<SourceFile>): (s: string)
    ensures selected == "" && files != [] ==> s == files[0].path
    ensures selected != "" || files == [] ==> s == selected
  {
    if selected == "" && |files| > 0 then files[0].path else selected
  }

  /** `project.files.find(f => f.path === selectedFile)`. */
  function FileAt(files: seq<SourceFile>, path: string): (f: Option<SourceFile>)
    ensures f.None? <==> forall i :: 0 <= i < |files| ==> files[i].path != path
    ensures f.Some? ==> exists i :: 0 <= i < |files| && files[i] == f.value && f.value.path == path
                                    && forall k :: 0 <= k < i ==> files[k].path != path
  {
    if files == [] then None
    else if files[0].path == path then Some(files[0])
    else
      var r := FileAt(files[1..], path);
      assert forall i :: 1 <= i < |files| ==> files[i] == files[1..][i - 1];
      r
  }

  /** The response of `/api/deploy` as the editor sees it, or the exception its fetch raised. */
  datatype DeployOutcome =
    | DeployReply(success: bool, url: Option<string>, error: string)
    | DeployThrew(message: string)

  /** The alert shown once the deploy finishes. */
  datatype DeployNotice = Deployed(url: Option<string>) | DeployFailed(message: string)

  function NoticeFor(outcome: DeployOutcome): (n: DeployNotice)
    ensures n.Deployed? <==> outcome.DeployReply? && outcome.success
    ensures n.DeployFailed? ==> n.message != "" || (outcome.DeployThrew? && outcome.message == "")
  {
    match outcome
    case DeployReply(success, url, error) =>
      if success then Deployed(url) else DeployFailed(if error == "" then "Deployment failed" else error)
    case DeployThrew(message) => DeployFailed(message)
  }

  /** The editor's own state: whether the "Copied!" mark shows. */
  class EditorPanel {
    var copied: bool

    constructor ()
      ensures !copied
    {
      copied := false;
    }

    /** Runs the selection effect against the store. */
    method SelectInitialFile(store: ProjectStore, project: GeneratedProject)
      requires store.Valid()
      modifies store
      ensures store.Valid()
      ensures store.State() == old(store.State()).(selectedFile := InitialSelection(old(store.selectedFile), project.files))
    {
      var selection := InitialSelection(store.selectedFile, project.files);
      if selection != store.selectedFile {
        store.SetSelectedFile(selection);
      }
    }

    /**
     * `copyCode`: hands the selected file's content to the clipboard (whose success is
     * `clipboardOk`); does nothing when no file has exactly the selected path.
     */
    method CopyCode(store: ProjectStore, project: GeneratedProject, clipboardOk: bool) returns (written: Option<string>)
      modifies this
      ensures written == (var f := FileAt(project.files, store.selectedFile); if f.Some? then Some(f.value.content) else None)
      ensures copied == ((written.Some? && clipboardOk) || old(copied))
    {
      var file := FileAt(project.files, store.selectedFile);
      if file.Some? {
        written := Some(file.value.content);
        if clipboardOk {
          copied := true;
        }
      } else {
        written := None;
      }
    }

    /** The two-second timer after a copy clears the mark. */
    method CopyTimerElapsed()
      modifies this
      ensures !copied
    {
      copied := false;
    }
  }

  /** First half of `deployProject`: the button switches to "Deploying...". */
  method StartDeploy(store: ProjectStore)
    requires store.Valid()
    modifies store
    ensures store.Valid() && store.State() == old(store.State()).(isDeploying := true)
  {
    store.SetIsDeploying(true);
  }

  /** Second half: record the URL on success, and in every case clear the flag. */
  method FinishDeploy(store: ProjectStore, outcome: DeployOutcome) returns (notice: DeployNotice)
    requires store.Valid()
    modifies store
    ensures store.Valid()
    ensures notice == NoticeFor(outcome)
    ensures store.State() == old(store.State()).(
              isDeploying := false,
              deploymentUrl := if notice.Deployed? then notice.url else old(store.deploymentUrl))
  {
    notice := NoticeFor(outcome);
    if notice.Deployed? {
      store.SetDeploymentUrl(notice.url);
    }
    store.SetIsDeploying(false);
  }

  /** `deployProject` as one step: afterwards the flag is down whatever happened. */
  method DeployProject(store: ProjectStore, outcome: DeployOutcome) returns (notice: DeployNotice)
    requires store.Valid()
    modifies store
    ensures store.Valid() && !store.isDeploying
    ensures notice == NoticeFor(outcome)
    ensures store.deploymentUrl == if outcome.DeployReply? && outcome.success then outcome.url else old(store.deploymentUrl)
    ensures store.State().(isDeploying := false, deploymentUrl := None) ==
            old(store.State()).(isDeploying := false, deploymentUrl := None)
  {
    StartDeploy(store);
    notice := FinishDeploy(store, outcome);
  }
}
