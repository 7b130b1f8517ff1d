/**
 * The project-history screen: how each stored project is titled and how its
 * download is named.
 */
module ProjectHistoryView {
  import opened Wrappers
  import opened Strings
  import opened Store

  predicate IsPageFile(f: SourceFile) {
    Contains(f.path, "page.tsx")
  }

  /** Index of the first file at or after `from` whose path contains "page.tsx" (or `|files|`). */
  function FindPageFile(files: seq<SourceFile>, from: nat): (i: nat)
    requires from <= |files|
    ensures from <= i <= |files|
    ensures i < |files| ==> IsPageFile(files[i])
    ensures forall k :: from <= k < i ==> !IsPageFile(files[k])
    decreases |files| - from
  {
    if from == |files| || IsPageFile(files[from]) then from else FindPageFile(files, from + 1)
  }

  /** `files.find(f => f.path.includes("page.tsx")) || files[0]`. */
  function MainFile(files: seq<SourceFile>): (f: Option<SourceFile>)
    ensures f.None? <==> files == []
    ensures (exists i :: 0 <= i < |files| && IsPageFile(files[i])) ==>
              exists i :: 0 <= i < |files| && f == Some(files[i]) && IsPageFile(files[i])
                          && forall k :: 0 <= k < i ==> !IsPageFile(files[k])
    ensures (forall i :: 0 <= i < |files| ==> !IsPageFile(files[i])) && files != [] ==> f == Some(files[0])
  {
    var i := FindPageFile(files, 0);
    if i < |files| then Some(files[i])
    else if files != [] then Some(files[0])
    else None
  }

  /**
   * The regular expression `/<h1[^>]*>([^<]+)<\/h1>/` matches at `i`, with its
   * opening tag closed by the '>' at `j` and the captured text ending at `k`.
   */
  ghost predicate HeadingAt(s: string, i: int, j: int, k: int) {
    && 0 <= i && i + 3 <= j < k && k + 5 <= |s|
    && s[i..i + 3] == "<h1"
    && (forall m :: i + 3 <= m < j ==> s[m] != '>') && s[j] == '>'
    && j + 1 < k && (forall m :: j + 1 <= m < k ==> s[m] != '<')
    && s[k..k + 5] == "</h1>"
  }

  ghost predicate MatchesAt(s: string, i: int) {
    exists j, k :: HeadingAt(s, i, j, k)
  }

  /** What `([^<]+)` can capture: at least one character, none of them '<'. */
  predicate NonEmptyText(t: string) {
    |t| > 0 && forall m :: 0 <= m < |t| ==> t[m] != '<'
  }

  /** Index of the first `c` at or after `from` (or `|s|`). */
  function IndexOf(s: string, c: char, from: nat): (j: nat)
    requires from <= |s|
    ensures from <= j <= |s|
    ensures j < |s| ==> s[j] == c
    ensures forall m :: from <= m < j ==> s[m] != c
    decreases |s| - from
  {
    if from == |s| || s[from] == c then from else IndexOf(s, c, from + 1)
  }

  /** The '>' closing the opening tag and the '<' ending the text are the first ones: a match is unique. */
  lemma HeadingDetermined(s: string, i: nat)
    ensures forall j, k :: HeadingAt(s, i, j, k) ==>
              j == IndexOf(s, '>', i + 3) && k == IndexOf(s, '<', j + 1)
  {
    forall j, k | HeadingAt(s, i, j, k)
      ensures j == IndexOf(s, '>', i + 3) && k == IndexOf(s, '<', j + 1)
    {
      var j0 := IndexOf(s, '>', i + 3);
      assert j0 <= j by { assert s[j] == '>'; }
      assert s[j0] == '>';
      var k0 := IndexOf(s, '<', j + 1);
      assert k0 <= k by { assert s[k] == "</h1>"[0]; }
      assert s[k0] == '<';
    }
  }

  /** `s[i..i + 3] == "<h1"`, character by character. */
  predicate OpenTagAt(s: string, i: nat)
    ensures OpenTagAt(s, i) <==> i + 3 <= |s| && s[i..i + 3] == "<h1"
  {
    i + 3 <= |s| && s[i] == '<' && s[i + 1] == 'h' && s[i + 2] == '1'
  }

  /** `s[k..k + 5] == "</h1>"`, character by character. */
  predicate CloseTagAt(s: string, k: nat)
    ensures CloseTagAt(s, k) <==> k + 5 <= |s| && s[k..k + 5] == "</h1>"
  {
    k + 5 <= |s| && s[k] == '<' && s[k + 1] == '/' && s[k + 2] == 'h' && s[k + 3] == '1' && s[k + 4] == '>'
  }

  /** The regular expression tried at position `i` alone: its captured text, if it matches there. */
  function HeadingTextAt(s: string, i: nat): (r: Option<string>)
    requires i <= |s|
    ensures r.Some? ==> NonEmptyText(r.value)
  {
    if OpenTagAt(s, i) then
      var j := IndexOf(s, '>', i + 3);
      if j == |s| then
        None
      else
        var k := IndexOf(s, '<', j + 1);
        if k > j + 1 && CloseTagAt(s, k) then Some(s[j + 1..k]) else None
    else
      None
  }

  /** The scan at `i` agrees with the regular expression: it answers iff a match starts there, with its capture. */
  lemma HeadingTextAtMatches(s: string, i: nat)
    requires i <= |s|
    ensures HeadingTextAt(s, i).Some? <==> MatchesAt(s, i)
    ensures forall j, k :: HeadingAt(s, i, j, k) ==> HeadingTextAt(s, i) == Some(s[j + 1..k])
  {
    HeadingDetermined(s, i);
    if HeadingTextAt(s, i).Some? {
      var j := IndexOf(s, '>', i + 3);
      var k := IndexOf(s, '<', j + 1);
      assert HeadingAt(s, i, j, k);
    }
  }

  /** `s.match(re)` searching from `from` on: the answer of the first position where the scan answers. */
  function FirstHeading(s: string, from: nat): (r: Option<string>)
    requires from <= |s|
    ensures r.Some? ==> NonEmptyText(r.value)
    decreases |s| - from
  {
    var here := HeadingTextAt(s, from);
    if here.Some? then here
    else if from == |s| then None
    else FirstHeading(s, from + 1)
  }

  /** The scan finds nothing from `from` on iff no position from there on answers. */
  lemma {:induction false} FirstHeadingNoneScan(s: string, from: nat)
    requires from <= |s|
    ensures FirstHeading(s, from).None? <==> forall i :: from <= i <= |s| ==> HeadingTextAt(s, i).None?
    decreases |s| - from
  {
    if HeadingTextAt(s, from).Some? {
      assert FirstHeading(s, from) == HeadingTextAt(s, from);
    } else if from == |s| {
      assert FirstHeading(s, from) == None;
    } else {
      FirstHeadingNoneScan(s, from + 1);
      assert FirstHeading(s, from) == FirstHeading(s, from + 1);
    }
  }

  /** What the scan finds is the answer of the first position from `from` on that answers. */
  lemma {:induction false} FirstHeadingSomeScan(s: string, from: nat) returns (i: nat)
    requires from <= |s| && FirstHeading(s, from).Some?
    ensures from <= i <= |s| && HeadingTextAt(s, i) == FirstHeading(s, from)
    ensures forall i' :: from <= i' < i ==> HeadingTextAt(s, i').None?
    decreases |s| - from
  {
    if HeadingTextAt(s, from).Some? {
      assert FirstHeading(s, from) == HeadingTextAt(s, from);
      i := from;
    } else {
      assert from < |s| && FirstHeading(s, from) == FirstHeading(s, from + 1);
      i := FirstHeadingSomeScan(s, from + 1);
    }
  }

  /** The scan answers at a position exactly where the regular expression matches. */
  lemma ScanAgreesWithMatch(s: string)
    ensures forall i :: 0 <= i <= |s| ==> (HeadingTextAt(s, i).None? <==> !MatchesAt(s, i))
  {
    forall i | 0 <= i <= |s| ensures HeadingTextAt(s, i).None? <==> !MatchesAt(s, i) {
      HeadingTextAtMatches(s, i);
    }
  }

  /** `s.match` finds nothing iff the regular expression matches nowhere in `s`. */
  lemma FirstHeadingNoneIffNoMatch(s: string)
    ensures FirstHeading(s, 0).None? <==> forall i :: 0 <= i <= |s| ==> !MatchesAt(s, i)
  {
    FirstHeadingNoneScan(s, 0);
    ScanAgreesWithMatch(s);
  }

  /** When `s.match` finds something, it is the capture of the leftmost match. */
  lemma FirstHeadingIsLeftmostMatch(s: string)
    requires FirstHeading(s, 0).Some?
    ensures exists i, j, k :: HeadingAt(s, i, j, k) && FirstHeading(s, 0).value == s[j + 1..k]
                              && forall i' :: 0 <= i' < i ==> !MatchesAt(s, i')
  {
    var i := FirstHeadingSomeScan(s, 0);
    HeadingTextAtMatches(s, i);
    var j, k :| HeadingAt(s, i, j, k);
    forall i' | 0 <= i' < i ensures !MatchesAt(s, i') {
      HeadingTextAtMatches(s, i');
    }
    assert HeadingAt(s, i, j, k) && FirstHeading(s, 0).value == s[j + 1..k];
  }

  const TitleLimit: nat := 50

  /** "Project {n} files". */
  function FileCountTitle(n: nat): string {
    "Project " + Decimal(n) + " files"
  }

  /**
   * `getProjectTitle`: the first `<h1>` text of the main file, cut to fifty
   * characters, or "Project {n} files" when the main file has none (or there are no files).
   */
  function ProjectTitle(project: GeneratedProject): (title: string)
    ensures var main := MainFile(project.files);
      if main.Some? && FirstHeading(main.value.content, 0).Some?
      then title == Prefix(FirstHeading(main.value.content, 0).value, TitleLimit)
      else title == FileCountTitle(|project.files|)
  {
    match MainFile(project.files)
    case Some(f) =>
      (match FirstHeading(f.content, 0)
       case Some(text) => Prefix(text, TitleLimit)
       case None => FileCountTitle(|project.files|))
    case None => FileCountTitle(|project.files|)
  }

  /** A title taken from a heading is non-empty, at most fifty characters long, and free of '<'. */
  lemma HeadingTitleBounded(project: GeneratedProject)
    requires MainFile(project.files).Some?
    requires var s := MainFile(project.files).value.content; exists i :: 0 <= i <= |s| && MatchesAt(s, i)
    ensures 0 < |ProjectTitle(project)| <= TitleLimit
    ensures !Contains(ProjectTitle(project), "<")
  {
    var s := MainFile(project.files).value.content;
    FirstHeadingNoneIffNoMatch(s);
    var h := FirstHeading(s, 0).value;
    var t := ProjectTitle(project);
    assert t == h[..|t|];
    forall p | 0 <= p && p + 1 <= |t| ensures !OccursAt(t, "<", p) {
      assert t[p..p + 1][0] == t[p] == h[p];
    }
  }

  /** A project without files is titled "Project 0 files". */
  lemma EmptyProjectTitle(preview: string)
    ensures ProjectTitle(GeneratedProject([], preview)) == "Project 0 files"
  {
  }

  /** The `name` of the download of entry `index`. */
  function DownloadName(index: nat): string {
    "Project " + Decimal(index + 1)
  }

  /** The file name of the download of entry `index`. */
  function DownloadFileName(index: nat): string {
    "v0-project-" + Decimal(index + 1) + ".json"
  }

  /** Different history entries are never saved under the same file name. */
  lemma DownloadFileNameInjective(a: nat, b: nat)
    requires DownloadFileName(a) == DownloadFileName(b)
    ensures a == b
  {
    var da, db := Decimal(a + 1), Decimal(b + 1);
    var x := DownloadFileName(a);
    assert |da| == |db|;
    assert da == x[11..11 + |da|] && db == x[11..11 + |db|];
    DecimalInjective(a + 1, b + 1);
  }

  /** Different history entries never get the same name. */
  lemma DownloadNameInjective(a: nat, b: nat)
    requires DownloadName(a) == DownloadName(b)
    ensures a == b
  {
    assert Decimal(a + 1) == DownloadName(a)[8..] && Decimal(b + 1) == DownloadName(b)[8..];
    DecimalInjective(a + 1, b + 1);
  }
}
