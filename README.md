# AI Code Generator: a Dafny model of its request handling and client state

The application is a Next.js site. A user chats in Georgian or English. Requests that
ask for code get one of four built-in React components, shown in a live HTML
preview. Other messages go to a chat-completion API. Generated projects are kept
in a client-side store with a bounded history.

This project models the deterministic rules around that glue:

- `generate_route.dfy` (`GenerateRoute`): `POST /api/generate`.
  - Validates the prompt.
  - Dispatches keywords case-insensitively, first match wins, to one of four templates.
  - Embeds the template verbatim in the preview page.
  - Handles failures with a landing-page fallback.
- `chat_route.dfy` (`ChatRoute`): `POST /api/chat`.
  - Checks the message, then the key.
  - Builds the outgoing message list: the system prompt, the last three history items re-tagged, then the new message.
  - Maps statuses to error texts.
  - Collapses empty or unparsable bodies into one error, and supplies the default reply.
- `chat_page.dfy` (`ChatPage`): the chat page.
  - `ChatSession` is a class whose methods update `messages`, `inputMessage`, `loading` and `currentProject` as `sendMessage`, `generateCode` and `clearChat` do.
  - Also covers the keyword classifier, the last-five context window, the send-button and quick-prompt conditions, and the reply texts.
- `store.dfy` (`Store`): the two zustand stores, as the classes `ProjectStore` and `ApiStore`.
  - The ten-entry newest-first history.
  - The preference merge and the usage counters.
  - Every setter, and the fields selected for persistence.
- `project_history.dfy` (`ProjectHistoryView`): titles and downloads.
  - The project title taken from the first `<h1>` of the main file. The regular expression is given declarative semantics, and the scanner is proved to find its leftmost match.
  - The download names.
- `code_editor.dfy` (`CodeEditor`): the editor screen.
  - File icons by extension.
  - The initial file selection.
  - `copyCode`.
  - The deploy flag and URL updates.
- `test_route.dfy` (`TestRoute`): `GET /api/test`, which reports whether the API key is set and masks it.
- `strings.dfy` (`Strings`), `wrappers.dfy` (`Wrappers`), `seqs.dfy` (`Seqs`): the JavaScript string operations the code uses, `Option`, and the array slice `slice(-n)`.
  - The string operations are `trim` with the full ECMAScript whitespace set, `toLowerCase`, `includes`, `endsWith`, `substring(0, n)` and decimal rendering. `StartsWith` is not a source operation; the lemmas use it to say that a text begins with a mark or a keyword.
  - The array slice `slice(-n)` is modelled as `LastN`.

Each fetch, the clock, the environment and the clipboard are inputs to the step that
uses them. An asynchronous handler is one atomic step that receives the outcome of its
remote call.

## Model

| member | source | states |
|---|---|---|
| GenerateRoute.TemplateCode | app/api/generate/route.ts:6-545 | each of the four components has a non-empty source text |
| GenerateRoute.TemplateCodeInjective | app/api/generate/route.ts:6-545 | the four components have four different sources, so an answer's code identifies its component |
| GenerateRoute.PreviewHtml | app/api/generate/route.ts:547-581 | the preview page starts with the fixed head, ends with the fixed tail, and is exactly as long as head, code and tail together |
| GenerateRoute.PreviewRoundTrip | app/api/generate/route.ts:574 | nothing is escaped: stripping the head and tail from a preview gives back the embedded code exactly |
| GenerateRoute.EmbeddedCodeExact | app/api/generate/route.ts:547-581 | every page the extractor accepts is the preview of what it extracts (the inverse direction of the round trip) |
| GenerateRoute.PreviewInjective | app/api/generate/route.ts:547-581 | two different components never produce the same preview page |
| GenerateRoute.KeywordGroupsCollapse | app/api/generate/route.ts:590-596 | "counter" or "count" holds iff "count" holds; "calculator" or "calc" holds iff "calc" holds |
| GenerateRoute.SelectTemplate | app/api/generate/route.ts:583-600 | first match wins on the lower-cased prompt: todo iff "todo" or "task"; counter iff no todo word and "count"; calculator iff neither earlier group and "calc"; landing page iff none of them |
| GenerateRoute.LowerKeepsOccurrence | app/api/generate/route.ts:584 | lower-casing keeps every occurrence of a word, lower-cased, at the same place |
| GenerateRoute.AnyCaseSelects | app/api/generate/route.ts:584-596 | a keyword written in any mix of cases selects its template, or an earlier group's |
| GenerateRoute.SelectTemplateIgnoresCase | app/api/generate/route.ts:584 | a prompt and its lower-cased form select the same template |
| GenerateRoute.LocalDemo | app/api/generate/route.ts:583-600 | the demo's code is the selected template's, and its preview embeds exactly that code |
| GenerateRoute.LandingPagePromptIsDefault | app/api/generate/route.ts:623 | the fallback prompt "landing page" holds no keyword, so it selects the landing page |
| GenerateRoute.Fallback | app/api/generate/route.ts:619-628 | the catch block answers with success and the landing-page component |
| GenerateRoute.Post | app/api/generate/route.ts:602-630 | rejected iff the prompt is missing or blank, and then with 400 and "Prompt is required"; a non-blank prompt gets its selected template; a malformed body or a prompt without `trim` gets the landing page; every generated answer's preview embeds its code |
| GenerateRoute.PostAnswersWithTemplate | app/api/generate/route.ts:602-630 | every successful answer is one of the four components |
| ChatRoute.OutgoingMessages | app/api/chat/route.ts:40-47 | for a history whose last three items are objects, the list is the system prompt, then the last min(3, n) history items in order, then the new message as user; so 2 to 5 entries; an item is tagged user iff its type is "user", and is never tagged system |
| ChatRoute.Configured | app/api/chat/route.ts:12 | the key counts as configured iff it is set and not empty |
| ChatRoute.Retag | app/api/chat/route.ts:42-45 | the content is kept; the role is user iff the item's type is "user", otherwise assistant, never system |
| ChatRoute.StatusError | app/api/chat/route.ts:56-67 | 401 gets the invalid-key text, 429 the rate-limit text and 500 the server-error text, each for that status only; every other status gets the generic "OpenAI API Error" |
| ChatRoute.StatusErrorDistinct | app/api/chat/route.ts:55-67 | 401, 429 and 500 get three distinct texts; a status gets the generic "OpenAI API Error" iff it is none of them |
| ChatRoute.ErrorText | app/api/chat/route.ts:102 | a non-empty exception message is kept; an empty one becomes the default chat error, so the text is never empty |
| ChatRoute.Interpret | app/api/chat/route.ts:32-97 | a rejected fetch becomes 500 with its message; non-OK becomes 500 with the status text (generic when the error body cannot be read); an OK but blank, unreadable or non-JSON body becomes the single invalid-response text; a `null` body becomes the TypeError; a reply is made iff the body parsed to anything but `null` (a number, string or boolean body parses to a value with no choices, so it gets the placeholder); the reply is the first choice's content when that is non-empty, and the placeholder iff it is missing or empty (or is the placeholder itself) |
| ChatRoute.Post | app/api/chat/route.ts:3-108 | a missing or blank message gives 400 before the key is looked at; a missing key gives 500 with the configuration error; a malformed body, a message without `trim` and a history that is not an array each give 500 with the exception's message; a `null` among the last three history items gives 500 with the TypeError; the remote call is made iff the message is non-blank, the key is set, the history is an array and none of its last three items is `null`, and then carries exactly the outgoing list; without a call the answer is a failure; every failure has status 400 or 500 and a non-empty error |
| ChatRoute.SentListBounded | app/api/chat/route.ts:40-47 | every request that reaches the remote API carries between two and five messages |
| ChatPage.ContainsAny | app/page.tsx:84-97 | true iff some word of the list occurs in the text |
| ChatPage.IsCodeRequest | app/page.tsx:83-97 | an input is a code request iff its lower-cased form contains one of the thirteen keywords |
| ChatPage.LeadingKeywordIsCodeRequest | app/page.tsx:83-97 | an input that starts with a keyword, in any letter case, is a code request |
| ChatPage.CapitalGeorgianIsCodeRequest | app/page.tsx:83-85 | "შექმენი" written in Georgian capitals is lower-cased to the keyword and so is a code request |
| ChatPage.QuickPromptsGenerate | app/page.tsx:166-170 | the first four quick prompts are code requests |
| ChatPage.SendBlocked | app/page.tsx:67 | the guard of `sendMessage`: the trimmed input is empty or a send is running |
| ChatPage.SendDisabled | app/page.tsx:434 | the send button is disabled while loading or while the input is blank |
| ChatPage.ShowQuickPrompts | app/page.tsx:243 | the quick prompts show while at most one message is shown |
| ChatPage.SendDisabledIffBlocked | app/page.tsx:67 | the send button's disabled condition (line 434) holds exactly when `sendMessage` would return without doing anything |
| ChatPage.GenerateText | app/page.tsx:54-63 | the success text when the response was OK and reported success; otherwise the marked error with `data.error` or "Generation failed", or the exception's message (its row's partner is the lemma below) |
| ChatPage.GenerateTextMarksFailure | app/page.tsx:54-63 | the generation text starts with "❌" iff the response was not OK or did not report success |
| ChatPage.ChatText | app/page.tsx:117-138 | the reply when the response was OK and reported success; otherwise the marked error with `data.error` or "Chat failed", or the exception's message, or the default when that is empty (its partner is the lemma below) |
| ChatPage.ChatTextMarksFailure | app/page.tsx:117-123 | a successful chat shows the reply verbatim; a failed one shows "❌" and a non-empty reason (line 138) |
| ChatPage.ReplyFor | app/page.tsx:99-124 | the assistant text of a send: the generation text for a code request, else the chat text |
| ChatPage.FailedSendIsMarked | app/page.tsx:101-141 | whichever endpoint a send goes to, a failure shows as an assistant message starting with "❌" |
| ChatPage.RequestFor | app/page.tsx:101-115 | a code request sends the trimmed input to generation; any other input goes to chat with the last min(5, n) messages shown before the send, in order |
| ChatPage.AppendExchange | app/page.tsx:76 | appending a user message and an assistant reply keeps the conversation alternating (assistant at even, non-blank user at odd positions); line 132 is the second append |
| ChatPage.ChatSession.constructor | app/page.tsx:20-31 | one greeting with id "1", an empty input, not loading, no project |
| ChatPage.ChatSession.SetInputMessage | app/page.tsx:29 | only the input changes |
| ChatPage.ChatSession.PickQuickPrompt | app/page.tsx:268-271 | clicking a quick prompt puts its text in the input and changes nothing else |
| ChatPage.ChatSession.ClearChat | app/page.tsx:154-164 | exactly one assistant message with id "1", no project, input and loading unchanged, so the quick prompts show again |
| ChatPage.ChatSession.GenerateCode | app/page.tsx:42-64 | the project is set iff the response was OK and reported success; the returned text is the success text or the marked error, and nothing throws; a shown project still reported success afterwards |
| ChatPage.ChatSession.SendMessage | app/page.tsx:66-145 | when the trimmed input is empty or a send is running, nothing changes and nothing is sent; otherwise exactly the user message (the trimmed input) and one assistant reply are appended, the input is cleared, loading ends false, the request is `RequestFor` on the messages as they stood before, and the project changes only on a successful generation |
| Store.Partialize | lib/store.ts:105-108 | the persisted part of the state: the history and the preferences (its partner is the lemma below) |
| Store.PartializeSelectsTwoFields | lib/store.ts:105-108 | two states persist the same iff their histories and preferences agree |
| Store.PushHistory | lib/store.ts:61-65 | the new project is first; the length is min(n + 1, 10); the rest are the oldest-dropped prefix of the old history, in order |
| Store.PushEvictsOldest | lib/store.ts:63 | what an add drops is a suffix, the oldest entries, of the old history |
| Store.PushAllKeepsNewest | lib/store.ts:61-65 | after any run of adds the history is the added projects, newest first, followed by the old history, cut to ten |
| Store.MergePreferences | lib/store.ts:98-101 | each supplied preference field overwrites; each unsupplied field keeps its value |
| Store.MergeCompose | lib/store.ts:98-101 | two merges equal one merge with the combined patch, in which the later supplied value wins |
| Store.MergeIdentityAndIdempotence | lib/store.ts:98-101 | an empty patch changes nothing, and merging the same patch twice is merging it once |
| Store.ProjectStore.constructor | lib/store.ts:55-97 | every field starts at its initial value: no project, empty history, light theme with auto-save and line numbers |
| Store.ProjectStore.SetCurrentProject | lib/store.ts:57 | only `currentProject` changes, and the persisted part stays the same |
| Store.ProjectStore.AddToHistory | lib/store.ts:61-65 | only the history changes, to `PushHistory` of the old one; the project is first; the bound of ten is kept |
| Store.ProjectStore.ClearHistory | lib/store.ts:66 | the history is empty and no other field changes |
| Store.ProjectStore.SetIsGenerating | lib/store.ts:70 | only `isGenerating` changes, and the persisted part stays the same |
| Store.ProjectStore.SetError | lib/store.ts:73 | only `error` changes, and the persisted part stays the same |
| Store.ProjectStore.SetShowEditor | lib/store.ts:77 | only `showEditor` changes, and the persisted part stays the same |
| Store.ProjectStore.SetSelectedFile | lib/store.ts:80 | only `selectedFile` changes, and the persisted part stays the same |
| Store.ProjectStore.SetActiveTab | lib/store.ts:83 | only `activeTab` changes, and the persisted part stays the same |
| Store.ProjectStore.SetIsDeploying | lib/store.ts:87 | only `isDeploying` changes, and the persisted part stays the same |
| Store.ProjectStore.SetDeploymentUrl | lib/store.ts:90 | only `deploymentUrl` changes, and the persisted part stays the same |
| Store.ProjectStore.UpdatePreferences | lib/store.ts:98-101 | only the preferences change, to the merge of the old ones with the patch |
| Store.AddUsage | lib/store.ts:145-149 | the token count grows by exactly the given amount, the request count by one, and the reset time is kept |
| Store.UsageAccumulates | lib/store.ts:142-151 | after any run of updates the tokens grew by their sum and the requests by their number |
| Store.ApiStore.constructor | lib/store.ts:130-141 | no key, not valid, zero counters stamped with the given time |
| Store.ApiStore.SetApiKey | lib/store.ts:132 | only the key changes |
| Store.ApiStore.SetIsApiKeyValid | lib/store.ts:135 | only the validity flag changes |
| Store.ApiStore.UpdateUsage | lib/store.ts:142-151 | the usage becomes `AddUsage` of the old usage; the key and flag stay |
| Store.ApiStore.ResetUsage | lib/store.ts:152-159 | both counters are zero and the reset time is the given time; the key and flag stay |
| ProjectHistoryView.FindPageFile | components/ProjectHistory.tsx:27 | the index of the first file at or after the start whose path contains "page.tsx", or the end |
| ProjectHistoryView.MainFile | components/ProjectHistory.tsx:27 | the first file whose path contains "page.tsx", else the first file, else none (exactly when there are no files) |
| ProjectHistoryView.HeadingDetermined | components/ProjectHistory.tsx:29 | a match of the `<h1>` expression at a position is unique: the first '>' closes the tag and the first '<' ends the text |
| ProjectHistoryView.HeadingTextAt | components/ProjectHistory.tsx:29 | the expression tried at one position: what it captures is non-empty and free of '<' |
| ProjectHistoryView.HeadingTextAtMatches | components/ProjectHistory.tsx:29 | the scan at a position answers iff the regular expression matches there, and then with the captured group |
| ProjectHistoryView.FirstHeading | components/ProjectHistory.tsx:29 | a found title text is non-empty and free of '<' |
| ProjectHistoryView.FirstHeadingNoneScan | components/ProjectHistory.tsx:29 | the search finds nothing iff no position from the start on answers |
| ProjectHistoryView.FirstHeadingSomeScan | components/ProjectHistory.tsx:29 | what the search finds is the answer of the first position that answers |
| ProjectHistoryView.ScanAgreesWithMatch | components/ProjectHistory.tsx:29 | at every position the scan answers iff the regular expression matches |
| ProjectHistoryView.FirstHeadingNoneIffNoMatch | components/ProjectHistory.tsx:29-30 | `match` gives null iff the regular expression matches nowhere in the text |
| ProjectHistoryView.FirstHeadingIsLeftmostMatch | components/ProjectHistory.tsx:29-31 | a found text is the captured group of the leftmost match |
| ProjectHistoryView.FileCountTitle | components/ProjectHistory.tsx:34 | "Project {n} files" with `n` in decimal |
| ProjectHistoryView.ProjectTitle | components/ProjectHistory.tsx:25-35 | the first `<h1>` text of the main file cut to 50 characters, else "Project {n} files" |
| ProjectHistoryView.HeadingTitleBounded | components/ProjectHistory.tsx:29-31 | when the main file has a heading, the title is non-empty, at most 50 characters long, and contains no '<' |
| ProjectHistoryView.EmptyProjectTitle | components/ProjectHistory.tsx:34 | a project without files is titled "Project 0 files" |
| ProjectHistoryView.DownloadName | components/ProjectHistory.tsx:39 | "Project {i+1}" for entry `i` |
| ProjectHistoryView.DownloadFileName | components/ProjectHistory.tsx:50 | "v0-project-{i+1}.json" for entry `i` |
| ProjectHistoryView.DownloadFileNameInjective | components/ProjectHistory.tsx:50 | different history entries never get the same "v0-project-{i+1}.json" file name |
| ProjectHistoryView.DownloadNameInjective | components/ProjectHistory.tsx:39 | different history entries never get the same "Project {i+1}" name |
| CodeEditor.FileIcon | components/CodeEditor.tsx:136-142 | the icon is one of the four; which one, by extension, is the lemma below |
| CodeEditor.FileIconByExtension | components/CodeEditor.tsx:136-142 | 🔷 iff ".ts" or ".tsx"; 🎨 iff ".css" and not TypeScript; 📝 iff ".md" and none before; 📄 iff none of .ts, .tsx, .css, .md, so the ".json" test and the default agree |
| CodeEditor.InitialSelection | components/CodeEditor.tsx:35-40 | with nothing selected and files present, the first file's path; otherwise the selection unchanged |
| CodeEditor.FileAt | components/CodeEditor.tsx:98 | none iff no path equals the selection exactly; otherwise the first file with that path |
| CodeEditor.NoticeFor | components/CodeEditor.tsx:62-71 | the deploy succeeded iff the reply reported success; a failure notice carries a non-empty reason unless the exception's own message was empty |
| CodeEditor.EditorPanel.constructor | components/CodeEditor.tsx:21 | the "Copied!" mark starts hidden |
| CodeEditor.EditorPanel.SelectInitialFile | components/CodeEditor.tsx:35-40 | the store's selection becomes `InitialSelection` of the old one, and nothing else in the store changes |
| CodeEditor.EditorPanel.CopyCode | components/CodeEditor.tsx:97-109 | the clipboard receives the content of the file whose path equals the selection, or nothing when there is none; the mark shows iff that write succeeded (or it already showed) |
| CodeEditor.EditorPanel.CopyTimerElapsed | components/CodeEditor.tsx:103 | the mark is hidden again |
| CodeEditor.StartDeploy | components/CodeEditor.tsx:54 | only `isDeploying` changes, to true |
| CodeEditor.FinishDeploy | components/CodeEditor.tsx:62-74 | the URL is recorded only on success; `isDeploying` is false on every path; nothing else changes |
| CodeEditor.DeployProject | components/CodeEditor.tsx:53-75 | afterwards the deploy flag is down whatever happened, the URL changed only on success, and no other store field changed |
| TestRoute.HasApiKey | app/api/test/route.ts:9 | `!!apiKey`: the key is set and not empty |
| TestRoute.ApiKeyStart | app/api/test/route.ts:10 | a set key shows its first min(10, n) characters and "..."; an unset or empty key shows "Not found" |
| TestRoute.MaskRevealsAtMostTen | app/api/test/route.ts:10 | the shown text is at most 13 characters long, and for a set key it is a prefix of the key followed by "..." |
| TestRoute.HasKeyIffShown | app/api/test/route.ts:9-10 | `hasApiKey` is true iff `apiKeyStart` is not "Not found" |
| TestRoute.Get | app/api/test/route.ts:3-13 | the report has success true; `apiKeyStart` is exactly the masked key of `ApiKeyStart`, so the masking lemmas hold of the report; `hasApiKey` agrees with the key and with `apiKeyStart`; the environment and the time are passed through |

The string helpers carry contracts of their own. The lemmas above use them:

- `Strings.Trim` is the middle of the string between two blank runs, with non-blank ends, and is empty iff the string is blank.
- `Strings.Contains` holds iff the word occurs.
- `Strings.DecimalRoundTrip` proves that decimal rendering reads back to its number.

## Left out

- Template bodies (app/api/generate/route.ts:6-545): each of the four JSX sources is a distinct placeholder text. The dispatch and the preview do not depend on their content.
- The remote calls are not modelled. Each becomes a value that the step receives:
  - the chat-completion fetch, as `Upstream`: a rejected fetch with its message, or a status, a body text and its parse;
  - the page's fetches to `/api/generate` and `/api/chat`, as `GenerateReply` and `ChatReply`;
  - the editor's deploy fetch, as `DeployOutcome`.
- The request's `model`, `max_tokens` and the floating-point `temperature` are not modelled.
- Asynchronous interleaving is not modelled. `sendMessage` and `deployProject` are each one atomic step, so a `clearChat` that runs while a send is awaiting is not modelled. The separate halves `StartDeploy`/`FinishDeploy` show the flag's intermediate state.
- Clock, locale and ids are parameters, not computed:
  - `Date.now()` message ids;
  - timestamps, `toLocaleTimeString` and `formatDate`;
  - the `lastReset` and `generatedAt` ISO strings.
- Browser effects are not modelled:
  - zustand `persist` and local storage: only `partialize` is modelled;
  - the clipboard, which is a success flag;
  - Blob and object URLs, `window.open`, `navigator.share`, `alert`, `console`, scrolling and React rendering.
- The deploy, git and preview routes (app/api/deploy, deploy-to-vercel, deploy-preview, lib/git-integration.ts, lib/preview-manager.ts) only fabricate random URLs and are not part of this model.
  - `FinishDeploy` records whatever `url` the deploy reply carries.
  - The editor reads `data.url` while app/api/deploy/route.ts answers with `deploymentUrl`. The end-to-end consequence, an undefined URL, is not modelled.
- components/SiteIdeaForm.tsx is fetch plumbing to a route that is not part of this model.
- Strings.LowerChar: `toLowerCase` is modelled for the ASCII and Latin-1 capitals, the Georgian Mtavruli capitals and the Kelvin sign. Other capitals (Greek, Cyrillic, Latin Extended and the rest) are left as they are, and `İ` (U+0130), which JavaScript turns into two characters, is not expanded. So the keyword dispatch of `GenerateRoute.SelectTemplate` and `ChatPage.IsCodeRequest` can differ from the source on prompts holding such capitals.
- String lengths count code points, while JavaScript counts UTF-16 code units. `substring(0, 10)` and `substring(0, 50)` therefore agree only for text within the Basic Multilingual Plane.
- Store.MergePreferences: a patch that supplies a field explicitly as `undefined` (which the spread copies in) is not modelled; a patch field is either supplied with a value or absent.
- Store.AddUsage: JavaScript numbers are modelled as unbounded integers. Fractional token counts and floating-point rounding are not modelled.
- ChatRoute.Post: a `message` or history item that is an object with its own `trim` or `content` is not modelled. A history item whose `type` or `content` is not a string is not modelled either: a non-string `type` only makes the item an assistant message, but a non-string `content` goes upstream unchanged, and `HistoryItem` holds the content only as a string. A `null` item is modelled as `NullItem`. A message is a string, absent, or a value without `trim`. A TypeError's message is the stand-in text "TypeError", because its wording is the engine's.
- ChatRoute.Interpret: a first choice whose content is truthy but not a string (a number, an array of parts) is not modelled; `Completion` holds the content only as a string, so such a value, which the source passes back as `response`, has no counterpart.
- ChatPage.ChatSession.SendMessage: a chat reply whose `data.response` is not a string is not modelled. The reply text is a string.
- TestRoute.Get: the catch block (app/api/test/route.ts:14-19) cannot be reached from the modelled inputs. Reading the environment and the clock cannot throw there.
