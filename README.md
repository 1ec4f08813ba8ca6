# ADW_GPT browser client — a Dafny model

ADW_GPT is a chat application for project documents. A user signs in, keeps
projects (each bound to a language model), uploads files into a project,
opens chat sessions in it and talks to an assistant whose replies are rendered
as light markup. This project models the browser client's core:

- the application shell (`Cascade`): the project list, the selected project,
  its session list, the selected session, and the single error message and
  busy flag that every component reports into. Each handler is a pure
  transition on a `View` and the `App` class applies exactly that transition
  to its fields. A backend request is two events, issuing it and its response
  arriving. Nothing matches a response to the request that caused it: a
  response is written into the state whatever has been selected since.
- the panel-collapse rule of the mobile handler (`Layout`), with its
  768-pixel threshold, and the two manual toggles.
- the chat window's conversation protocol (`Conversation`). History is loaded
  when the window is shown, and again on every render of the shell while it
  is shown: the loading effect depends on the shell's error handler, which is
  a new function on each render. An error written while the chat is shown is
  therefore cleared again at once, and the history is requested anew.
  Sending a message appends it at once with a token no other message carries. The refetched history then replaces the
  whole list, or a failure removes exactly that message again.
- the renderer of assistant replies (`Markup`, `MarkupPatterns`,
  `MarkupLaws`, `MarkupExamples`, `MarkupBreaks`). It runs six global regular-expression
  replacements in order: numbered items, bold, italics, headings, citations,
  nested items. Then it splits on blank lines and wraps each paragraph in
  `<p>`. Each replacement is a left-to-right scan with JavaScript's regex
  semantics (`\s`, multiline `^`/`$`, greedy runs), and the laws relate each
  scanner to the shape of text its pattern describes.
- the creation forms of the project and session lists (`Creation`). Both
  check for a blank name. The session form also has a file gate. Both forms
  mark the selected entry as active by id.

Properties the code has but that its design notes do not suggest:

- The busy flag never shows. Every request raises it and then immediately
  clears the error through `handleError`, which lowers it again
  (`Cascade.NeverBusy`).
- The project files are never set by the shell, so in the composed
  application the session form always stays disabled and a submission only
  reports that files are needed (`Creation.SessionsNeverCreatable`).
- The renderer is not idempotent (`MarkupLaws.RenderTwice`).
- An indented numbered line is turned into a top-level item by the first
  pass, which is not anchored to a line start
  (`MarkupExamples.IndentedItemIsTopLevel`). The nested-list pass does fire
  on an indented numbered line that follows a `\r`, U+2028 or U+2029 inside a
  numbered line, because the first pass runs over those breaks
  (`MarkupExamples.ReturnNestsItem`).
- The chat's error messages last one render: the failed send's and the
  failed history load's errors are cleared by the history effect that their
  own render triggers, and a failing history request is issued again and
  again (`Conversation.FailedSendRerun`, `Conversation.FailedHistoryRepeats`).
- A blank line after a numbered line is no paragraph break. The first pass
  ends its pattern in `(\n|$)` and so takes the first newline of the blank
  line; the split on blank lines then finds none. Two numbered items
  separated by a blank line stay in one block joined by a single newline
  (`MarkupBreaks.TwoItemsOneBlock`, `MarkupBreaks.TwoIdeasOneBlock`), and
  plain text after a numbered line and a blank line joins the item's block
  and is never wrapped in `<p>` (`MarkupBreaks.ItemSwallowsBreak`).

## Model

| member | source | states |
|---|---|---|
| Domain.TrimStart | frontend/src/components/ChatWindow.jsx:106 | the result is a suffix of the input that does not start with whitespace, and only whitespace was dropped |
| Domain.TrimEnd | frontend/src/components/ChatWindow.jsx:106 | the result is a prefix of the input that does not end with whitespace, and only whitespace was dropped |
| Domain.TrimIsCore | frontend/src/components/ChatWindow.jsx:106 | `trim()` returns the slice left after removing whitespace on both sides, and that slice neither starts nor ends with whitespace |
| Domain.TrimEmptyIffBlank | frontend/src/components/ChatWindow.jsx:43 | a string trims to empty exactly when it is whitespace only |
| Domain.IsSpace | frontend/src/components/ChatWindow.jsx:33 | the characters JavaScript's `\s` and `trim()` treat as whitespace: the WhiteSpace and LineTerminator sets; `TrimStart`, `TrimEnd` and `TrimIsCore` are stated over it |
| Domain.Trim | frontend/src/components/ChatWindow.jsx:106 | `String.prototype.trim`, as the composition of the two one-sided trims; `TrimIsCore` and `TrimEmptyIffBlank` state what it returns |
| Layout.Resize | frontend/src/components/MobileHandler.jsx:22-41 | a wide viewport opens both panels; on mobile a session collapses both, a project alone collapses the projects panel, and no selection leaves the flags as they were |
| Layout.ProjectEffect | frontend/src/components/MobileHandler.jsx:54-58 | on mobile with a project selected, the projects panel collapses; the sessions panel is untouched |
| Layout.SessionEffect | frontend/src/components/MobileHandler.jsx:60-65 | on mobile with a session selected, both panels collapse; otherwise nothing changes |
| Layout.ResizeIdempotent | frontend/src/components/MobileHandler.jsx:22-41 | applying the resize rule twice with the same inputs equals applying it once |
| Layout.ResizeDirection | frontend/src/components/MobileHandler.jsx:25-40 | on mobile the rule never opens a panel, and on a wide viewport it never closes one |
| Layout.EffectsAbsorbed | frontend/src/components/MobileHandler.jsx:51-65 | the two selection effects add nothing after the resize rule with the same inputs |
| Layout.MobileThreshold | frontend/src/components/MobileHandler.jsx:16-18 | 768 is mobile, 769 is not, and every narrower width is mobile too |
| Layout.IsMobile | frontend/src/components/MobileHandler.jsx:16-18 | `isMobileDevice`: a width of at most 768 pixels; `MobileThreshold` fixes its boundary |
| Layout.Panels.HandleResize | frontend/src/components/MobileHandler.jsx:22-41 | the new flags are `Resize` of the old flags |
| Layout.Panels.constructor | frontend/src/App.jsx:20-21 | both panels start open |
| Layout.Panels.ProjectChanged | frontend/src/components/MobileHandler.jsx:51-58 | resize rule then project effect: the new flags are `Resize` of the old flags |
| Layout.Panels.SessionChanged | frontend/src/components/MobileHandler.jsx:51-65 | resize rule then session effect: the new flags are `Resize` of the old flags |
| Layout.Panels.ToggleProjects | frontend/src/App.jsx:134-136 | flips the projects flag and keeps the sessions flag |
| Layout.Panels.ToggleSessions | frontend/src/App.jsx:138-140 | flips the sessions flag and keeps the projects flag |
| Layout.Walkthrough | frontend/src/components/MobileHandler.jsx:22-65 | at width 500: nothing selected leaves both open, a project folds projects, a session folds both; at 1024 both open again, also after a manual toggle |
| Cascade.Initial | frontend/src/App.jsx:12-21 | the first render: no lists, no selection, no files, no error, not busy |
| Cascade.Fail | frontend/src/App.jsx:59-62 | `handleError` sets the message, lowers the busy flag and changes nothing else |
| Cascade.OtherProject | frontend/src/App.jsx:125 | the guard `selectedProject?.id !== project.id`: no selection, or a selection with another id; `ProjectSelected` is stated with it |
| Cascade.ChatShown | frontend/src/App.jsx:315 | the chat window is shown exactly when a project and a session are selected; `ForeignSessionKept` is stated with it |
| Cascade.ProjectsRequested | frontend/src/App.jsx:64-66 | issuing the project load ends with the error cleared and the busy flag down; nothing else changes |
| Cascade.ProjectsArrived | frontend/src/App.jsx:67-75 | success replaces the project list; failure keeps it and reports "Failed to load projects."; the busy flag ends down |
| Cascade.SessionsRequested | frontend/src/App.jsx:86-110 | with a project, the error is cleared and the busy flag ends down; without one, the session list is emptied |
| Cascade.SessionsArrived | frontend/src/App.jsx:91-104 | success replaces the list and clears the selected session; failure empties the list, reports, keeps the selected session; the project is not consulted |
| Cascade.ProjectCreated | frontend/src/App.jsx:112-116 | the project is appended and selected, the busy flag drops, nothing else changes |
| Cascade.SessionCreated | frontend/src/App.jsx:118-122 | the session is appended and selected, the busy flag drops, nothing else changes |
| Cascade.ProjectSelected | frontend/src/App.jsx:124-128 | a project with another id replaces the selection; the same id changes nothing |
| Cascade.SessionSelected | frontend/src/App.jsx:130-132 | the session becomes the selection, nothing else changes |
| Cascade.Dismissed | frontend/src/App.jsx:202 | the banner's close button clears the error only |
| Cascade.LoggedIn | frontend/src/App.jsx:143-147 | authenticated, error cleared, not busy; lists and selections unchanged until the projects arrive |
| Cascade.LoggedOut | frontend/src/App.jsx:149-162 | whatever the logout request did: signed out, both lists and both selections cleared, error and busy flag kept |
| Cascade.RunAppend | frontend/src/App.jsx:59-162 | running two stretches of events is running the first, then the second |
| Cascade.NeverBusy | frontend/src/App.jsx:64-122 | from a state that is not busy, no run of handlers and responses ever leaves the busy flag up |
| Cascade.FilesNeverSet | frontend/src/App.jsx:31 | no run of handlers changes the project files: the only setter is handed to the upload panel, which never calls it (FileUpload.jsx:5) |
| Cascade.StaleSessionsShown | frontend/src/App.jsx:86-110 | select a, load, select b, load, then a response carrying b's list and a response carrying a's list: the list carried by the response that arrives last (a's) is shown while b is selected |
| Cascade.ForeignSessionKept | frontend/src/App.jsx:98-101 | switching project and then failing to load its sessions keeps the old project's session selected, so the chat stays shown |
| Cascade.LastResponseDecides | frontend/src/App.jsx:93-97 | the last session list to arrive is the one shown, whatever it was requested for |
| Cascade.App.constructor | frontend/src/App.jsx:12-21 | the fields hold the initial view and both panels start open |
| Cascade.Status.constructor | frontend/src/App.jsx:18-19 | no error, not busy |
| Cascade.Status.HandleError | frontend/src/App.jsx:59-62 | the error becomes the message and the busy flag drops |
| Cascade.Status.SetLoading | frontend/src/App.jsx:18 | the busy flag becomes the value given; the error is kept |
| Cascade.Status.SetError | frontend/src/App.jsx:202 | the error becomes the message; the busy flag is kept |
| Cascade.App.LoadProjects | frontend/src/App.jsx:64-66 | the new state is `ProjectsRequested` of the old |
| Cascade.App.ProjectsResponse | frontend/src/App.jsx:67-75 | the new state is `ProjectsArrived` of the old |
| Cascade.App.LoadSessions | frontend/src/App.jsx:86-92 | the request is made for the selected project's id, and none is made without a selection; the new state is `SessionsRequested` of the old |
| Cascade.App.SessionsResponse | frontend/src/App.jsx:91-104 | the new state is `SessionsArrived` of the old |
| Cascade.App.HandleProjectCreated | frontend/src/App.jsx:112-116 | the new state is `ProjectCreated` of the old |
| Cascade.App.HandleSessionCreated | frontend/src/App.jsx:118-122 | the new state is `SessionCreated` of the old |
| Cascade.App.HandleSelectProject | frontend/src/App.jsx:124-128 | the new state is `ProjectSelected` of the old, and it reports whether the id differed |
| Cascade.App.HandleSelectSession | frontend/src/App.jsx:130-132 | the new state is `SessionSelected` of the old |
| Cascade.App.DismissError | frontend/src/App.jsx:202 | the new state is `Dismissed` of the old |
| Cascade.App.HandleLoginSuccess | frontend/src/App.jsx:143-147 | the new state is `LoggedIn` of the old |
| Cascade.App.HandleLogout | frontend/src/App.jsx:149-162 | the new state is `LoggedOut` of the old, whether or not the request failed |
| Cascade.App.ToggleProjectsPanel | frontend/src/App.jsx:134-136 | flips the projects flag only |
| Cascade.App.ToggleSessionsPanel | frontend/src/App.jsx:138-140 | flips the sessions flag only |
| Cascade.App.ApplyAll | frontend/src/App.jsx:59-162 | applying a run of events through the handlers gives `Run` of the old state |
| Cascade.StaleRun | frontend/src/App.jsx:86-110 | driven through the class: the first request is made for a's id and the second for b's; when the answer to the first arrives last, b is selected and the list answering the request for a's id is shown |
| Conversation.RemoveToken | frontend/src/components/ChatWindow.jsx:133 | the filter keeps every message except the one with the token, never grows the list, and is the identity when the token is absent |
| Conversation.RemoveHead | frontend/src/components/ChatWindow.jsx:133 | the filter drops a head message carrying the token and keeps a tail without it |
| Conversation.KeepHead | frontend/src/components/ChatWindow.jsx:133 | the filter keeps a head message without the token in front of the filtered tail |
| Conversation.ConsRegroup | frontend/src/components/ChatWindow.jsx:133 | a non-empty message list read as its head and its tail, before and after the removed message |
| Conversation.RemoveTokenSplit | frontend/src/components/ChatWindow.jsx:133 | taking out the one message with the token from anywhere in the list leaves the messages before and after it, in order |
| Conversation.RollbackRestores | frontend/src/components/ChatWindow.jsx:114-134 | removing the appended message from a list that did not hold its token gives back the list from before the send |
| Conversation.SameTextStays | frontend/src/components/ChatWindow.jsx:133 | a message equal in content but not the appended one survives the removal |
| Conversation.ReplacedListUntouched | frontend/src/components/ChatWindow.jsx:127-133 | when the server's list has replaced the messages, a late removal changes nothing |
| Conversation.FreshToken | frontend/src/components/ChatWindow.jsx:108-114 | a token not yet handed out is carried by no message in the list |
| Conversation.AppendKeepsBelow | frontend/src/components/ChatWindow.jsx:114 | appending the message with the next token keeps every token below the next bound |
| Conversation.ButtonMatchesGuard | frontend/src/components/ChatWindow.jsx:106-231 | with a project selected, an enabled send button passes the handler's checks, and when nothing is in flight the converse holds |
| Conversation.SendEnabled | frontend/src/components/ChatWindow.jsx:231 | the send button's rule: not busy, not sending, a non-blank draft and a session; `ButtonMatchesGuard` relates it to the handler |
| Conversation.SendAccepted | frontend/src/components/ChatWindow.jsx:106 | the checks of `handleSendMessage`: a non-blank draft, a project and a session; `ChatWindow.Send` goes on exactly when they hold |
| Conversation.InputDisabled | frontend/src/components/ChatWindow.jsx:225 | the message box's rule: busy, sending or no session; `BusyNeverBlocksSending` reduces it |
| Conversation.BusyNeverBlocksSending | frontend/src/components/ChatWindow.jsx:225-231 | in every state the shell's own events reach, the busy flag plays no part in disabling the message box or the send button; the chat window's and the forms' methods keep the flag down through their own ensures |
| Conversation.ChatWindow.constructor | frontend/src/components/ChatWindow.jsx:63-65 | an empty list, an empty input, not sending |
| Conversation.ChatWindow.Edit | frontend/src/components/ChatWindow.jsx:151-153 | the input becomes the typed text, nothing else changes |
| Conversation.ChatWindow.LoadHistory | frontend/src/components/ChatWindow.jsx:75-96 | one run of the history effect: with a project and a session, the error is cleared and the busy flag ends down; otherwise the list is emptied and the shell untouched |
| Conversation.ChatWindow.HistoryResponse | frontend/src/components/ChatWindow.jsx:80-88 | success puts the server's history in the list; failure empties it and reports "Failed to load message history."; the busy flag ends down |
| Conversation.ChatWindow.Append | frontend/src/components/ChatWindow.jsx:108-117 | the message is appended with a token no earlier message carries, the input is cleared and sending starts |
| Conversation.ChatWindow.Send | frontend/src/components/ChatWindow.jsx:104-118 | a blank input or missing selection changes nothing; otherwise the user's message is appended with a fresh token, the input cleared, sending started and the error cleared |
| Conversation.ChatWindow.KeyDown | frontend/src/components/ChatWindow.jsx:143-148 | Enter without Shift submits exactly as the send button does, with the same new state as `Send`: the message appended with a fresh token, the input cleared, sending started and the error cleared, or nothing changed when the checks fail; any other key changes nothing |
| Conversation.ChatWindow.SendResponse | frontend/src/components/ChatWindow.jsx:121-137 | success replaces the whole list; failure removes only the message with the token and reports; the input is not restored; sending stops |
| Conversation.FailedSend | frontend/src/components/ChatWindow.jsx:104-137 | a send whose reply fails leaves the list as it was before, the input empty and the error written; the error lasts until the history effect runs again |
| Conversation.FailedSendRerun | frontend/src/components/ChatWindow.jsx:75-137 | after a failed send, the shell render that shows its error runs the history effect again: a new request is issued and the error is cleared |
| Conversation.FailedHistoryRepeats | frontend/src/components/ChatWindow.jsx:75-97 | after a failed history load, the render that shows its error runs the effect again: the list stays empty, a new request is issued and the error is cleared |
| Creation.SessionGateOf | frontend/src/components/SessionList.jsx:14-26 | a blank name or no project does nothing; a project without files is stopped by the file gate; otherwise the request names the project and the name |
| Creation.HasFiles | frontend/src/components/SessionList.jsx:10 | `hasFiles`: the project has at least one uploaded file |
| Creation.SessionCreateEnabled | frontend/src/components/SessionList.jsx:79 | the session button's rule; `SessionButtonMatchesGate` relates it to the handler and `SessionsNeverCreatable` shows it never holds in the composed shell |
| Creation.SessionInputDisabled | frontend/src/components/SessionList.jsx:74 | the session name input's rule; `SessionsNeverCreatable` shows it always holds in the composed shell |
| Creation.ProjectInputDisabled | frontend/src/components/ProjectList.jsx:51-58 | the project name input and the model select are disabled while the shell is busy or a project is being created; `ProjectButtonNeedsOpenInput` relates it to the button |
| Creation.ProjectButtonNeedsOpenInput | frontend/src/components/ProjectList.jsx:51-69 | the create button is enabled exactly when the input and the select are open and the name holds a character that is not whitespace |
| Creation.ProjectCreateEnabled | frontend/src/components/ProjectList.jsx:69 | the project button's rule; `ProjectButtonMatchesSubmit` relates it to the handler |
| Creation.SessionButtonMatchesGate | frontend/src/components/SessionList.jsx:10-79 | the create button is enabled exactly when nothing is in flight and the handler would issue the request |
| Creation.SessionsNeverCreatable | frontend/src/components/SessionList.jsx:10-79 | in every state the composed shell reaches, the session input and button are disabled and a submission with a name and a project only reports the file message |
| Creation.ProjectButtonMatchesSubmit | frontend/src/components/ProjectList.jsx:19-69 | the create button is enabled exactly when nothing is in flight and the name passes the check under which `ProjectList.Submit` issues the request, that is, when it holds a character that is not whitespace |
| Creation.ProjectActive | frontend/src/components/ProjectList.jsx:81 | an entry is active when its id is the selected project's id |
| Creation.SessionActive | frontend/src/components/SessionList.jsx:101 | an entry is active when its id is the selected session's id |
| Creation.OneActiveProject | frontend/src/components/ProjectList.jsx:81 | with distinct ids, at most one project entry is shown as active |
| Creation.OneActiveSession | frontend/src/components/SessionList.jsx:101 | with distinct ids, at most one session entry is shown as active |
| Creation.SessionList.Edit | frontend/src/components/SessionList.jsx:72 | the name becomes the typed text |
| Creation.SessionList.Submit | frontend/src/components/SessionList.jsx:12-24 | the outcome is `SessionGateOf`; nothing changes when ignored, the file message is reported at the gate, and a request starts creating with the error cleared |
| Creation.SessionList.Resolve | frontend/src/components/SessionList.jsx:25-34 | success hands the session to the shell (`SessionCreated`) and clears the name; failure reports "Failed to create session." and keeps the name; creating stops |
| Creation.ProjectList.constructor | frontend/src/components/ProjectList.jsx:6-8 | empty name, model "gpt-4o", not creating, the model is one of the offered ones |
| Creation.ProjectList.Edit | frontend/src/components/ProjectList.jsx:49 | the name becomes the typed text |
| Creation.ProjectList.SelectModel | frontend/src/components/ProjectList.jsx:11-58 | the model becomes the chosen offered id and stays one of the five offered ones |
| Creation.ProjectList.Submit | frontend/src/components/ProjectList.jsx:19-24 | a blank name does nothing; otherwise the request carries the name and the selected model, creating starts and the error is cleared |
| Creation.ProjectList.Resolve | frontend/src/components/ProjectList.jsx:26-35 | success hands the project to the shell (`ProjectCreated`) and clears the name; failure reports "Failed to create project." and keeps the name |
| Creation.CreateFirstProject | frontend/src/components/ProjectList.jsx:7-35 | a fresh form sends the default model "gpt-4o", and the created project ends up last in the list and selected |
| Markup.RunEnd | frontend/src/components/ChatWindow.jsx:13 | the greedy run: every character up to the end is in the class and the next one is not |
| Markup.LastNonTerminator | frontend/src/components/ChatWindow.jsx:24 | the last index in the range that is not a line terminator, with only terminators after it |
| Markup.MatchAt | frontend/src/components/ChatWindow.jsx:13-36 | a match at `i` consumes at least one character and stays inside the text |
| Markup.MatchNumbered | frontend/src/components/ChatWindow.jsx:13-15 | the numbered pattern at one index, unanchored; `NumberedMatchSound` and `NumberedMatchComplete` characterize it |
| Markup.MatchBold | frontend/src/components/ChatWindow.jsx:18 | the bold pattern at one index; `BoldMatchSound` and `BoldMatchComplete` characterize it |
| Markup.MatchItalic | frontend/src/components/ChatWindow.jsx:21 | the italic pattern with its look-behind and look-aheads at one index; `ItalicMatchSound` and `ItalicMatchComplete` characterize it |
| Markup.MatchHeading | frontend/src/components/ChatWindow.jsx:24-27 | the heading pattern at a line start; `HeadingMatchSound`, `HeadingHashes` and `HeadingMatchGreedy` characterize it |
| Markup.MatchCitation | frontend/src/components/ChatWindow.jsx:30 | the citation pattern at one index; `CitationMatchSound` and `CitationMatchComplete` characterize it |
| Markup.MatchNested | frontend/src/components/ChatWindow.jsx:33-36 | the nested pattern at a line start; `NestedMatchSound` and `NestedMatchComplete` characterize it |
| Markup.ReplaceFrom | frontend/src/components/ChatWindow.jsx:13-36 | the global replace as a left-to-right scan from an index; `ReplaceCopies`, `ReplaceSkip` and `ReplaceIdentity` state its laws |
| Markup.ReplaceAll | frontend/src/components/ChatWindow.jsx:13-36 | `String.prototype.replace` with the `g` flag: the scan from the start |
| Markup.FindBreak | frontend/src/components/ChatWindow.jsx:39 | the first "\n\n" at or after `i`, with none before it |
| Markup.SplitFrom | frontend/src/components/ChatWindow.jsx:39 | the blocks of a tail between breaks, never fewer than one; `SplitFromShape` and `SplitFromUnique` characterize it |
| Markup.Split | frontend/src/components/ChatWindow.jsx:39 | `split('\n\n')`; `SplitJoin` and `SplitUnique` characterize it |
| Markup.Join | frontend/src/components/ChatWindow.jsx:59 | `join` with a separator; `SplitJoin` and `JoinNothing` state its laws |
| Markup.IsStructural | frontend/src/components/ChatWindow.jsx:46-51 | the four `includes` tests; `NotContained` and `ListBlock` state when they hold |
| Markup.WrapBlock | frontend/src/components/ChatWindow.jsx:42-56 | what one paragraph contributes; `WrapBlockCases` states its three cases |
| Markup.WrapAll | frontend/src/components/ChatWindow.jsx:42-56 | each block is wrapped on its own, and the count is kept |
| Markup.Paragraphs | frontend/src/components/ChatWindow.jsx:39-59 | split, wrap each, join; `BlankRendersEmpty` and `PlainParagraph` state its results |
| Markup.Passes | frontend/src/components/ChatWindow.jsx:13-36 | the six replacements in source order; `InertPasses`, `MarklessPasses` and `ReturnPasses` state results of it |
| Markup.Render | frontend/src/components/ChatWindow.jsx:6-59 | `formatAssistantMessage`; `RenderTwice`, `BlankRendersEmpty`, `PlainParagraph`, `IndentedItemIsTopLevel` and `ReturnNestsItem` state what it returns |
| MarkupPatterns.RunEndIs | frontend/src/components/ChatWindow.jsx:13 | a run bounded by a character outside the class ends exactly where `RunEnd` says |
| MarkupPatterns.NumberedMatchComplete | frontend/src/components/ChatWindow.jsx:13-15 | digits, '.', one whitespace and a line of text become one list item, and the following newline is consumed |
| MarkupPatterns.NumberedMatchSound | frontend/src/components/ChatWindow.jsx:13 | the numbered scanner matches exactly where the pattern's shape occurs |
| MarkupPatterns.BoldMatchComplete | frontend/src/components/ChatWindow.jsx:18 | `**text**` without '*' inside becomes `<strong>text</strong>` |
| MarkupPatterns.BoldMatchSound | frontend/src/components/ChatWindow.jsx:18 | the bold scanner matches exactly where the pattern's shape occurs |
| MarkupPatterns.ItalicMatchComplete | frontend/src/components/ChatWindow.jsx:21 | a lone '*', text without '*', and a lone '*' become `<em>text</em>` |
| MarkupPatterns.ItalicMatchSound | frontend/src/components/ChatWindow.jsx:21 | the italic scanner, lookbehind and lookaheads included, matches exactly where the shape occurs |
| MarkupPatterns.HeadingMatchSound | frontend/src/components/ChatWindow.jsx:24 | the heading scanner matches at a line start exactly when some hashes-space-text decomposition exists |
| MarkupPatterns.HeadingHashes | frontend/src/components/ChatWindow.jsx:24 | in every decomposition the hashes are the whole run of '#' |
| MarkupPatterns.HeadingMatchGreedy | frontend/src/components/ChatWindow.jsx:24-27 | the scanner takes the decomposition with the longest whitespace, and the level is the hash count capped at 6 |
| MarkupPatterns.CitationMatchComplete | frontend/src/components/ChatWindow.jsx:30 | `[digits]` becomes a citation span that keeps the brackets |
| MarkupPatterns.CitationMatchSound | frontend/src/components/ChatWindow.jsx:30 | the citation scanner matches exactly where `[digits]` occurs |
| MarkupPatterns.NestedMatchComplete | frontend/src/components/ChatWindow.jsx:33-36 | an indent of at least two whitespace characters and a numbered line become a nested item of level min(indent / 2, 3), which lies in 1..3 |
| MarkupPatterns.NestedMatchSound | frontend/src/components/ChatWindow.jsx:33 | the nested scanner matches exactly where the pattern's shape occurs |
| MarkupLaws.NoTriggerNoMatch | frontend/src/components/ChatWindow.jsx:13-36 | no pass matches where none of its trigger characters follows |
| MarkupLaws.ReplaceCopies | frontend/src/components/ChatWindow.jsx:13-36 | where a pass matches nowhere in a stretch, the global replace copies that stretch |
| MarkupLaws.ReplaceSkip | frontend/src/components/ChatWindow.jsx:13-36 | where nothing matches, the scan copies one character and moves on |
| MarkupLaws.CopyStep | frontend/src/components/ChatWindow.jsx:13-36 | a character where the pass does not match, in front of a copied stretch, extends the copied stretch by one |
| MarkupLaws.ReplaceIdentity | frontend/src/components/ChatWindow.jsx:13-36 | a pass leaves text without its trigger characters unchanged |
| MarkupLaws.BreakInSlice | frontend/src/components/ChatWindow.jsx:39 | a break inside a slice is a break of the whole text within it |
| MarkupLaws.NoBreakBefore | frontend/src/components/ChatWindow.jsx:39 | a stretch the break search passed over holds no break |
| MarkupLaws.SplitShapeCons | frontend/src/components/ChatWindow.jsx:39 | a break-free block in front of a valid split is a valid split and joins with "\n\n" |
| MarkupLaws.SplitFromShape | frontend/src/components/ChatWindow.jsx:39 | the split from `i` has the split shape and joins back to the tail |
| MarkupLaws.SplitJoin | frontend/src/components/ChatWindow.jsx:39 | `split('\n\n')` followed by `join('\n\n')` gives the input back, and no block holds a break |
| MarkupLaws.FindBreakNone | frontend/src/components/ChatWindow.jsx:39 | with no break from `i` on, the search finds none |
| MarkupLaws.SplitNoBreak | frontend/src/components/ChatWindow.jsx:39 | a text without a break is one block |
| MarkupLaws.SplitUnique | frontend/src/components/ChatWindow.jsx:39 | any break-free decomposition that joins back to the text is the split |
| MarkupLaws.SplitShapeTail | frontend/src/components/ChatWindow.jsx:39 | the tail of a valid split is a valid split |
| MarkupLaws.SplitFromUnique | frontend/src/components/ChatWindow.jsx:39 | any valid decomposition of the tail from `i` is the split from `i` |
| MarkupLaws.SliceAroundBreak | frontend/src/components/ChatWindow.jsx:39 | a block, a break and the rest can be read back out of the text |
| MarkupLaws.NoBreakInTail | frontend/src/components/ChatWindow.jsx:39 | a break-free tail yields no break |
| MarkupLaws.FirstBreakAfterBlock | frontend/src/components/ChatWindow.jsx:39 | a break right after a break-free block not ending in a newline is the first one |
| MarkupLaws.FindBreakAt | frontend/src/components/ChatWindow.jsx:39 | the search finds the first break at or after `i` |
| MarkupLaws.WrapBlockCases | frontend/src/components/ChatWindow.jsx:42-56 | a whitespace block contributes nothing, a structural block itself, any other `<p>` around it |
| MarkupLaws.JoinNothing | frontend/src/components/ChatWindow.jsx:59 | joining empty contributions gives the empty string |
| MarkupLaws.BlankSlice | frontend/src/components/ChatWindow.jsx:43 | a slice of a whitespace-only tail is whitespace-only |
| MarkupLaws.SplitFromBlank | frontend/src/components/ChatWindow.jsx:39-43 | every block of whitespace-only text is whitespace-only |
| MarkupLaws.InertPasses | frontend/src/components/ChatWindow.jsx:13-36 | text with no digit, '*', '#' or '[' goes through all six passes unchanged |
| MarkupLaws.BlankRendersEmpty | frontend/src/components/ChatWindow.jsx:7-59 | whitespace-only content renders to nothing, however many breaks it holds |
| MarkupLaws.NotContained | frontend/src/components/ChatWindow.jsx:46-51 | text whose only tags are paragraph tags contains none of the structure markers |
| MarkupLaws.PlainParagraph | frontend/src/components/ChatWindow.jsx:6-59 | one line of inert, non-blank text renders as a single `<p>` paragraph |
| MarkupLaws.WrappedStaysPlain | frontend/src/components/ChatWindow.jsx:55 | such a paragraph, once wrapped, is again inert text with only paragraph tags |
| MarkupLaws.RenderTwice | frontend/src/components/ChatWindow.jsx:6-59 | rendering a rendered paragraph wraps it a second time: the renderer is not idempotent |
| MarkupExamples.MarklessPasses | frontend/src/components/ChatWindow.jsx:18-30 | the bold, italic, heading and citation passes leave text with no '*', '#' or '[' unchanged |
| MarkupExamples.ListBlock | frontend/src/components/ChatWindow.jsx:39-56 | a one-line block holding a top-level item is kept unwrapped |
| MarkupExamples.IndentedPass1 | frontend/src/components/ChatWindow.jsx:13-15 | the unanchored first pass turns an indented numbered line into a top-level item and keeps the indent in front |
| MarkupExamples.ItemAt | frontend/src/components/ChatWindow.jsx:13-15 | a numbered line that runs to the end of the text becomes one top-level item |
| MarkupExamples.IndentCopied | frontend/src/components/ChatWindow.jsx:13 | the first pass copies leading spaces, since no number starts with a space |
| MarkupExamples.IndentBeforeTag | frontend/src/components/ChatWindow.jsx:33 | the nested pattern finds nothing where the indent is followed by markup instead of digits |
| MarkupExamples.NestedHit | frontend/src/components/ChatWindow.jsx:33-36 | after a line terminator, an indent of two or more spaces and a numbered line match the nested pattern up to the end of the text |
| MarkupExamples.NestedLineShape | frontend/src/components/ChatWindow.jsx:33 | after a line terminator, an indent of two or more spaces, a number and a line of text have the nested pattern's shape up to the end of the text |
| MarkupExamples.NestedLineSlices | frontend/src/components/ChatWindow.jsx:33-36 | the number and the text of such a line are read back out as the pattern's second and third groups |
| MarkupExamples.IndentedItemIsTopLevel | frontend/src/components/ChatWindow.jsx:13-59 | an indented numbered line renders as the indent followed by a top-level item; the nested-list pass never sees it |
| MarkupExamples.ReturnPass1 | frontend/src/components/ChatWindow.jsx:13-15 | the first pass runs over a lone line break (a character other than '\n' that ends a line) and swallows the indented line after it into the first item's text |
| MarkupExamples.ReturnPass6 | frontend/src/components/ChatWindow.jsx:33-36 | the nested pass matches after a `\r`, U+2028 or U+2029 inside that item and turns the indented line into a nested item |
| MarkupExamples.ReturnPasses | frontend/src/components/ChatWindow.jsx:13-36 | the six passes on an item, a `\r`, U+2028 or U+2029, and an indented item give a top-level item holding a nested one, whose text swallows the outer item's closing tags |
| MarkupExamples.ReturnNestsItem | frontend/src/components/ChatWindow.jsx:6-59 | after a `\r`, U+2028 or U+2029 inside a numbered line, an indented numbered line renders as a nested item, at level min(indent / 2, 3), inside the first item |
| MarkupBreaks.NoDigits | frontend/src/components/ChatWindow.jsx:13 | text without a decimal digit, in which the numbered patterns cannot start |
| MarkupBreaks.NumberedHead | frontend/src/components/ChatWindow.jsx:13 | the characters of a numbered line: the digits, the '.', the space and the text, and its number and text read back |
| MarkupBreaks.LineFacts | frontend/src/components/ChatWindow.jsx:13 | a numbered line followed by a newline has the first pattern's shape up to that newline, with its number, text and rest read back |
| MarkupBreaks.ItemEatsNewline | frontend/src/components/ChatWindow.jsx:13-15 | a numbered match ended by a newline becomes one item that consumes the newline, and the scan resumes after it |
| MarkupBreaks.NewlineCopied | frontend/src/components/ChatWindow.jsx:13 | the first pass copies a newline, since no number starts there |
| MarkupBreaks.DigitlessTail | frontend/src/components/ChatWindow.jsx:13 | the first pass copies a tail without digits unchanged |
| MarkupBreaks.NewlineThenItem | frontend/src/components/ChatWindow.jsx:13-15 | from a newline followed by a numbered line running to the end, the first pass gives the newline and one item |
| MarkupBreaks.NewlineRegroup | frontend/src/components/ChatWindow.jsx:13-15 | a newline between a prefix and a tail regroups |
| MarkupBreaks.BreakRegroup | frontend/src/components/ChatWindow.jsx:13-15 | a blank line after a prefix splits into the newline that ends the line and the newline that follows |
| MarkupBreaks.ItemsRegroup | frontend/src/components/ChatWindow.jsx:13-15 | two numbered lines around a blank line read as a prefix and a tail |
| MarkupBreaks.SwallowScan | frontend/src/components/ChatWindow.jsx:13-15 | the first pass over an item's line, a blank line and a digit-free tail gives the item, one newline and the tail |
| MarkupBreaks.SwallowPass1 | frontend/src/components/ChatWindow.jsx:13-15 | the first pass on a numbered line, a blank line and digit-free text leaves one newline between the item and the text |
| MarkupBreaks.TwoItemsScan | frontend/src/components/ChatWindow.jsx:13-15 | the first pass over two numbered lines around a blank line gives the two items joined by one newline |
| MarkupBreaks.TwoItemsPass1 | frontend/src/components/ChatWindow.jsx:13-15 | the first item takes the first newline of the blank line, and only the second separates the items |
| MarkupBreaks.ItemLineQuiet | frontend/src/components/ChatWindow.jsx:18-30 | an item, a newline and a mark-free line hold no '*', '#' or '[' |
| MarkupBreaks.TagNoNested | frontend/src/components/ChatWindow.jsx:33 | no nested item starts at a '<' |
| MarkupBreaks.TwoLinesNoNested | frontend/src/components/ChatWindow.jsx:33-36 | two lines, the first starting with a tag and the second with a tag or holding no digit, are left unchanged by the nested-list pass |
| MarkupBreaks.TwoLinesOneBlock | frontend/src/components/ChatWindow.jsx:39-56 | two lines joined by one newline and starting with a list item stay one block, kept unwrapped |
| MarkupBreaks.ItemSwallowsBreak | frontend/src/components/ChatWindow.jsx:6-59 | a numbered line, a blank line and digit-free text render as the item, one newline and the text: the blank line is gone and the text gets no `<p>` |
| MarkupBreaks.TwoItemsOneBlock | frontend/src/components/ChatWindow.jsx:6-59 | two numbered lines separated by a blank line render as the two items joined by one newline, in a single block |
| MarkupBreaks.TwoIdeasOneBlock | frontend/src/components/ChatWindow.jsx:6-59 | "1. First idea", a blank line and "2. Second idea" render as the two items joined by one newline |

## Left out

- Network requests, the backend and `apiService` are not part of this model. Every request is an event whose outcome is a parameter: a payload or a failure.
- React's scheduling is not modelled. An effect's run is an explicit event, and so is a response arriving.
- `Conversation.ChatWindow.LoadHistory`: the model does not derive when the effect runs. In the source it runs on every render of the shell while the chat is shown, because `onError` is the shell's `handleError`, a new function on each render (App.jsx:59, App.jsx:322, ChatWindow.jsx:97). Each such run is a call the caller makes; `Conversation.FailedSendRerun` and `Conversation.FailedHistoryRepeats` make the run that follows an error write.
- `Conversation.FailedSend`: the error it ends with is shown only until that next run of the history effect, which clears it and requests the history again (`Conversation.FailedSendRerun`).
- `Conversation.ChatWindow`, `Creation.ProjectList`, `Creation.SessionList`: mounting and unmounting are not modelled. In the source the chat window exists only while a project and a session are selected (App.jsx:315), and a successful session load clears the session, so every project switch unmounts it. The project form exists only while its panel is open (App.jsx:242-244), and the session form only while its panel is open and a project is selected (App.jsx:271-290). Unmounting discards the component's state: a remount starts from the constructor's state (an empty draft, not sending, model "gpt-4o"), and a late response reaches only the shell's error slot. The model's objects persist instead, so a draft, `isSending` or a chosen model survive where the source resets them. A remount is a fresh constructor call that the caller must make. For the same reason, the branch of `LoadHistory` without a selection cannot be reached in the composed application.
- `Cascade.App.HandleLoginSuccess`: after login the shell also re-requests the projects through its authentication effect. Both requests leave the same state, so one request is modelled.
- `Conversation.ChatWindow.SendResponse`: a failed send and a failed refetch after a stored send are the same failure outcome. The source reacts to both the same way.
- `Conversation.ChatWindow.Send`: the message's timestamp is a parameter, because the clock is I/O.
- `Conversation.ChatWindow.Send`, `Conversation.ChatWindow.LoadHistory`: the project and session ids sent with the requests (ChatWindow.jsx:81, ChatWindow.jsx:121-128) are not returned. The methods report only whether a request was issued, and both requests are made for the selection current at the call.
- `MarkupBreaks.TwoIdeasOneBlock`: the worked example is stated without its bold text and its citation mark. The blank-line behaviour does not depend on them; `ItemSwallowsBreak` and `TwoItemsOneBlock` require text without '*', '#', '[' so that passes 2 to 5 leave it alone.
- The object identity in `msg !== userMessage` is modelled as a token unique within the list. It is not modelled as heap identity.
- The login form, the file upload panel, the theme toggle, focus and scrolling, textarea auto-resize and the timestamp formatting are not part of this model.
- Strings are sequences of characters. UTF-16 surrogate pairs and locale rules are not modelled.
- The resize listener's registration and removal are not modelled. `HandleResize` is called wherever the listener or an effect would run.
- The projects panel's model labels (ids on mobile, names on desktop) are not modelled. Only the offered ids are.
