# Document-to-task pipeline of a project-management front end, in Dafny

This project models the core of a React project-management application: a
product or technical design document (PRD or TDD) is uploaded, an AI
completion provider turns it into a task graph (epics, tasks, a summary),
the tasks are normalised, shown for selection, and sent for creation; after
a successful save each created task may get a git branch named after it (best
effort: only when the project names a repository and GitHub is connected, and
a failed branch is skipped). Beside
that pipeline it models the Kanban board (status columns and the drag-and-drop
state machine) and the sign-up form (password-strength meter and terms gate).

Modules follow the source files:

- `Common` (`common.dfy`): `Option`/`Result`, string predicates, decimal
  rendering of numbers as template strings produce it, the key set of
  `Object.prototype`.
- `DocumentParser` (`document_parser.dfy`), for `src/services/aiDocumentParser.js`:
  the length gate, the provider router, the prompt template, extraction of
  the JSON span from a completion, the task normaliser with its complexity
  table, and the demo dataset. The class holds no state, so all of it is
  functions; the environment is a `Config` value, each provider is a function
  from prompt to outcome, `JSON.parse` is a function parameter, and the clock
  is a function from task index to the instant read while that task is built.
- `UploadDialog` (`upload_dialog.dfy`), for `src/components/PRDUploadDialog.jsx`:
  a class with the dialog's state (`file`, `loading`, `documentType`,
  `preview`) and `HandleParse`, which runs the gates in order; the preview
  and the error classifier are functions.
- `TaskGenerator` (`task_generator.dfy`), for `src/pages/TaskGenerator.jsx`:
  a class with the page's state (`generatedData`, `selectedTasks`,
  `selectedProjectId`, `creatingTasks`) and its handlers; the branch slug and
  branch name, the toggle update and the selection filter are functions.
- `Kanban` (`kanban_board.dfy`), for `src/components/KanbanBoard.jsx`: the
  column partition, a class holding `draggedTask`/`dragSource`, and the
  style lookups. A card's drag start passes the board's current `dragSource`
  rather than its own column; that is modelled as written (`CardDragStart`),
  so on any reachable board the recorded source is always null and a drop
  onto a card's own column still dispatches an update (`DropOnOwnColumn`).
- `Signup` (`signup.dfy`), for `src/pages/Signup.jsx`: the strength
  classifier and its three views, and a class with `formData` and
  `agreedToTerms`.

## Model

| member | source | states |
|---|---|---|
| DocumentParser.ComplexityToHours | src/services/aiDocumentParser.js:189-198 | the hours are one of 1, 4, 8, 16, 24; a known label gets its table value, a missing or unknown label gets 8 |
| DocumentParser.ComplexityTable | src/services/aiDocumentParser.js:190-197 | trivial/easy/medium/hard/complex map to 1/4/8/16/24 and a missing label to 8 |
| DocumentParser.ComplexityToHoursAsWritten | src/services/aiDocumentParser.js:197 | the lookup as written returns a number or, for a key inherited from `Object.prototype`, that inherited member |
| DocumentParser.NormalizedHoursMatchCode | src/services/aiDocumentParser.js:184 | for every label that is not an `Object.prototype` key, the hours the normaliser stores are what the code as written stores |
| DocumentParser.AsWrittenAgreesOffPrototype | src/services/aiDocumentParser.js:190-197 | for every label that is not an `Object.prototype` key, the code as written and the corrected table give the same hours |
| DocumentParser.ConstructorLabelYieldsInheritedMember | src/services/aiDocumentParser.js:197 | the label "constructor" yields the inherited `Object` member as written, 8 hours when corrected |
| DocumentParser.IsValidDocument | src/services/aiDocumentParser.js:201-203 | accepted exactly when the content is present and longer than 100 characters |
| DocumentParser.ValidityIsMonotone | src/services/aiDocumentParser.js:202 | a longer document is accepted whenever a shorter one is |
| DocumentParser.BuildPrompt | src/services/aiDocumentParser.js:164-166 | the prompt starts with the instruction and the type tag and ends with the document verbatim |
| DocumentParser.PromptRecoversDocument | src/services/aiDocumentParser.js:165 | the text after the type-dependent header is exactly the document |
| DocumentParser.PromptNamesDocumentType | src/services/aiDocumentParser.js:165 | "Product Requirements Document" follows the tag when the type is "PRD", "Technical Design Document" otherwise |
| DocumentParser.ExtractJsonSpan | src/services/aiDocumentParser.js:111-114 | a span exists exactly when some '{' precedes some '}'; the span starts with '{' and ends with '}' |
| DocumentParser.ExtractIsRegexMatch | src/services/aiDocumentParser.js:111 | the extracted span is the leftmost-longest match of the greedy pattern, first '{' to last '}' |
| DocumentParser.ExtractFromProse | src/services/aiDocumentParser.js:152 | a JSON object wrapped in prose without braces is extracted alone |
| DocumentParser.ParseWithProvider | src/services/aiDocumentParser.js:103-161 | a thrown error is rethrown, a non-success status gives the provider's API error, no span gives "Failed to parse JSON from <provider> response"; it resolves exactly when a span exists and parses, with `success` set and the completion as `raw` |
| DocumentParser.RouteFor | src/services/aiDocumentParser.js:19-33 | demo flag first, then a non-empty OpenRouter key, then the Claude key, else no provider; each case as an if-and-only-if |
| DocumentParser.ParseDocument | src/services/aiDocumentParser.js:19-83 | every result that resolves has `success` set |
| DocumentParser.DemoIgnoresInputs | src/services/aiDocumentParser.js:21-23 | with the demo flag the result is the demo data whatever the document, type and providers |
| DocumentParser.NoKeyFails | src/services/aiDocumentParser.js:30-32 | without demo flag and keys the call fails with the missing-key error |
| DocumentParser.OnlyOpenRouterAsked | src/services/aiDocumentParser.js:26-28 | with an OpenRouter key only OpenRouter is asked, with the built prompt; Claude's answer makes no difference |
| DocumentParser.OnlyClaudeAsked | src/services/aiDocumentParser.js:82-83 | with only a Claude key only Claude is asked; OpenRouter's answer makes no difference |
| DocumentParser.ProviderErrorPropagates | src/services/aiDocumentParser.js:117-120 | an OpenRouter failure surfaces as its error even when a Claude key is set: no retry |
| DocumentParser.TaskId | src/services/aiDocumentParser.js:171 | the id starts with "task-" and its part after the last '-' is the index |
| DocumentParser.TaskIdsDiffer | src/services/aiDocumentParser.js:171 | ids built for different indexes differ, whatever the clock read |
| DocumentParser.NormalizeTask | src/services/aiDocumentParser.js:170-185 | copied fields, status "todo", no assignee, hours from the corrected table (see Left out), lists or [] and order or index+1 as the fallbacks give them |
| DocumentParser.GenerateTasks | src/services/aiDocumentParser.js:169-186 | one normalised task per input task, in input order, each created at its clock reading |
| DocumentParser.GeneratedIdsDistinct | src/services/aiDocumentParser.js:170-171 | ids within one batch are pairwise distinct |
| DocumentParser.KeepsPresentFields | src/services/aiDocumentParser.js:178-180 | present dependency lists and non-zero orders are kept |
| DocumentParser.OrdersFollowPosition | src/services/aiDocumentParser.js:180 | tasks numbered 1, 2, 3 in list order keep those numbers and their dependencies |
| DocumentParser.DemoResult | src/services/aiDocumentParser.js:206-323 | success, 4 epics, 7 tasks, `summary.totalTasks` 7, raw "[DEMO DATA]" |
| DocumentParser.DemoTasksBelongToEpics | src/services/aiDocumentParser.js:213-312 | every demo task's epic names a listed epic |
| DocumentParser.DemoDependenciesPrecede | src/services/aiDocumentParser.js:235-312 | every demo dependency names the title of an earlier task, and task i has suggested order i+1 |
| DocumentParser.DemoOrders | src/services/aiDocumentParser.js:235-312 | demo task i has suggested order i+1 and a dependency list |
| DocumentParser.DemoMaterializes | src/services/aiDocumentParser.js:169-312 | normalising the demo tasks gives 7 tasks keeping their dependencies and orders 1..7 |
| UploadDialog.DocTypeTag | src/components/PRDUploadDialog.jsx:104-107 | the tag is "PRD" exactly for the PRD button |
| UploadDialog.Preview | src/components/PRDUploadDialog.jsx:24 | at most 500 leading characters of the file, then "..." always |
| UploadDialog.ErrorToast | src/components/PRDUploadDialog.jsx:73-82 | missing-key toast iff the message mentions "API key" or "No AI API"; else invalid-key toast iff it mentions "401" or "403"; else "Failed: " + message (an empty message counts as "Failed to parse document") |
| UploadDialog.NoKeyErrorIsExplained | src/components/PRDUploadDialog.jsx:76-77 | the router's missing-key error is shown as the missing-key toast |
| UploadDialog.UnauthorizedIsExplained | src/components/PRDUploadDialog.jsx:78-79 | for either provider, a non-success answer whose detail (body text or `error.message`) contains "401" or "403" and names no missing key is shown as the invalid-key toast; the HTTP status itself never enters the message, so a 401 whose body does not mention it is not recognised |
| UploadDialog.PrdUploadDialog.constructor | src/components/PRDUploadDialog.jsx:6-9 | no file, not loading, type PRD, empty preview |
| UploadDialog.PrdUploadDialog.HandleFileChange | src/components/PRDUploadDialog.jsx:13-27 | an empty choice changes nothing; a file is kept with its preview |
| UploadDialog.PrdUploadDialog.SelectDocumentType | src/components/PRDUploadDialog.jsx:104-107 | the type becomes the button's type |
| UploadDialog.PrdUploadDialog.HandleParse | src/components/PRDUploadDialog.jsx:29-87 | no file: the "Please select a file" toast, parser not invoked; a file too short: the "Document is too short or invalid" toast; parser invoked iff a file is chosen and valid; errors classified; on success the caller gets the normalised tasks, epics, summary, file name and type, and file and preview are cleared; loading is off on every path with a file |
| UploadDialog.DemoUpload | src/components/PRDUploadDialog.jsx:29-69 | in demo mode any document over 100 characters delivers 7 tasks and 4 epics as a PRD |
| TaskGenerator.CollapseRuns | src/pages/TaskGenerator.jsx:98 | only a-z, 0-9 and '-', never two '-' in a row; starts with '-' iff the input starts with a non-slug character |
| TaskGenerator.CollapseKeepsSlugText | src/pages/TaskGenerator.jsx:98 | a text made only of a-z and 0-9 is left unchanged |
| TaskGenerator.CollapseRunToDash | src/pages/TaskGenerator.jsx:98 | a maximal run of characters outside a-z0-9 (a kept character or nothing on either side) becomes exactly one '-', and the text on each side collapses on its own; with CollapseKeepsSlugText this fixes the result for every input |
| TaskGenerator.WordsJoinedByOneDash | src/pages/TaskGenerator.jsx:98 | "a b" collapses to "a-b" |
| TaskGenerator.StripDashes | src/pages/TaskGenerator.jsx:98 | the result is the input after its leading '-', if any, with a trailing '-' always cut off (one character at each end at most); an input with no '-' at either end is returned unchanged |
| TaskGenerator.StrippedShape | src/pages/TaskGenerator.jsx:98 | stripping a collapsed text keeps only a-z, 0-9 and single '-', and leaves no '-' at its start or end |
| TaskGenerator.Slug | src/pages/TaskGenerator.jsx:98 | only a-z, 0-9 and '-', no "--", no leading '-', at most 50 characters |
| TaskGenerator.UntitledSlug | src/pages/TaskGenerator.jsx:98 | a missing or empty title is slugged as "task" |
| TaskGenerator.CollapseKeepsChars | src/pages/TaskGenerator.jsx:98 | collapsing runs keeps every letter and digit in order and adds none |
| TaskGenerator.StripKeepsChars | src/pages/TaskGenerator.jsx:98 | stripping the edge dashes keeps every letter and digit |
| TaskGenerator.SlugKeepsTitleChars | src/pages/TaskGenerator.jsx:98 | the slug's letters and digits are a leading part of the lower-cased title's, all of them when under 50 characters |
| TaskGenerator.BranchName | src/pages/TaskGenerator.jsx:99 | "task/" + id + "-" followed by exactly the slug |
| TaskGenerator.BranchTailIsSlug | src/pages/TaskGenerator.jsx:98-99 | the branch tail after the id is a well-formed slug of at most 50 characters |
| TaskGenerator.TaskIds | src/pages/TaskGenerator.jsx:47 | the ids of the generated tasks, position by position |
| TaskGenerator.RemoveAll | src/pages/TaskGenerator.jsx:53 | exactly the selected ids other than the removed one remain |
| TaskGenerator.Toggle | src/pages/TaskGenerator.jsx:51-55 | the id's membership flips, it is appended when absent, every other id keeps its membership |
| TaskGenerator.ToggleTwiceRestoresMembership | src/pages/TaskGenerator.jsx:51-55 | toggling an id twice restores every membership |
| TaskGenerator.SelectedTasks | src/pages/TaskGenerator.jsx:70 | a task is sent iff it was generated and its id is selected |
| TaskGenerator.SelectedKeepsOrder | src/pages/TaskGenerator.jsx:70 | the tasks sent keep their generated order |
| TaskGenerator.SelectingAllSendsAll | src/pages/TaskGenerator.jsx:45-70 | with every id selected, every generated task is sent |
| TaskGenerator.TaskGeneratorPage.constructor | src/pages/TaskGenerator.jsx:11-14 | no data, empty selection, no project, not creating |
| TaskGenerator.TaskGeneratorPage.HandleTasksGenerated | src/pages/TaskGenerator.jsx:45-49 | the data is kept and the selection is all generated ids |
| TaskGenerator.TaskGeneratorPage.ToggleTaskSelection | src/pages/TaskGenerator.jsx:51-55 | the selection is toggled at the id |
| TaskGenerator.TaskGeneratorPage.SelectProject | src/pages/TaskGenerator.jsx:197 | the chosen project is recorded |
| TaskGenerator.TaskGeneratorPage.Cancel | src/pages/TaskGenerator.jsx:305-309 | data, selection and project are cleared |
| TaskGenerator.TaskGeneratorPage.HandleCreateTasks | src/pages/TaskGenerator.jsx:57-123 | no request without a selection or a project; otherwise the selected tasks in generated order with the user and project; a save resets data, selection and project; failures keep them and report the service's error |
| TaskGenerator.CreateEverythingGenerated | src/pages/TaskGenerator.jsx:45-77 | generating, choosing a project and creating sends every generated task |
| TaskGenerator.ToggleBackLeavesNothing | src/pages/TaskGenerator.jsx:51-61 | unselecting the only task leaves nothing to send |
| Kanban.Column | src/components/KanbanBoard.jsx:46-48 | a column holds exactly the tasks with that status |
| Kanban.Unplaced | src/components/KanbanBoard.jsx:45-49 | exactly the tasks whose status is none of the three keys |
| Kanban.TasksByStatus | src/components/KanbanBoard.jsx:45-49 | TODO, IN_PROGRESS and DONE each hold exactly the tasks with that status |
| Kanban.ColumnKeepsOrder | src/components/KanbanBoard.jsx:45-49 | each column keeps input order |
| Kanban.ColumnsAreDisjoint | src/components/KanbanBoard.jsx:45-49 | no task is in two columns; a task with another status is in none |
| Kanban.ColumnsPartition | src/components/KanbanBoard.jsx:45-49 | column sizes plus unplaced tasks add up to the number of tasks |
| Kanban.DropUpdate | src/components/KanbanBoard.jsx:65-76 | nothing is dispatched iff no task is dragged or the target is the recorded source; otherwise the dragged task with only its status replaced |
| Kanban.NoSourceAlwaysDispatches | src/components/KanbanBoard.jsx:65-102 | with no recorded source every drop dispatches, a drop on the task's own status gives the task unchanged |
| Kanban.Board.constructor | src/components/KanbanBoard.jsx:42-43 | nothing dragged, no source |
| Kanban.Board.HandleDragStart | src/components/KanbanBoard.jsx:51-55 | records the given task and source |
| Kanban.Board.CardDragStart | src/components/KanbanBoard.jsx:102 | records the task and keeps the current source |
| Kanban.Board.HandleDrop | src/components/KanbanBoard.jsx:62-87 | dispatches the drop update of the prior state; both fields null afterwards |
| Kanban.Board.HandleDragEnd | src/components/KanbanBoard.jsx:89-92 | both fields null |
| Kanban.DropOnOwnColumn | src/components/KanbanBoard.jsx:62-102 | on a fresh board a card dropped on its own column is dispatched unchanged |
| Kanban.TwoMoves | src/components/KanbanBoard.jsx:51-92 | two drags in a row each dispatch their task with the target status |
| Kanban.TypeEntry | src/components/KanbanBoard.jsx:8-14 | `typeIcons` has an own entry exactly for the five type keys, none of them coloured with the fall-back gray |
| Kanban.CardTypeStyle | src/components/KanbanBoard.jsx:95-96 | an unknown type (including an `Object.prototype` key) gets the MessageSquare icon and "text-gray-600"; a known type gets exactly its own `typeIcons` entry, never the gray; the MessageSquare icon means unknown or OTHER |
| Kanban.CardPriorityStyle | src/components/KanbanBoard.jsx:97 | LOW and HIGH get their styles; an `Object.prototype` key renders undefined classes; any other priority gets MEDIUM |
| Signup.PasswordStrength | src/pages/Signup.jsx:38-44 | 0 iff shorter than 6; 1 iff 6 or 7 long; 3 iff at least 8 with a lowercase letter, an uppercase letter and a digit; 2 otherwise |
| Signup.StrengthIsMonotone | src/pages/Signup.jsx:38-44 | typing more characters never lowers the strength |
| Signup.StrengthColor | src/pages/Signup.jsx:47 | gray, red, yellow, green for 0, 1, 2, 3 |
| Signup.StrengthLabel | src/pages/Signup.jsx:135 | Weak, Fair, Good, Strong for 0, 1, 2, 3 |
| Signup.MeterWidth | src/pages/Signup.jsx:132 | a multiple of 25 between 25 and 100, 100 exactly for strength 3 |
| Signup.MeterFor | src/pages/Signup.jsx:129-137 | no meter for an empty password; width in {25, 50, 75, 100}; "Strong" and "Weak" exactly as the classifier decides |
| Signup.MeterViewsDetermineLevel | src/pages/Signup.jsx:47-135 | colour, label and width each determine the strength |
| Signup.SignupForm.constructor | src/pages/Signup.jsx:9-17 | four empty fields, terms not agreed |
| Signup.SignupForm.HandleChange | src/pages/Signup.jsx:19-22 | the named field holds the value; every other field is unchanged |
| Signup.SignupForm.SetAgreedToTerms | src/pages/Signup.jsx:172 | the checkbox state is recorded |
| Signup.SignupForm.CurrentMeter | src/pages/Signup.jsx:129-132 | the meter is hidden exactly while the password is empty |
| Signup.SignupForm.HandleSubmit | src/pages/Signup.jsx:24-36 | without agreement: the alert and no call; with it: `signup` gets the four fields and the app goes home iff it succeeds |
| Signup.SubmitWithoutTerms | src/pages/Signup.jsx:24-30 | a fresh form submitted without ticking the box never reaches `signup` |
| Signup.SubmitTypedPassword | src/pages/Signup.jsx:19-36 | typing a password and agreeing submits exactly what was typed |

## Left out

- The HTTP requests to both providers (headers, bodies, `response.ok`, `.json()`, `.text()`, the response envelopes): each provider is a function from the prompt to a thrown error, a non-success status with its detail, or the completion text.
- `JSON.parse` is a function parameter; no JSON parser is modelled, and the parsed value is assumed to have the `{epics, tasks, summary}` shape.
- Environment variables are a `Config` value; the model name and URLs are not modelled.
- `Date.now()` and `new Date().toISOString()`: one clock reading per task index is a parameter, so the model does not capture the two calls reading different instants.
- The `setTimeout` delays in the demo generator and on a drop, and the asynchrony of every handler: each handler runs to completion in one step.
- The unused prompt literal in `parseDocument` is dead code and is not modelled.
- The Supabase queries, `taskService.createTasks` (its answer is a parameter) and the GitHub branch and Codespace calls; only the branch name each created task would get is modelled.
- `FileReader` and `file.text()`: the preview and the content are read synchronously from the chosen file.
- Toasts other than the messages `HandleParse`, `HandleTasksGenerated` and `HandleCreateTasks` return, `alert`, `navigate` (returned as a route), Redux `dispatch` (returned as the dispatched task), and all rendering and class strings other than the card styles and the strength meter.
- Text is ASCII: Unicode `toLowerCase` and UTF-16 lengths are not modelled.
- `src/pages/Login.jsx`, `src/pages/Integrations.jsx` and `src/components/ProjectSettings.jsx` are not part of this model.
- DocumentParser.NormalizeTask: `estimatedHours` comes from the corrected table (`DocumentParser.ComplexityToHours`), so for a label that is a key of `Object.prototype` it stores 8 where the code as written stores the inherited member; see the Findings row, and `DocumentParser.NormalizedHoursMatchCode` for every other label.
- Kanban.CardPriorityStyle: an unknown priority gets the MEDIUM style only when it is not a key of `Object.prototype`; such a key is truthy and its missing fields render as "undefined", which is what the code does.
- Signup.SignupForm.HandleSubmit: the result of `signup` is a function of the request; the auth provider behind it is not modelled.

## Findings

| source | as written | input that shows it | evidently intended | confidence | as-written member | corrected member |
|---|---|---|---|---|---|---|
| src/services/aiDocumentParser.js:197 | the `estimates` lookup with its fallback to 8 also finds members inherited from `Object.prototype` | `estimatedComplexity` = "constructor" (or "toString", "__proto__", ...) gives the `Object` function as `estimatedHours` | any label outside the table gets 8 hours | not executed | DocumentParser.ConstructorLabelYieldsInheritedMember | DocumentParser.ComplexityToHours |
