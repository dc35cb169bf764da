/** The document-to-task-graph pipeline of `AIDocumentParser`: the length gate,
    the provider router, the prompt template, the extraction of the JSON span
    from a completion, the task normaliser with its complexity table, and the
    fixed demo dataset. The class holds no mutable state, so everything here
    is a function of its inputs; the environment, the network, `JSON.parse`
    and the clock are parameters. */
module DocumentParser {
  import opened Common

  // ---------------------------------------------------------------------
  // Data model
  // ---------------------------------------------------------------------

  datatype Epic = Epic(name: string, description: string, priority: string)

  /** A task as the completion provider emits it. The fields the normaliser
      guards with `||` may be absent; `suggestedOrder` is absent or a number. */
  datatype RawTask = RawTask(
    title: string,
    description: string,
    epic: string,
    taskType: string,
    priority: string,
    estimatedComplexity: Option<string>,
    dependencies: Option<seq<string>>,
    requiredSkills: Option<seq<string>>,
    suggestedOrder: Option<int>)

  datatype Summary = Summary(
    totalTasks: int,
    estimatedDuration: string,
    requiredTeamSize: string,
    keyRisks: seq<string>)

  /** The parsed `{epics, tasks, summary}` object. */
  datatype Graph = Graph(epics: seq<Epic>, tasks: seq<RawTask>, summary: Summary)

  /** `{ success, data, raw }` as `parseDocument` resolves it. */
  datatype ParseSuccess = ParseSuccess(success: bool, data: Graph, raw: string)

  /** A normalised task; `assignedTo` is `null` as `None`. */
  datatype Task = Task(
    id: string,
    title: string,
    description: string,
    epic: string,
    taskType: string,
    priority: string,
    complexity: Option<string>,
    dependencies: seq<string>,
    requiredSkills: seq<string>,
    order: int,
    status: string,
    assignedTo: Option<string>,
    createdAt: string,
    estimatedHours: nat)

  /** One reading of the clock: `Date.now()` and `new Date().toISOString()`. */
  datatype Instant = Instant(millis: nat, iso: string)

  // ---------------------------------------------------------------------
  // Complexity table
  // ---------------------------------------------------------------------

  /** The own properties of the `estimates` object literal. */
  function OwnEstimate(complexity: string): Option<nat>
  {
    if complexity == "trivial" then Some(1)
    else if complexity == "easy" then Some(4)
    else if complexity == "medium" then Some(8)
    else if complexity == "hard" then Some(16)
    else if complexity == "complex" then Some(24)
    else None
  }

  const DefaultHours: nat := 8

  /** Hours for a complexity label: the table value for the five known
      labels, 8 for anything else, including a missing label. */
  function ComplexityToHours(complexity: Option<string>): (h: nat)
    ensures h in {1, 4, 8, 16, 24}
    ensures complexity.Some? && OwnEstimate(complexity.value).Some? ==> h == OwnEstimate(complexity.value).value
    ensures complexity.None? || OwnEstimate(complexity.value).None? ==> h == DefaultHours
  {
    if complexity.Some? && OwnEstimate(complexity.value).Some? then OwnEstimate(complexity.value).value
    else DefaultHours
  }

  lemma ComplexityTable()
    ensures ComplexityToHours(Some("trivial")) == 1
    ensures ComplexityToHours(Some("easy")) == 4
    ensures ComplexityToHours(Some("medium")) == 8
    ensures ComplexityToHours(Some("hard")) == 16
    ensures ComplexityToHours(Some("complex")) == 24
    ensures ComplexityToHours(None) == 8
  {
  }

  /** What `estimates[complexity]` reads in JavaScript: an own property, a member
      inherited from `Object.prototype`, or nothing. */
  datatype Lookup = Hours(hours: nat) | Inherited(member: string) | Missing

  /** `estimates[complexity]`; a missing complexity is the key "undefined". */
  function EstimatesLookup(complexity: Option<string>): Lookup
  {
    var key := if complexity.Some? then complexity.value else "undefined";
    if OwnEstimate(key).Some? then Hours(OwnEstimate(key).value)
    else if key in ObjectPrototypeMembers then Inherited(key)
    else Missing
  }

  /** `estimates[complexity] || 8` exactly as written: an inherited member is
      truthy and is returned instead of a number. */
  function ComplexityToHoursAsWritten(complexity: Option<string>): (r: Lookup)
    ensures r.Hours? || r.Inherited?
  {
    match EstimatesLookup(complexity)
    case Hours(h) => Hours(h)
    case Inherited(m) => Inherited(m)
    case Missing => Hours(DefaultHours)
  }

  /** Off the prototype's keys, the code as written and the corrected table agree. */
  lemma AsWrittenAgreesOffPrototype(complexity: Option<string>)
    requires complexity.None? || complexity.value !in ObjectPrototypeMembers
    ensures ComplexityToHoursAsWritten(complexity) == Hours(ComplexityToHours(complexity))
  {
    if complexity.None? {
      assert "undefined" !in ObjectPrototypeMembers;
    }
  }

  /** The discrepancy: the label "constructor" yields the `Object` function
      rather than the default 8 hours. */
  lemma ConstructorLabelYieldsInheritedMember()
    ensures ComplexityToHoursAsWritten(Some("constructor")) == Inherited("constructor")
    ensures ComplexityToHours(Some("constructor")) == DefaultHours
  {
  }

  // ---------------------------------------------------------------------
  // Length gate
  // ---------------------------------------------------------------------

  const MinDocumentLength: nat := 100

  /** `content && content.length > 100`: an absent or empty document, and any
      document of at most 100 characters, is rejected. */
  function IsValidDocument(content: Option<string>): (ok: bool)
    ensures ok ==> content.Some? && |content.value| > MinDocumentLength
    ensures content.Some? && |content.value| > MinDocumentLength ==> ok
  {
    content.Some? && content.value != "" && |content.value| > MinDocumentLength
  }

  /** Acceptance depends on the length only, and grows with it. */
  lemma ValidityIsMonotone(shorter: string, longer: string)
    requires |shorter| <= |longer|
    ensures IsValidDocument(Some(shorter)) ==> IsValidDocument(Some(longer))
  {
  }

  // ---------------------------------------------------------------------
  // Prompt template
  // ---------------------------------------------------------------------

  const PromptIntro: string := "\nYou are an expert software engineer. Analyze the following "

  const PromptSchema: string :=
    ") and break it down into a structured task graph.\n\nFor each task, provide:\n"
    + "- title: Clear, actionable task title\n"
    + "- description: Detailed description\n"
    + "- epic: Which epic this belongs to (e.g., \"Authentication\", \"Dashboard\", \"API\")\n"
    + "- type: 'frontend' | 'backend' | 'devops' | 'database' | 'testing'\n"
    + "- priority: 'critical' | 'high' | 'medium' | 'low'\n"
    + "- estimatedComplexity: 'trivial' | 'easy' | 'medium' | 'hard' | 'complex'\n"
    + "- dependencies: array of task titles this depends on\n"
    + "- requiredSkills: array of skill tags (e.g., ['react', 'typescript', 'api'])\n"
    + "- suggestedOrder: numerical order for execution\n\n"
    + "Return as valid JSON with structure:\n{\n  \"epics\": [ ... ],\n  \"tasks\": [ ... ],\n  \"summary\": { ... }\n}\n\n"
    + "Document to parse:\n"

  const PrdName: string := "Product Requirements Document"
  const TddName: string := "Technical Design Document"

  /** The long name printed in parentheses after the type tag. */
  function DocumentTypeName(documentType: string): string
  {
    if documentType == "PRD" then PrdName else TddName
  }

  /** Everything in the prompt before the document text. */
  function PromptHeader(documentType: string): string
  {
    PromptIntro + documentType + " (" + DocumentTypeName(documentType) + PromptSchema
  }

  /** `_buildPrompt`: the instruction block followed by the document verbatim. */
  function BuildPrompt(content: string, documentType: string): (p: string)
    ensures EndsWith(p, content)
    ensures StartsWith(p, PromptIntro + documentType + " (")
    ensures |p| == |PromptHeader(documentType)| + |content|
  {
    PromptHeader(documentType) + content
  }

  /** The document can be read back from the prompt: the header depends on the
      type alone, so the text after it is exactly the content. */
  lemma PromptRecoversDocument(content: string, documentType: string)
    ensures BuildPrompt(content, documentType)[|PromptHeader(documentType)|..] == content
  {
  }

  /** The long name of the document type sits right after "<tag> (": the
      Product Requirements name for "PRD", the Technical Design name otherwise. */
  lemma PromptNamesDocumentType(content: string, documentType: string)
    ensures var at := |PromptIntro| + |documentType| + 2;
            documentType == "PRD" ==> OccursAt(BuildPrompt(content, documentType), PrdName, at)
    ensures var at := |PromptIntro| + |documentType| + 2;
            documentType != "PRD" ==> OccursAt(BuildPrompt(content, documentType), TddName, at)
  {
    var head := PromptIntro + documentType + " (";
    var name := DocumentTypeName(documentType);
    OccursAtJoin(head, name);
    OccursInLonger(head + name, PromptSchema, name, |head|);
    OccursInLonger(PromptHeader(documentType), content, name, |head|);
  }

  // ---------------------------------------------------------------------
  // JSON span extraction: /\{[\s\S]*\}/
  // ---------------------------------------------------------------------

  /** Position of the first occurrence of `c`. */
  function FirstIndexOf(s: string, c: char): (r: Option<nat>)
    ensures r.Some? ==> r.value < |s| && s[r.value] == c
    ensures r.Some? ==> forall k :: 0 <= k < r.value ==> s[k] != c
    ensures r.None? ==> forall k :: 0 <= k < |s| ==> s[k] != c
  {
    if s == [] then None
    else if s[0] == c then Some(0)
    else
      var rest := FirstIndexOf(s[1..], c);
      if rest.Some? then Some(rest.value + 1) else None
  }

  /** Position of the last occurrence of `c`. */
  function LastIndexOf(s: string, c: char): (r: Option<nat>)
    ensures r.Some? ==> r.value < |s| && s[r.value] == c
    ensures r.Some? ==> forall k :: r.value < k < |s| ==> s[k] != c
    ensures r.None? ==> forall k :: 0 <= k < |s| ==> s[k] != c
  {
    if s == [] then None
    else if s[|s| - 1] == c then Some(|s| - 1)
    else LastIndexOf(s[..|s| - 1], c)
  }

  /** The regular expression matches `text[p..q+1]`: a '{', anything, a '}'. */
  ghost predicate SpanMatches(text: string, p: int, q: int)
  {
    0 <= p < q < |text| && text[p] == '{' && text[q] == '}'
  }

  /** The match `String.prototype.match` reports: the leftmost start, and at
      that start the longest match, since `[\s\S]*` is greedy. */
  ghost predicate LeftmostLongest(text: string, p: int, q: int)
  {
    && SpanMatches(text, p, q)
    && (forall p', q' :: SpanMatches(text, p', q') ==> p <= p')
    && (forall q' :: SpanMatches(text, p, q') ==> q' <= q)
  }

  /** From the first '{' to the last '}' inclusive, when the last '}' comes
      after the first '{'; nothing otherwise. */
  function ExtractJsonSpan(text: string): (r: Option<string>)
    ensures r.Some? <==> exists p, q :: SpanMatches(text, p, q)
    ensures r.Some? ==> 2 <= |r.value| && r.value[0] == '{' && r.value[|r.value| - 1] == '}'
  {
    var first := FirstIndexOf(text, '{');
    var last := LastIndexOf(text, '}');
    if first.Some? && last.Some? && first.value < last.value then
      assert SpanMatches(text, first.value, last.value);
      Some(text[first.value..last.value + 1])
    else
      None
  }

  /** The extracted span is the regular expression's match. */
  lemma {:induction false} ExtractIsRegexMatch(text: string, p: int, q: int)
    requires LeftmostLongest(text, p, q)
    ensures ExtractJsonSpan(text) == Some(text[p..q + 1])
  {
    var first := FirstIndexOf(text, '{');
    var last := LastIndexOf(text, '}');
    assert first.Some? && first.value <= p;
    assert last.Some? && q <= last.value;
    assert SpanMatches(text, first.value, q);
    assert first.value == p;
    assert SpanMatches(text, p, last.value);
    assert last.value == q;
  }

  /** A JSON object wrapped in prose ("Sure, here:\n{...}\nThanks") is
      extracted alone when the prose before it has no '{' and the prose after
      it has no '}'. */
  lemma ExtractFromProse(before: string, json: string, after: string)
    requires '{' !in before && '}' !in after
    requires 2 <= |json| && json[0] == '{' && json[|json| - 1] == '}'
    ensures ExtractJsonSpan(before + json + after) == Some(json)
  {
    var text := before + json + after;
    var p, q := |before|, |before| + |json| - 1;
    assert text[p] == json[0] && text[q] == json[|json| - 1];
    assert forall k :: 0 <= k < |before| ==> text[k] == before[k];
    assert forall k :: q < k < |text| ==> text[k] == after[k - q - 1];
    ExtractIsRegexMatch(text, p, q);
    assert text[p..q + 1] == json;
  }

  // ---------------------------------------------------------------------
  // Provider clients and router
  // ---------------------------------------------------------------------

  datatype Provider = OpenRouter | Claude

  function ProviderName(provider: Provider): string
  {
    match provider
    case OpenRouter => "OpenRouter"
    case Claude => "Claude"
  }

  /** What one request to a provider comes back with: an exception from the
      transport or from reading the body; a non-success status with its
      detail (OpenRouter: the body text; Claude: `error.message`, "" when
      absent); or the completion text taken out of the response envelope. */
  datatype ProviderOutcome = Threw(message: string) | NotOk(detail: string) | Replied(content: string)

  /** What both providers put before the detail of a non-success status. */
  function ApiErrorPrefix(provider: Provider): string
  {
    match provider
    case OpenRouter => "OpenRouter API error: "
    case Claude => "Claude API error: "
  }

  function HttpErrorMessage(provider: Provider, detail: string): string
  {
    match provider
    case OpenRouter => ApiErrorPrefix(OpenRouter) + detail
    case Claude => ApiErrorPrefix(Claude) + (if detail == "" then "Unknown error" else detail)
  }

  function NoJsonMessage(provider: Provider): string
  {
    "Failed to parse JSON from " + ProviderName(provider) + " response"
  }

  /** `_parseWithOpenRouter` / `_parseWithClaude` after the request: fail on
      a transport error or a non-success status, cut the JSON span out of the
      completion, parse it, and resolve with the completion as `raw`. Every
      failure is rethrown as it is. */
  function ParseWithProvider(provider: Provider, outcome: ProviderOutcome,
                             parseJson: string -> Result<Graph>): (r: Result<ParseSuccess>)
    ensures outcome.Threw? ==> r == Err(outcome.message)
    ensures outcome.NotOk? ==> r == Err(HttpErrorMessage(provider, outcome.detail))
    ensures outcome.Replied? && ExtractJsonSpan(outcome.content).None? ==> r == Err(NoJsonMessage(provider))
    ensures r.Ok? <==> outcome.Replied? && ExtractJsonSpan(outcome.content).Some?
                       && parseJson(ExtractJsonSpan(outcome.content).value).Ok?
    ensures r.Ok? ==> r.value.success && r.value.raw == outcome.content
                      && Ok(r.value.data) == parseJson(ExtractJsonSpan(outcome.content).value)
  {
    match outcome
    case Threw(m) => Err(m)
    case NotOk(d) => Err(HttpErrorMessage(provider, d))
    case Replied(content) =>
      var span := ExtractJsonSpan(content);
      if span.None? then Err(NoJsonMessage(provider))
      else
        match parseJson(span.value)
        case Err(m) => Err(m)
        case Ok(data) => Ok(ParseSuccess(true, data, content))
  }

  /** The environment: `VITE_DEMO_MODE` (possibly unset) and the two keys,
      which read as "" when unset. */
  datatype Config = Config(demoMode: Option<string>, openRouterKey: string, claudeKey: string)

  datatype Route = Demo | Use(provider: Provider) | NoProvider

  /** The routing order of `parseDocument`: the demo flag, then the
      OpenRouter key, then the Claude key, then an error. */
  function RouteFor(cfg: Config): (r: Route)
    ensures r == Demo <==> cfg.demoMode == Some("true")
    ensures r == Use(OpenRouter) <==> cfg.demoMode != Some("true") && cfg.openRouterKey != ""
    ensures r == Use(Claude) <==> cfg.demoMode != Some("true") && cfg.openRouterKey == "" && cfg.claudeKey != ""
    ensures r == NoProvider <==> cfg.demoMode != Some("true") && cfg.openRouterKey == "" && cfg.claudeKey == ""
  {
    if cfg.demoMode == Some("true") then Demo
    else if cfg.openRouterKey != "" then Use(OpenRouter)
    else if cfg.claudeKey == "" then NoProvider
    else Use(Claude)
  }

  /** The error thrown when no provider is configured. It is one sentence,
      written as two literals so that its opening words are visible to the
      verifier, which does not look inside a long literal. */
  const NoKeyMessage: string := "No AI API" + " key configured (VITE_OPENROUTER_API_KEY or VITE_CLAUDE_API_KEY)"

  /** `parseDocument`. `callOpenRouter` and `callClaude` give what each
      provider answers to a prompt; `parseJson` is `JSON.parse`. Whatever
      resolves has `success` set: every failure is an error instead. */
  function ParseDocument(cfg: Config, content: string, documentType: string,
                         callOpenRouter: string -> ProviderOutcome,
                         callClaude: string -> ProviderOutcome,
                         parseJson: string -> Result<Graph>): (r: Result<ParseSuccess>)
    ensures r.Ok? ==> r.value.success
  {
    match RouteFor(cfg)
    case Demo => Ok(DemoResult())
    case Use(OpenRouter) => ParseWithProvider(OpenRouter, callOpenRouter(BuildPrompt(content, documentType)), parseJson)
    case Use(Claude) => ParseWithProvider(Claude, callClaude(BuildPrompt(content, documentType)), parseJson)
    case NoProvider => Err(NoKeyMessage)
  }

  /** Demo mode ignores the document, its type and both providers. */
  lemma DemoIgnoresInputs(cfg: Config, content: string, documentType: string,
                          callOpenRouter: string -> ProviderOutcome,
                          callClaude: string -> ProviderOutcome,
                          parseJson: string -> Result<Graph>)
    requires cfg.demoMode == Some("true")
    ensures ParseDocument(cfg, content, documentType, callOpenRouter, callClaude, parseJson) == Ok(DemoResult())
  {
  }

  /** Without the demo flag and without keys, the call fails with the
      missing-key error and no provider is asked. */
  lemma NoKeyFails(cfg: Config, content: string, documentType: string,
                   callOpenRouter: string -> ProviderOutcome,
                   callClaude: string -> ProviderOutcome,
                   parseJson: string -> Result<Graph>)
    requires cfg.demoMode != Some("true") && cfg.openRouterKey == "" && cfg.claudeKey == ""
    ensures ParseDocument(cfg, content, documentType, callOpenRouter, callClaude, parseJson) == Err(NoKeyMessage)
  {
  }

  /** With an OpenRouter key (and no demo flag) OpenRouter alone is asked,
      with the built prompt, and its outcome decides the result: whatever
      Claude would answer makes no difference, so a failure is never retried
      with Claude. */
  lemma OnlyOpenRouterAsked(cfg: Config, content: string, documentType: string,
                            callOpenRouter: string -> ProviderOutcome,
                            callClaude: string -> ProviderOutcome,
                            otherClaude: string -> ProviderOutcome,
                            parseJson: string -> Result<Graph>)
    requires cfg.demoMode != Some("true") && cfg.openRouterKey != ""
    ensures ParseDocument(cfg, content, documentType, callOpenRouter, callClaude, parseJson)
              == ParseWithProvider(OpenRouter, callOpenRouter(BuildPrompt(content, documentType)), parseJson)
    ensures ParseDocument(cfg, content, documentType, callOpenRouter, callClaude, parseJson)
              == ParseDocument(cfg, content, documentType, callOpenRouter, otherClaude, parseJson)
  {
  }

  /** Without an OpenRouter key, with a Claude key and no demo flag, Claude
      alone is asked and OpenRouter's answer makes no difference. */
  lemma OnlyClaudeAsked(cfg: Config, content: string, documentType: string,
                        callOpenRouter: string -> ProviderOutcome,
                        callClaude: string -> ProviderOutcome,
                        otherOpenRouter: string -> ProviderOutcome,
                        parseJson: string -> Result<Graph>)
    requires cfg.demoMode != Some("true") && cfg.openRouterKey == "" && cfg.claudeKey != ""
    ensures ParseDocument(cfg, content, documentType, callOpenRouter, callClaude, parseJson)
              == ParseWithProvider(Claude, callClaude(BuildPrompt(content, documentType)), parseJson)
    ensures ParseDocument(cfg, content, documentType, callOpenRouter, callClaude, parseJson)
              == ParseDocument(cfg, content, documentType, otherOpenRouter, callClaude, parseJson)
  {
  }

  /** A non-success status from the routed provider surfaces as that
      provider's error, even when the other provider is configured. */
  lemma ProviderErrorPropagates(cfg: Config, content: string, documentType: string,
                                callOpenRouter: string -> ProviderOutcome,
                                callClaude: string -> ProviderOutcome,
                                parseJson: string -> Result<Graph>, detail: string)
    requires cfg.demoMode != Some("true") && cfg.openRouterKey != "" && cfg.claudeKey != ""
    requires callOpenRouter(BuildPrompt(content, documentType)) == NotOk(detail)
    ensures ParseDocument(cfg, content, documentType, callOpenRouter, callClaude, parseJson)
              == Err("OpenRouter API error: " + detail)
  {
  }

  // ---------------------------------------------------------------------
  // Task normaliser
  // ---------------------------------------------------------------------

  /** `task-${Date.now()}-${index}`. */
  function TaskId(millis: nat, index: nat): (id: string)
    ensures StartsWith(id, "task-")
    ensures AfterLastDash(id) == NatToString(index)
  {
    var head := "task-" + NatToString(millis);
    NoDashInDigits(index);
    AfterLastDashOfJoin(head, NatToString(index));
    head + "-" + NatToString(index)
  }

  lemma NoDashInDigits(n: nat)
    ensures '-' !in NatToString(n)
  {
  }

  /** Two ids with different positions differ, whatever the clock read. */
  lemma TaskIdsDiffer(m1: nat, i1: nat, m2: nat, i2: nat)
    requires i1 != i2
    ensures TaskId(m1, i1) != TaskId(m2, i2)
  {
    NatToStringInjective(i1, i2);
  }

  /** `task.suggestedOrder || index + 1`: 0 and a missing value are falsy. */
  function OrderFor(suggested: Option<int>, index: nat): int
  {
    if suggested.Some? && suggested.value != 0 then suggested.value else index + 1
  }

  function OrEmpty(xs: Option<seq<string>>): seq<string>
  {
    if xs.Some? then xs.value else []
  }

  /** The `tasks.map` callback for one task. */
  function NormalizeTask(t: RawTask, index: nat, at: Instant): (r: Task)
    ensures Normalizes(r, t, index) && r.createdAt == at.iso
  {
    Task(
      TaskId(at.millis, index), t.title, t.description, t.epic, t.taskType, t.priority,
      t.estimatedComplexity, OrEmpty(t.dependencies), OrEmpty(t.requiredSkills),
      OrderFor(t.suggestedOrder, index), "todo", None, at.iso,
      ComplexityToHours(t.estimatedComplexity))
  }

  /** The normaliser stores the corrected table's hours; for every label that
      is not a key of `Object.prototype` (including no label at all) that is
      exactly what the code as written stores. */
  lemma NormalizedHoursMatchCode(t: RawTask, index: nat, at: Instant)
    requires t.estimatedComplexity.None? || t.estimatedComplexity.value !in ObjectPrototypeMembers
    ensures Hours(NormalizeTask(t, index, at).estimatedHours) == ComplexityToHoursAsWritten(t.estimatedComplexity)
  {
    AsWrittenAgreesOffPrototype(t.estimatedComplexity);
  }

  /** What the normaliser promises for the task at `index` built from `raw`. */
  ghost predicate Normalizes(task: Task, raw: RawTask, index: nat)
  {
    && task.title == raw.title && task.description == raw.description
    && task.epic == raw.epic && task.taskType == raw.taskType && task.priority == raw.priority
    && task.complexity == raw.estimatedComplexity
    && task.estimatedHours == ComplexityToHours(raw.estimatedComplexity)
    && (raw.dependencies.Some? ==> task.dependencies == raw.dependencies.value)
    && (raw.dependencies.None? ==> task.dependencies == [])
    && (raw.requiredSkills.Some? ==> task.requiredSkills == raw.requiredSkills.value)
    && (raw.requiredSkills.None? ==> task.requiredSkills == [])
    && (raw.suggestedOrder.Some? && raw.suggestedOrder.value != 0 ==> task.order == raw.suggestedOrder.value)
    && (raw.suggestedOrder.None? || raw.suggestedOrder.value == 0 ==> task.order == index + 1)
    && task.status == "todo" && task.assignedTo.None?
    && StartsWith(task.id, "task-") && AfterLastDash(task.id) == NatToString(index)
  }

  /** `generateTasks(epics, tasks)`: one task per input task, in input order;
      `clock(i)` is what the clock reads while task `i` is built. The epics
      are not used. */
  function GenerateTasks(epics: seq<Epic>, tasks: seq<RawTask>, clock: nat -> Instant): (r: seq<Task>)
    ensures |r| == |tasks|
    ensures forall i :: 0 <= i < |r| ==> Normalizes(r[i], tasks[i], i)
    ensures forall i :: 0 <= i < |r| ==> r[i].createdAt == clock(i).iso
  {
    var r := seq(|tasks|, i requires 0 <= i < |tasks| => NormalizeTask(tasks[i], i, clock(i)));
    assert forall i :: 0 <= i < |r| ==> r[i] == NormalizeTask(tasks[i], i, clock(i));
    r
  }

  /** Ids within one batch are pairwise distinct. */
  lemma GeneratedIdsDistinct(epics: seq<Epic>, tasks: seq<RawTask>, clock: nat -> Instant)
    ensures var r := GenerateTasks(epics, tasks, clock);
            forall i, j :: 0 <= i < j < |r| ==> r[i].id != r[j].id
  {
    var r := GenerateTasks(epics, tasks, clock);
    forall i, j | 0 <= i < j < |r| ensures r[i].id != r[j].id {
      NatToStringInjective(i, j);
    }
  }

  // ---------------------------------------------------------------------
  // Demo dataset
  // ---------------------------------------------------------------------

  function DemoTask(title: string, description: string, epic: string, taskType: string,
                    priority: string, complexity: string, dependencies: seq<string>,
                    skills: seq<string>, order: int): RawTask
  {
    RawTask(title, description, epic, taskType, priority, Some(complexity),
            Some(dependencies), Some(skills), Some(order))
  }

  function DemoEpics(): seq<Epic>
  {
    [ Epic("Authentication", "User authentication and authorization system", "critical"),
      Epic("Core Features", "Main application functionality", "high"),
      Epic("Admin Dashboard", "Administrative tools and management", "high"),
      Epic("Testing & QA", "Quality assurance and testing", "medium") ]
  }

  function DemoTasks(): seq<RawTask>
  {
    [ DemoTask("Set up authentication system", "Implement JWT-based user authentication",
               "Authentication", "backend", "critical", "medium", [],
               ["node.js", "express", "jwt"], 1),
      DemoTask("Create login page UI", "Build responsive login form with validation",
               "Authentication", "frontend", "critical", "easy", ["Set up authentication system"],
               ["react", "tailwind"], 2),
      DemoTask("Implement core feature module", "Build main feature with full CRUD operations",
               "Core Features", "backend", "high", "hard", ["Set up authentication system"],
               ["node.js", "postgresql", "api"], 3),
      DemoTask("Build feature dashboard", "Create interactive dashboard UI",
               "Core Features", "frontend", "high", "hard", ["Implement core feature module"],
               ["react", "charts", "tailwind"], 4),
      DemoTask("Admin management interface", "Build admin panel with user management",
               "Admin Dashboard", "frontend", "high", "medium", ["Create login page UI"],
               ["react", "forms", "tailwind"], 5),
      DemoTask("Unit tests", "Write comprehensive unit tests",
               "Testing & QA", "testing", "medium", "medium", ["Implement core feature module"],
               ["jest", "testing"], 6),
      DemoTask("Integration tests", "Write integration tests for API",
               "Testing & QA", "testing", "medium", "hard", ["Unit tests"],
               ["jest", "testing", "api"], 7) ]
  }

  function DemoSummary(): Summary
  {
    Summary(7, "2-3 weeks", "2-3 developers", ["API integration complexity", "Testing coverage"])
  }

  /** `_generateDemoData`: the fixed result, whatever the document. */
  function DemoResult(): (r: ParseSuccess)
    ensures r.success && r.raw == "[DEMO DATA]"
    ensures |r.data.epics| == 4 && |r.data.tasks| == 7 && r.data.summary.totalTasks == 7
  {
    ParseSuccess(true, Graph(DemoEpics(), DemoTasks(), DemoSummary()), "[DEMO DATA]")
  }

  /** Every demo task belongs to one of the demo epics. */
  lemma DemoTasksBelongToEpics()
    ensures forall i :: 0 <= i < |DemoTasks()| ==>
              exists e :: 0 <= e < |DemoEpics()| && DemoEpics()[e].name == DemoTasks()[i].epic
  {
    var ts, es := DemoTasks(), DemoEpics();
    assert es[0].name == ts[0].epic == ts[1].epic;
    assert es[1].name == ts[2].epic == ts[3].epic;
    assert es[2].name == ts[4].epic;
    assert es[3].name == ts[5].epic == ts[6].epic;
  }

  /** Every dependency of a demo task names the title of a task with a
      smaller suggested order. */
  lemma DemoDependenciesPrecede()
    ensures forall i :: 0 <= i < |DemoTasks()| ==>
              forall d :: d in DemoTasks()[i].dependencies.value ==>
                exists j :: 0 <= j < i && DemoTasks()[j].title == d
    ensures forall i :: 0 <= i < |DemoTasks()| ==> DemoTasks()[i].suggestedOrder == Some(i + 1)
  {
    var ts := DemoTasks();
    DemoOrders();
    assert ts[0].dependencies.value == [];
    assert ts[1].dependencies.value == [ts[0].title];
    assert ts[2].dependencies.value == [ts[0].title];
    assert ts[3].dependencies.value == [ts[2].title];
    assert ts[4].dependencies.value == [ts[1].title];
    assert ts[5].dependencies.value == [ts[2].title];
    assert ts[6].dependencies.value == [ts[5].title];
  }

  lemma DemoOrders()
    ensures forall i :: 0 <= i < 7 ==> DemoTasks()[i].suggestedOrder == Some(i + 1)
    ensures forall i :: 0 <= i < 7 ==> DemoTasks()[i].dependencies.Some?
  {
  }

  /** Feeding the demo data through the normaliser keeps all seven tasks and
      their dependency titles, and uses each suggested order. */
  lemma DemoMaterializes(clock: nat -> Instant)
    ensures var r := GenerateTasks(DemoEpics(), DemoTasks(), clock);
            |r| == 7
            && (forall i :: 0 <= i < 7 ==> r[i].dependencies == DemoTasks()[i].dependencies.value)
            && (forall i :: 0 <= i < 7 ==> r[i].order == i + 1)
  {
    DemoOrders();
    OrdersFollowPosition(DemoEpics(), DemoTasks(), clock);
  }

  /** Tasks numbered 1, 2, 3, ... in list order keep those numbers and their
      dependencies through the normaliser. */
  lemma OrdersFollowPosition(epics: seq<Epic>, tasks: seq<RawTask>, clock: nat -> Instant)
    requires forall i :: 0 <= i < |tasks| ==> tasks[i].suggestedOrder == Some(i + 1)
    requires forall i :: 0 <= i < |tasks| ==> tasks[i].dependencies.Some?
    ensures var r := GenerateTasks(epics, tasks, clock);
            |r| == |tasks|
            && (forall i :: 0 <= i < |tasks| ==> r[i].dependencies == tasks[i].dependencies.value)
            && (forall i :: 0 <= i < |tasks| ==> r[i].order == i + 1)
  {
    KeepsPresentFields(epics, tasks, clock);
  }

  /** When every task carries its dependencies and a non-zero suggested
      order, the normaliser keeps both. */
  lemma KeepsPresentFields(epics: seq<Epic>, tasks: seq<RawTask>, clock: nat -> Instant)
    requires forall i :: 0 <= i < |tasks| ==> tasks[i].dependencies.Some?
    ensures var r := GenerateTasks(epics, tasks, clock);
            forall i :: 0 <= i < |tasks| ==> r[i].dependencies == tasks[i].dependencies.value
    ensures var r := GenerateTasks(epics, tasks, clock);
            forall i :: 0 <= i < |tasks| && tasks[i].suggestedOrder.Some? && tasks[i].suggestedOrder.value != 0
              ==> r[i].order == tasks[i].suggestedOrder.value
  {
  }
}
