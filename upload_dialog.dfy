/** The upload dialog that drives the pipeline: it keeps the chosen file, a
    preview of it, the document type and a loading flag, and `HandleParse`
    runs the gates in order (a file is chosen, the document is long enough),
    asks the parser, normalises the tasks and hands them to its caller, or
    turns the error into a message for the user. */
module UploadDialog {
  import opened Common
  import opened DocumentParser

  /** The two buttons of the type selector. */
  datatype DocType = PRD | TDD

  function DocTypeTag(t: DocType): (tag: string)
    ensures tag == "PRD" <==> t == PRD
  {
    match t
    case PRD => "PRD"
    case TDD => "TDD"
  }

  /** A chosen file: its name and its text. */
  datatype File = File(name: string, content: string)

  /** What the dialog hands to `onTasksGenerated`. */
  datatype GeneratedData = GeneratedData(
    tasks: seq<Task>,
    epics: seq<Epic>,
    summary: Summary,
    sourceFile: string,
    documentType: DocType)

  const PreviewLength: nat := 500
  const Ellipsis: string := "..."

  /** `content.substring(0, 500) + '...'`: at most 500 leading characters,
      followed by an ellipsis whether or not anything was cut. */
  function Preview(content: string): (p: string)
    ensures EndsWith(p, Ellipsis)
    ensures |p| == (if |content| < PreviewLength then |content| else PreviewLength) + |Ellipsis|
    ensures StartsWith(content, p[..|p| - |Ellipsis|])
  {
    var shown := if |content| < PreviewLength then content else content[..PreviewLength];
    var p := shown + Ellipsis;
    assert p[..|p| - |Ellipsis|] == shown;
    p
  }

  const SelectFileToast: string := "Please select a file"
  const TooShortToast: string := "Document is too short or invalid"
  const DefaultErrorMessage: string := "Failed to parse document"
  /** The cross mark that opens both key toasts. */
  const CrossMark: char := '\U{274C}'
  const MissingKeyToast: string :=
    [CrossMark] + " No AI API key configured\n\nAdd to .env.local:\nVITE_OPENROUTER_API_KEY=sk-or-..."
  const InvalidKeyToast: string := [CrossMark] + " Invalid API key. Check your credentials."

  /** `error.message || 'Failed to parse document'`. */
  function EffectiveMessage(message: string): string
  {
    if message == "" then DefaultErrorMessage else message
  }

  predicate MentionsMissingKey(m: string)
  {
    Contains(m, "API key") || Contains(m, "No AI API")
  }

  predicate MentionsRejectedKey(m: string)
  {
    Contains(m, "401") || Contains(m, "403")
  }

  /** The error toast, by priority: a missing key, then a rejected key, then
      the message itself after "Failed: ". */
  function ErrorToast(message: string): (t: string)
    ensures var m := EffectiveMessage(message);
            t == MissingKeyToast <==> MentionsMissingKey(m)
    ensures var m := EffectiveMessage(message);
            t == InvalidKeyToast <==> !MentionsMissingKey(m) && MentionsRejectedKey(m)
    ensures var m := EffectiveMessage(message);
            t == "Failed: " + m <==> !MentionsMissingKey(m) && !MentionsRejectedKey(m)
  {
    var m := EffectiveMessage(message);
    assert ("Failed: " + m)[0] == 'F';
    assert MissingKeyToast[0] == CrossMark && InvalidKeyToast[0] == CrossMark;
    assert |MissingKeyToast| != |InvalidKeyToast|;
    if MentionsMissingKey(m) then MissingKeyToast
    else if MentionsRejectedKey(m) then InvalidKeyToast
    else "Failed: " + m
  }

  /** The router's missing-key error is shown as the missing-key toast. */
  lemma NoKeyErrorIsExplained()
    ensures ErrorToast(NoKeyMessage) == MissingKeyToast
  {
    assert OccursAt(NoKeyMessage, "No AI API", 0);
  }

  /** A non-success answer whose detail (the body text, or Claude's
      `error.message`) mentions 401 or 403 and names no missing key is shown
      as the invalid-key toast, whichever provider answered: the provider's
      prefix adds no "API key" or "No AI API" of its own. The status code
      itself is not part of the message, so only the detail can trigger it. */
  lemma UnauthorizedIsExplained(provider: Provider, detail: string)
    requires MentionsRejectedKey(detail) && !MentionsMissingKey(detail)
    ensures ErrorToast(HttpErrorMessage(provider, detail)) == InvalidKeyToast
  {
    var prefix := ApiErrorPrefix(provider);
    assert detail != "";
    assert HttpErrorMessage(provider, detail) == prefix + detail;
    if Contains(detail, "401") {
      ContainsInSuffix(prefix, detail, "401");
    } else {
      ContainsInSuffix(prefix, detail, "403");
    }
    PrefixNamesNoKey(provider, detail);
  }

  /** Neither provider's error prefix names a missing key, not even together
      with the start of the detail that follows it. */
  lemma PrefixNamesNoKey(provider: Provider, detail: string)
    requires !MentionsMissingKey(detail)
    ensures !MentionsMissingKey(ApiErrorPrefix(provider) + detail)
  {
    var prefix := ApiErrorPrefix(provider);
    PrefixChars(provider);
    assert "API key"[4] == 'k' && "No AI API"[0] == 'N';
    NotContainsAfterPrefix(prefix, detail, "API key", 4);
    NotContainsAfterPrefix(prefix, detail, "No AI API", 0);
  }

  /** The characters of the prefixes that matter: no 'k' or 'N' anywhere,
      no 'A' among the last four. */
  predicate HarmlessPrefix(prefix: string)
  {
    |prefix| >= 4 && 'k' !in prefix && 'N' !in prefix && 'A' !in prefix[|prefix| - 4..]
  }

  lemma PrefixChars(provider: Provider)
    ensures HarmlessPrefix(ApiErrorPrefix(provider))
  {
    match provider
    case OpenRouter => OpenRouterPrefixChars();
    case Claude => ClaudePrefixChars();
  }

  lemma OpenRouterPrefixChars()
    ensures HarmlessPrefix("OpenRouter API error: ")
  {
  }

  lemma ClaudePrefixChars()
    ensures HarmlessPrefix("Claude API error: ")
  {
  }

  /** What one press of the parse button led to. */
  datatype ParseOutcome =
    | NoFileSelected(toast: string)
    | DocumentRejected(toast: string)
    | Delivered(payload: GeneratedData)
    | Unsuccessful
    | Failed(toast: string)

  class PrdUploadDialog {
    var file: Option<File>
    var loading: bool
    var documentType: DocType
    var preview: string

    constructor ()
      ensures file == None && !loading && documentType == PRD && preview == ""
    {
      file := None;
      loading := false;
      documentType := PRD;
      preview := "";
    }

    /** `handleFileChange`: an empty choice changes nothing; otherwise the
        file is kept and its preview shown. */
    method HandleFileChange(selected: Option<File>)
      modifies this
      ensures selected.None? ==> file == old(file) && preview == old(preview)
      ensures selected.Some? ==> file == selected && preview == Preview(selected.value.content)
      ensures loading == old(loading) && documentType == old(documentType)
    {
      if selected.None? {
        return;
      }
      file := selected;
      preview := Preview(selected.value.content);
    }

    /** A click on one of the two type buttons. */
    method SelectDocumentType(t: DocType)
      modifies this`documentType
      ensures documentType == t
    {
      documentType := t;
    }

    /** `handleParse`. The parser is invoked only when a file is chosen and
        its text passes the length gate; `loading` is off again on every
        path. */
    method HandleParse(cfg: Config,
                       callOpenRouter: string -> ProviderOutcome,
                       callClaude: string -> ProviderOutcome,
                       parseJson: string -> Result<Graph>,
                       clock: nat -> Instant)
      returns (invoked: bool, outcome: ParseOutcome)
      modifies this
      ensures documentType == old(documentType)
      ensures old(file).None? ==> outcome == NoFileSelected(SelectFileToast) && !invoked && loading == old(loading)
      ensures old(file).Some? ==> !loading
      ensures invoked <==> old(file).Some? && IsValidDocument(Some(old(file).value.content))
      ensures old(file).Some? && !invoked ==> outcome == DocumentRejected(TooShortToast)
      ensures !outcome.Delivered? ==> file == old(file) && preview == old(preview)
      ensures invoked ==>
        var r := ParseDocument(cfg, old(file).value.content, DocTypeTag(old(documentType)),
                               callOpenRouter, callClaude, parseJson);
        && (r.Err? ==> outcome == Failed(ErrorToast(r.message)))
        && (r.Ok? && !r.value.success ==> outcome == Unsuccessful)
        && (r.Ok? && r.value.success ==>
              outcome == Delivered(GeneratedData(
                GenerateTasks(r.value.data.epics, r.value.data.tasks, clock),
                r.value.data.epics, r.value.data.summary,
                old(file).value.name, old(documentType)))
              && file == None && preview == "")
    {
      invoked := false;
      if file.None? {
        outcome := NoFileSelected(SelectFileToast);
        return;
      }
      loading := true;
      var content := file.value.content;
      if !IsValidDocument(Some(content)) {
        outcome := DocumentRejected(TooShortToast);
        loading := false;
        return;
      }
      invoked := true;
      var result := ParseDocument(cfg, content, DocTypeTag(documentType), callOpenRouter, callClaude, parseJson);
      if result.Err? {
        outcome := Failed(ErrorToast(result.message));
      } else if result.value.success {
        var tasks := GenerateTasks(result.value.data.epics, result.value.data.tasks, clock);
        outcome := Delivered(GeneratedData(tasks, result.value.data.epics, result.value.data.summary,
                                           file.value.name, documentType));
        file := None;
        preview := "";
      } else {
        outcome := Unsuccessful;
      }
      loading := false;
    }
  }

  /** In demo mode any long-enough document yields the seven demo tasks. */
  method DemoUpload(name: string, content: string,
                    callOpenRouter: string -> ProviderOutcome,
                    callClaude: string -> ProviderOutcome,
                    parseJson: string -> Result<Graph>,
                    clock: nat -> Instant)
    returns (outcome: ParseOutcome)
    requires |content| > MinDocumentLength
    ensures outcome.Delivered? && |outcome.payload.tasks| == 7 && |outcome.payload.epics| == 4
    ensures outcome.payload.summary.totalTasks == 7 && outcome.payload.documentType == PRD
  {
    var dialog := new PrdUploadDialog();
    dialog.HandleFileChange(Some(File(name, content)));
    var cfg := Config(Some("true"), "", "");
    var invoked;
    invoked, outcome := dialog.HandleParse(cfg, callOpenRouter, callClaude, parseJson, clock);
    DemoIgnoresInputs(cfg, content, DocTypeTag(PRD), callOpenRouter, callClaude, parseJson);
  }
}
