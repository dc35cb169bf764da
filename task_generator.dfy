/** The task generator page: it receives the normalised tasks from the
    upload dialog, keeps which of them are selected and which project is
    chosen, and sends the selected tasks for creation. After a successful
    save it names one git branch per created task; the branch name is built
    from the task's id and a slug of its title. */
module TaskGenerator {
  import opened Common
  import opened DocumentParser
  import opened UploadDialog

  // ---------------------------------------------------------------------
  // Branch slug
  // ---------------------------------------------------------------------

  /** `toLowerCase` on the ASCII range. */
  function LowerChar(c: char): char
  {
    if 'A' <= c <= 'Z' then (c as int + 32) as char else c
  }

  function Lower(s: string): (r: string)
    ensures |r| == |s| && forall i :: 0 <= i < |s| ==> r[i] == LowerChar(s[i])
  {
    seq(|s|, i requires 0 <= i < |s| => LowerChar(s[i]))
  }

  /** The characters `[a-z0-9]` that the slug keeps. */
  predicate IsSlugChar(c: char)
  {
    'a' <= c <= 'z' || '0' <= c <= '9'
  }

  /** Characters a slug is made of: kept characters and the separator. */
  ghost predicate InSlugAlphabet(s: string)
  {
    forall i :: 0 <= i < |s| ==> IsSlugChar(s[i]) || s[i] == '-'
  }

  ghost predicate NoDoubleDash(s: string)
  {
    forall i :: 0 <= i < |s| - 1 ==> !(s[i] == '-' && s[i + 1] == '-')
  }

  /** Drops the rest of a run of characters outside `[a-z0-9]`. */
  function SkipRun(s: string): (r: string)
    ensures |r| <= |s| && r == s[|s| - |r|..]
    ensures r == [] || IsSlugChar(r[0])
    ensures forall i :: 0 <= i < |s| - |r| ==> !IsSlugChar(s[i])
  {
    if s == [] || IsSlugChar(s[0]) then s else SkipRun(s[1..])
  }

  /** `.replace(/[^a-z0-9]+/g, '-')`: every maximal run of characters
      outside `[a-z0-9]` becomes one '-'. */
  function CollapseRuns(s: string): (r: string)
    ensures InSlugAlphabet(r) && NoDoubleDash(r)
    ensures s != [] ==> r != [] && (r[0] == '-' <==> !IsSlugChar(s[0]))
    decreases |s|
  {
    if s == [] then []
    else if IsSlugChar(s[0]) then [s[0]] + CollapseRuns(s[1..])
    else "-" + CollapseRuns(SkipRun(s[1..]))
  }

  /** A text of kept characters only is left as it is. */
  lemma {:induction false} CollapseKeepsSlugText(s: string)
    requires forall i :: 0 <= i < |s| ==> IsSlugChar(s[i])
    ensures CollapseRuns(s) == s
    decreases |s|
  {
    if s != [] {
      CollapseKeepsSlugText(s[1..]);
    }
  }

  /** Skipping a run stops exactly where the next kept character is. */
  lemma {:induction false} SkipRunPastRun(run: string, v: string)
    requires forall i :: 0 <= i < |run| ==> !IsSlugChar(run[i])
    requires v == [] || IsSlugChar(v[0])
    ensures SkipRun(run + v) == v
    decreases |run|
  {
    if run == [] {
      assert run + v == v;
    } else {
      assert (run + v)[0] == run[0];
      assert (run + v)[1..] == run[1..] + v;
      SkipRunPastRun(run[1..], v);
    }
  }

  /** Skipping a run inside a text that ends in a kept character never
      reaches what follows it. */
  lemma {:induction false} SkipRunOfJoin(a: string, b: string)
    requires a != [] && IsSlugChar(a[|a| - 1])
    ensures SkipRun(a + b) == SkipRun(a) + b
    decreases |a|
  {
    assert (a + b)[0] == a[0];
    if !IsSlugChar(a[0]) {
      assert (a + b)[1..] == a[1..] + b;
      SkipRunOfJoin(a[1..], b);
    }
  }

  /** A run at the very start becomes one '-' before the rest. */
  lemma LeadingRunToDash(run: string, v: string)
    requires run != [] && forall i :: 0 <= i < |run| ==> !IsSlugChar(run[i])
    requires v == [] || IsSlugChar(v[0])
    ensures CollapseRuns(run + v) == "-" + CollapseRuns(v)
  {
    assert (run + v)[0] == run[0];
    assert (run + v)[1..] == run[1..] + v;
    SkipRunPastRun(run[1..], v);
  }

  /** A text that ends in a kept character and starts outside `[a-z0-9]`:
      its leading run is skipped without reaching what follows it. */
  lemma SkipLeadingRunOfJoin(u: string, w: string)
    requires |u| >= 2 && !IsSlugChar(u[0]) && IsSlugChar(u[|u| - 1])
    ensures var rest := SkipRun(u[1..]);
            rest != [] && IsSlugChar(rest[|rest| - 1]) && |rest| < |u|
            && CollapseRuns(u) == "-" + CollapseRuns(rest)
            && CollapseRuns(u + w) == "-" + CollapseRuns(rest + w)
  {
    assert (u + w)[0] == u[0];
    assert (u + w)[1..] == u[1..] + w;
    assert u[1..][|u| - 2] == u[|u| - 1];
    SkipRunOfJoin(u[1..], w);
  }

  /** Each maximal run of characters outside `[a-z0-9]` becomes exactly one
      '-': a run with a kept character (or nothing) on either side is
      replaced by a single dash, and the two sides collapse independently. */
  lemma {:induction false} CollapseRunToDash(u: string, run: string, v: string)
    requires run != [] && forall i :: 0 <= i < |run| ==> !IsSlugChar(run[i])
    requires u == [] || IsSlugChar(u[|u| - 1])
    requires v == [] || IsSlugChar(v[0])
    ensures CollapseRuns(u + (run + v)) == CollapseRuns(u) + ("-" + CollapseRuns(v))
    decreases |u|
  {
    if u == [] {
      assert u + (run + v) == run + v;
      LeadingRunToDash(run, v);
      assert CollapseRuns(u) == [];
      assert [] + ("-" + CollapseRuns(v)) == "-" + CollapseRuns(v);
    } else if IsSlugChar(u[0]) {
      assert |u| == 1 || u[1..][|u| - 2] == u[|u| - 1];
      CollapseRunToDash(u[1..], run, v);
      SlugHeadStep(u, run + v, "-" + CollapseRuns(v));
    } else {
      SkipLeadingRunOfJoin(u, run + v);
      CollapseRunToDash(SkipRun(u[1..]), run, v);
      RunHeadStep(u, run + v, "-" + CollapseRuns(v));
    }
  }

  /** The step for a kept character at the front: what holds of the rest
      holds with that character put back in front. */
  lemma SlugHeadStep(u: string, w: string, t: string)
    requires u != [] && IsSlugChar(u[0])
    requires CollapseRuns(u[1..] + w) == CollapseRuns(u[1..]) + t
    ensures CollapseRuns(u + w) == CollapseRuns(u) + t
  {
    assert (u + w)[0] == u[0];
    assert (u + w)[1..] == u[1..] + w;
  }

  /** The step for a run at the front: it is one '-' on both sides. */
  lemma RunHeadStep(u: string, w: string, t: string)
    requires |u| >= 2 && !IsSlugChar(u[0]) && IsSlugChar(u[|u| - 1])
    requires CollapseRuns(SkipRun(u[1..]) + w) == CollapseRuns(SkipRun(u[1..])) + t
    ensures CollapseRuns(u + w) == CollapseRuns(u) + t
  {
    var rest := SkipRun(u[1..]);
    var x := CollapseRuns(rest);
    var y := CollapseRuns(rest + w);
    assert CollapseRuns(u) == "-" + x && CollapseRuns(u + w) == "-" + y by {
      SkipLeadingRunOfJoin(u, w);
    }
    DashBeforeJoin(CollapseRuns(u), CollapseRuns(u + w), x, y, t);
  }

  /** Putting a '-' in front of both sides keeps `y == x + t`. */
  lemma DashBeforeJoin(a: string, b: string, x: string, y: string, t: string)
    requires a == "-" + x && b == "-" + y && y == x + t
    ensures b == a + t
  {
    assert "-" + (x + t) == ("-" + x) + t;
  }

  /** Two words with a space between them are joined by one dash, so "a b"
      becomes "a-b" and not "ab". */
  lemma WordsJoinedByOneDash()
    ensures CollapseRuns("a b") == "a-b"
  {
    assert CollapseRuns("a") == "a" && CollapseRuns("b") == "b" by {
      CollapseKeepsSlugText("a");
      CollapseKeepsSlugText("b");
    }
    assert "a b" == "a" + (" " + "b");
    CollapseRunToDash("a", " ", "b");
    assert "a" + ("-" + "b") == "a-b";
  }

  /** `.replace(/(^-|-$)/g, '')`: one leading and one trailing '-' go. The
      result sits in `s` right after the leading dash, if any, and what is
      cut off at the end is one '-' or nothing. */
  function StripDashes(s: string): (r: string)
    ensures var lead := if s != [] && s[0] == '-' then 1 else 0;
            OccursAt(s, r, lead)
            && (|s| - lead - |r| == 0 || (|s| - lead - |r| == 1 && s[|s| - 1] == '-'))
    ensures var lead := if s != [] && s[0] == '-' then 1 else 0;
            |r| == |s| - lead - (if |s| > lead && s[|s| - 1] == '-' then 1 else 0)
    ensures (s == [] || (s[0] != '-' && s[|s| - 1] != '-')) ==> r == s
  {
    var t := if s != [] && s[0] == '-' then s[1..] else s;
    if t != [] && t[|t| - 1] == '-' then t[..|t| - 1] else t
  }

  /** Stripping a collapsed text keeps its alphabet and its single dashes,
      and leaves no '-' at either end: a '-' at an end of a collapsed text
      is never next to another. */
  lemma StrippedShape(c: string)
    requires InSlugAlphabet(c) && NoDoubleDash(c)
    ensures var s := StripDashes(c);
            InSlugAlphabet(s) && NoDoubleDash(s)
            && (s != [] ==> s[0] != '-' && s[|s| - 1] != '-')
  {
    var s := StripDashes(c);
    var lead := if c != [] && c[0] == '-' then 1 else 0;
    assert forall i :: 0 <= i < |s| ==> s[i] == c[lead + i];
    if s != [] && lead == 1 {
      assert c[1] != '-';
    }
    if s != [] && c[|c| - 1] == '-' {
      assert c[|c| - 2] != '-';
    }
  }

  const SlugLimit: nat := 50

  /** `t.title || 'task'`. */
  function SlugSource(title: Option<string>): string
  {
    if title.Some? && title.value != "" then title.value else "task"
  }

  /** The branch slug of a task title. */
  function Slug(title: Option<string>): (r: string)
    ensures InSlugAlphabet(r) && NoDoubleDash(r)
    ensures r != [] ==> r[0] != '-'
    ensures |r| <= SlugLimit
  {
    var c := CollapseRuns(Lower(SlugSource(title)));
    var s := StripDashes(c);
    StrippedShape(c);
    if |s| <= SlugLimit then s else s[..SlugLimit]
  }

  /** A missing or empty title is slugged as "task". */
  lemma UntitledSlug()
    ensures Slug(None) == "task" && Slug(Some("")) == "task"
  {
    var t := Lower("task");
    assert t == "task";
    assert CollapseRuns("") == "";
    assert CollapseRuns("k") == "k";
    assert CollapseRuns("sk") == "sk";
    assert CollapseRuns("ask") == "ask";
    assert CollapseRuns("task") == "task";
  }

  /** The characters of `s` that the slug keeps, in order. */
  function KeptChars(s: string): (r: string)
  {
    if s == [] then []
    else if IsSlugChar(s[0]) then [s[0]] + KeptChars(s[1..])
    else KeptChars(s[1..])
  }

  lemma {:induction false} KeptCharsOfJoin(a: string, b: string)
    ensures KeptChars(a + b) == KeptChars(a) + KeptChars(b)
    decreases |a|
  {
    if a != [] {
      assert (a + b)[1..] == a[1..] + b;
      KeptCharsOfJoin(a[1..], b);
    } else {
      assert a + b == b;
    }
  }

  lemma {:induction false} KeptCharsOfSkippedRun(s: string)
    ensures KeptChars(SkipRun(s)) == KeptChars(s)
    decreases |s|
  {
    if s != [] && !IsSlugChar(s[0]) {
      KeptCharsOfSkippedRun(s[1..]);
    }
  }

  /** Collapsing runs into '-' loses no kept character and adds none. */
  lemma {:induction false} CollapseKeepsChars(s: string)
    ensures KeptChars(CollapseRuns(s)) == KeptChars(s)
    decreases |s|
  {
    if s == [] {
    } else if IsSlugChar(s[0]) {
      CollapseKeepsChars(s[1..]);
      KeptCharsOfJoin([s[0]], CollapseRuns(s[1..]));
    } else {
      var rest := SkipRun(s[1..]);
      CollapseKeepsChars(rest);
      KeptCharsOfSkippedRun(s[1..]);
      KeptCharsOfJoin("-", CollapseRuns(rest));
    }
  }

  lemma StripKeepsChars(s: string)
    ensures KeptChars(StripDashes(s)) == KeptChars(s)
  {
    var t := if s != [] && s[0] == '-' then s[1..] else s;
    if s != [] && s[0] == '-' {
      assert s == "-" + t;
      KeptCharsOfJoin("-", t);
    }
    if t != [] && t[|t| - 1] == '-' {
      assert t == t[..|t| - 1] + "-";
      KeptCharsOfJoin(t[..|t| - 1], "-");
    }
  }

  /** Cutting a string keeps a leading part of its kept characters. */
  lemma KeptCharsOfPrefix(s: string, n: nat)
    requires n <= |s|
    ensures var p := KeptChars(s[..n]);
            |p| <= |KeptChars(s)| && p == KeptChars(s)[..|p|]
  {
    assert s == s[..n] + s[n..];
    KeptCharsOfJoin(s[..n], s[n..]);
  }

  /** The slug is the stripped, collapsed title cut at 50 characters. */
  lemma SlugIsCut(title: Option<string>, s: string)
    requires s == StripDashes(CollapseRuns(Lower(SlugSource(title))))
    ensures Slug(title) == if |s| <= SlugLimit then s else s[..SlugLimit]
  {
  }

  /** The slug's letters and digits are those of the lower-cased title (or
      "task"), in order: all of them when nothing was cut at 50 characters,
      a leading part of them otherwise. */
  lemma SlugKeepsTitleChars(title: Option<string>)
    ensures var kept := KeptChars(Lower(SlugSource(title)));
            var r := KeptChars(Slug(title));
            |r| <= |kept| && r == kept[..|r|]
    ensures |Slug(title)| < SlugLimit ==> KeptChars(Slug(title)) == KeptChars(Lower(SlugSource(title)))
  {
    var lowered := Lower(SlugSource(title));
    var c := CollapseRuns(lowered);
    var s := StripDashes(c);
    CollapseKeepsChars(lowered);
    StripKeepsChars(c);
    SlugIsCut(title, s);
    if |s| > SlugLimit {
      KeptCharsOfPrefix(s, SlugLimit);
    }
  }

  /** `task/${t.id}-${slug}`. */
  function BranchName(id: string, title: Option<string>): (b: string)
    ensures StartsWith(b, "task/" + id + "-")
    ensures b[|id| + 6..] == Slug(title)
  {
    "task/" + id + "-" + Slug(title)
  }

  /** After "task/", the id and a '-', a branch holds only slug characters,
      never two dashes in a row, and at most 50 of them. */
  lemma BranchTailIsSlug(id: string, title: Option<string>)
    ensures var tail := BranchName(id, title)[|id| + 6..];
            InSlugAlphabet(tail) && NoDoubleDash(tail) && |tail| <= SlugLimit
            && (tail != [] ==> tail[0] != '-')
  {
  }

  // ---------------------------------------------------------------------
  // Selection
  // ---------------------------------------------------------------------

  /** `data.tasks.map((t) => t.id)`. */
  function TaskIds(tasks: seq<Task>): (ids: seq<string>)
    ensures |ids| == |tasks| && forall i :: 0 <= i < |tasks| ==> ids[i] == tasks[i].id
  {
    seq(|tasks|, i requires 0 <= i < |tasks| => tasks[i].id)
  }

  /** `prev.filter((x) => x !== id)`. */
  function RemoveAll(selection: seq<string>, id: string): (r: seq<string>)
    ensures forall x :: x in r <==> x in selection && x != id
    ensures |r| <= |selection|
  {
    if selection == [] then []
    else if selection[0] == id then RemoveAll(selection[1..], id)
    else [selection[0]] + RemoveAll(selection[1..], id)
  }

  /** The update `toggleTaskSelection(id)` applies: remove a selected id,
      append an unselected one. */
  function Toggle(selection: seq<string>, id: string): (r: seq<string>)
    ensures id in r <==> id !in selection
    ensures forall x :: x != id ==> (x in r <==> x in selection)
    ensures id !in selection ==> r == selection + [id]
  {
    if id in selection then RemoveAll(selection, id) else selection + [id]
  }

  /** Toggling twice restores every id's membership. */
  lemma ToggleTwiceRestoresMembership(selection: seq<string>, id: string)
    ensures forall x :: x in Toggle(Toggle(selection, id), id) <==> x in selection
  {
  }

  /** `generatedData.tasks.filter((t) => selectedTasks.includes(t.id))`. */
  function SelectedTasks(tasks: seq<Task>, selection: seq<string>): (r: seq<Task>)
    ensures forall t :: t in r <==> t in tasks && t.id in selection
    ensures |r| <= |tasks|
  {
    if tasks == [] then []
    else if tasks[0].id in selection then [tasks[0]] + SelectedTasks(tasks[1..], selection)
    else SelectedTasks(tasks[1..], selection)
  }

  /** The tasks sent keep their generated order. */
  lemma {:induction false} SelectedKeepsOrder(tasks: seq<Task>, selection: seq<string>)
    ensures IsSubsequence(SelectedTasks(tasks, selection), tasks)
    decreases |tasks|
  {
    if tasks != [] {
      SelectedKeepsOrder(tasks[1..], selection);
      if tasks[0].id in selection {
        assert SelectedTasks(tasks, selection)[1..] == SelectedTasks(tasks[1..], selection);
      }
    }
  }

  /** With every id selected, every task is sent. */
  lemma {:induction false} SelectingAllSendsAll(tasks: seq<Task>, selection: seq<string>)
    requires forall i :: 0 <= i < |tasks| ==> tasks[i].id in selection
    ensures SelectedTasks(tasks, selection) == tasks
    decreases |tasks|
  {
    if tasks != [] {
      SelectingAllSendsAll(tasks[1..], selection);
    }
  }

  // ---------------------------------------------------------------------
  // The page
  // ---------------------------------------------------------------------

  datatype Toast = SuccessToast(text: string) | FailureToast(text: string)

  /** The arguments of `taskService.createTasks`. */
  datatype CreateRequest = CreateRequest(tasks: seq<Task>, userId: string, projectId: string)

  /** What `taskService.createTasks` resolves to, or the error it throws. */
  datatype SaveOutcome = Saved(count: nat) | NotSaved(error: string) | SaveThrew(message: string)

  const SelectOneMessage: string := "Please select at least one task"
  const SelectProjectMessage: string := "Please select a project"
  /** The engine's message for `null.tasks`. */
  const NullDataMessage: string := "Cannot read properties of null (reading 'tasks')"

  class TaskGeneratorPage {
    var generatedData: Option<GeneratedData>
    var selectedTasks: seq<string>
    var selectedProjectId: string
    var creatingTasks: bool

    constructor ()
      ensures generatedData == None && selectedTasks == [] && selectedProjectId == "" && !creatingTasks
    {
      generatedData := None;
      selectedTasks := [];
      selectedProjectId := "";
      creatingTasks := false;
    }

    /** `handleTasksGenerated`: keep the data and select every task. */
    method HandleTasksGenerated(data: GeneratedData) returns (toast: Toast)
      modifies this
      ensures generatedData == Some(data) && selectedTasks == TaskIds(data.tasks)
      ensures selectedProjectId == old(selectedProjectId) && creatingTasks == old(creatingTasks)
      ensures toast == SuccessToast("Ready to create " + NatToString(|data.tasks|) + " tasks")
    {
      generatedData := Some(data);
      selectedTasks := TaskIds(data.tasks);
      toast := SuccessToast("Ready to create " + NatToString(|data.tasks|) + " tasks");
    }

    method ToggleTaskSelection(id: string)
      modifies this`selectedTasks
      ensures selectedTasks == Toggle(old(selectedTasks), id)
    {
      selectedTasks := Toggle(selectedTasks, id);
    }

    /** The project drop-down. */
    method SelectProject(projectId: string)
      modifies this`selectedProjectId
      ensures selectedProjectId == projectId
    {
      selectedProjectId := projectId;
    }

    /** The Cancel button: drop the generated data, the selection and the project. */
    method Cancel()
      modifies this
      ensures generatedData == None && selectedTasks == [] && selectedProjectId == ""
      ensures creatingTasks == old(creatingTasks)
    {
      generatedData := None;
      selectedTasks := [];
      selectedProjectId := "";
    }

    /** `handleCreateTasks`. Nothing is sent without a selection or without a
        project; otherwise the selected tasks are sent in generated order,
        and a successful save resets the page. `save` is what the service
        answers. */
    method HandleCreateTasks(userId: string, save: SaveOutcome)
      returns (request: Option<CreateRequest>, toast: Toast)
      modifies this
      ensures old(selectedTasks) == [] ==> request.None? && toast == FailureToast(SelectOneMessage)
      ensures old(selectedTasks) != [] && old(selectedProjectId) == "" ==>
                request.None? && toast == FailureToast(SelectProjectMessage)
      ensures old(selectedTasks) == [] || old(selectedProjectId) == "" ==> creatingTasks == old(creatingTasks)
      ensures old(selectedTasks) != [] && old(selectedProjectId) != "" ==> !creatingTasks
      ensures old(selectedTasks) != [] && old(selectedProjectId) != "" && old(generatedData).None? ==>
                request.None? && toast == FailureToast("Error creating tasks: " + NullDataMessage)
      ensures request.Some? <==> old(selectedTasks) != [] && old(selectedProjectId) != "" && old(generatedData).Some?
      ensures request.Some? ==>
                request.value == CreateRequest(SelectedTasks(old(generatedData).value.tasks, old(selectedTasks)),
                                               userId, old(selectedProjectId))
      ensures request.Some? && save.Saved? ==>
                generatedData.None? && selectedTasks == [] && selectedProjectId == ""
                && toast == SuccessToast("\U{2705} Created " + NatToString(save.count) + " tasks!")
      ensures request.Some? && save.NotSaved? ==> toast == FailureToast("Failed to save tasks: " + save.error)
      ensures request.Some? && save.SaveThrew? ==> toast == FailureToast("Error creating tasks: " + save.message)
      ensures !(request.Some? && save.Saved?) ==>
                generatedData == old(generatedData) && selectedTasks == old(selectedTasks)
                && selectedProjectId == old(selectedProjectId)
    {
      request := None;
      if |selectedTasks| == 0 {
        toast := FailureToast(SelectOneMessage);
        return;
      }
      if selectedProjectId == "" {
        toast := FailureToast(SelectProjectMessage);
        return;
      }
      creatingTasks := true;
      if generatedData.None? {
        toast := FailureToast("Error creating tasks: " + NullDataMessage);
      } else {
        var tasksToCreate := SelectedTasks(generatedData.value.tasks, selectedTasks);
        request := Some(CreateRequest(tasksToCreate, userId, selectedProjectId));
        match save {
          case Saved(count) =>
            toast := SuccessToast("\U{2705} Created " + NatToString(count) + " tasks!");
            generatedData := None;
            selectedTasks := [];
            selectedProjectId := "";
          case NotSaved(error) =>
            toast := FailureToast("Failed to save tasks: " + error);
          case SaveThrew(message) =>
            toast := FailureToast("Error creating tasks: " + message);
        }
      }
      creatingTasks := false;
    }
  }

  /** Generating, choosing a project and creating at once sends every
      generated task, since generation selects them all. */
  method CreateEverythingGenerated(data: GeneratedData, projectId: string, userId: string, save: SaveOutcome)
    returns (request: Option<CreateRequest>)
    requires data.tasks != [] && projectId != ""
    ensures request == Some(CreateRequest(data.tasks, userId, projectId))
  {
    var page := new TaskGeneratorPage();
    var toast := page.HandleTasksGenerated(data);
    page.SelectProject(projectId);
    SelectingAllSendsAll(data.tasks, TaskIds(data.tasks));
    request, toast := page.HandleCreateTasks(userId, save);
  }

  /** Selecting a task and unselecting it again leaves nothing to send. */
  method ToggleBackLeavesNothing(data: GeneratedData, projectId: string, userId: string, save: SaveOutcome)
    returns (request: Option<CreateRequest>)
    requires |data.tasks| == 1 && projectId != ""
    ensures request.None?
  {
    var page := new TaskGeneratorPage();
    var toast := page.HandleTasksGenerated(data);
    page.SelectProject(projectId);
    page.ToggleTaskSelection(data.tasks[0].id);
    request, toast := page.HandleCreateTasks(userId, save);
  }
}
