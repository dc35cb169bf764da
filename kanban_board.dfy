/** The Kanban board: tasks are split into three status columns, a card can
    be dragged onto a column, and a drop onto a different column dispatches
    the task with its new status. The card's look is chosen by two lookup
    tables with fall-backs. */
module Kanban {
  import opened Common

  /** A task as the board receives it; the fields the board never reads are
      carried along untouched by the spread in the drop handler. */
  datatype BoardTask = BoardTask(
    id: string,
    title: string,
    description: string,
    status: string,
    kind: string,
    priority: string,
    assignee: Option<string>)

  const Todo: string := "TODO"
  const InProgress: string := "IN_PROGRESS"
  const Done: string := "DONE"
  /** The keys of `statusConfig`, in the order the columns are laid out. */
  const StatusKeys: seq<string> := [Todo, InProgress, Done]

  /** `tasks.filter((t) => t.status === status)`. */
  function Column(tasks: seq<BoardTask>, status: string): (r: seq<BoardTask>)
    ensures forall t :: t in r <==> t in tasks && t.status == status
    ensures |r| <= |tasks|
  {
    if tasks == [] then []
    else if tasks[0].status == status then [tasks[0]] + Column(tasks[1..], status)
    else Column(tasks[1..], status)
  }

  /** The tasks that no column shows. */
  function Unplaced(tasks: seq<BoardTask>): (r: seq<BoardTask>)
    ensures forall t :: t in r <==> t in tasks && t.status !in StatusKeys
  {
    if tasks == [] then []
    else if tasks[0].status !in StatusKeys then [tasks[0]] + Unplaced(tasks[1..])
    else Unplaced(tasks[1..])
  }

  /** `tasksByStatus`. */
  datatype Columns = Columns(todo: seq<BoardTask>, inProgress: seq<BoardTask>, done: seq<BoardTask>)

  function TasksByStatus(tasks: seq<BoardTask>): (c: Columns)
    ensures forall t :: t in c.todo <==> t in tasks && t.status == Todo
    ensures forall t :: t in c.inProgress <==> t in tasks && t.status == InProgress
    ensures forall t :: t in c.done <==> t in tasks && t.status == Done
  {
    Columns(Column(tasks, Todo), Column(tasks, InProgress), Column(tasks, Done))
  }

  /** A column lists its tasks in the order the board received them. */
  lemma {:induction false} ColumnKeepsOrder(tasks: seq<BoardTask>, status: string)
    ensures IsSubsequence(Column(tasks, status), tasks)
    decreases |tasks|
  {
    if tasks != [] {
      ColumnKeepsOrder(tasks[1..], status);
    }
  }

  /** No task is shown in two columns, and a task whose status is none of the
      three keys is shown in none. */
  lemma ColumnsAreDisjoint(tasks: seq<BoardTask>, t: BoardTask)
    ensures var c := TasksByStatus(tasks);
            (t in c.todo ==> t !in c.inProgress && t !in c.done)
            && (t in c.inProgress ==> t !in c.done)
            && (t.status !in StatusKeys ==> t !in c.todo && t !in c.inProgress && t !in c.done)
  {
  }

  /** Counted with multiplicity, every task lands in exactly one column or
      among the unplaced ones: the columns and the rest partition the list. */
  lemma {:induction false} ColumnsPartition(tasks: seq<BoardTask>)
    ensures var c := TasksByStatus(tasks);
            |c.todo| + |c.inProgress| + |c.done| + |Unplaced(tasks)| == |tasks|
    decreases |tasks|
  {
    if tasks != [] {
      ColumnsPartition(tasks[1..]);
    }
  }

  /** Two tasks agree on everything except possibly their status. */
  predicate SameButStatus(a: BoardTask, b: BoardTask)
  {
    a.id == b.id && a.title == b.title && a.description == b.description
    && a.kind == b.kind && a.priority == b.priority && a.assignee == b.assignee
  }

  /** What a drop onto `target` dispatches: nothing when no task is dragged
      or the target is the recorded source, else `{ ...draggedTask, status }`. */
  function DropUpdate(dragged: Option<BoardTask>, source: Option<string>, target: string): (r: Option<BoardTask>)
    ensures r.None? <==> dragged.None? || source == Some(target)
    ensures r.Some? ==> r.value.status == target && SameButStatus(r.value, dragged.value)
  {
    if dragged.None? || source == Some(target) then None
    else Some(dragged.value.(status := target))
  }

  /** With no recorded source the same-column check never fires: every drop
      of a dragged task dispatches it, even onto the column it came from. */
  lemma NoSourceAlwaysDispatches(t: BoardTask, target: string)
    ensures DropUpdate(Some(t), None, target) == Some(t.(status := target))
    ensures DropUpdate(Some(t), None, t.status) == Some(t)
  {
  }

  /** The board's drag state. */
  class Board {
    var draggedTask: Option<BoardTask>
    var dragSource: Option<string>

    constructor ()
      ensures draggedTask == None && dragSource == None
    {
      draggedTask := None;
      dragSource := None;
    }

    /** `handleDragStart(e, task, status)`: records both arguments. */
    method HandleDragStart(task: BoardTask, source: Option<string>)
      modifies this
      ensures draggedTask == Some(task) && dragSource == source
    {
      draggedTask := Some(task);
      dragSource := source;
    }

    /** A card's `onDragStart`, which passes the board's current
        `dragSource` as the source rather than the card's column. */
    method CardDragStart(task: BoardTask)
      modifies this
      ensures draggedTask == Some(task) && dragSource == old(dragSource)
    {
      HandleDragStart(task, dragSource);
    }

    /** `handleDrop(e, target)`: returns the task handed to `updateTask`, if
        any, and clears the drag state on every path. */
    method HandleDrop(target: string) returns (dispatched: Option<BoardTask>)
      modifies this
      ensures dispatched == DropUpdate(old(draggedTask), old(dragSource), target)
      ensures draggedTask == None && dragSource == None
    {
      if draggedTask.None? || dragSource == Some(target) {
        dispatched := None;
        draggedTask := None;
        dragSource := None;
        return;
      }
      dispatched := Some(draggedTask.value.(status := target));
      draggedTask := None;
      dragSource := None;
    }

    /** `handleDragEnd`. */
    method HandleDragEnd()
      modifies this
      ensures draggedTask == None && dragSource == None
    {
      draggedTask := None;
      dragSource := None;
    }
  }

  /** A fresh board, a card picked up and dropped back on its own column:
      the task is dispatched unchanged, because no source was ever recorded. */
  method DropOnOwnColumn(t: BoardTask) returns (dispatched: Option<BoardTask>)
    ensures dispatched == Some(t)
  {
    var board := new Board();
    board.CardDragStart(t);
    dispatched := board.HandleDrop(t.status);
  }

  /** Two drags in a row: after the first drop the state is clear again, and
      the second drop dispatches the second task with its target status. */
  method TwoMoves(a: BoardTask, b: BoardTask, first: string, second: string)
    returns (d1: Option<BoardTask>, d2: Option<BoardTask>)
    ensures d1 == Some(a.(status := first)) && d2 == Some(b.(status := second))
  {
    var board := new Board();
    board.CardDragStart(a);
    d1 := board.HandleDrop(first);
    board.HandleDragEnd();
    board.CardDragStart(b);
    d2 := board.HandleDrop(second);
  }

  /** The icons of `typeIcons`. */
  datatype Icon = BugIcon | ZapIcon | SquareIcon | GitCommitIcon | MessageSquareIcon

  datatype TypeStyle = TypeStyle(icon: Icon, color: string)

  const TypeKeys: set<string> := {"BUG", "FEATURE", "TASK", "IMPROVEMENT", "OTHER"}
  const FallbackTypeColor: string := "text-gray-600"

  /** The own entries of `typeIcons`: each of the five keys has its own
      colour, none of them the fall-back gray. */
  function TypeEntry(kind: string): (r: Option<TypeStyle>)
    ensures r.Some? <==> kind in TypeKeys
    ensures r.Some? ==> r.value.color != FallbackTypeColor
  {
    if kind == "BUG" then Some(TypeStyle(BugIcon, "text-red-600 dark:text-red-400"))
    else if kind == "FEATURE" then Some(TypeStyle(ZapIcon, "text-blue-600 dark:text-blue-400"))
    else if kind == "TASK" then Some(TypeStyle(SquareIcon, "text-green-600 dark:text-green-400"))
    else if kind == "IMPROVEMENT" then Some(TypeStyle(GitCommitIcon, "text-purple-600 dark:text-purple-400"))
    else if kind == "OTHER" then Some(TypeStyle(MessageSquareIcon, "text-amber-600 dark:text-amber-400"))
    else None
  }

  /** `typeIcons[type]?.icon || MessageSquare` and `?.color || "text-gray-600"`.
      A key inherited from `Object.prototype` yields a value without `icon`
      or `color`, so it falls back like an unknown key. */
  function CardTypeStyle(kind: string): (s: TypeStyle)
    ensures kind !in TypeKeys ==> s == TypeStyle(MessageSquareIcon, FallbackTypeColor)
    ensures kind in TypeKeys ==> TypeEntry(kind) == Some(s) && s.color != FallbackTypeColor
    ensures s.icon == MessageSquareIcon <==> kind !in TypeKeys || kind == "OTHER"
  {
    match TypeEntry(kind)
    case Some(style) => style
    case None => TypeStyle(MessageSquareIcon, FallbackTypeColor)
  }

  datatype PriorityStyle = PriorityStyle(background: string, text: string)

  const LowStyle: PriorityStyle := PriorityStyle("bg-red-100 dark:bg-red-950", "text-red-600 dark:text-red-400")
  const MediumStyle: PriorityStyle := PriorityStyle("bg-blue-100 dark:bg-blue-950", "text-blue-600 dark:text-blue-400")
  const HighStyle: PriorityStyle := PriorityStyle("bg-emerald-100 dark:bg-emerald-950", "text-emerald-600 dark:text-emerald-400")
  /** What the class names render as when the looked-up value is an inherited
      member: it has neither `background` nor `text`. */
  const UndefinedStyle: PriorityStyle := PriorityStyle("undefined", "undefined")

  /** `priorityColors[priority] || priorityColors.MEDIUM`. An inherited key
      of `Object.prototype` is truthy, so it is not replaced by MEDIUM. */
  function CardPriorityStyle(priority: string): (s: PriorityStyle)
    ensures priority == "LOW" <==> s == LowStyle
    ensures priority == "HIGH" <==> s == HighStyle
    ensures s == UndefinedStyle <==> priority in ObjectPrototypeMembers
    ensures s == MediumStyle <==> priority !in {"LOW", "HIGH"} && priority !in ObjectPrototypeMembers
  {
    if priority == "LOW" then LowStyle
    else if priority == "MEDIUM" then MediumStyle
    else if priority == "HIGH" then HighStyle
    else if priority in ObjectPrototypeMembers then UndefinedStyle
    else MediumStyle
  }
}
