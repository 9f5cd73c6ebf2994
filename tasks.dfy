/**
 * Tasks and the task store (AwarenessChatbot/TaskItem.cs and
 * AwarenessChatbot/TaskManager.cs).
 *
 * A reminder date is a day number; how the source prints it
 * (DateTime.ToShortDateString, which depends on the culture) is a function the
 * caller supplies.
 */
module Tasks {
  import opened Strings

  /** A calendar day, counted in days. */
  type Date = int

  /** The state of one task item at a moment. */
  datatype TaskView = TaskView(title: string, description: string, reminder: Option<Date>, completed: bool)

  /** TaskItem.ToString on a task in the given state. */
  function Describe(v: TaskView, showDate: Date -> string): string
  {
    var status := if v.completed then "[COMPLETED]" else "[PENDING]";
    var reminderInfo := if v.reminder.Some? then " (Remind: " + showDate(v.reminder.value) + ")" else "";
    status + " " + v.title + ": " + v.description + reminderInfo
  }

  /** The description starts with "[COMPLETED]" exactly for a completed task, and otherwise with "[PENDING]". */
  lemma DescribeStatus(v: TaskView, showDate: Date -> string)
    ensures var r := Describe(v, showDate);
      (|r| >= 11 && r[..11] == "[COMPLETED]" <==> v.completed) &&
      (!v.completed ==> |r| >= 9 && r[..9] == "[PENDING]")
  {
    var r := Describe(v, showDate);
    if v.completed {
      assert r[..11] == "[COMPLETED]";
    } else {
      assert r[..9] == "[PENDING]";
      assert r[1] == 'P';
    }
  }

  /** Without a reminder the description is exactly "{status} {title}: {description}". */
  lemma DescribeWithoutReminder(v: TaskView, showDate: Date -> string)
    requires v.reminder.None?
    ensures Describe(v, showDate) == (if v.completed then "[COMPLETED]" else "[PENDING]") + " " + v.title + ": " + v.description
  {
  }

  /** A reminder only adds " (Remind: date)" after the description of the same task without one. */
  lemma DescribeWithReminder(v: TaskView, showDate: Date -> string)
    requires v.reminder.Some?
    ensures Describe(v, showDate) == Describe(v.(reminder := None), showDate) + " (Remind: " + showDate(v.reminder.value) + ")"
  {
  }

  /** Task titles are compared ordinally, ignoring case. */
  predicate TitleMatches(v: TaskView, title: string)
  {
    EqualsIgnoreCase(v.title, title)
  }

  predicate HasMatch(vs: seq<TaskView>, title: string)
  {
    exists i :: 0 <= i < |vs| && TitleMatches(vs[i], title)
  }

  /** The position of the first task whose title matches, or -1. */
  function FirstMatch(vs: seq<TaskView>, title: string): (r: int)
    ensures -1 <= r < |vs|
    ensures r == -1 <==> !HasMatch(vs, title)
    ensures r >= 0 ==> TitleMatches(vs[r], title) && forall j :: 0 <= j < r ==> !TitleMatches(vs[j], title)
  {
    if vs == [] then -1
    else if TitleMatches(vs[0], title) then 0
    else
      var k := FirstMatch(vs[1..], title);
      if k == -1 then
        assert forall i :: 1 <= i < |vs| ==> vs[i] == vs[1..][i - 1];
        -1
      else k + 1
  }

  /** MarkTaskCompleted on the states: the first match, and only it, becomes completed. */
  function MarkFirst(vs: seq<TaskView>, title: string): seq<TaskView>
  {
    var i := FirstMatch(vs, title);
    if i == -1 then vs else vs[i := vs[i].(completed := true)]
  }

  /** RemoveAll on the states: every task whose title matches is dropped, the rest keep their order. */
  function RemoveMatches(vs: seq<TaskView>, title: string): seq<TaskView>
  {
    if vs == [] then []
    else
      var rest := RemoveMatches(vs[..|vs| - 1], title);
      if TitleMatches(vs[|vs| - 1], title) then rest else rest + [vs[|vs| - 1]]
  }

  /**
   * Marking completes exactly the first matching task: the list keeps its length,
   * every other task is unchanged, and something changes only when a task matches.
   */
  lemma MarkFirstChangesFirstMatch(vs: seq<TaskView>, title: string)
    ensures |MarkFirst(vs, title)| == |vs|
    ensures HasMatch(vs, title) ==>
      var i := FirstMatch(vs, title);
      MarkFirst(vs, title)[i] == vs[i].(completed := true) &&
      forall j :: 0 <= j < |vs| && j != i ==> MarkFirst(vs, title)[j] == vs[j]
    ensures !HasMatch(vs, title) ==> MarkFirst(vs, title) == vs
  {
  }

  /**
   * Removal keeps exactly the tasks whose title does not match, in order: no
   * match remains, each kept task was there before, and the list shrinks exactly
   * when some task matched (and is unchanged when none does).
   */
  lemma {:induction false} RemoveMatchesKeepsOthers(vs: seq<TaskView>, title: string)
    ensures var r := RemoveMatches(vs, title);
      |r| <= |vs| &&
      (forall v :: v in r ==> v in vs && !TitleMatches(v, title)) &&
      (forall v :: v in vs && !TitleMatches(v, title) ==> v in r) &&
      (|r| < |vs| <==> HasMatch(vs, title)) &&
      (!HasMatch(vs, title) ==> r == vs)
  {
    if vs != [] {
      var front := vs[..|vs| - 1];
      var last := vs[|vs| - 1];
      RemoveMatchesKeepsOthers(front, title);
      assert vs == front + [last];
      if HasMatch(front, title) {
        var i :| 0 <= i < |front| && TitleMatches(front[i], title);
        assert vs[i] == front[i];
      }
      if HasMatch(vs, title) && !TitleMatches(last, title) {
        var i :| 0 <= i < |vs| && TitleMatches(vs[i], title);
        assert i < |front| && front[i] == vs[i];
      }
    }
  }

  /**
   * The life cycle of one title: after adding a task with it, completing it finds
   * a task, and deleting it then leaves no task with that title.
   */
  lemma AddCompleteDelete(vs: seq<TaskView>, title: string, description: string, reminder: Option<Date>)
    ensures HasMatch(vs + [TaskView(title, description, reminder, false)], title)
    ensures var after := RemoveMatches(MarkFirst(vs + [TaskView(title, description, reminder, false)], title), title);
      !HasMatch(after, title) && |after| <= |vs|
  {
    var added := vs + [TaskView(title, description, reminder, false)];
    assert TitleMatches(added[|vs|], title);
    var marked := MarkFirst(added, title);
    MarkFirstChangesFirstMatch(added, title);
    var i := FirstMatch(added, title);
    assert TitleMatches(marked[i], title);
    RemoveMatchesKeepsOthers(marked, title);
    var after := RemoveMatches(marked, title);
    forall k | 0 <= k < |after|
      ensures !TitleMatches(after[k], title)
    {
      assert after[k] in after;
    }
  }

  class TaskItem {
    var title: string
    var description: string
    var reminderDate: Option<Date>
    var isCompleted: bool

    /** A new task is pending and keeps the given title, description and reminder. */
    constructor(title: string, description: string, reminderDate: Option<Date>)
      ensures View() == TaskView(title, description, reminderDate, false)
    {
      this.title := title;
      this.description := description;
      this.reminderDate := reminderDate;
      this.isCompleted := false;
    }

    function View(): TaskView
      reads this
    {
      TaskView(title, description, reminderDate, isCompleted)
    }

    function ToString(showDate: Date -> string): (r: string)
      reads this
      ensures r == Describe(View(), showDate)
    {
      Describe(View(), showDate)
    }
  }

  /** The states of a list of task items. */
  function ViewsOf(ts: seq<TaskItem>): (r: seq<TaskView>)
    reads ts
    ensures |r| == |ts| && forall i :: 0 <= i < |ts| ==> r[i] == ts[i].View()
  {
    seq(|ts|, i reads ts requires 0 <= i < |ts| => ts[i].View())
  }

  predicate Distinct(ts: seq<TaskItem>)
  {
    forall i, j :: 0 <= i < j < |ts| ==> ts[i] != ts[j]
  }

  class TaskManager {
    var tasks: seq<TaskItem>

    /** Each item is stored once, so marking one changes one position. */
    ghost predicate Valid()
      reads this
    {
      Distinct(tasks)
    }

    function Views(): seq<TaskView>
      reads this, tasks
    {
      ViewsOf(tasks)
    }

    constructor()
      ensures Valid() && tasks == []
    {
      tasks := [];
    }

    /** Appends one new, pending task; the earlier tasks are unchanged. */
    method AddTask(title: string, description: string, reminderDate: Option<Date>)
      requires Valid()
      modifies this
      ensures Valid()
      ensures Views() == old(Views()) + [TaskView(title, description, reminderDate, false)]
      ensures tasks[..|tasks| - 1] == old(tasks) && fresh(tasks[|tasks| - 1])
    {
      var item := new TaskItem(title, description, reminderDate);
      tasks := tasks + [item];
    }

    /** A copy of the list, in insertion order. */
    function GetAllTasks(): (r: seq<TaskItem>)
      reads this
      ensures r == tasks
    {
      tasks
    }

    /** The position of the first item whose title matches, ignoring case, or -1. */
    method FindFirst(title: string) returns (index: int)
      ensures index == FirstMatch(Views(), title)
    {
      index := 0;
      while index < |tasks|
        invariant 0 <= index <= |tasks|
        invariant forall j :: 0 <= j < index ==> !TitleMatches(tasks[j].View(), title)
      {
        if EqualsIgnoreCase(tasks[index].title, title) {
          return;
        }
        index := index + 1;
      }
      index := -1;
    }

    /** Completes the first task whose title matches; reports whether there was one. */
    method MarkTaskCompleted(title: string) returns (found: bool)
      requires Valid()
      modifies tasks
      ensures Valid() && tasks == old(tasks)
      ensures found <==> HasMatch(old(Views()), title)
      ensures Views() == MarkFirst(old(Views()), title)
    {
      ghost var before := Views();
      var i := FindFirst(title);
      if i >= 0 {
        tasks[i].isCompleted := true;
        found := true;
        assert Views() == before[i := before[i].(completed := true)];
      } else {
        found := false;
      }
    }

    /** The items whose title does not match, in order. */
    method Unmatched(title: string) returns (kept: seq<TaskItem>)
      requires Valid()
      ensures Distinct(kept) && forall t :: t in kept ==> t in tasks
      ensures ViewsOf(kept) == RemoveMatches(Views(), title)
    {
      kept := [];
      var i := 0;
      while i < |tasks|
        invariant 0 <= i <= |tasks|
        invariant Distinct(kept) && forall t :: t in kept ==> t in tasks[..i]
        invariant ViewsOf(kept) == RemoveMatches(ViewsOf(tasks[..i]), title)
      {
        assert ViewsOf(tasks[..i + 1])[..i] == ViewsOf(tasks[..i]);
        if !EqualsIgnoreCase(tasks[i].title, title) {
          var grown := kept + [tasks[i]];
          forall a, b | 0 <= a < b < |grown|
            ensures grown[a] != grown[b]
          {
            if b == |kept| {
              assert grown[a] in kept;
              var j :| 0 <= j < i && tasks[..i][j] == grown[a];
            }
          }
          kept := grown;
        }
        i := i + 1;
      }
      assert tasks[..i] == tasks;
    }

    /** Removes every task whose title matches; reports whether the list shrank. */
    method DeleteTask(title: string) returns (deleted: bool)
      requires Valid()
      modifies this
      ensures Valid()
      ensures Views() == RemoveMatches(old(Views()), title)
      ensures deleted <==> |tasks| < |old(tasks)|
      ensures deleted <==> HasMatch(old(Views()), title)
    {
      var initialCount := |tasks|;
      RemoveMatchesKeepsOthers(Views(), title);
      tasks := Unmatched(title);
      deleted := |tasks| < initialCount;
    }
  }
}
