/**
 * The dispatcher object (AwarenessChatbot/ChatbotManager.cs): it shares the
 * profile, the task store and the activity log with the rest of the program and
 * keeps the last recognised topic and whether it awaits the user's name.
 *
 * Each method is proved to do to the shared objects what the functions of
 * module Dispatch say, read through State(). Raising OnResetUiRequested is
 * reported as the result `resetRequested`.
 */
module Manager {
  import opened Strings
  import opened Profiles
  import opened Tasks
  import opened Activity
  import opened Knowledge
  import opened Patterns
  import opened Replies
  import opened Dispatch

  class ChatbotManager {
    const userProfile: UserProfile
    const taskManager: TaskManager
    const activityLog: ActivityLog
    var lastRecognizedTopic: string
    var awaitingNameInput: bool

    ghost predicate Valid()
      reads taskManager, activityLog
    {
      taskManager.Valid() && activityLog.Valid()
    }

    /** The session the object and the objects it shares hold. */
    function State(): Session
      reads this, userProfile, taskManager, taskManager.tasks, activityLog
    {
      Session(userProfile.name, userProfile.favoriteTopic, lastRecognizedTopic, awaitingNameInput,
              taskManager.Views(), activityLog.logEntries)
    }

    /** A new dispatcher awaits the user's name and knows no topic yet. */
    constructor(userProfile: UserProfile, taskManager: TaskManager, activityLog: ActivityLog)
      ensures this.userProfile == userProfile && this.taskManager == taskManager && this.activityLog == activityLog
      ensures lastRecognizedTopic == "" && awaitingNameInput
    {
      this.userProfile := userProfile;
      this.taskManager := taskManager;
      this.activityLog := activityLog;
      lastRecognizedTopic := "";
      awaitingNameInput := true;
    }

    /** ProcessUserInput: one turn, as Dispatch.Turn describes it. */
    method ProcessUserInput(userInput: string, env: Env) returns (response: string, resetRequested: bool)
      requires Valid()
      modifies this, userProfile, taskManager, taskManager.tasks, activityLog
      ensures Valid()
      ensures Outcome(response, resetRequested, State()) == Turn(old(State()), userInput, env)
    {
      ghost var s0 := State();
      resetRequested := false;
      activityLog.RecordAction(InputEntry(userInput), env.now);
      ghost var s1 := Record(s0, InputEntry(userInput), env);
      assert State() == s1;

      if IsReset(userInput) {
        response := ResetStep(env);
        resetRequested := true;
        return;
      }

      var myNameIsMatch := NameDeclaration(userInput);
      if myNameIsMatch.Some? {
        response := DeclareNameStep(Trim(myNameIsMatch.value), env);
        return;
      }

      if awaitingNameInput && !IsRecognized(userInput) {
        response := ProvideNameStep(userInput, env);
        return;
      }

      response := ChatStep(userInput, env);
      ghost var s2 := State();
      assert (response, s2) == Chat(s1, userInput, env);
      activityLog.RecordAction(ResponseEntry(response), env.now);
      assert State() == Record(s2, ResponseEntry(response), env);
    }

    /** The reset branch: raises the UI reset, then awaits a name again. */
    method ResetStep(env: Env) returns (response: string)
      requires Valid()
      modifies this, userProfile, activityLog
      ensures Valid()
      ensures Outcome(response, true, State()) == Reset(old(State()), env)
    {
      activityLog.RecordAction("Chatbot initiated " + "UI reset.", env.now);
      awaitingNameInput := true;
      userProfile.name := "there";
      response := "Okay, resetting our " + "conversation. " + "What's your name?";
    }

    /** The name phrase branch, for the trimmed name group. */
    method DeclareNameStep(newName: string, env: Env) returns (response: string)
      requires Valid()
      modifies this, userProfile, activityLog
      ensures Valid()
      ensures Outcome(response, false, State()) == DeclareName(old(State()), newName, env)
    {
      if EqualsIgnoreCase(userProfile.name, newName) {
        response := AlreadyKnown(newName, userProfile.name);
      } else {
        if newName != [] {
          userProfile.name := [UpperChar(newName[0])] + Lower(newName[1..]);
        } else {
          userProfile.name := newName;
        }
        response := NiceToMeet(userProfile.name);
      }
      awaitingNameInput := false;
      activityLog.RecordAction(NameSetEntry(userProfile.name), env.now);
    }

    /** The awaited name branch: the whole input is the name. */
    method ProvideNameStep(userInput: string, env: Env) returns (response: string)
      requires Valid()
      modifies this, userProfile, activityLog
      ensures Valid()
      ensures Outcome(response, false, State()) == ProvideName(old(State()), userInput, env)
    {
      var providedName := Trim(userInput);
      if providedName != [] {
        userProfile.name := [UpperChar(providedName[0])] + Lower(providedName[1..]);
      } else {
        userProfile.name := providedName;
      }
      awaitingNameInput := false;
      activityLog.RecordAction(NameProvidedEntry(userProfile.name), env.now);
      response := NiceToMeet(userProfile.name);
    }

    /** The if/else-if chain of ProcessUserInput. */
    method ChatStep(userInput: string, env: Env) returns (response: string)
      requires Valid()
      modifies this, userProfile, taskManager, taskManager.tasks, activityLog
      ensures Valid()
      ensures (response, State()) == Chat(old(State()), userInput, env)
    {
      ghost var s0 := State();
      if IsGreeting(userInput) {
        response := GreetingReply(userProfile.name, env.roll);
      } else if IsNameQuestion(userInput) {
        response := NameAnswer(userProfile.name);
      } else if NameDeclaration(userInput).Some? {
        var newName := Trim(NameDeclaration(userInput).value);
        userProfile.name := newName;
        assert State() == s0.(name := newName);
        response := NiceToMeet(userProfile.name);
      } else if IsThanks(userInput) {
        response := ThanksReply(env.roll);
      } else if IsGoodbye(userInput) {
        response := GoodbyeReply(env.roll);
      } else {
        response := CommandsStep(userInput, env);
      }
    }

    /** The commands of the chain, tried in order. */
    method CommandsStep(userInput: string, env: Env) returns (response: string)
      requires Valid()
      modifies this, userProfile, taskManager, taskManager.tasks, activityLog
      ensures Valid()
      ensures (response, State()) == Commands(old(State()), userInput, env)
    {
      ghost var s0 := State();
      var handled;
      handled, response := HandleTaskCommand(userInput, env);
      if handled {
        return;
      }
      handled, response := HandleActivityLogCommand(userInput, env);
      if handled {
        return;
      }
      assert State() == s0;
      var topic := InfoTopic(userInput);
      if topic.Some? {
        lastRecognizedTopic := topic.value;
        assert State() == s0.(lastTopic := topic.value);
        response := CybersecurityInfo(topic.value, env.prose);
        return;
      }
      response := FallbackStep(userInput, env);
    }

    /** The knowledge engine's reply, or an unrecognised-input text in place of an empty or not-understood one. */
    method FallbackStep(userInput: string, env: Env) returns (response: string)
      requires Valid()
      modifies this, userProfile
      ensures Valid()
      ensures (response, State()) == Fallback(old(State()), userInput, env)
    {
      ghost var s0 := State();
      var newLastTopic;
      response, newLastTopic := GetResponse(userInput, userProfile, lastRecognizedTopic, env.coreRoll, env.prose);
      ghost var reply := Reply(response, userProfile.name, userProfile.favoriteTopic, newLastTopic);
      assert reply == Respond(userInput, s0.name, s0.favoriteTopic, s0.lastTopic, env.coreRoll, env.prose);
      lastRecognizedTopic := newLastTopic;
      assert State() == s0.(name := reply.name, favoriteTopic := reply.favoriteTopic, lastTopic := reply.lastTopic);
      if response == [] || Contains(Lower(response), "i don't understand") {
        response := UnrecognizedReply(env.roll);
      }
    }

    /** HandleTaskCommand: handled exactly when one of the four task patterns matches. */
    method HandleTaskCommand(userInput: string, env: Env) returns (handled: bool, response: string)
      requires Valid()
      modifies taskManager, taskManager.tasks, activityLog
      ensures Valid()
      ensures handled <==> TaskCommand(old(State()), userInput, env).Some?
      ensures handled ==> (response, State()) == TaskCommand(old(State()), userInput, env).value
      ensures !handled ==> response == "" && State() == old(State())
    {
      var add := AddTaskMatch(userInput);
      if add.Some? {
        response := AddTaskStep(add.value, env);
        return true, response;
      }
      if IsShowTasks(userInput) {
        response := ShowTasksStep(env);
        return true, response;
      }
      var complete := CompleteMatch(userInput);
      if complete.Some? {
        response := CompleteStep(Trim(complete.value), env);
        return true, response;
      }
      var delete := DeleteMatch(userInput);
      if delete.Some? {
        response := DeleteStep(Trim(delete.value), env);
        return true, response;
      }
      return false, "";
    }

    /** The add branch: the reminder from the date phrase, then the task and its log entry. */
    method AddTaskStep(g: AddGroups, env: Env) returns (response: string)
      requires Valid()
      modifies taskManager, activityLog
      ensures Valid()
      ensures (response, State()) == AddTask(old(State()), g, env)
    {
      var taskTitle := Trim(g.description);
      var dateString := if g.dueDate.Some? then g.dueDate.value else "";
      var understood, reminderDate := ReadReminder(dateString, env);
      if !understood {
        response := DateNotUnderstood(taskTitle, dateString);
        return;
      }
      response := AddPendingStep(taskTitle, reminderDate, env);
    }

    /** The add branch once the date phrase is understood: the task, then its log entry. */
    method AddPendingStep(taskTitle: string, reminderDate: Option<Date>, env: Env) returns (response: string)
      requires Valid()
      modifies taskManager, activityLog
      ensures Valid()
      ensures (response, State()) == AddPending(old(State()), taskTitle, reminderDate, env)
    {
      ghost var s0 := State();
      taskManager.AddTask(taskTitle, "", reminderDate);
      ghost var s1 := s0.(tasks := s0.tasks + [TaskView(taskTitle, "", reminderDate, false)]);
      assert State() == s1;
      activityLog.RecordAction(TaskAddedEntry(taskTitle, reminderDate, env.showDate), env.now);
      assert State() == Record(s1, TaskAddedEntry(taskTitle, reminderDate, env.showDate), env);
      response := TaskAdded(taskTitle, reminderDate, env.showDate);
    }

    /**
     * The date phrase of an add command: "tomorrow", then "in N days", then the
     * culture's date parser; whether it was understood, and the reminder.
     */
    static method ReadReminder(dateString: string, env: Env) returns (understood: bool, reminderDate: Option<Date>)
      ensures understood <==> ReminderFor(dateString, env).Some?
      ensures understood ==> reminderDate == ReminderFor(dateString, env).value
    {
      understood := true;
      reminderDate := None;
      if dateString != [] {
        if Contains(Lower(dateString), "tomorrow") {
          reminderDate := Some(env.today + 1);
        } else if InDaysDigits(dateString).Some? {
          var days := ParseInt32(InDaysDigits(dateString).value);
          if days.Some? {
            reminderDate := Some(env.today + days.value);
          }
        } else if env.parseDate(dateString).Some? {
          reminderDate := env.parseDate(dateString);
        } else {
          understood := false;
        }
      }
    }

    /** The show branch: one "- {task}" line per task after the header. */
    method ShowTasksStep(env: Env) returns (response: string)
      requires Valid()
      modifies activityLog
      ensures Valid()
      ensures (response, State()) == ShowTasks(old(State()), env)
    {
      var allTasks := taskManager.GetAllTasks();
      response := TaskListText(allTasks, env.showDate);
      activityLog.RecordAction("Chatbot displayed " + "task list.", env.now);
    }

    /** The StringBuilder of the show branch: the header, then one "- {task}" line per task. */
    static method TaskListText(allTasks: seq<TaskItem>, showDate: Date -> string) returns (text: string)
      ensures text == TaskListSummary(ViewsOf(allTasks), showDate)
    {
      ghost var views := ViewsOf(allTasks);
      if |allTasks| == 0 {
        return "You don't have any " + "tasks right now. " + "Would you like to " + "add one?";
      }
      var lines := "";
      var i := 0;
      while i < |allTasks|
        invariant 0 <= i <= |allTasks|
        invariant lines == TaskLines(views[..i], showDate)
      {
        var line := "- " + allTasks[i].ToString(showDate) + NewLine;
        assert views[..i + 1][..i] == views[..i];
        lines := lines + line;
        i := i + 1;
      }
      assert views[..i] == views;
      text := "Here are your " + "current tasks:\n" + lines;
    }

    /** The complete branch for a trimmed title. */
    method CompleteStep(title: string, env: Env) returns (response: string)
      requires Valid()
      modifies taskManager.tasks, activityLog
      ensures Valid()
      ensures (response, State()) == CompleteTask(old(State()), title, env)
    {
      ghost var s0 := State();
      var found := taskManager.MarkTaskCompleted(title);
      ghost var s1 := State();
      assert s1 == s0.(tasks := MarkFirst(s0.tasks, title));
      if found {
        activityLog.RecordAction(CompletedEntry(title), env.now);
        assert taskManager.Views() == s1.tasks;
        assert activityLog.logEntries == Appended(s1.log, Stamp(env.now, CompletedEntry(title)));
        assert State() == Record(s1, CompletedEntry(title), env);
        response := Completed(title, userProfile.name);
      } else {
        MarkFirstChangesFirstMatch(s0.tasks, title);
        response := NotFoundToComplete(title);
      }
    }

    /** The delete branch for a trimmed title. */
    method DeleteStep(title: string, env: Env) returns (response: string)
      requires Valid()
      modifies taskManager, activityLog
      ensures Valid()
      ensures (response, State()) == DeleteTask(old(State()), title, env)
    {
      RemoveMatchesKeepsOthers(taskManager.Views(), title);
      var deleted := taskManager.DeleteTask(title);
      if deleted {
        response := Deleted(title);
        activityLog.RecordAction(DeletedEntry(title), env.now);
      } else {
        response := NotFoundToDelete(title);
      }
    }

    /** HandleActivityLogCommand: the last ten entries, numbered from 1, after the header. */
    method HandleActivityLogCommand(userInput: string, env: Env) returns (handled: bool, response: string)
      requires Valid()
      modifies activityLog
      ensures Valid()
      ensures handled <==> IsShowLog(userInput)
      ensures handled ==> (response, State()) == ShowLog(old(State()), env)
      ensures !handled ==> response == "" && State() == old(State())
    {
      if !IsShowLog(userInput) {
        return false, "";
      }
      var recentActions := activityLog.GetRecentActions(10);
      response := RecentActionsText(recentActions);
      activityLog.RecordAction("Chatbot displayed " + "activity log.", env.now);
      handled := true;
    }

    /** The StringBuilder of the activity log branch: the header, then the entries numbered from 1. */
    static method RecentActionsText(recentActions: seq<string>) returns (text: string)
      ensures text == RecentActionsSummary(recentActions)
    {
      if |recentActions| == 0 {
        return "No recent activities" + " to show.";
      }
      var lines := "";
      var i := 0;
      while i < |recentActions|
        invariant 0 <= i <= |recentActions|
        invariant lines == NumberedLines(recentActions[..i])
      {
        assert recentActions[..i + 1][..i] == recentActions[..i];
        lines := lines + NumberedLine(i + 1, recentActions[i]);
        i := i + 1;
      }
      assert recentActions[..i] == recentActions;
      text := "Here\U{2019}s a summary of " + "recent actions:\n" + lines;
    }
  }
}
