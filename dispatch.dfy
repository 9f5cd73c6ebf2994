/**
 * One turn of the dispatcher (AwarenessChatbot/ChatbotManager.cs,
 * ProcessUserInput), as a function of the session it starts from: the profile,
 * the last recognised topic, whether a name is awaited, the tasks and the
 * activity log.
 *
 * What the turn takes from outside is the environment: the timestamp every
 * log entry of the turn carries, today's date, the culture's date parser and
 * printer, the draws of the dispatcher's and the knowledge engine's random
 * generators, and the wording of the text tables.
 */
module Dispatch {
  import opened Strings
  import opened Tasks
  import opened Activity
  import opened Knowledge
  import opened Patterns
  import opened Replies
  import opened Texts

  datatype Env = Env(
    now: string,
    today: Date,
    parseDate: string -> Option<Date>,
    showDate: Date -> string,
    roll: nat,
    coreRoll: nat,
    prose: Prose)

  datatype Session = Session(
    name: string,
    favoriteTopic: string,
    lastTopic: string,
    awaitingName: bool,
    tasks: seq<TaskView>,
    log: seq<string>)

  /** The reply, whether the UI reset callback was raised, and the session after the turn. */
  datatype Outcome = Outcome(response: string, resetRequested: bool, after: Session)

  /** RecordAction on the session's log, with the turn's timestamp. */
  function Record(s: Session, action: string, env: Env): Session
  {
    s.(log := Appended(s.log, Stamp(env.now, action)))
  }

  // ---------------------------------------------------------------------
  // Task commands

  /**
   * The reminder an add command's date phrase asks for: Some(reminder) when the
   * task is added (with no reminder for no phrase, or for an "in N days" whose
   * N does not fit in an int), None when the phrase is not understood.
   */
  function ReminderFor(dateString: string, env: Env): Option<Option<Date>>
  {
    if dateString == [] then Some(None)
    else if Contains(Lower(dateString), "tomorrow") then Some(Some(env.today + 1))
    else if InDaysDigits(dateString).Some? then
      var days := ParseInt32(InDaysDigits(dateString).value);
      Some(if days.Some? then Some(env.today + days.value) else None)
    else if env.parseDate(dateString).Some? then Some(Some(env.parseDate(dateString).value))
    else None
  }

  /** The add command with its groups. */
  function AddTask(s: Session, g: AddGroups, env: Env): (string, Session)
  {
    var title := Trim(g.description);
    var dateString := if g.dueDate.Some? then g.dueDate.value else "";
    var reminder := ReminderFor(dateString, env);
    if reminder.None? then (DateNotUnderstood(title, dateString), s)
    else AddPending(s, title, reminder.value, env)
  }

  /** An understood add command: a new pending task with the reminder, and its log entry. */
  function AddPending(s: Session, title: string, reminder: Option<Date>, env: Env): (string, Session)
  {
    var s1 := s.(tasks := s.tasks + [TaskView(title, "", reminder, false)]);
    (TaskAdded(title, reminder, env.showDate), Record(s1, TaskAddedEntry(title, reminder, env.showDate), env))
  }

  /** The show command: the list, or an invitation when there are no tasks. */
  function ShowTasks(s: Session, env: Env): (string, Session)
  {
    (TaskListSummary(s.tasks, env.showDate), Record(s, "Chatbot displayed " + "task list.", env))
  }

  /** The complete command for a title (already trimmed). */
  function CompleteTask(s: Session, title: string, env: Env): (string, Session)
  {
    if HasMatch(s.tasks, title) then
      (Completed(title, s.name), Record(s.(tasks := MarkFirst(s.tasks, title)), CompletedEntry(title), env))
    else (NotFoundToComplete(title), s)
  }

  /** The delete command for a title (already trimmed). */
  function DeleteTask(s: Session, title: string, env: Env): (string, Session)
  {
    if HasMatch(s.tasks, title) then
      (Deleted(title), Record(s.(tasks := RemoveMatches(s.tasks, title)), DeletedEntry(title), env))
    else (NotFoundToDelete(title), s)
  }

  /** HandleTaskCommand: the first of add, show, complete and delete whose pattern matches handles the input. */
  function TaskCommand(s: Session, input: string, env: Env): Option<(string, Session)>
  {
    match AddTaskMatch(input)
    case Some(g) => Some(AddTask(s, g, env))
    case None =>
      if IsShowTasks(input) then Some(ShowTasks(s, env))
      else match CompleteMatch(input)
      case Some(title) => Some(CompleteTask(s, Trim(title), env))
      case None =>
        match DeleteMatch(input)
        case Some(title) => Some(DeleteTask(s, Trim(title), env))
        case None => None
  }

  // ---------------------------------------------------------------------
  // The rest of the chain

  /** HandleActivityLogCommand once the pattern matched: the last ten entries, numbered. */
  function ShowLog(s: Session, env: Env): (string, Session)
  {
    var recent := LastN(s.log, 10);
    (RecentActionsSummary(recent), Record(s, "Chatbot displayed " + "activity log.", env))
  }

  /** The knowledge engine's reply, replaced by an unrecognised-input text when it is empty or says "I don't understand". */
  function Fallback(s: Session, input: string, env: Env): (string, Session)
  {
    var reply := Respond(input, s.name, s.favoriteTopic, s.lastTopic, env.coreRoll, env.prose);
    var response :=
      if reply.response == [] || Contains(Lower(reply.response), "i don't understand") then UnrecognizedReply(env.roll)
      else reply.response;
    (response, s.(name := reply.name, favoriteTopic := reply.favoriteTopic, lastTopic := reply.lastTopic))
  }

  /** The commands of the chain: tasks, the activity log, topic information, and the knowledge engine last. */
  function Commands(s: Session, input: string, env: Env): (string, Session)
  {
    match TaskCommand(s, input, env)
    case Some(r) => r
    case None =>
      if IsShowLog(input) then ShowLog(s, env)
      else match InfoTopic(input)
      case Some(topic) => (CybersecurityInfo(topic, env.prose), s.(lastTopic := topic))
      case None => Fallback(s, input, env)
  }

  /** The chain after the name handling: the first branch whose pattern matches answers. */
  function Chat(s: Session, input: string, env: Env): (string, Session)
  {
    if IsGreeting(input) then (GreetingReply(s.name, env.roll), s)
    else if IsNameQuestion(input) then (NameAnswer(s.name), s)
    else match NameDeclaration(input)
    case Some(g) => (NiceToMeet(Trim(g)), s.(name := Trim(g)))
    case None =>
      if IsThanks(input) then (ThanksReply(env.roll), s)
      else if IsGoodbye(input) then (GoodbyeReply(env.roll), s)
      else Commands(s, input, env)
  }

  /** The ten patterns that keep an input from being taken as the awaited name. */
  predicate IsRecognized(input: string)
  {
    IsGreeting(input) || IsNameQuestion(input) || IsThanks(input) || IsGoodbye(input) ||
    AddTaskMatch(input).Some? || CompleteMatch(input).Some? || DeleteMatch(input).Some? ||
    IsShowTasks(input) || IsShowLog(input) || InfoTopic(input).Some?
  }

  /** A name phrase: the name is kept when it is already the user's, ignoring case, and is capitalised otherwise. */
  function DeclareName(s: Session, newName: string, env: Env): Outcome
  {
    var known := EqualsIgnoreCase(s.name, newName);
    var name := if known then s.name else Capitalize(newName);
    var response := if known then AlreadyKnown(newName, s.name) else NiceToMeet(name);
    Outcome(response, false, Record(s.(name := name, awaitingName := false), NameSetEntry(name), env))
  }

  /** The awaited name: the whole input, trimmed and capitalised. */
  function ProvideName(s: Session, input: string, env: Env): Outcome
  {
    var name := Capitalize(Trim(input));
    Outcome(NiceToMeet(name), false, Record(s.(name := name, awaitingName := false), NameProvidedEntry(name), env))
  }

  /** Does the turn return before the chain (and so log no response)? */
  predicate ReturnsEarly(s: Session, input: string)
  {
    IsReset(input) || NameDeclaration(input).Some? || (s.awaitingName && !IsRecognized(input))
  }

  /** The reset command: the prompt for a name, and the name set to "there". */
  function Reset(s: Session, env: Env): Outcome
  {
    Outcome("Okay, resetting our " + "conversation. " + "What's your name?", true, Record(s, "Chatbot initiated " + "UI reset.", env).(awaitingName := true, name := "there"))
  }

  /** ProcessUserInput. */
  function Turn(s: Session, input: string, env: Env): Outcome
  {
    var s1 := Record(s, InputEntry(input), env);
    if IsReset(input) then Reset(s1, env)
    else match NameDeclaration(input)
    case Some(g) => DeclareName(s1, Trim(g), env)
    case None =>
      if s1.awaitingName && !IsRecognized(input) then ProvideName(s1, input, env)
      else
        var (response, s2) := Chat(s1, input, env);
        Outcome(response, false, Record(s2, ResponseEntry(response), env))
  }
}
