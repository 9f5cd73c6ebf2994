/**
 * What one turn of the dispatcher (AwarenessChatbot/ChatbotManager.cs,
 * ProcessUserInput) does, stated about the functions of module Dispatch: the
 * precedence of the branches, the name and reset transitions, the activity log
 * entries a turn writes, and which turns may change the task list.
 */
module DispatchProperties {
  import opened Strings
  import opened Tasks
  import opened Activity
  import opened Knowledge
  import opened Patterns
  import opened Replies
  import opened Dispatch
  import opened Texts

  /** The entry the turn logs for the input, with the turn's timestamp. */
  function InputStamp(input: string, env: Env): string
  {
    Stamp(env.now, InputEntry(input))
  }

  // ---------------------------------------------------------------------
  // Reset

  /** Recording two entries appends the first, then the second. */
  lemma RecordAllTwo(log: seq<string>, a: string, b: string)
    ensures RecordAll(log, [a, b]) == Appended(Appended(log, a), b)
  {
    assert [a, b][..1] == [a];
    assert [a][..0] == [];
    assert RecordAll(log, [a]) == Appended(log, a);
  }

  /**
   * A reset command raises the UI reset, prompts for a name, sets the name to
   * "there" and awaits a name; the log gets the input and the reset entry and
   * no response entry; the tasks and the topics are kept.
   */
  lemma ResetTurn(s: Session, input: string, env: Env)
    requires IsReset(input)
    ensures var o := Turn(s, input, env);
      o.resetRequested && o.response == "Okay, resetting our " + "conversation. " + "What's your name?" &&
      o.after.awaitingName && o.after.name == "there" &&
      o.after.tasks == s.tasks && o.after.lastTopic == s.lastTopic && o.after.favoriteTopic == s.favoriteTopic &&
      o.after.log == RecordAll(s.log, [InputStamp(input, env), Stamp(env.now, "Chatbot initiated " + "UI reset.")])
  {
    var s1 := Record(s, InputEntry(input), env);
    assert Turn(s, input, env) == Reset(s1, env);
    RecordAllTwo(s.log, InputStamp(input, env), Stamp(env.now, "Chatbot initiated " + "UI reset."));
  }

  /** The UI reset is raised exactly by a reset command. */
  lemma ResetRequestedIff(s: Session, input: string, env: Env)
    ensures Turn(s, input, env).resetRequested <==> IsReset(input)
  {
  }
  // ---------------------------------------------------------------------
  // Names

  /**
   * A name phrase is handled before anything else but a reset: the name is kept
   * when it already is the user's (ignoring case) and capitalised otherwise, no
   * name is awaited any more, and the log gets the input and the name entry and
   * no response entry.
   */
  lemma DeclaredNameTurn(s: Session, input: string, env: Env)
    requires !IsReset(input) && NameDeclaration(input).Some?
    ensures var g := Trim(NameDeclaration(input).value);
      var o := Turn(s, input, env);
      !o.resetRequested && !o.after.awaitingName &&
      (EqualsIgnoreCase(s.name, g) ==> o.after.name == s.name && o.response == AlreadyKnown(g, s.name)) &&
      (!EqualsIgnoreCase(s.name, g) ==> o.after.name == Capitalize(g) && o.response == NiceToMeet(Capitalize(g))) &&
      o.after.tasks == s.tasks && o.after.lastTopic == s.lastTopic &&
      o.after.log == RecordAll(s.log, [InputStamp(input, env), Stamp(env.now, NameSetEntry(o.after.name))])
  {
    var s1 := Record(s, InputEntry(input), env);
    var g := Trim(NameDeclaration(input).value);
    assert Turn(s, input, env) == DeclareName(s1, g, env);
    var name := if EqualsIgnoreCase(s.name, g) then s.name else Capitalize(g);
    RecordAllTwo(s.log, InputStamp(input, env), Stamp(env.now, NameSetEntry(name)));
  }

  /**
   * While a name is awaited, an input that no pattern recognises (and that is
   * neither a reset nor a name phrase) is the name: trimmed and capitalised, and
   * no name is awaited any more.
   */
  lemma AwaitedNameTurn(s: Session, input: string, env: Env)
    requires !IsReset(input) && NameDeclaration(input).None? && s.awaitingName && !IsRecognized(input)
    ensures var name := Capitalize(Trim(input));
      var o := Turn(s, input, env);
      !o.resetRequested && !o.after.awaitingName && o.after.name == name && o.response == NiceToMeet(name) &&
      o.after.tasks == s.tasks && o.after.lastTopic == s.lastTopic &&
      o.after.log == RecordAll(s.log, [InputStamp(input, env), Stamp(env.now, NameProvidedEntry(name))])
  {
    var s1 := Record(s, InputEntry(input), env);
    assert Turn(s, input, env) == ProvideName(s1, input, env);
    RecordAllTwo(s.log, InputStamp(input, env), Stamp(env.now, NameProvidedEntry(Capitalize(Trim(input)))));
  }

  /**
   * After a turn a name is awaited exactly when the input was a reset, or a name
   * was awaited and the input, not a name phrase, was recognised by a pattern.
   */
  lemma AwaitingNameAfterTurn(s: Session, input: string, env: Env)
    ensures Turn(s, input, env).after.awaitingName <==>
      IsReset(input) || (s.awaitingName && NameDeclaration(input).None? && IsRecognized(input))
  {
    if !ReturnsEarly(s, input) {
      ChatFacts(Record(s, InputEntry(input), env), input, env);
    }
  }

  /** The chain of ProcessUserInput without its name phrase branch. */
  function ChatWithoutNamePhrase(s: Session, input: string, env: Env): (string, Session)
  {
    if IsGreeting(input) then (GreetingReply(s.name, env.roll), s)
    else if IsNameQuestion(input) then (NameAnswer(s.name), s)
    else if IsThanks(input) then (ThanksReply(env.roll), s)
    else if IsGoodbye(input) then (GoodbyeReply(env.roll), s)
    else Commands(s, input, env)
  }

  /**
   * The chain's own name phrase branch is dead: a turn reaches the chain only
   * when the input is no name phrase, and then the turn is the chain without
   * that branch followed by the response entry.
   */
  lemma SecondNameBranchDead(s: Session, input: string, env: Env)
    requires !ReturnsEarly(s, input)
    ensures NameDeclaration(input).None?
    ensures var s1 := Record(s, InputEntry(input), env);
      var (r, s2) := ChatWithoutNamePhrase(s1, input, env);
      Turn(s, input, env) == Outcome(r, false, Record(s2, ResponseEntry(r), env))
  {
    var s1 := Record(s, InputEntry(input), env);
    assert Chat(s1, input, env) == ChatWithoutNamePhrase(s1, input, env);
  }

  // ---------------------------------------------------------------------
  // The activity log

  /** A recorded entry is the last one, whether or not the oldest was dropped. */
  lemma AppendedLast(log: seq<string>, e: string)
    ensures var r := Appended(log, e); |r| > 0 && r[|r| - 1] == e
  {
  }

  /** Entries for different actions differ. */
  lemma StampsDiffer(now: string, a: string, b: string)
    requires a != b
    ensures Stamp(now, a) != Stamp(now, b)
  {
    assert Stamp(now, a)[|now| + 3..] == a;
  }

  /** The reset's last log entry is no response entry. */
  lemma ResetLogsNoResponse(s: Session, env: Env)
    ensures var o := Reset(s, env);
      |o.after.log| > 0 && o.after.log[|o.after.log| - 1] != Stamp(env.now, ResponseEntry(o.response))
  {
    var o := Reset(s, env);
    var e := "Chatbot initiated " + "UI reset.";
    var responseEntry := ResponseEntry(o.response);
    assert e[8] == 'i' && responseEntry[8] == 'r';
    AppendedLast(s.log, Stamp(env.now, e));
    StampsDiffer(env.now, e, responseEntry);
  }

  /** A name phrase's last log entry is no response entry. */
  lemma DeclareNameLogsNoResponse(s: Session, newName: string, env: Env)
    ensures var o := DeclareName(s, newName, env);
      |o.after.log| > 0 && o.after.log[|o.after.log| - 1] != Stamp(env.now, ResponseEntry(o.response))
  {
    var o := DeclareName(s, newName, env);
    var e := NameSetEntry(o.after.name);
    var responseEntry := ResponseEntry(o.response);
    assert e[0] == 'U' && responseEntry[0] == 'C';
    AppendedLast(s.log, Stamp(env.now, e));
    StampsDiffer(env.now, e, responseEntry);
  }

  /** An awaited name's last log entry is no response entry. */
  lemma ProvideNameLogsNoResponse(s: Session, input: string, env: Env)
    ensures var o := ProvideName(s, input, env);
      |o.after.log| > 0 && o.after.log[|o.after.log| - 1] != Stamp(env.now, ResponseEntry(o.response))
  {
    var o := ProvideName(s, input, env);
    var e := NameProvidedEntry(o.after.name);
    var responseEntry := ResponseEntry(o.response);
    assert e[0] == 'U' && responseEntry[0] == 'C';
    AppendedLast(s.log, Stamp(env.now, e));
    StampsDiffer(env.now, e, responseEntry);
  }

  /** A turn that returns early logs no response entry last. */
  lemma EarlyTurnLogsNoResponse(s: Session, input: string, env: Env)
    requires ReturnsEarly(s, input)
    ensures var o := Turn(s, input, env);
      |o.after.log| > 0 && o.after.log[|o.after.log| - 1] != Stamp(env.now, ResponseEntry(o.response))
  {
    var s1 := Record(s, InputEntry(input), env);
    if IsReset(input) {
      assert Turn(s, input, env) == Reset(s1, env);
      ResetLogsNoResponse(s1, env);
    } else if NameDeclaration(input).Some? {
      assert Turn(s, input, env) == DeclareName(s1, Trim(NameDeclaration(input).value), env);
      DeclareNameLogsNoResponse(s1, Trim(NameDeclaration(input).value), env);
    } else {
      assert Turn(s, input, env) == ProvideName(s1, input, env);
      ProvideNameLogsNoResponse(s1, input, env);
    }
  }

  /**
   * Every turn's last log entry is the response entry exactly when the turn did
   * not return early (reset, name phrase or awaited name).
   */
  lemma ResponseLoggedIff(s: Session, input: string, env: Env)
    ensures var o := Turn(s, input, env);
      |o.after.log| > 0 &&
      (o.after.log[|o.after.log| - 1] == Stamp(env.now, ResponseEntry(o.response)) <==> !ReturnsEarly(s, input))
  {
    if ReturnsEarly(s, input) {
      EarlyTurnLogsNoResponse(s, input, env);
    } else {
      var (r, s2) := Chat(Record(s, InputEntry(input), env), input, env);
      AppendedLast(s2.log, Stamp(env.now, ResponseEntry(r)));
    }
  }

  /**
   * Within a turn the activity log command always lists something: the input
   * entry was just recorded and is the last line listed.
   */
  lemma ShowLogInTurn(s: Session, input: string, env: Env)
    ensures var s1 := Record(s, InputEntry(input), env);
      var recent := LastN(s1.log, 10);
      recent != [] && recent[|recent| - 1] == InputStamp(input, env) &&
      ShowLog(s1, env).0 == "Here\U{2019}s a summary of " + "recent actions:\n" + NumberedLines(recent)
  {
    var s1 := Record(s, InputEntry(input), env);
    AppendedLast(s.log, InputStamp(input, env));
  }

  // ---------------------------------------------------------------------
  // Tasks

  /** HandleTaskCommand handles an input exactly when one of the four task patterns matches it. */
  lemma TaskCommandIff(s: Session, input: string, env: Env)
    ensures TaskCommand(s, input, env).Some? <==> IsTaskCommand(input)
  {
  }

  /** Only a task command changes the task list. */
  lemma TasksOnlyByTaskCommands(s: Session, input: string, env: Env)
    requires !IsTaskCommand(input)
    ensures Turn(s, input, env).after.tasks == s.tasks
  {
    if !ReturnsEarly(s, input) {
      ChatFacts(Record(s, InputEntry(input), env), input, env);
    }
  }

  /**
   * An add command whose date phrase is neither "tomorrow", nor "in N days", nor
   * a date the culture parses is handled, but adds no task and logs nothing.
   */
  lemma UnreadableDateAddsNothing(s: Session, input: string, env: Env, g: AddGroups)
    requires AddTaskMatch(input) == Some(g) && g.dueDate.Some? && g.dueDate.value != []
    requires !Contains(Lower(g.dueDate.value), "tomorrow") && InDaysDigits(g.dueDate.value).None?
    requires env.parseDate(g.dueDate.value).None?
    ensures TaskCommand(s, input, env) == Some((DateNotUnderstood(Trim(g.description), g.dueDate.value), s))
  {
  }

  /**
   * "in N days" (without "tomorrow") asks for a reminder N days from today when
   * N fits in an int, and adds the task without a reminder when it does not.
   */
  lemma InDaysReminder(dateString: string, env: Env)
    requires dateString != [] && !Contains(Lower(dateString), "tomorrow") && InDaysDigits(dateString).Some?
    ensures var n := DigitsValue(InDaysDigits(dateString).value);
      ReminderFor(dateString, env) == Some(if n <= Int32Max then Some(env.today + n) else None)
  {
  }

  // ---------------------------------------------------------------------
  // Replies

  /** GetRandomUnrecognizedResponse never answers with an empty text. */
  lemma UnrecognizedReplyNonEmpty(roll: nat)
    ensures UnrecognizedReply(roll) != []
  {
  }

  /**
   * The knowledge engine's reply is replaced only when it says "I don't
   * understand" (ignoring case), since it is never empty; then the unrecognised
   * input text answers. The answer is never empty, and the fallback changes the
   * name, the favourite topic and the last topic only.
   */
  lemma FallbackReplacesOnlyOnPhrase(s: Session, input: string, env: Env)
    ensures var reply := Respond(input, s.name, s.favoriteTopic, s.lastTopic, env.coreRoll, env.prose);
      var (r, s2) := Fallback(s, input, env);
      r != [] &&
      (r != reply.response ==> Contains(Lower(reply.response), "i don't understand")) &&
      (Contains(Lower(reply.response), "i don't understand") ==> r == UnrecognizedReply(env.roll)) &&
      s2 == s.(name := reply.name, favoriteTopic := reply.favoriteTopic, lastTopic := reply.lastTopic)
  {
    var reply := Respond(input, s.name, s.favoriteTopic, s.lastTopic, env.coreRoll, env.prose);
    ResponseNeverBlank(input, s.name, s.favoriteTopic, s.lastTopic, env.coreRoll, env.prose);
    assert reply.response != [];
    UnrecognizedReplyNonEmpty(env.roll);
  }

  /**
   * The articles in the order the info pattern lists its topics: each topic has
   * its own article except "two-factor authentication", which shares the one of
   * "2fa" just before it.
   */
  lemma TopicArticles()
    ensures forall i :: 0 <= i < |InfoTopics| ==> ArticleIndex(InfoTopics[i]) == if i <= 2 then i else i - 1
  {
    assert ArticleIndex(InfoTopics[0]) == 0;
    assert ArticleIndex(InfoTopics[1]) == 1;
    assert ArticleIndex(InfoTopics[2]) == 2;
    assert ArticleIndex(InfoTopics[3]) == 2;
    assert ArticleIndex(InfoTopics[4]) == 3;
    assert ArticleIndex(InfoTopics[5]) == 4;
    assert ArticleIndex(InfoTopics[6]) == 5;
    assert ArticleIndex(InfoTopics[7]) == 6;
    assert ArticleIndex(InfoTopics[8]) == 7;
    assert ArticleIndex(InfoTopics[9]) == 8;
    assert ArticleIndex(InfoTopics[10]) == 9;
    assert ArticleIndex(InfoTopics[11]) == 10;
    assert ArticleIndex(InfoTopics[12]) == 11;
    assert ArticleIndex(InfoTopics[13]) == 12;
    assert ArticleIndex(InfoTopics[14]) == 13;
  }

  /** The topic information, an article or the text for an unknown topic, is non-empty. */
  lemma InfoReplyNonEmpty(topic: string, prose: Prose)
    ensures CybersecurityInfo(topic, prose) != []
  {
  }

  /** The task commands answer with non-empty texts. */
  lemma TaskReplyNonEmpty(s: Session, input: string, env: Env)
    ensures TaskCommand(s, input, env).Some? ==> TaskCommand(s, input, env).value.0 != []
  {
  }

  /** The activity log command answers with a non-empty text. */
  lemma ShowLogReplyNonEmpty(s: Session, env: Env)
    ensures ShowLog(s, env).0 != []
  {
  }

  /**
   * The commands of the chain answer with a non-empty text, never change whether a name is awaited, and change the tasks
   * only for a task command.
   */
  lemma CommandsFacts(s: Session, input: string, env: Env)
    ensures var (r, s2) := Commands(s, input, env);
      r != [] &&
      s2.awaitingName == s.awaitingName && (!IsTaskCommand(input) ==> s2.tasks == s.tasks)
  {
    TaskCommandIff(s, input, env);
    match TaskCommand(s, input, env)
    case Some(_) =>
      TaskReplyNonEmpty(s, input, env);
    case None =>
      if IsShowLog(input) {
        ShowLogReplyNonEmpty(s, env);
      } else if InfoTopic(input).Some? {
        InfoReplyNonEmpty(InfoTopic(input).value, env.prose);
      } else {
        FallbackReplacesOnlyOnPhrase(s, input, env);
      }
  }

  /** The conversation branches of the chain answer with non-empty texts. */
  lemma ConversationRepliesNonEmpty(name: string, roll: nat)
    ensures GreetingReply(name, roll) != [] && NameAnswer(name) != [] && NiceToMeet(name) != []
    ensures ThanksReply(roll) != [] && GoodbyeReply(roll) != []
  {
  }

  /**
   * The chain answers with a non-empty text, never changes whether a name is
   * awaited, and changes the tasks only for a task command.
   */
  lemma ChatFacts(s: Session, input: string, env: Env)
    ensures var (r, s2) := Chat(s, input, env);
      r != [] &&
      s2.awaitingName == s.awaitingName && (!IsTaskCommand(input) ==> s2.tasks == s.tasks)
  {
    if IsGreeting(input) || IsNameQuestion(input) || IsThanks(input) || IsGoodbye(input) {
      ConversationRepliesNonEmpty(s.name, env.roll);
    } else if NameDeclaration(input).Some? {
      ConversationRepliesNonEmpty(Trim(NameDeclaration(input).value), env.roll);
    } else {
      CommandsFacts(s, input, env);
      assert Chat(s, input, env) == Commands(s, input, env);
    }
  }

  /** Every turn answers with a non-empty text. */
  lemma TurnReplyNonEmpty(s: Session, input: string, env: Env)
    ensures Turn(s, input, env).response != []
  {
    if !ReturnsEarly(s, input) {
      ChatFacts(Record(s, InputEntry(input), env), input, env);
    }
  }
}
