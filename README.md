# AwarenessChatbot core in Dafny

A model of the logic beneath the AwarenessChatbot WinForms application: a
cybersecurity awareness chatbot that answers questions on security topics,
keeps a task list with reminders, records an activity log, remembers the
user's name and favourite topic, and runs a ten-question quiz.

The model follows the C# code file by file:

- `question.dfy` (module `Questions`): a quiz question and `CheckAnswer`. A
  question is a datatype whose two variants are the two constructors.
- `quiz.dfy` (module `Quiz`): the question bank, the `QuizGame` session as a
  class, and the score tier the quiz window shows at the end.
- `activity.dfy` (module `Activity`): the capped activity log as a class over
  a `seq`, and the functions that specify it.
- `tasks.dfy` (module `Tasks`): `TaskItem` and `TaskManager` as classes, with
  functions on the task states that specify them.
- `profile.dfy` (module `Profiles`): the user profile of `UserProfiles .cs`. Its
  constructor names a new user "User" and gives them no favourite topic
  (lines 19-23 of that file).
- `knowledge.dfy` (module `Knowledge`): `CoreChatbot.GetResponse`. It is
  written as a method built from step methods, and each step is proved equal
  to a function (`Respond` and its parts). The lemmas are about those
  functions.
- `patterns.dfy` (module `Patterns`): every regular expression of
  `ChatbotManager` as a matcher. Each matcher returns the groups the .NET
  engine reports: the leftmost match, greedy and lazy runs, and the
  backtracking a white-space run does when what follows it needs a character.
- `replies.dfy` (module `Replies`): the dispatcher's texts and log entries,
  and the topic switch of `GetCybersecurityInfo`.
- `texts.dfy` (module `Texts`): the sentences of the topic, keyword, follow-up
  and sentiment tables.
- `dispatch.dfy` (module `Dispatch`): one call of `ProcessUserInput` as the
  function `Turn`, from a `Session` (profile, last topic, awaiting-name flag,
  task states, log) to an `Outcome`.
- `dispatch_properties.dfy` (module `DispatchProperties`): the properties of
  a turn.
- `manager.dfy` (module `Manager`): the `ChatbotManager` class. Every method
  is proved to change the shared profile, task store and log exactly as
  `Turn` and its parts say.

What a turn takes from outside is the `Env` value:

- the timestamp of the turn's log entries;
- today's date;
- the culture's date parser and printer;
- the draws of the two random generators;
- the wording of the text tables (a `Prose` value; `Texts.SourceProse` is
  the source's own wording).

Which table entry is chosen depends only on the table keys, which stay in
the modules that look them up. Which branch answers depends on the sentences
in two places only:

- `Knowledge.Compose` tests whether the sentiment sentence and the text
  together are blank.
- `Dispatch.Fallback` tests whether the engine's reply contains
  "I don't understand".

A turn with `env.prose == Texts.SourceProse()` behaves as the source does.
Every lemma holds for any `Prose`.

## Model

| member | source | states |
|---|---|---|
| Strings.Lower | AwarenessChatbot/Question.cs:51 | lower-casing keeps the length and lowers each character on its own |
| Strings.IndexOf | AwarenessChatbot/Question.cs:90 | -1 exactly when the character is absent; otherwise the position of its first occurrence |
| Strings.NatToString | AwarenessChatbot/ChatbotManager.cs:340 | the decimal text of a number is non-empty and made of digits |
| Strings.NatToStringValue | AwarenessChatbot/ChatbotManager.cs:340 | reading the decimal text back gives the number (round trip with DigitsValue) |
| Strings.ParseInt32 | AwarenessChatbot/ChatbotManager.cs:241 | int.TryParse on digits succeeds exactly when the value is at most 2147483647, and then yields that value |
| Strings.Pick | AwarenessChatbot/ChatbotManager.cs:406 | a random choice is one of the items, and draw i below the count picks item i |
| Strings.LeftmostIsFirst | AwarenessChatbot/ChatbotManager.cs:41-42 | an unanchored Regex.Match fails exactly when the pattern matches at no position, and otherwise reports the match at the first position that matches |
| Strings.TrimStartDrops | AwarenessChatbot/Question.cs:51 | TrimStart removes exactly the leading white space, and what remains starts visibly |
| Strings.TrimEndDrops | AwarenessChatbot/Question.cs:51 | TrimEnd removes exactly the trailing white space, and what remains ends visibly |
| Strings.TrimBlank | AwarenessChatbot/Question.cs:45-51 | a string is null-or-white-space exactly when its trim is empty |
| Strings.TrimStartBlank | AwarenessChatbot/Question.cs:45-51 | TrimStart of a blank string is empty |
| Strings.TrimNoOp | AwarenessChatbot/Question.cs:51 | a string that begins and ends visibly is its own trim |
| Strings.TrimKeepsFront | AwarenessChatbot/Question.cs:68 | a visible first character survives Trim |
| Strings.TrimStartConcat | AwarenessChatbot/CoreChatbot.cs:203 | the leading white space of x + y is that of x when y starts visibly |
| Strings.TrimBeforeVisible | AwarenessChatbot/CoreChatbot.cs:203 | trimming a text that ends in a visible part trims only the front of what precedes it |
| Strings.TrimBlankIff | AwarenessChatbot/CoreChatbot.cs:192-199 | the trim of a string is blank exactly when the string is |
| Strings.LowerNoUpper | AwarenessChatbot/Question.cs:51 | lower-casing leaves a string without upper-case letters unchanged |
| Questions.Question.Options | AwarenessChatbot/Question.cs:18-36 | a true/false question offers ["True", "False"]; a multiple-choice question offers its own options |
| Questions.Question.CorrectAnswerString | AwarenessChatbot/Question.cs:18-36 | a true/false question stores "True" or "False" to match its value; a multiple-choice question stores its option text |
| Questions.CheckAnswer | AwarenessChatbot/Question.cs:43-102 | a blank answer is rejected; a true/false answer is accepted exactly when its normal form is one of the value's two spellings; a multiple-choice answer is accepted exactly when the full option, the option letter or the text after ")" matches |
| Questions.StoredAnswerAccepted | AwarenessChatbot/Question.cs:53-75 | the stored correct answer is itself accepted unless it is blank |
| Questions.SingleCharacterAnswer | AwarenessChatbot/Question.cs:79-86 | for an option "L) text", a one-character answer is accepted exactly when it is L in lower case (for "B) …", "a" is rejected) |
| Questions.NormalizeVisible | AwarenessChatbot/Question.cs:51 | a visible lower-case answer is its own normal form |
| Questions.TextPartAccepted | AwarenessChatbot/Question.cs:90-98 | the text after "L)", up to case and surrounding white space, is accepted |
| Questions.ExampleOptionShape | AwarenessChatbot/Question.cs:89-93 | the option "B) ok" is labelled and its text part normalises to "ok" |
| Questions.ExampleAnswers | AwarenessChatbot/Question.cs:67-98 | for the option "B) ok", "B) ok", "b" and "ok" are accepted and "a" is rejected |
| Questions.BooleanWordsNormal | AwarenessChatbot/Question.cs:51-63 | "true", "t", "false" and "f" are their own normal forms |
| Questions.FalseQuestionAnswers | AwarenessChatbot/Question.cs:60-63 | a false question accepts "false" and "f" and rejects "true", "t" and "" |
| Quiz.Bank | AwarenessChatbot/QuizGame.cs:25-96 | the bank holds ten questions |
| Quiz.TierBoundaries | AwarenessChatbot/QuizForm.cs:189-200 | Expert exactly at the total; SolidUnderstanding exactly when the score is not the total and at least half of it, rounded down; KeepLearning otherwise |
| Quiz.TenQuestionTiers | AwarenessChatbot/QuizForm.cs:189-200 | out of ten: 10 is Expert, 5 to 9 SolidUnderstanding, 0 to 4 KeepLearning |
| Quiz.OddTotalRoundsDown | AwarenessChatbot/QuizForm.cs:193 | integer division: 2 out of 5 is already SolidUnderstanding, and 1 out of 5 is not |
| Quiz.QuizGame.constructor | AwarenessChatbot/QuizGame.cs:15-19 | a new game holds the given reordering of the bank, is inactive and has both counters at 0 |
| Quiz.QuizGame.CurrentQuestionNumber | AwarenessChatbot/QuizGame.cs:102-105 | the question number is always the index plus one |
| Quiz.QuizGame.ResetQuiz | AwarenessChatbot/QuizGame.cs:110-117 | index and score become 0, the game is inactive, and the questions take the new order, which is a reordering of the bank |
| Quiz.QuizGame.StartQuiz | AwarenessChatbot/QuizGame.cs:122-126 | like ResetQuiz, but active; the number of questions is unchanged |
| Quiz.QuizGame.GetCurrentQuestion | AwarenessChatbot/QuizGame.cs:132-139 | there is a question exactly while active and the index is in range, and then it is the one at the index |
| Quiz.QuizGame.NextQuestion | AwarenessChatbot/QuizGame.cs:145-149 | the index grows by one and nothing else changes; the result is active && index < count |
| Quiz.QuizGame.SubmitAnswer | AwarenessChatbot/QuizGame.cs:156-169 | with no current question: false and no change; otherwise the result is CheckAnswer on the current question, and the score grows by one exactly when it is true; the index never changes |
| Quiz.QuizGame.GetScore | AwarenessChatbot/QuizGame.cs:174-177 | the score, never negative |
| Quiz.QuizGame.GetTotalQuestions | AwarenessChatbot/QuizGame.cs:182-185 | the count of a valid game is always the bank's ten |
| Quiz.QuizGame.EndQuiz | AwarenessChatbot/QuizGame.cs:190-195 | the game becomes inactive and the score, index and questions are kept, so a second call changes nothing |
| Quiz.BankVisible | AwarenessChatbot/QuizGame.cs:25-96 | every stored answer of the bank starts with a visible character |
| Quiz.ShuffleVisible | AwarenessChatbot/QuizGame.cs:110-117 | every reordering of the bank keeps every stored answer visible |
| Quiz.PerfectGame | AwarenessChatbot/QuizForm.cs:103-204 | for every shuffle of the bank, the quiz window's loop with a player who always types the stored answer ends with 10 out of 10 and the Expert message |
| Activity.Stamp | AwarenessChatbot/ActivityLog.cs:25 | the entry is "[" + timestamp + "] " + action, with the action recoverable from its end |
| Activity.LastN | AwarenessChatbot/ActivityLog.cs:39-44 | the last min(n, count) entries, as a suffix of the log |
| Activity.AppendedWithinCap | AwarenessChatbot/ActivityLog.cs:22-32 | one record keeps at most 100 entries with the new one last; below the cap nothing is lost; at the cap only the oldest entry is dropped |
| Activity.LastNSnoc | AwarenessChatbot/ActivityLog.cs:39-44 | the last n of a list with one more entry are the last n - 1 of the list, then that entry |
| Activity.LastNLastN | AwarenessChatbot/ActivityLog.cs:39-44 | taking the last m of the last n, for m <= n, is taking the last m |
| Activity.RecordAllKeepsLast | AwarenessChatbot/ActivityLog.cs:22-32 | after any number of records the log is exactly the last 100 entries of everything, in order |
| Activity.ActivityLog.constructor | AwarenessChatbot/ActivityLog.cs:13-16 | a new log is empty |
| Activity.ActivityLog.RecordAction | AwarenessChatbot/ActivityLog.cs:22-32 | the log becomes the last 100 of the old log plus the stamped entry |
| Activity.ActivityLog.GetRecentActions | AwarenessChatbot/ActivityLog.cs:39-44 | nothing for count <= 0; otherwise the last min(count, size) entries, oldest first |
| Activity.ActivityLog.GetAllActions | AwarenessChatbot/ActivityLog.cs:50-53 | every entry, in order, at most 100 |
| Tasks.DescribeStatus | AwarenessChatbot/TaskItem.cs:23 | the text starts with "[COMPLETED]" exactly for a completed task, and otherwise with "[PENDING]" |
| Tasks.DescribeWithoutReminder | AwarenessChatbot/TaskItem.cs:24-25 | without a reminder the text is exactly "{status} {title}: {description}" |
| Tasks.DescribeWithReminder | AwarenessChatbot/TaskItem.cs:24-25 | a reminder only appends " (Remind: date)" to the text without it |
| Tasks.FirstMatch | AwarenessChatbot/TaskManager.cs:29 | -1 exactly when no title matches ignoring case; otherwise the first matching position |
| Tasks.MarkFirstChangesFirstMatch | AwarenessChatbot/TaskManager.cs:27-36 | completing keeps the length, completes the first match only and leaves every other task unchanged; with no match nothing changes |
| Tasks.RemoveMatchesKeepsOthers | AwarenessChatbot/TaskManager.cs:38-43 | removal keeps exactly the non-matching tasks; the list shrinks exactly when some task matched; with no match it is unchanged |
| Tasks.AddCompleteDelete | AwarenessChatbot/TaskManager.cs:17-43 | after adding a title, completing it finds a task, and deleting it then leaves no task with that title |
| Tasks.TaskItem.constructor | AwarenessChatbot/TaskItem.cs:13-19 | a new task is pending and keeps its title, description and reminder |
| Tasks.TaskItem.ToString | AwarenessChatbot/TaskItem.cs:21-26 | the item's text is the description of its current state |
| Tasks.ViewsOf | AwarenessChatbot/TaskManager.cs:10 | the states of the items, position by position |
| Tasks.TaskManager.constructor | AwarenessChatbot/TaskManager.cs:12-15 | a new store is empty |
| Tasks.TaskManager.AddTask | AwarenessChatbot/TaskManager.cs:17-20 | one new pending item is appended and the earlier items are unchanged |
| Tasks.TaskManager.GetAllTasks | AwarenessChatbot/TaskManager.cs:22-25 | the items in insertion order |
| Tasks.TaskManager.FindFirst | AwarenessChatbot/TaskManager.cs:29 | the loop finds the first position whose title matches, or -1 |
| Tasks.TaskManager.MarkTaskCompleted | AwarenessChatbot/TaskManager.cs:27-36 | true exactly when some title matches ignoring case; the states become MarkFirst of the old ones |
| Tasks.TaskManager.Unmatched | AwarenessChatbot/TaskManager.cs:41 | the items that do not match, in order, each once |
| Tasks.TaskManager.DeleteTask | AwarenessChatbot/TaskManager.cs:38-43 | the states become RemoveMatches of the old ones; true exactly when the count decreased, which is exactly when a title matched |
| Knowledge.VariantCount | AwarenessChatbot/CoreChatbot.cs:18-60 | every keyword of the table has at least one answer |
| Knowledge.KeywordVariants | AwarenessChatbot/CoreChatbot.cs:166 | a keyword's answer list has the keyword's number of answers |
| Knowledge.FirstContained | AwarenessChatbot/CoreChatbot.cs:100-108 | -1 exactly when the text contains no key; otherwise the first key in table order that it contains |
| Knowledge.NameAt | AwarenessChatbot/CoreChatbot.cs:111 | a captured name is a non-empty run of lower-case letters |
| Knowledge.TopicAt | AwarenessChatbot/CoreChatbot.cs:124 | a captured topic is non-empty and made of lower-case letters and white space |
| Knowledge.FindFirstKey | AwarenessChatbot/CoreChatbot.cs:154-161 | the foreach-with-break finds FirstContained |
| Knowledge.RememberStep | AwarenessChatbot/CoreChatbot.cs:110-135 | the profile and the acknowledgement text become what Remember says |
| Knowledge.ConverseStep | AwarenessChatbot/CoreChatbot.cs:137-189 | the text and the last topic become what Converse says |
| Knowledge.ComposeStep | AwarenessChatbot/CoreChatbot.cs:191-204 | the reply is Compose of the prefix and the text |
| Knowledge.GetResponse | AwarenessChatbot/CoreChatbot.cs:90-207 | the reply, the profile and the last topic become what Respond says |
| Knowledge.DefaultResponseVisible | AwarenessChatbot/CoreChatbot.cs:84 | the default reply begins and ends with a visible character |
| Knowledge.ComposeShape | AwarenessChatbot/CoreChatbot.cs:191-204 | the reply is never blank; with no content it is the default reply; a sentiment with no other content gives the sentiment phrase followed by the default reply; otherwise it is the trimmed text |
| Knowledge.ResponseNeverBlank | AwarenessChatbot/CoreChatbot.cs:192-198 | GetResponse never returns a blank reply |
| Knowledge.SentimentFromFirstWord | AwarenessChatbot/CoreChatbot.cs:100-108 | the prefix is the phrase of the first sentiment word, in table order, that the input contains |
| Knowledge.NoSentimentNoPrefix | AwarenessChatbot/CoreChatbot.cs:99-108 | without a sentiment word there is no prefix |
| Knowledge.NameFound | AwarenessChatbot/CoreChatbot.cs:111-112 | if the name pattern matches anywhere, the leftmost match supplies a non-empty lower-case name |
| Knowledge.RememberName | AwarenessChatbot/CoreChatbot.cs:111-122 | a stated name becomes the profile name with its first letter upper-cased; without one the name is kept |
| Knowledge.RememberTopic | AwarenessChatbot/CoreChatbot.cs:124-135 | a stated topic, trimmed, replaces the favourite topic unless it is blank |
| Knowledge.FollowUpKeepsTopic | AwarenessChatbot/CoreChatbot.cs:142-150 | a follow-up appends the last topic's elaboration when it has one and adds nothing otherwise; the last topic never changes |
| Knowledge.KeywordSetsTopic | AwarenessChatbot/CoreChatbot.cs:150-167 | in a keyword scan, the first keyword the input contains becomes the last topic, and one of its answers is added; with none, nothing changes |
| Knowledge.MemoryOnlyReply | AwarenessChatbot/CoreChatbot.cs:137-150 | a pure memory update (no sentiment) replies with the trimmed acknowledgement and keeps the last topic |
| Knowledge.PersonaliseOrder | AwarenessChatbot/CoreChatbot.cs:171-186 | the answer is addressed to the favourite topic when the input mentions it; otherwise by name unless already greeted; otherwise it is added as it is |
| Knowledge.EmptyTopicAlwaysMatches | AwarenessChatbot/CoreChatbot.cs:171-176 | with no favourite topic (the profile's initial state) the answer is always "As someone interested in , …", because every input contains "" |
| Patterns.NameDeclaration | AwarenessChatbot/ChatbotManager.cs:34 | the name group is a non-empty tail of the input |
| Patterns.DueAt | AwarenessChatbot/ChatbotManager.cs:40 | a date group starts after the " due/on/by/at" word, within the input |
| Patterns.DescriptionEnd | AwarenessChatbot/ChatbotManager.cs:40 | the lazy description ends at the first position where the date group matches, or at the end |
| Patterns.AddNounStart | AwarenessChatbot/ChatbotManager.cs:40 | the optional "a" never moves the noun backwards |
| Patterns.AddGroupsFrom | AwarenessChatbot/ChatbotManager.cs:40 | a matched description, and a matched date, are non-empty |
| Patterns.TitleStart | AwarenessChatbot/ChatbotManager.cs:41-42 | a matched title starts inside the input |
| Patterns.CompleteAt | AwarenessChatbot/ChatbotManager.cs:41 | a complete-command title starts inside the input |
| Patterns.DeleteAt | AwarenessChatbot/ChatbotManager.cs:42 | a delete-command title starts inside the input |
| Patterns.OptionalWord | AwarenessChatbot/ChatbotManager.cs:48 | an optional word never moves the position back or past the end |
| Patterns.LogVerbEnd | AwarenessChatbot/ChatbotManager.cs:48 | the verb ends within the input |
| Patterns.InfoTopic | AwarenessChatbot/ChatbotManager.cs:53-55 | a recognised topic is one of the fifteen listed topics |
| Patterns.InDaysAt | AwarenessChatbot/ChatbotManager.cs:238 | the digits of "in N days" form a non-empty span of the text |
| Patterns.InDaysDigits | AwarenessChatbot/ChatbotManager.cs:238-241 | the captured N is a non-empty run of digits |
| Replies.TaskLines | AwarenessChatbot/ChatbotManager.cs:270-275 | there is a line for a non-empty task list |
| Replies.NumberedLines | AwarenessChatbot/ChatbotManager.cs:337-342 | there is a line for a non-empty entry list |
| DispatchProperties.RecordAllTwo | AwarenessChatbot/ChatbotManager.cs:82-88 | two records append the first entry and then the second |
| DispatchProperties.ResetTurn | AwarenessChatbot/ChatbotManager.cs:85-95 | a reset raises the UI reset, prompts for a name, sets the name to "there" and awaits a name; it logs the input and the reset entry, and no response; the tasks and topics are kept |
| DispatchProperties.ResetRequestedIff | AwarenessChatbot/ChatbotManager.cs:85-87 | the UI reset is raised exactly by a reset command |
| DispatchProperties.DeclaredNameTurn | AwarenessChatbot/ChatbotManager.cs:97-121 | a name phrase keeps a name already equal ignoring case and capitalises it otherwise, stops awaiting a name, and logs the input and the name entry only |
| DispatchProperties.AwaitedNameTurn | AwarenessChatbot/ChatbotManager.cs:124-149 | while a name is awaited, an input no pattern recognises becomes the name, trimmed and capitalised, and the name is no longer awaited |
| DispatchProperties.AwaitingNameAfterTurn | AwarenessChatbot/ChatbotManager.cs:85-149 | after a turn a name is awaited exactly after a reset, or when one was awaited and the input, not a name phrase, was recognised |
| DispatchProperties.SecondNameBranchDead | AwarenessChatbot/ChatbotManager.cs:160-166 | the chain's own name-phrase branch is unreachable: the turn equals the chain without it |
| DispatchProperties.AppendedLast | AwarenessChatbot/ActivityLog.cs:25-31 | a recorded entry is last in the log, whether or not the oldest was dropped |
| DispatchProperties.StampsDiffer | AwarenessChatbot/ActivityLog.cs:25 | entries for different actions differ |
| DispatchProperties.ResetLogsNoResponse | AwarenessChatbot/ChatbotManager.cs:88-94 | the reset's last log entry is not a response entry |
| DispatchProperties.DeclareNameLogsNoResponse | AwarenessChatbot/ChatbotManager.cs:119-120 | a name phrase's last log entry is not a response entry |
| DispatchProperties.ProvideNameLogsNoResponse | AwarenessChatbot/ChatbotManager.cs:147-148 | an awaited name's last log entry is not a response entry |
| DispatchProperties.EarlyTurnLogsNoResponse | AwarenessChatbot/ChatbotManager.cs:85-149 | a turn that returns early logs no response entry last |
| DispatchProperties.ResponseLoggedIff | AwarenessChatbot/ChatbotManager.cs:82-208 | a turn's last log entry is its response entry exactly when the turn does not return early |
| DispatchProperties.ShowLogInTurn | AwarenessChatbot/ChatbotManager.cs:328-352 | within a turn the log command always lists something, and the turn's own input entry is the last line |
| DispatchProperties.TaskCommandIff | AwarenessChatbot/ChatbotManager.cs:219-319 | HandleTaskCommand handles an input exactly when one of the four task patterns matches it |
| DispatchProperties.TasksOnlyByTaskCommands | AwarenessChatbot/ChatbotManager.cs:176-205 | a turn whose input matches no task pattern leaves the task list unchanged |
| DispatchProperties.UnreadableDateAddsNothing | AwarenessChatbot/ChatbotManager.cs:250-254 | an add command whose date is neither "tomorrow", nor "in N days", nor parseable is handled but adds no task and logs nothing |
| DispatchProperties.InDaysReminder | AwarenessChatbot/ChatbotManager.cs:238-245 | "in N days" reminds N days from today when N fits in an int, and adds the task without a reminder when it does not |
| DispatchProperties.UnrecognizedReplyNonEmpty | AwarenessChatbot/ChatbotManager.cs:431-440 | every unrecognised-input text is non-empty |
| DispatchProperties.FallbackReplacesOnlyOnPhrase | AwarenessChatbot/ChatbotManager.cs:197-204 | the engine's reply is replaced exactly when it contains "I don't understand" ignoring case (it is never empty); the fallback changes only the name and the two topics |
| DispatchProperties.TopicArticles | AwarenessChatbot/ChatbotManager.cs:361-394 | each listed topic has its own article, except "two-factor authentication", which shares the article of "2fa" |
| DispatchProperties.InfoReplyNonEmpty | AwarenessChatbot/ChatbotManager.cs:359-395 | the topic information is never empty |
| DispatchProperties.TaskReplyNonEmpty | AwarenessChatbot/ChatbotManager.cs:219-319 | every task-command reply is non-empty |
| DispatchProperties.ShowLogReplyNonEmpty | AwarenessChatbot/ChatbotManager.cs:328-352 | the log command's reply is non-empty |
| DispatchProperties.CommandsFacts | AwarenessChatbot/ChatbotManager.cs:176-205 | the commands answer with a non-empty text, keep the awaiting-name flag, and change the tasks only for a task command |
| DispatchProperties.ConversationRepliesNonEmpty | AwarenessChatbot/ChatbotManager.cs:398-429 | the greeting, name, thanks and goodbye replies are non-empty |
| DispatchProperties.ChatFacts | AwarenessChatbot/ChatbotManager.cs:151-205 | the chain answers with a non-empty text, keeps the awaiting-name flag, and changes the tasks only for a task command |
| DispatchProperties.TurnReplyNonEmpty | AwarenessChatbot/ChatbotManager.cs:76-209 | every turn answers with a non-empty text |
| Manager.ChatbotManager.constructor | AwarenessChatbot/ChatbotManager.cs:59-68 | a new dispatcher shares the given objects, awaits a name and knows no topic |
| Manager.ChatbotManager.ProcessUserInput | AwarenessChatbot/ChatbotManager.cs:76-209 | the reply, the reset signal and the new profile, tasks, log and flags are exactly Turn of the old state |
| Manager.ChatbotManager.ResetStep | AwarenessChatbot/ChatbotManager.cs:85-95 | the reset branch does what Reset says |
| Manager.ChatbotManager.DeclareNameStep | AwarenessChatbot/ChatbotManager.cs:97-121 | the name-phrase branch does what DeclareName says |
| Manager.ChatbotManager.ProvideNameStep | AwarenessChatbot/ChatbotManager.cs:136-149 | the awaited-name branch does what ProvideName says |
| Manager.ChatbotManager.ChatStep | AwarenessChatbot/ChatbotManager.cs:151-205 | the if/else-if chain does what Chat says |
| Manager.ChatbotManager.CommandsStep | AwarenessChatbot/ChatbotManager.cs:176-205 | the commands part of the chain does what Commands says |
| Manager.ChatbotManager.FallbackStep | AwarenessChatbot/ChatbotManager.cs:194-205 | the fallback does what Fallback says |
| Manager.ChatbotManager.HandleTaskCommand | AwarenessChatbot/ChatbotManager.cs:219-320 | handled exactly when TaskCommand applies, and then does what it says; otherwise no change and an empty reply |
| Manager.ChatbotManager.AddTaskStep | AwarenessChatbot/ChatbotManager.cs:225-261 | the add branch does what AddTask says |
| Manager.ChatbotManager.AddPendingStep | AwarenessChatbot/ChatbotManager.cs:257-260 | an understood add appends the pending task and then its log entry |
| Manager.ChatbotManager.ReadReminder | AwarenessChatbot/ChatbotManager.cs:229-255 | the date phrase is understood exactly when ReminderFor says so, and then gives its reminder |
| Manager.ChatbotManager.ShowTasksStep | AwarenessChatbot/ChatbotManager.cs:264-283 | the show branch does what ShowTasks says |
| Manager.ChatbotManager.TaskListText | AwarenessChatbot/ChatbotManager.cs:267-280 | the StringBuilder loop produces the header and one line per task, or the invitation when there are none |
| Manager.ChatbotManager.CompleteStep | AwarenessChatbot/ChatbotManager.cs:286-300 | the complete branch does what CompleteTask says |
| Manager.ChatbotManager.DeleteStep | AwarenessChatbot/ChatbotManager.cs:303-317 | the delete branch does what DeleteTask says |
| Manager.ChatbotManager.HandleActivityLogCommand | AwarenessChatbot/ChatbotManager.cs:328-352 | handled exactly when the log pattern matches, and then does what ShowLog says; otherwise no change |
| Manager.ChatbotManager.RecentActionsText | AwarenessChatbot/ChatbotManager.cs:334-347 | the StringBuilder loop numbers the entries from 1 after the header, or says there are none |

## Left out

- The WinForms windows (Form1, QuizForm apart from its score tiers), the audio player, focus, colours and delays are not part of this model.
- Regular expressions are hand-written matchers for the listed patterns. They work on ASCII with single-line semantics: `$` is the end of the input and `.` is any character.
- Case conversion, `char.IsLetter` and white space are ASCII only. Culture-specific case rules are not modelled.
- `Random.Next` becomes a `roll` parameter taken modulo the number of choices. The `Guid` shuffle becomes any permutation the caller supplies. Distributions are not modelled.
- `DateTime.Now`, `DateTime.Today`, `DateTime.TryParse` and `ToShortDateString` are parameters (`Env.now`, `Env.today`, `Env.parseDate`, `Env.showDate`). Dates are day numbers.
- The exception that `AddDays` throws for a date past the calendar's range is not modelled.
- Every log entry of one turn carries the same timestamp. The source reads the clock once per entry.
- Raising `OnResetUiRequested` is reported as `resetRequested`. The handlers it would run are not modelled.
- The sentences of the topic, keyword, follow-up and sentiment tables are the `Prose` part of `Env`. `Texts.SourceProse` holds the source's own wording. Every other text is written out in its module.
- Long texts are written as concatenations of shorter pieces, because the verifier's cost for one string literal grows quickly with its length. The pieces join to exactly the source's text.
- Dictionaries are sequences in the order of their collection initializers, which is the order .NET enumerates them in.
- C# `int` counters (the quiz score and index) are unbounded. They cannot reach 2^31 in a ten-question quiz.
- `Question.CheckAnswer` on a `null` answer: strings here are never null, so only the blank case is modelled.
- The profile's `FavoriteTopic` is a non-null string, as the profile initialises it.
