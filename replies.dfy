/**
 * The texts the dispatcher (AwarenessChatbot/ChatbotManager.cs) answers with
 * and writes to the activity log, and the choice of topic article
 * (GetCybersecurityInfo; the articles' wording is the Prose of module Texts).
 *
 * A reply chosen with Random.Next(4) is a function of the draw `roll`, taken
 * modulo the number of variants.
 */
module Replies {
  import opened Strings
  import opened Tasks
  import opened Texts

  /** StringBuilder.AppendLine's line end (Environment.NewLine on Windows). */
  const NewLine: string := "\r\n"

  // ---------------------------------------------------------------------
  // Log entries

  function InputEntry(userInput: string): string
  {
    "User Input: \"" + userInput + "\""
  }

  function ResponseEntry(response: string): string
  {
    "Chatbot responded: \"" + response + "\""
  }

  function NameSetEntry(name: string): string
  {
    "User set name to '" + name + "'."
  }

  function NameProvidedEntry(name: string): string
  {
    "User provided name: '" + name + "'."
  }

  // ---------------------------------------------------------------------
  // Conversation

  function NiceToMeet(name: string): string
  {
    "Nice to meet you, " + name + "! How can I help " + "you stay cyber-safe " + "today?"
  }

  function AlreadyKnown(newName: string, name: string): string
  {
    "I already know you as " + newName + ", " + name + "! How can I help today?"
  }

  function NameAnswer(name: string): string
  {
    "I am AwarenessBot, " + "your personal " + "cybersecurity " + "assistant. And you " + "are, " + name + "?"
  }

  /** GetRandomGreeting: four greetings, each addressed to the user by name. */
  function GreetingReply(name: string, roll: nat): string
  {
    var i := roll % 4;
    if i == 0 then "Hello, " + name + "! How can I assist " + "you with " + "cybersecurity today?"
    else if i == 1 then "Hi there, " + name + "! Ready to learn " + "more about staying " + "safe online?"
    else if i == 2 then "Greetings, " + name + "! What's on your " + "mind regarding " + "cybersecurity?"
    else "Hey, " + name + "! How can I help " + "secure your digital " + "life?"
  }

  /** GetRandomThankYouResponse. */
  function ThanksReply(roll: nat): string
  {
    var i := roll % 4;
    if i == 0 then "You're welcome!"
    else if i == 1 then "My pleasure, always " + "happy to help!"
    else if i == 2 then "No problem at all!"
    else "Glad I could assist!"
  }

  /**
   * GetRandomGoodbyeResponse. The third text is a plain string, not an
   * interpolated one, so it carries the braces and the field name literally.
   */
  function GoodbyeReply(roll: nat): string
  {
    var i := roll % 4;
    if i == 0 then "Goodbye! Stay safe " + "online!"
    else if i == 1 then "Farewell! Remember " + "to practice good " + "cybersecurity " + "habits!"
    else if i == 2 then "See you later, " + "{_userProfile.Name}!" + " Have a secure day!"
    else "Until next time! " + "Keep your digital " + "guard up!"
  }

  /** GetRandomUnrecognizedResponse. */
  function UnrecognizedReply(roll: nat): string
  {
    var i := roll % 4;
    if i == 0 then "I'm sorry, I didn't " + "quite understand " + "that. Can you " + "rephrase or try a " + "command like 'add " + "task', 'show " + "tasks', 'start " + "quiz', or 'show " + "activity log'?"
    else if i == 1 then "My apologies, I'm " + "still learning! " + "Perhaps you could " + "try a command like " + "'tell me about " + "phishing' or 'set " + "reminder'?"
    else if i == 2 then "I'm not sure what " + "you mean. Please " + "use simple commands " + "like 'reset', 'show " + "tasks', or ask a " + "question about a " + "cybersecurity " + "topic."
    else "Could you please " + "clarify? I can help " + "with tasks, " + "reminders, quizzes, " + "and cybersecurity " + "information."
  }

  // ---------------------------------------------------------------------
  // Tasks

  /** " with a reminder for {date}" when there is a reminder. */
  function ReminderNote(reminder: Option<Date>, showDate: Date -> string): string
  {
    if reminder.Some? then " with a reminder for " + showDate(reminder.value) else ""
  }

  /** " due {date}" when there is a reminder. */
  function DueNote(reminder: Option<Date>, showDate: Date -> string): string
  {
    if reminder.Some? then " due " + showDate(reminder.value) else ""
  }

  function TaskAdded(title: string, reminder: Option<Date>, showDate: Date -> string): string
  {
    "Okay, I've added '" + title + "' to your tasks" + ReminderNote(reminder, showDate) + "."
  }

  function TaskAddedEntry(title: string, reminder: Option<Date>, showDate: Date -> string): string
  {
    "Task added: '" + title + "'" + DueNote(reminder, showDate) + "."
  }

  function DateNotUnderstood(title: string, dateString: string): string
  {
    "I can add '" + title + "', but I couldn't " + "understand the date '" + dateString
      + "'. Please use a " + "clear date like " + "'tomorrow', 'in 7 " + "days', or 'YYYY-MM-DD'."
  }

  /** One line of the task list: "- {task}" and a line end. */
  function TaskLine(v: TaskView, showDate: Date -> string): string
  {
    "- " + Describe(v, showDate) + NewLine
  }

  /** The task list's lines, in order. */
  function TaskLines(vs: seq<TaskView>, showDate: Date -> string): (r: string)
    ensures vs != [] ==> |r| > 0
  {
    if vs == [] then "" else TaskLines(vs[..|vs| - 1], showDate) + TaskLine(vs[|vs| - 1], showDate)
  }

  /** The show branch's reply: the task lines after the header, or an invitation when there are none. */
  function TaskListSummary(vs: seq<TaskView>, showDate: Date -> string): string
  {
    if vs != [] then "Here are your " + "current tasks:\n" + TaskLines(vs, showDate) else "You don't have any " + "tasks right now. " + "Would you like to " + "add one?"
  }

  function Completed(title: string, name: string): string
  {
    "Great! Task '" + title + "' marked as " + "completed. Well " + "done, " + name + "!"
  }

  function CompletedEntry(title: string): string
  {
    "Task marked as " + "completed: '" + title + "'."
  }

  function NotFoundToComplete(title: string): string
  {
    "I couldn't find a " + "task named '" + title + "' to mark as " + "complete. Please " + "check the spelling."
  }

  function Deleted(title: string): string
  {
    "Okay, I've deleted " + "task '" + title + "'."
  }

  function DeletedEntry(title: string): string
  {
    "Task deleted: '" + title + "'."
  }

  function NotFoundToDelete(title: string): string
  {
    "I couldn't find a " + "task named '" + title + "' to delete. Please " + "check the spelling."
  }

  // ---------------------------------------------------------------------
  // The activity log

  /** One numbered line: "{n}. {entry}" and a line end. */
  function NumberedLine(n: nat, entry: string): string
  {
    NatToString(n) + ". " + entry + NewLine
  }

  /** The entries as lines numbered from 1, in order. */
  function NumberedLines(entries: seq<string>): (r: string)
    ensures entries != [] ==> |r| > 0
  {
    if entries == [] then ""
    else NumberedLines(entries[..|entries| - 1]) + NumberedLine(|entries|, entries[|entries| - 1])
  }

  /** The activity log branch's reply: the numbered entries after the header, or a note that there are none. */
  function RecentActionsSummary(recent: seq<string>): string
  {
    if recent != [] then "Here\U{2019}s a summary of " + "recent actions:\n" + NumberedLines(recent) else "No recent activities" + " to show."
  }

  // ---------------------------------------------------------------------
  // Topic articles

  /**
   * The article a topic selects: its position among the articles, or -1 for
   * the default text. "2fa" and "two-factor authentication" share one article.
   */
  function ArticleIndex(topic: string): int
  {
    if topic == "phishing" then 0
    else if topic == "malware" then 1
    else if topic == "2fa" || topic == "two-factor " + "authentication" then 2
    else if topic == "password" then 3
    else if topic == "encryption" then 4
    else if topic == "firewall" then 5
    else if topic == "virus" then 6
    else if topic == "ransomware" then 7
    else if topic == "vpn" then 8
    else if topic == "cybersecurity" then 9
    else if topic == "data breach" then 10
    else if topic == "social engineering" then 11
    else if topic == "spyware" then 12
    else if topic == "trojan" then 13
    else -1
  }

  /** GetCybersecurityInfo: the switch over the topic. */
  function CybersecurityInfo(topic: string, prose: Prose): string
  {
    var i := ArticleIndex(topic);
    if i >= 0 then prose.topicArticle(i) else "I can provide " + "information on " + "phishing, malware, " + "2FA, passwords, and " + "more. What specific " + "topic would you " + "like to know about?"
  }

}
