/**
 * The regular expressions of the dispatcher (AwarenessChatbot/ChatbotManager.cs),
 * written out as matchers.
 *
 * Every pattern is compiled with RegexOptions.IgnoreCase, so each matcher works
 * on the lowered input; lowering keeps every position, so a group is cut from
 * the input as typed at the positions found in the lowered text. Each matcher
 * reports what the .NET engine reports: the leftmost match, greedy runs taken
 * as far as they go, a lazy group extended one character at a time, and the
 * one character a greedy white-space run gives back when what follows it needs
 * a character.
 */
module Patterns {
  import opened Strings

  /** `\b` after a word character at position i: the text ends or a non-word character follows. */
  predicate WordEndsAt(t: string, i: nat)
  {
    i >= |t| || !IsWordChar(t[i])
  }

  /** `^(a|b|...)\b`: some alternative starts the text and is followed by a word boundary. */
  predicate StartsWithWord(t: string, alternatives: seq<string>)
  {
    exists i :: 0 <= i < |alternatives| && OccursAt(t, alternatives[i], 0) && WordEndsAt(t, |alternatives[i]|)
  }

  predicate IsColonOrSpace(c: char) { c == ':' || IsSpace(c) }

  // ---------------------------------------------------------------------
  // Conversation patterns

  /** GreetingRegex: `^(hi|hello|hey|good (morning|afternoon|evening))\b`. */
  predicate IsGreeting(input: string)
  {
    StartsWithWord(Lower(input), ["hi", "hello", "hey", "good morning", "good afternoon", "good evening"])
  }

  /** ThankYouRegex: `^(thank you|thanks|cheers|much appreciated)\b`. */
  predicate IsThanks(input: string)
  {
    StartsWithWord(Lower(input), ["thank you", "thanks", "cheers", "much appreciated"])
  }

  /** GoodbyeRegex: `^(bye|goodbye|see you|farewell|later)\b`. */
  predicate IsGoodbye(input: string)
  {
    StartsWithWord(Lower(input), ["bye", "goodbye", "see you", "farewell", "later"])
  }

  /** NameQuestionRegex: the whole input is one of the name questions. */
  predicate IsNameQuestion(input: string)
  {
    Lower(input) in ["what is your name", "what is your name?", "who are you", "who are you?",
                     "tell me about yourself", "tell me about yourself?", "your name", "your name?"]
  }

  /** ResetCommandRegex: the whole input is one of the reset commands. */
  predicate IsReset(input: string)
  {
    Lower(input) in ["reset", "start over", "clear conversation", "new conversation"]
  }

  /** The length of the `my name is|i am|you can call me|call me` alternative at the start, or 0. */
  function NameVerbLength(t: string): nat
  {
    if OccursAt(t, "my name is", 0) then 10
    else if OccursAt(t, "i am", 0) then 4
    else if OccursAt(t, "you can call me", 0) then 15
    else if OccursAt(t, "call me", 0) then 7
    else 0
  }

  /**
   * MyNameIsRegex: `^(my name is|i am|you can call me|call me)\s+(?<name>.+)$`;
   * the name group, a non-empty tail of the input. When only white space
   * follows the phrase, the group is its last character.
   */
  function NameDeclaration(input: string): (r: Option<string>)
    ensures r.Some? ==> 0 < |r.value| <= |input| && r.value == input[|input| - |r.value|..]
  {
    var t := Lower(input);
    var v := NameVerbLength(t);
    if v == 0 then None
    else
      var j := Span(t, v, IsSpace);
      if j == v then None
      else if j < |t| then Some(input[j..])
      else if j - v >= 2 then Some(input[|t| - 1..])
      else None
  }

  // ---------------------------------------------------------------------
  // Task patterns

  /** The length of `task|to-do|item` at p, or 0. */
  function TaskNounLength(t: string, p: nat): nat
  {
    if OccursAt(t, "task", p) then 4
    else if OccursAt(t, "to-do", p) then 5
    else if OccursAt(t, "item", p) then 4
    else 0
  }

  /** The length of `task|to-do|item|chore` at p, or 0. */
  function AddNounLength(t: string, p: nat): nat
  {
    var n := TaskNounLength(t, p);
    if n > 0 then n else if OccursAt(t, "chore", p) then 5 else 0
  }

  /** The length of `add|create|new` at the start, or 0. */
  function AddVerbLength(t: string): nat
  {
    if OccursAt(t, "add", 0) then 3
    else if OccursAt(t, "create", 0) then 6
    else if OccursAt(t, "new", 0) then 3
    else 0
  }

  /** The length of `due|on|by|at` at p, or 0. */
  function DueWordLength(t: string, p: nat): nat
  {
    if OccursAt(t, "due", p) then 3
    else if OccursAt(t, "on", p) then 2
    else if OccursAt(t, "by", p) then 2
    else if OccursAt(t, "at", p) then 2
    else 0
  }

  /**
   * The optional date group ` (due|on|by|at)\s*(?<dueDate>.+)` tried at e and
   * followed by the end of the text: where the date starts.
   */
  function DueAt(t: string, e: nat): (r: Option<nat>)
    ensures r.Some? ==> e < r.value < |t|
  {
    if e >= |t| || t[e] != ' ' then None
    else
      var w := DueWordLength(t, e + 1);
      if w == 0 then None
      else
        var f := Span(t, e + 1 + w, IsSpace);
        if f < |t| then Some(f)
        else if f > e + 1 + w then Some(|t| - 1)
        else None
  }

  /** The end of the lazy description: the first position from e on where the date group matches, or the end. */
  function DescriptionEnd(t: string, e: nat): (r: nat)
    requires e <= |t|
    ensures e <= r <= |t|
    ensures r == |t| || DueAt(t, r).Some?
    ensures forall k :: e <= k < r ==> DueAt(t, k).None?
    decreases |t| - e
  {
    if e == |t| || DueAt(t, e).Some? then e else DescriptionEnd(t, e + 1)
  }

  /** The groups of an add command, as typed. */
  datatype AddGroups = AddGroups(description: string, dueDate: Option<string>)

  /** Where the noun starts after the verb's white space at j: past `a\s*` when a noun follows it, else at j. */
  function AddNounStart(t: string, j: nat): (k: nat)
    ensures k >= j
  {
    if j < |t| && t[j] == 'a' && AddNounLength(t, Span(t, j + 1, IsSpace)) > 0 then Span(t, j + 1, IsSpace) else j
  }

  /**
   * `[:\s]*(?<taskDescription>.+?)(?: (due|on|by|at)\s*(?<dueDate>.+))?$` from m,
   * the end of the noun: the groups as typed.
   */
  function AddGroupsFrom(input: string, m: nat): (r: Option<AddGroups>)
    requires m <= |input|
    ensures r.Some? ==> r.value.description != [] && (r.value.dueDate.Some? ==> r.value.dueDate.value != [])
  {
    var t := Lower(input);
    var d := Span(t, m, IsColonOrSpace);
    if d < |t| then
      var e := DescriptionEnd(t, d + 1);
      var due := DueAt(t, e);
      Some(AddGroups(input[d..e], if due.Some? then Some(input[due.value..]) else None))
    else if d > m then Some(AddGroups(input[|t| - 1..], None))
    else None
  }

  /**
   * AddTaskRegex:
   * `^(add|create|new)\s+(a\s*)?(task|to-do|item|chore)[:\s]*(?<taskDescription>.+?)(?: (due|on|by|at)\s*(?<dueDate>.+))?$`.
   */
  function AddTaskMatch(input: string): Option<AddGroups>
  {
    var t := Lower(input);
    var v := AddVerbLength(t);
    if v == 0 then None
    else
      var j := Span(t, v, IsSpace);
      if j == v then None
      else
        var k := AddNounStart(t, j);
        var n := AddNounLength(t, k);
        if n == 0 then None else AddGroupsFrom(input, k + n)
  }

  /** The length of `complete|finish|done with|mark as done` at p, or 0. */
  function CompleteVerbLength(t: string, p: nat): nat
  {
    if OccursAt(t, "complete", p) then 8
    else if OccursAt(t, "finish", p) then 6
    else if OccursAt(t, "done with", p) then 9
    else if OccursAt(t, "mark as done", p) then 12
    else 0
  }

  /** The length of `delete|remove|erase` at p, or 0. */
  function DeleteVerbLength(t: string, p: nat): nat
  {
    if OccursAt(t, "delete", p) then 6
    else if OccursAt(t, "remove", p) then 6
    else if OccursAt(t, "erase", p) then 5
    else 0
  }

  /**
   * `(verb)\s+(task|to-do|item)?\s*[:\s]*(?<taskTitle>.+)$` at p, for a verb of
   * length v found there: where the title starts (it runs to the end).
   */
  function TitleStart(t: string, p: nat, v: nat): (r: Option<nat>)
    ensures r.Some? ==> r.value < |t|
  {
    if v == 0 || p + v > |t| then None
    else
      var j := Span(t, p + v, IsSpace);
      if j == p + v then None
      else
        var n := TaskNounLength(t, j);
        var k := j + n;
        var d := Span(t, k, IsColonOrSpace);
        if d < |t| then Some(d)
        else if d > k then Some(|t| - 1)
        else if n > 0 then Some(j)
        else if j - (p + v) >= 2 then Some(|t| - 1)
        else None
  }

  function CompleteAt(t: string, p: nat): (r: Option<nat>)
    ensures r.Some? ==> r.value < |t|
  {
    TitleStart(t, p, CompleteVerbLength(t, p))
  }

  function DeleteAt(t: string, p: nat): (r: Option<nat>)
    ensures r.Some? ==> r.value < |t|
  {
    TitleStart(t, p, DeleteVerbLength(t, p))
  }

  /** The title group, as typed, of the leftmost match of a title command. */
  function TitleGroup(input: string, at: (string, nat) -> Option<nat>): (r: Option<string>)
    requires forall t, p :: at(t, p).Some? ==> at(t, p).value < |t|
  {
    var t := Lower(input);
    var s := Leftmost(t, 0, at);
    if s.None? then None
    else
      LeftmostIsFirst(t, 0, at);
      Some(input[s.value..])
  }

  /** CompleteTaskRegex: `(complete|finish|done with|mark as done)\s+(task|to-do|item)?\s*[:\s]*(?<taskTitle>.+)$`. */
  function CompleteMatch(input: string): Option<string>
  {
    TitleGroup(input, CompleteAt)
  }

  /** DeleteTaskRegex: `(delete|remove|erase)\s+(task|to-do|item)?\s*[:\s]*(?<taskTitle>.+)$`. */
  function DeleteMatch(input: string): Option<string>
  {
    TitleGroup(input, DeleteAt)
  }

  /** The length of `show|list|display|view|what are|tell me my` at p, or 0. */
  function ShowVerbLength(t: string, p: nat): nat
  {
    if OccursAt(t, "show", p) then 4
    else if OccursAt(t, "list", p) then 4
    else if OccursAt(t, "display", p) then 7
    else if OccursAt(t, "view", p) then 4
    else if OccursAt(t, "what are", p) then 8
    else if OccursAt(t, "tell me my", p) then 10
    else 0
  }

  const TaskListNouns: seq<string> := ["tasks", "to-dos", "items", "agenda", "outstanding", "things to do"]

  /** `(show|...)\s+(my\s*)?(tasks|...|things to do)$` at p. */
  predicate ShowTasksAt(t: string, p: nat)
  {
    var v := ShowVerbLength(t, p);
    v > 0 && p + v <= |t| &&
    var j := Span(t, p + v, IsSpace);
    j > p + v &&
    if OccursAt(t, "my", j) then t[Span(t, j + 2, IsSpace)..] in TaskListNouns else t[j..] in TaskListNouns
  }

  /** ShowTasksRegex matches somewhere in the input. */
  predicate IsShowTasks(input: string)
  {
    exists p :: 0 <= p <= |input| && ShowTasksAt(Lower(input), p)
  }

  // ---------------------------------------------------------------------
  // Activity log and information patterns

  /** Where `(w\s+)?` ends when tried at i: after w and its white space when both are there, else i. */
  function OptionalWord(t: string, i: nat, w: string): (r: nat)
    requires i <= |t|
    ensures i <= r <= |t|
  {
    if OccursAt(t, w, i) && Span(t, i + |w|, IsSpace) > i + |w| then Span(t, i + |w|, IsSpace) else i
  }

  /** Where `^(show|display|what's\s+in\s+the|get|give\s+me)` ends, or 0 when it does not match. */
  function LogVerbEnd(t: string): (r: nat)
    ensures r <= |t|
  {
    if OccursAt(t, "show", 0) then 4
    else if OccursAt(t, "display", 0) then 7
    else if OccursAt(t, "what's", 0) then
      var a := Span(t, 6, IsSpace);
      if a > 6 && OccursAt(t, "in", a) then
        var b := Span(t, a + 2, IsSpace);
        if b > a + 2 && OccursAt(t, "the", b) then b + 3 else 0
      else 0
    else if OccursAt(t, "get", 0) then 3
    else if OccursAt(t, "give", 0) then
      var a := Span(t, 4, IsSpace);
      if a > 4 && OccursAt(t, "me", a) then a + 2 else 0
    else 0
  }

  /** `(\s+please)?\s*$` from i. */
  predicate LogTail(t: string, i: nat)
    requires i <= |t|
  {
    IsBlank(t[i..]) ||
    var j := Span(t, i, IsSpace);
    j > i && OccursAt(t, "please", j) && IsBlank(t[j + 6..])
  }

  /** ShowLogRegex: `^(show|display|what's\s+in\s+the|get|give\s+me)\s+(my\s+)?(activity\s+)?log(s)?(\s+please)?\s*$`. */
  predicate IsShowLog(input: string)
  {
    var t := Lower(input);
    var v := LogVerbEnd(t);
    v > 0 &&
    var i1 := Span(t, v, IsSpace);
    i1 > v &&
    var i3 := OptionalWord(t, OptionalWord(t, i1, "my"), "activity");
    OccursAt(t, "log", i3) &&
    var i5 := if i3 + 3 < |t| && t[i3 + 3] == 's' then i3 + 4 else i3 + 3;
    LogTail(t, i5)
  }

  /** The topics CybersecurityInfoRegex accepts. */
  const InfoTopics: seq<string> :=
    ["phishing", "malware", "2fa", "two-factor " + "authentication", "password", "encryption", "firewall", "virus",
     "ransomware", "vpn", "cybersecurity", "data breach", "social engineering", "spyware", "trojan"]

  /** The length of `tell me about|what is|explain|define|can you tell me about` at the start, or 0. */
  function InfoVerbLength(t: string): nat
  {
    if OccursAt(t, "tell me about", 0) then 13
    else if OccursAt(t, "what is", 0) then 7
    else if OccursAt(t, "explain", 0) then 7
    else if OccursAt(t, "define", 0) then 6
    else if OccursAt(t, "can you tell me about", 0) then 21
    else 0
  }

  /**
   * CybersecurityInfoRegex: `^(tell me about|...)\s+(?<topic>phishing|...|trojan)$`;
   * the topic group trimmed and lowered. The group is one of the listed topics,
   * which have no surrounding white space, so this is its lowered text.
   */
  function InfoTopic(input: string): (r: Option<string>)
    ensures r.Some? ==> r.value in InfoTopics
  {
    var t := Lower(input);
    var v := InfoVerbLength(t);
    if v == 0 then None
    else
      var j := Span(t, v, IsSpace);
      if j > v && t[j..] in InfoTopics then Some(t[j..]) else None
  }

  /** `in\s+(\d+)\s+days` at p: where the digits start and end. */
  function InDaysAt(t: string, p: nat): (r: Option<(nat, nat)>)
    ensures r.Some? ==> r.value.0 < r.value.1 <= |t|
  {
    if !OccursAt(t, "in", p) then None
    else
      var j := Span(t, p + 2, IsSpace);
      var k := Span(t, j, IsDigit);
      var m := Span(t, k, IsSpace);
      if j > p + 2 && k > j && m > k && OccursAt(t, "days", m) then Some((j, k)) else None
  }

  /** The digits group of the leftmost `in\s+(\d+)\s+days` in a date phrase (ignoring case). */
  function InDaysDigits(dateString: string): (r: Option<string>)
    ensures r.Some? ==> |r.value| > 0 && forall i :: 0 <= i < |r.value| ==> IsDigit(r.value[i])
  {
    var t := Lower(dateString);
    var s := Leftmost(t, 0, InDaysAt);
    if s.None? then None
    else
      LeftmostIsFirst(t, 0, InDaysAt);
      Some(t[s.value.0..s.value.1])
  }

  /** Does the input match any of the task commands (add, show, complete, delete)? */
  predicate IsTaskCommand(input: string)
  {
    AddTaskMatch(input).Some? || IsShowTasks(input) || CompleteMatch(input).Some? || DeleteMatch(input).Some?
  }
}
