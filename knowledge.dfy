/**
 * The knowledge engine (AwarenessChatbot/CoreChatbot.cs): sentiment detection,
 * remembering the user's name and favourite topic, follow-ups on the last
 * topic, keyword answers, and the composition of the final reply.
 *
 * The engine's only state of its own is its random generator; the draw it makes
 * is the parameter `roll`. The three tables are read-only: their keys are lists
 * in the order the source declares them (the order a Dictionary built by a
 * collection initializer enumerates them in), and their sentences are the
 * `prose` parameter (module Texts holds the source's own). The regular expressions are written out as the position the .NET
 * engine reports: the leftmost start, greedy runs, and the backtracking that a
 * run ending in white space causes.
 */
module Knowledge {
  import opened Strings
  import opened Profiles
  import opened Texts

  // ---------------------------------------------------------------------
  // The tables

  /** The sentiment words, in the order they are tried. */
  const SentimentKeys: seq<string> := ["worried", "frustrated", "curious", "confused", "overwhelmed"]

  /** The keywords, in the order they are tried; the follow-up table has the same keys. */
  const KeywordKeys: seq<string> := ["password", "scam", "privacy", "phishing", "malware", "2fa"]

  /** How many answers a keyword has. */
  function VariantCount(key: string): (n: nat)
    ensures key in KeywordKeys ==> n > 0
  {
    if key == "password" || key == "scam" || key == "privacy" || key == "phishing" then 3
    else if key == "malware" || key == "2fa" then 2
    else 0
  }

  /** The answers for a keyword, one of which is drawn at random. */
  function KeywordVariants(key: string, prose: Prose): (r: seq<string>)
    ensures |r| == VariantCount(key)
  {
    seq(VariantCount(key), i requires 0 <= i < VariantCount(key) => prose.keywordAnswer(key, i))
  }

  /** The phrases that ask for more about the last topic. */
  const FollowUpPhrases: seq<string> := ["tell me more", "explain", "more details", "elaborate", "what else", "can you tell me more", "more", "anymore", "let me know more", "what else"]

  /** The reply when nothing else applies. */
  const DefaultResponse: string := "I'm not sure I " + "understand. Can you " + "try rephrasing or " + "asking about a " + "specific " + "cybersecurity topic like " + "'password', 'scam', " + "'privacy', " + "'phishing tips', " + "'malware', or " + "'2FA'?"

  // ---------------------------------------------------------------------
  // Lookups

  /** The position of the first key the text contains, or -1 (a foreach over the keys that breaks at the first hit). */
  function FirstContained(keys: seq<string>, text: string): (r: int)
    ensures -1 <= r < |keys|
    ensures r == -1 <==> forall j :: 0 <= j < |keys| ==> !Contains(text, keys[j])
    ensures r >= 0 ==> Contains(text, keys[r]) && forall j :: 0 <= j < r ==> !Contains(text, keys[j])
  {
    if keys == [] then -1
    else if Contains(text, keys[0]) then 0
    else
      var k := FirstContained(keys[1..], text);
      assert forall j :: 1 <= j < |keys| ==> keys[j] == keys[1..][j - 1];
      if k == -1 then -1 else k + 1
  }

  /**
   * Does the follow-up table have the topic as a key, ignoring case? Its keys
   * are in lower case, so this is whether the lowered topic is one of them.
   */
  predicate HasFollowUp(topic: string)
  {
    Lower(topic) in KeywordKeys
  }

  /** The sentiment prefix of a lowered input: the phrase of the first sentiment word it contains, or "". */
  function SentimentPrefix(lower: string, prose: Prose): string
  {
    var s := FirstContained(SentimentKeys, lower);
    if s >= 0 then prose.empathy(SentimentKeys[s]) else ""
  }

  /** Does the lowered input ask for more (any follow-up phrase occurs in it)? */
  predicate IsFollowUp(lower: string)
  {
    exists i :: 0 <= i < |FollowUpPhrases| && Contains(lower, FollowUpPhrases[i])
  }

  // ---------------------------------------------------------------------
  // The two patterns of the memory step

  /** `(my name is|i am)\s+([a-z]+)` matched at p: the name group. */
  function NameAt(t: string, p: nat): (r: Option<string>)
    ensures r.Some? ==> |r.value| > 0 && forall i :: 0 <= i < |r.value| ==> IsLowerLetter(r.value[i])
  {
    var n := if OccursAt(t, "my name is", p) then 10 else if OccursAt(t, "i am", p) then 4 else 0;
    if n == 0 || p + n > |t| then None
    else
      var j := Span(t, p + n, IsSpace);
      if j == p + n || j == |t| || !IsLowerLetter(t[j]) then None
      else Some(t[j..Span(t, j, IsLowerLetter)])
  }

  predicate IsTopicChar(c: char) { IsLowerLetter(c) || IsSpace(c) }

  /**
   * `(i'm interested in|my favorite topic is|i like)\s+([a-z\s]+)` matched at p:
   * the topic group. After a white-space run that reaches no letter, the engine
   * gives back the run's last character to the group, when the run has two.
   */
  function TopicAt(t: string, p: nat): (r: Option<string>)
    ensures r.Some? ==> |r.value| > 0 && forall i :: 0 <= i < |r.value| ==> IsTopicChar(r.value[i])
  {
    var n :=
      if OccursAt(t, "i'm interested in", p) then 17
      else if OccursAt(t, "my favorite topic is", p) then 20
      else if OccursAt(t, "i like", p) then 6
      else 0;
    if n == 0 || p + n > |t| then None
    else
      var q := p + n;
      var j := Span(t, q, IsSpace);
      if j == q then None
      else if j < |t| && IsLowerLetter(t[j]) then Some(t[j..Span(t, j, IsTopicChar)])
      else if j - q >= 2 then Some(t[j - 1..j])
      else None
  }

  /** The name the user gives, as the pattern captures it from the lowered input. */
  function NameGroup(lower: string): Option<string>
  {
    Leftmost(lower, 0, NameAt)
  }

  /** The favourite topic the user declares, as the pattern captures it from the lowered input. */
  function TopicGroup(lower: string): Option<string>
  {
    Leftmost(lower, 0, TopicAt)
  }

  // ---------------------------------------------------------------------
  // One reply, step by step

  /** The acknowledgement of a stated name. */
  function Greeting(name: string): string
  {
    "Hello " + name + "! It's nice to meet " + "you. "
  }

  /** The acknowledgement of a stated favourite topic. */
  function TopicAcknowledgement(topic: string): string
  {
    "Great! I'll " + "remember that " + "you're interested in " + topic + ". It's a crucial " + "part of staying " + "safe online. "
  }

  /** A keyword answer addressed to the favourite topic. */
  function ForTopic(favoriteTopic: string, chosen: string): string
  {
    "As someone " + "interested in " + favoriteTopic + ", " + chosen + " "
  }

  /** A keyword answer addressed to the user by name. */
  function ForName(name: string, chosen: string): string
  {
    "Hi " + name + ", " + chosen + " "
  }

  /** What the memory step leaves: the text so far, the profile, and whether the input was a memory update. */
  datatype Memory = Memory(main: string, name: string, favoriteTopic: string, direct: bool)

  /** Step 2: remember a stated name and a stated favourite topic, acknowledging each. */
  function Remember(lower: string, name: string, favoriteTopic: string): Memory
  {
    var g := NameGroup(lower);
    var named := g.Some? && g.value != [];
    var name1 := if named then UpperFirst(g.value) else name;
    var main1 := if named then "" + Greeting(name1) else "";
    var tg := TopicGroup(lower);
    var topic := if tg.Some? then Trim(tg.value) else "";
    var favoriteTopic1 := if topic != [] then topic else favoriteTopic;
    var main2 := if topic != [] then main1 + TopicAcknowledgement(topic) else main1;
    Memory(main2, name1, favoriteTopic1, named || topic != [])
  }

  /**
   * The text with a keyword answer added, addressed to the favourite topic, to
   * the user by name, or to nobody.
   */
  function Personalise(lower: string, main: string, name: string, favoriteTopic: string, chosen: string): string
  {
    if Contains(lower, Lower(favoriteTopic)) then main + ForTopic(favoriteTopic, chosen)
    else if !Contains(main, "Hello " + name) then main + ForName(name, chosen)
    else main + chosen
  }

  /** Steps 3 and 4: a follow-up on the last topic, or a keyword answer; the text so far and the last topic after them. */
  function Converse(lower: string, main: string, name: string, favoriteTopic: string, lastTopic: string, sentimentDetected: bool, roll: nat, prose: Prose): (string, string)
  {
    var isFollowUp := IsFollowUp(lower);
    if isFollowUp && lastTopic != [] && HasFollowUp(lastTopic) then
      (main + prose.elaboration(Lower(lastTopic)), lastTopic)
    else if !isFollowUp && (IsBlank(main) || sentimentDetected) then
      var k := FirstContained(KeywordKeys, lower);
      if k < 0 then (main, lastTopic)
      else
        var key := KeywordKeys[k];
        var chosen := Pick(KeywordVariants(key, prose), roll);
        (Personalise(lower, main, name, favoriteTopic, chosen), key)
    else (main, lastTopic)
  }

  /** Step 5: the prefix and the text, trimmed, with the default reply where there is no content. */
  function Compose(prefix: string, main: string, sentimentDetected: bool): string
  {
    var final := Trim(prefix + main);
    if IsBlank(final) then DefaultResponse
    else if sentimentDetected && IsBlank(Trim(main)) then Trim(prefix + DefaultResponse)
    else final
  }

  /** The reply and what the engine changes: the profile's name and favourite topic and the last topic. */
  datatype Reply = Reply(response: string, name: string, favoriteTopic: string, lastTopic: string)

  /** CoreChatbot.GetResponse as a function of the input, the profile, the last topic and the random draw. */
  function Respond(userInput: string, name: string, favoriteTopic: string, lastTopic: string, roll: nat, prose: Prose): Reply
  {
    var lower := Lower(userInput);
    var prefix := SentimentPrefix(lower, prose);
    var sentimentDetected := FirstContained(SentimentKeys, lower) >= 0;
    var m := Remember(lower, name, favoriteTopic);
    var (main, lastTopic1) :=
      if !m.direct || sentimentDetected || IsBlank(m.main)
      then Converse(lower, m.main, m.name, m.favoriteTopic, lastTopic, sentimentDetected, roll, prose)
      else (m.main, lastTopic);
    Reply(Compose(prefix, main, sentimentDetected), m.name, m.favoriteTopic, lastTopic1)
  }

  // ---------------------------------------------------------------------
  // The engine

  /** The foreach over a key list that stops at the first key the text contains. */
  method FindFirstKey(keys: seq<string>, text: string) returns (index: int)
    ensures index == FirstContained(keys, text)
  {
    index := 0;
    while index < |keys|
      invariant 0 <= index <= |keys|
      invariant forall j :: 0 <= j < index ==> !Contains(text, keys[j])
    {
      if Contains(text, keys[index]) {
        return;
      }
      index := index + 1;
    }
    index := -1;
  }

  /** Step 2 of GetResponse: stores a stated name and favourite topic in the profile and acknowledges them. */
  method RememberStep(lowerInput: string, userProfile: UserProfile) returns (mainResponse: string, directMemoryInteraction: bool)
    modifies userProfile
    ensures Memory(mainResponse, userProfile.name, userProfile.favoriteTopic, directMemoryInteraction)
      == Remember(lowerInput, old(userProfile.name), old(userProfile.favoriteTopic))
  {
    mainResponse := "";
    directMemoryInteraction := false;
    var nameMatch := NameGroup(lowerInput);
    if nameMatch.Some? && nameMatch.value != [] {
      var name := UpperFirst(nameMatch.value);
      userProfile.name := name;
      mainResponse := mainResponse + Greeting(name);
      directMemoryInteraction := true;
    }
    var topicMatch := TopicGroup(lowerInput);
    if topicMatch.Some? {
      var topic := Trim(topicMatch.value);
      if topic != [] {
        userProfile.favoriteTopic := topic;
        mainResponse := mainResponse + TopicAcknowledgement(topic);
        directMemoryInteraction := true;
      }
    }
  }

  /** Steps 3 and 4 of GetResponse: a follow-up on the last topic, or a keyword answer. */
  method ConverseStep(lowerInput: string, mainResponse: string, name: string, favoriteTopic: string,
                      lastRecognizedTopic: string, sentimentDetected: bool, roll: nat, prose: Prose)
    returns (main: string, newLastTopic: string)
    ensures (main, newLastTopic) == Converse(lowerInput, mainResponse, name, favoriteTopic, lastRecognizedTopic, sentimentDetected, roll, prose)
  {
    main := mainResponse;
    newLastTopic := lastRecognizedTopic;
    var isFollowUp := IsFollowUp(lowerInput);
    if isFollowUp && lastRecognizedTopic != [] && HasFollowUp(lastRecognizedTopic) {
      main := main + prose.elaboration(Lower(lastRecognizedTopic));
    } else if !isFollowUp && (IsBlank(main) || sentimentDetected) {
      var k := FindFirstKey(KeywordKeys, lowerInput);
      if k >= 0 {
        newLastTopic := KeywordKeys[k];
        var chosenResponse := Pick(KeywordVariants(KeywordKeys[k], prose), roll);
        if Contains(lowerInput, Lower(favoriteTopic)) {
          main := main + ForTopic(favoriteTopic, chosenResponse);
        } else if !Contains(main, "Hello " + name) {
          main := main + ForName(name, chosenResponse);
        } else {
          main := main + chosenResponse;
        }
      }
    }
  }

  /** Step 5 of GetResponse: the prefix and the text, trimmed, with the default reply where there is no content. */
  method ComposeStep(sentimentPrefix: string, mainResponse: string, sentimentDetected: bool) returns (response: string)
    ensures response == Compose(sentimentPrefix, mainResponse, sentimentDetected)
  {
    response := Trim(sentimentPrefix + mainResponse);
    if IsBlank(response) {
      response := DefaultResponse;
    } else if sentimentDetected && IsBlank(Trim(mainResponse)) {
      response := Trim(sentimentPrefix + DefaultResponse);
    }
  }

  /**
   * CoreChatbot.GetResponse: updates the profile and returns the reply and the
   * new last topic (the source's ref parameter).
   */
  method GetResponse(userInput: string, userProfile: UserProfile, lastRecognizedTopic: string, roll: nat, prose: Prose)
    returns (response: string, newLastTopic: string)
    modifies userProfile
    ensures Reply(response, userProfile.name, userProfile.favoriteTopic, newLastTopic)
      == Respond(userInput, old(userProfile.name), old(userProfile.favoriteTopic), lastRecognizedTopic, roll, prose)
  {
    var lowerInput := Lower(userInput);

    // 1. sentiment
    var sentimentPrefix := "";
    var s := FindFirstKey(SentimentKeys, lowerInput);
    var sentimentDetected := s >= 0;
    if sentimentDetected {
      sentimentPrefix := prose.empathy(SentimentKeys[s]);
    }

    // 2. memory
    var mainResponse, directMemoryInteraction := RememberStep(lowerInput, userProfile);

    // 3 and 4. follow-up or keyword
    newLastTopic := lastRecognizedTopic;
    if !directMemoryInteraction || sentimentDetected || IsBlank(mainResponse) {
      mainResponse, newLastTopic := ConverseStep(lowerInput, mainResponse, userProfile.name, userProfile.favoriteTopic,
                                                 lastRecognizedTopic, sentimentDetected, roll, prose);
    }

    // 5. composition
    response := ComposeStep(sentimentPrefix, mainResponse, sentimentDetected);
  }

  // ---------------------------------------------------------------------
  // Properties of a reply

  /** The default reply starts and ends with a visible character. */
  lemma DefaultResponseVisible()
    ensures |DefaultResponse| > 0 && !IsSpace(DefaultResponse[0]) && !IsSpace(DefaultResponse[|DefaultResponse| - 1])
  {
  }

  /**
   * The reply is never blank; without any content it is the default reply; and
   * a sentiment with no other content never stands alone: the reply is the
   * sentiment phrase followed by the default reply.
   */
  lemma ComposeShape(prefix: string, main: string, sentimentDetected: bool)
    ensures !IsBlank(Compose(prefix, main, sentimentDetected))
    ensures IsBlank(prefix + main) ==> Compose(prefix, main, sentimentDetected) == DefaultResponse
    ensures !IsBlank(prefix + main) && sentimentDetected && IsBlank(main) ==>
      Compose(prefix, main, sentimentDetected) == TrimStart(prefix) + DefaultResponse
    ensures !IsBlank(prefix + main) && !(sentimentDetected && IsBlank(main)) ==>
      Compose(prefix, main, sentimentDetected) == Trim(prefix + main)
  {
    DefaultResponseVisible();
    TrimBlankIff(prefix + main);
    TrimBlankIff(main);
    TrimBeforeVisible(prefix, DefaultResponse);
    var r := TrimStart(prefix) + DefaultResponse;
    assert r[|TrimStart(prefix)|] == DefaultResponse[0];
  }

  /** GetResponse never answers with a blank string. */
  lemma ResponseNeverBlank(userInput: string, name: string, favoriteTopic: string, lastTopic: string, roll: nat, prose: Prose)
    ensures !IsBlank(Respond(userInput, name, favoriteTopic, lastTopic, roll, prose).response)
  {
    var lower := Lower(userInput);
    var sentimentDetected := FirstContained(SentimentKeys, lower) >= 0;
    var m := Remember(lower, name, favoriteTopic);
    var (main, _) :=
      if !m.direct || sentimentDetected || IsBlank(m.main)
      then Converse(lower, m.main, m.name, m.favoriteTopic, lastTopic, sentimentDetected, roll, prose)
      else (m.main, lastTopic);
    ComposeShape(SentimentPrefix(lower, prose), main, sentimentDetected);
  }

  /**
   * The prefix comes from the first sentiment word, in table order, that the
   * input contains; with none there is no prefix.
   */
  lemma SentimentFromFirstWord(lower: string, k: nat, prose: Prose)
    requires k < |SentimentKeys| && Contains(lower, SentimentKeys[k])
    requires forall j :: 0 <= j < k ==> !Contains(lower, SentimentKeys[j])
    ensures SentimentPrefix(lower, prose) == prose.empathy(SentimentKeys[k])
  {
    var s := FirstContained(SentimentKeys, lower);
    assert s == k;
  }

  /** Without a sentiment word there is no prefix. */
  lemma NoSentimentNoPrefix(lower: string, prose: Prose)
    requires forall j :: 0 <= j < |SentimentKeys| ==> !Contains(lower, SentimentKeys[j])
    ensures SentimentPrefix(lower, prose) == ""
  {
  }

  /**
   * A name stated anywhere in the input is found: if the name pattern matches at
   * some position, the leftmost match supplies a non-empty lower-case name.
   */
  lemma NameFound(lower: string, p: nat)
    requires p <= |lower| && NameAt(lower, p).Some?
    ensures NameGroup(lower).Some?
    ensures var g := NameGroup(lower).value; |g| > 0 && forall i :: 0 <= i < |g| ==> IsLowerLetter(g[i])
  {
    LeftmostIsFirst(lower, 0, NameAt);
    var q :| 0 <= q <= |lower| && NameAt(lower, q) == NameGroup(lower);
  }

  /**
   * A stated name becomes the profile's name with its first letter in upper
   * case, and the reply greets it; without one the name is kept.
   */
  lemma RememberName(lower: string, name: string, favoriteTopic: string)
    ensures NameGroup(lower).None? ==> Remember(lower, name, favoriteTopic).name == name
    ensures NameGroup(lower).Some? ==>
      var g := NameGroup(lower).value;
      var m := Remember(lower, name, favoriteTopic);
      |g| > 0 && m.direct && m.name == [UpperChar(g[0])] + g[1..]
  {
    if NameGroup(lower).Some? {
      LeftmostIsFirst(lower, 0, NameAt);
      var q :| 0 <= q <= |lower| && NameAt(lower, q) == NameGroup(lower);
    }
  }

  /**
   * A stated favourite topic, trimmed, replaces the remembered one unless it is
   * blank (a match that captures only white space changes nothing).
   */
  lemma RememberTopic(lower: string, name: string, favoriteTopic: string)
    ensures var m := Remember(lower, name, favoriteTopic);
      (TopicGroup(lower).None? ==> m.favoriteTopic == favoriteTopic) &&
      (TopicGroup(lower).Some? && IsBlank(TopicGroup(lower).value) ==> m.favoriteTopic == favoriteTopic) &&
      (TopicGroup(lower).Some? && !IsBlank(TopicGroup(lower).value) ==>
        m.direct && m.favoriteTopic == Trim(TopicGroup(lower).value) && !IsBlank(m.favoriteTopic))
  {
    if TopicGroup(lower).Some? {
      TrimBlank(TopicGroup(lower).value);
      TrimBlankIff(TopicGroup(lower).value);
    }
  }

  /**
   * A follow-up on a known last topic appends that topic's explanation and keeps
   * the last topic; a follow-up without one adds nothing and keeps it too.
   */
  lemma FollowUpKeepsTopic(lower: string, main: string, name: string, favoriteTopic: string, lastTopic: string, sentimentDetected: bool, roll: nat, prose: Prose)
    requires IsFollowUp(lower)
    ensures var (main1, last1) := Converse(lower, main, name, favoriteTopic, lastTopic, sentimentDetected, roll, prose);
      last1 == lastTopic &&
      (HasFollowUp(lastTopic) ==> main1 == main + prose.elaboration(Lower(lastTopic))) &&
      (!HasFollowUp(lastTopic) ==> main1 == main)
  {
    if HasFollowUp(lastTopic) {
      assert |Lower(lastTopic)| > 0;
    }
  }

  /**
   * A keyword answer is given only when the input is no follow-up and there is
   * no content yet or a sentiment needs some: then the first keyword the input
   * contains becomes the last topic and one of its answers is added.
   */
  lemma KeywordSetsTopic(lower: string, main: string, name: string, favoriteTopic: string, lastTopic: string, sentimentDetected: bool, roll: nat, prose: Prose)
    requires !IsFollowUp(lower) && (IsBlank(main) || sentimentDetected)
    ensures var (main1, last1) := Converse(lower, main, name, favoriteTopic, lastTopic, sentimentDetected, roll, prose);
      var k := FirstContained(KeywordKeys, lower);
      (k < 0 ==> main1 == main && last1 == lastTopic) &&
      (k >= 0 ==>
        last1 == KeywordKeys[k] && Contains(lower, last1) &&
        exists chosen :: chosen in KeywordVariants(last1, prose) && main1 == Personalise(lower, main, name, favoriteTopic, chosen))
  {
    var k := FirstContained(KeywordKeys, lower);
    if k >= 0 {
      var chosen := Pick(KeywordVariants(KeywordKeys[k], prose), roll);
      assert chosen in KeywordVariants(KeywordKeys[k], prose);
    }
  }

  /** No keyword answer and no follow-up text is added when the input was only a memory update. */
  lemma MemoryOnlyReply(userInput: string, name: string, favoriteTopic: string, lastTopic: string, roll: nat, prose: Prose)
    requires var lower := Lower(userInput);
      var m := Remember(lower, name, favoriteTopic);
      m.direct && !IsBlank(m.main) && FirstContained(SentimentKeys, lower) < 0
    ensures var r := Respond(userInput, name, favoriteTopic, lastTopic, roll, prose);
      var m := Remember(Lower(userInput), name, favoriteTopic);
      r.lastTopic == lastTopic && r.response == Trim(m.main)
  {
    var lower := Lower(userInput);
    var m := Remember(lower, name, favoriteTopic);
    assert SentimentPrefix(lower, prose) == "";
    assert "" + m.main == m.main;
    ComposeShape("", m.main, false);
  }

  /**
   * The keyword answer is addressed to the favourite topic when the input
   * mentions it, otherwise to the user by name unless the reply already greets
   * them, otherwise it is added as it is.
   */
  lemma PersonaliseOrder(lower: string, main: string, name: string, favoriteTopic: string, chosen: string)
    ensures Contains(lower, Lower(favoriteTopic)) ==>
      Personalise(lower, main, name, favoriteTopic, chosen) == main + "As someone " + "interested in " + favoriteTopic + ", " + chosen + " "
    ensures !Contains(lower, Lower(favoriteTopic)) && !Contains(main, "Hello " + name) ==>
      Personalise(lower, main, name, favoriteTopic, chosen) == main + "Hi " + name + ", " + chosen + " "
    ensures !Contains(lower, Lower(favoriteTopic)) && Contains(main, "Hello " + name) ==>
      Personalise(lower, main, name, favoriteTopic, chosen) == main + chosen
  {
  }

  /**
   * The empty string occurs in every input, so a user with no favourite topic
   * (the profile's initial state) is always addressed as
   * "As someone interested in , ..." and never by name.
   */
  lemma {:induction false} EmptyTopicAlwaysMatches(lower: string, main: string, name: string, chosen: string)
    ensures Personalise(lower, main, name, "", chosen) == main + "As someone " + "interested in , " + chosen + " "
  {
    assert Lower("") == "";
    assert OccursAt(lower, "", 0);
  }
}
