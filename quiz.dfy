/**
 * The quiz session (AwarenessChatbot/QuizGame.cs) and the result message the
 * quiz window derives from the final score (AwarenessChatbot/QuizForm.cs).
 *
 * The source shuffles the question list with Guid.NewGuid(); here every
 * operation that shuffles receives the new order from its caller, and the only
 * thing required of it is that it is a permutation of the current list.
 */
module Quiz {
  import opened Strings
  import opened Questions

  /** A question of the bank: its stored answer starts with a visible character. */
  type BankEntry = q: Question | |q.CorrectAnswerString()| > 0 && !IsSpace(q.CorrectAnswerString()[0])
    witness TrueFalse("", false, "")

  /** Question i of InitializeQuestions, in declaration order. */
  function BankQuestion(i: nat): BankEntry
    requires i < 10
  {
    if i == 0 then PhishingQuestion()
    else if i == 1 then StrongPasswordQuestion()
    else if i == 2 then UnknownLinksQuestion()
    else if i == 3 then TwoFactorQuestion()
    else if i == 4 then MalwareQuestion()
    else if i == 5 then PublicWifiQuestion()
    else if i == 6 then PhishingSignQuestion()
    else if i == 7 then BackupQuestion()
    else if i == 8 then AntivirusQuestion()
    else SocialEngineeringQuestion()
  }

  /** Question 1: What phishing is. */
  function PhishingQuestion(): BankEntry
  {
    var q := MultipleChoice(
      "What is phishing?",
      ["A) A type of online game",
       "B) An attempt to " + "trick you into " + "revealing personal " + "information",
       "C) A fishing technique",
       "D) A secure way to " + "browse the internet"],
      "B) An attempt to " + "trick you into " + "revealing personal " + "information",
      "Phishing is a " + "deceptive attempt " + "to acquire " + "sensitive " + "information such as " + "usernames, passwords, and " + "credit card " + "details, often for " + "malicious reasons, " + "by masquerading as " + "a trustworthy " + "entity in an " + "electronic " + "communication.");
    assert q.correctAnswer[0] == 'B';
    q
  }

  /** Question 2: Which password is strong. */
  function StrongPasswordQuestion(): BankEntry
  {
    var q := MultipleChoice(
      "Which of the " + "following is an " + "example of a strong " + "password?",
      ["A) Password123",
       "B) 12345678",
       "C) MyDogName",
       "D) L@rgeP@$$w0rd!"],
      "D) L@rgeP@$$w0rd!",
      "A strong password " + "combines uppercase " + "and lowercase " + "letters, numbers, " + "and symbols, and is " + "generally long (12+ " + "characters).");
    assert q.correctAnswer[0] == 'D';
    q
  }

  /** Question 3: Clicking links from unknown senders. */
  function UnknownLinksQuestion(): BankEntry
  {
    var q := TrueFalse(
      "True or False: It " + "is safe to click on " + "links from unknown " + "senders if they " + "look interesting.",
      false,
      "False. Clicking on " + "links from unknown " + "senders can lead to " + "malware infections " + "or phishing sites. " + "Always verify the " + "sender before " + "clicking.");
    assert q.CorrectAnswerString()[0] == 'F';
    q
  }

  /** Question 4: What 2FA stands for. */
  function TwoFactorQuestion(): BankEntry
  {
    var q := MultipleChoice(
      "What does '2FA' " + "stand for in " + "cybersecurity?",
      ["A) Two-Factor " + "Authentication",
       "B) Two-Function Access",
       "C) Double File Access",
       "D) Second Firewall " + "Activation"],
      "A) Two-Factor " + "Authentication",
      "2FA adds an extra " + "layer of security " + "by requiring two " + "different methods " + "of authentication " + "before granting " + "access.");
    assert q.correctAnswer[0] == 'A';
    q
  }

  /** Question 5: What malware is. */
  function MalwareQuestion(): BankEntry
  {
    var q := MultipleChoice(
      "What is malware?",
      ["A) Software used " + "for email management",
       "B) Malicious " + "software designed " + "to damage or " + "disable computer " + "systems",
       "C) A tool for " + "website development",
       "D) A type of " + "computer hardware"],
      "B) Malicious " + "software designed " + "to damage or " + "disable computer " + "systems",
      "Malware is a " + "general term for " + "malicious software " + "like viruses, " + "worms, and " + "ransomware, " + "designed to harm or " + "exploit computer " + "systems.");
    assert q.correctAnswer[0] == 'B';
    q
  }

  /** Question 6: Public Wi-Fi without a VPN. */
  function PublicWifiQuestion(): BankEntry
  {
    var q := TrueFalse(
      "True or False: " + "Using public Wi-Fi " + "without a VPN is " + "always safe for " + "sensitive activities" + " like online " + "banking.",
      false,
      "False. Public Wi-Fi " + "networks are often " + "unsecured, making " + "your data vulnerable" + " to interception. A " + "VPN encrypts your " + "traffic and " + "provides protection.");
    assert q.CorrectAnswerString()[0] == 'F';
    q
  }

  /** Question 7: A sign of a phishing email. */
  function PhishingSignQuestion(): BankEntry
  {
    var q := MultipleChoice(
      "What is a common " + "sign of a phishing " + "email?",
      ["A) Perfect grammar " + "and spelling",
       "B) Requests for " + "urgent action or " + "personal information",
       "C) Comes from a " + "well-known " + "company's official " + "domain",
       "D) Contains " + "detailed contact " + "information for the " + "sender"],
      "B) Requests for " + "urgent action or " + "personal information",
      "Phishing emails " + "often create a " + "sense of urgency, " + "contain grammatical " + "errors, or ask for " + "sensitive data like " + "passwords.");
    assert q.correctAnswer[0] == 'B';
    q
  }

  /** Question 8: Backing up important data. */
  function BackupQuestion(): BankEntry
  {
    var q := MultipleChoice(
      "What is the best " + "practice for " + "backing up " + "important data?",
      ["A) Only store it on " + "your computer's " + "hard drive",
       "B) Use multiple " + "methods, including " + "cloud storage and " + "external drives",
       "C) Email it to " + "yourself as the " + "only backup",
       "D) Don't back up; " + "data loss is rare"],
      "B) Use multiple " + "methods, including " + "cloud storage and " + "external drives",
      "The 3-2-1 backup " + "rule suggests " + "having three copies " + "of your data, on " + "two different " + "media, with one " + "copy offsite.");
    assert q.correctAnswer[0] == 'B';
    q
  }

  /** Question 9: What antivirus software covers. */
  function AntivirusQuestion(): BankEntry
  {
    var q := TrueFalse(
      "True or False: " + "Antivirus software " + "can protect you " + "from all types of " + "cyber threats.",
      false,
      "False. While " + "antivirus software " + "is crucial, it's " + "not foolproof. A " + "multi-layered " + "approach including " + "strong passwords, " + "firewalls, and " + "cautious online " + "behavior is " + "necessary.");
    assert q.CorrectAnswerString()[0] == 'F';
    q
  }

  /** Question 10: What social engineering is. */
  function SocialEngineeringQuestion(): BankEntry
  {
    var q := MultipleChoice(
      "What is social " + "engineering in " + "cybersecurity?",
      ["A) Using social " + "media to promote " + "cybersecurity " + "awareness",
       "B) Manipulating " + "people to trick " + "them into divulging " + "confidential " + "information",
       "C) Designing secure " + "social networks",
       "D) Automated " + "systems for " + "detecting online " + "fraud"],
      "B) Manipulating " + "people to trick " + "them into divulging " + "confidential " + "information",
      "Social engineering " + "preys on human " + "psychology to trick " + "individuals into " + "performing actions " + "or divulging " + "confidential " + "information.");
    assert q.correctAnswer[0] == 'B';
    q
  }

  /** The question bank before shuffling. */
  function Bank(): (r: seq<BankEntry>)
    ensures |r| == 10
  {
    seq(10, i requires 0 <= i < 10 => BankQuestion(i))
  }

  /** Every stored answer of a list of questions has a visible character. */
  predicate AnswersVisible(qs: seq<Question>)
  {
    forall q :: q in qs ==> !IsBlank(q.CorrectAnswerString())
  }

  /** Every stored answer of the bank starts with a visible character. */
  lemma BankVisible()
    ensures AnswersVisible(Bank())
  {
    forall q | q in Bank()
      ensures !IsBlank(q.CorrectAnswerString())
    {
      assert !IsSpace(q.CorrectAnswerString()[0]);
    }
  }

  /** A reordering of the bank keeps every stored answer visible. */
  lemma ShuffleVisible(qs: seq<Question>)
    requires multiset(qs) == multiset(Bank())
    ensures AnswersVisible(qs)
  {
    BankVisible();
    forall q | q in qs
      ensures q in Bank()
    {
      assert q in multiset(qs);
    }
  }

  /** The closing message of the quiz window. */
  datatype Tier = Expert | SolidUnderstanding | KeepLearning

  /**
   * The message tier for a final score: all correct, at least half (with C#
   * integer division, so rounded down), or fewer.
   */
  function ResultTier(finalScore: int, totalQuestions: nat): Tier
  {
    if finalScore == totalQuestions then Expert
    else if finalScore >= totalQuestions / 2 then SolidUnderstanding
    else KeepLearning
  }

  /**
   * The tiers partition the scores: Expert exactly at the total; SolidUnderstanding
   * from half the total, rounded down, up to one below it (and, oddly, above it);
   * KeepLearning below half.
   */
  lemma TierBoundaries(finalScore: int, totalQuestions: nat)
    ensures ResultTier(finalScore, totalQuestions) == Expert <==> finalScore == totalQuestions
    ensures ResultTier(finalScore, totalQuestions) == SolidUnderstanding <==>
              finalScore != totalQuestions && 2 * finalScore >= totalQuestions - totalQuestions % 2
    ensures ResultTier(finalScore, totalQuestions) == KeepLearning <==>
              finalScore != totalQuestions && 2 * finalScore < totalQuestions - totalQuestions % 2
  {
  }

  /** With the ten-question bank: 10 is expert, 5 to 9 is solid, 0 to 4 is keep learning. */
  lemma TenQuestionTiers(finalScore: nat)
    requires finalScore <= 10
    ensures ResultTier(finalScore, 10) == Expert <==> finalScore == 10
    ensures ResultTier(finalScore, 10) == SolidUnderstanding <==> 5 <= finalScore <= 9
    ensures ResultTier(finalScore, 10) == KeepLearning <==> finalScore <= 4
  {
  }

  /** With an odd total the half rounds down: 2 of 5 already counts as a solid understanding. */
  lemma OddTotalRoundsDown()
    ensures ResultTier(2, 5) == SolidUnderstanding
    ensures ResultTier(1, 5) == KeepLearning
  {
  }

  /** A quiz session over a shuffled copy of the bank. */
  class QuizGame {
    var questions: seq<Question>
    var currentQuestionIndex: int
    var score: int
    var isQuizActive: bool

    /** The list is always an ordering of the bank, and the counters never go negative. */
    ghost predicate Valid()
      reads this
    {
      multiset(questions) == multiset(Bank()) && 0 <= currentQuestionIndex && 0 <= score
    }

    /** InitializeQuestions followed by ResetQuiz: the bank in the caller's order, inactive, counters at 0. */
    constructor(shuffled: seq<Question>)
      requires multiset(shuffled) == multiset(Bank())
      ensures Valid()
      ensures questions == shuffled
      ensures currentQuestionIndex == 0 && score == 0 && !isQuizActive
    {
      questions := shuffled;
      currentQuestionIndex := 0;
      score := 0;
      isQuizActive := false;
    }

    /** The 1-based number of the current question. */
    function CurrentQuestionNumber(): (r: int)
      reads this
      ensures r == currentQuestionIndex + 1
      ensures Valid() ==> r >= 1
    {
      currentQuestionIndex + 1
    }

    /** Back to the start, inactive, with the questions reordered. */
    method ResetQuiz(shuffled: seq<Question>)
      requires Valid() && multiset(shuffled) == multiset(questions)
      modifies this
      ensures Valid()
      ensures questions == shuffled
      ensures currentQuestionIndex == 0 && score == 0 && !isQuizActive
    {
      currentQuestionIndex := 0;
      score := 0;
      isQuizActive := false;
      questions := shuffled;
    }

    /** ResetQuiz, then active. */
    method StartQuiz(shuffled: seq<Question>)
      requires Valid() && multiset(shuffled) == multiset(questions)
      modifies this
      ensures Valid()
      ensures questions == shuffled && |questions| == |old(questions)|
      ensures currentQuestionIndex == 0 && score == 0 && isQuizActive
    {
      ResetQuiz(shuffled);
      isQuizActive := true;
    }

    /** The question being asked: there is one exactly while the quiz is active and the list is not exhausted. */
    function GetCurrentQuestion(): (r: Option<Question>)
      reads this
      ensures r.Some? <==> isQuizActive && 0 <= currentQuestionIndex < |questions|
      ensures r.Some? ==> r.value == questions[currentQuestionIndex]
    {
      if isQuizActive && 0 <= currentQuestionIndex < |questions| then Some(questions[currentQuestionIndex]) else None
    }

    /** Advances the index by one; reports whether a question remains. */
    method NextQuestion() returns (more: bool)
      requires Valid()
      modifies this
      ensures Valid()
      ensures currentQuestionIndex == old(currentQuestionIndex) + 1
      ensures more <==> isQuizActive && currentQuestionIndex < |questions|
      ensures questions == old(questions) && score == old(score) && isQuizActive == old(isQuizActive)
    {
      currentQuestionIndex := currentQuestionIndex + 1;
      more := isQuizActive && currentQuestionIndex < |questions|;
    }

    /**
     * Checks an answer to the current question; a correct answer adds one to the
     * score. With no current question nothing changes and the answer is wrong.
     */
    method SubmitAnswer(userAnswer: string) returns (isCorrect: bool)
      requires Valid()
      modifies this
      ensures Valid()
      ensures old(GetCurrentQuestion()).None? ==> !isCorrect
      ensures old(GetCurrentQuestion()).Some? ==> isCorrect == CheckAnswer(old(GetCurrentQuestion()).value, userAnswer)
      ensures score == old(score) + (if isCorrect then 1 else 0)
      ensures questions == old(questions) && currentQuestionIndex == old(currentQuestionIndex)
      ensures isQuizActive == old(isQuizActive)
    {
      var currentQuestion := GetCurrentQuestion();
      if currentQuestion.Some? {
        isCorrect := CheckAnswer(currentQuestion.value, userAnswer);
        if isCorrect {
          score := score + 1;
        }
      } else {
        isCorrect := false;
      }
    }

    function GetScore(): (r: int)
      reads this
      ensures Valid() ==> r >= 0
      ensures r == score
    {
      score
    }

    /** The number of questions, which every valid session keeps at the size of the bank. */
    function GetTotalQuestions(): (r: int)
      reads this
      ensures Valid() ==> r == |Bank()| == 10
    {
      assert |multiset(questions)| == |questions|;
      |questions|
    }

    /** Deactivates the session and keeps the score and position; ending twice is ending once. */
    method EndQuiz()
      requires Valid()
      modifies this
      ensures Valid()
      ensures !isQuizActive
      ensures questions == old(questions) && currentQuestionIndex == old(currentQuestionIndex) && score == old(score)
    {
      isQuizActive := false;
    }
  }

  /**
   * The quiz window's loop with a player who always types the stored answer:
   * start, submit, advance until no question remains, end. Every answer is
   * accepted, so the score is the full ten and the message is the expert one.
   */
  method PerfectGame(first: seq<Question>, second: seq<Question>) returns (finalScore: int, total: int, tier: Tier)
    requires multiset(first) == multiset(Bank()) && multiset(second) == multiset(Bank())
    ensures finalScore == total == 10
    ensures tier == Expert
  {
    ShuffleVisible(second);
    var game := new QuizGame(first);
    game.StartQuiz(second);
    var more := true;
    while more
      invariant game.Valid() && game.isQuizActive
      invariant game.questions == second
      invariant game.score == game.currentQuestionIndex <= |second|
      invariant more <==> game.currentQuestionIndex < |second|
      decreases |second| - game.currentQuestionIndex
    {
      var q := game.GetCurrentQuestion();
      StoredAnswerAccepted(q.value);
      var correct := game.SubmitAnswer(q.value.CorrectAnswerString());
      more := game.NextQuestion();
    }
    finalScore := game.GetScore();
    total := game.GetTotalQuestions();
    tier := ResultTier(finalScore, total);
    game.EndQuiz();
  }
}
