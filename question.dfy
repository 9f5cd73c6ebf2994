/**
 * A quiz question and the check of a player's answer against it
 * (AwarenessChatbot/Question.cs).
 *
 * The source has one class with two constructors and an IsTrueFalse flag; here
 * the two constructors are the two variants of a datatype, and the properties
 * the class derives for a true/false question (its options and its answer
 * string) are functions of the variant.
 */
module Questions {
  import opened Strings

  datatype Question =
    | MultipleChoice(questionText: string, options: seq<string>, correctAnswer: string, explanation: string)
    | TrueFalse(questionText: string, correctValue: bool, explanation: string)
  {
    /** The options offered to the player. */
    function Options(): (r: seq<string>)
      ensures TrueFalse? ==> r == ["True", "False"]
      ensures MultipleChoice? ==> r == options
    {
      if TrueFalse? then ["True", "False"] else options
    }

    /** The stored correct answer: the full option text, or "True"/"False" for a true/false question. */
    function CorrectAnswerString(): (r: string)
      ensures TrueFalse? ==> r == (if correctValue then "True" else "False")
      ensures MultipleChoice? ==> r == correctAnswer
    {
      if TrueFalse? then (if correctValue then "True" else "False") else correctAnswer
    }
  }

  /** The answer normalisation of CheckAnswer: Trim().ToLowerInvariant(). */
  function Normalize(s: string): string
  {
    Lower(Trim(s))
  }

  /** The spellings a true/false question accepts for the given correct value. */
  function BooleanSpellings(value: bool): seq<string>
  {
    if value then ["true", "t"] else ["false", "f"]
  }

  /** Tier 1: the whole option string, ignoring case and surrounding white space. */
  predicate MatchesFullOption(answer: string, option: string)
  {
    answer == Normalize(option)
  }

  /** Tier 2: the option's leading letter alone, when the option starts with a letter. */
  predicate MatchesLetter(answer: string, option: string)
  {
    |option| > 0 && IsLetter(option[0]) && |answer| == 1 && answer[0] == LowerChar(option[0])
  }

  /** Tier 3: the text after the option's first ')', when some text follows it. */
  predicate MatchesTextPart(answer: string, option: string)
  {
    var paren := IndexOf(option, ')');
    paren != -1 && paren + 1 < |option| && answer == Normalize(option[paren + 1..])
  }

  /** Question.CheckAnswer: is the player's answer accepted? */
  function CheckAnswer(q: Question, userAnswer: string): (accepted: bool)
    ensures IsBlank(userAnswer) ==> !accepted
    ensures q.TrueFalse? ==> (accepted <==> Normalize(userAnswer) in BooleanSpellings(q.correctValue))
    ensures q.MultipleChoice? ==>
      (accepted <==>
        !IsBlank(userAnswer) &&
        (MatchesFullOption(Normalize(userAnswer), q.correctAnswer) ||
         MatchesLetter(Normalize(userAnswer), q.correctAnswer) ||
         MatchesTextPart(Normalize(userAnswer), q.correctAnswer)))
  {
    TrimBlank(userAnswer);
    if IsBlank(userAnswer) then false
    else
      var answer := Normalize(userAnswer);
      match q
      case TrueFalse(_, value, _) =>
        if value then answer == "true" || answer == "t" else answer == "false" || answer == "f"
      case MultipleChoice(_, _, option, _) =>
        if MatchesFullOption(answer, option) then true
        else if MatchesLetter(answer, option) then true
        else MatchesTextPart(answer, option)
  }

  // ---------------------------------------------------------------------
  // Properties of the answer check

  /** The stored correct answer is itself accepted, unless it is blank. */
  lemma StoredAnswerAccepted(q: Question)
    requires !IsBlank(q.CorrectAnswerString())
    ensures CheckAnswer(q, q.CorrectAnswerString())
  {
    if q.TrueFalse? {
      var s := q.CorrectAnswerString();
      TrimNoOp(s);
      assert Normalize(s) == Lower(s);
      if q.correctValue {
        assert Lower("True") == "true";
      } else {
        assert Lower("False") == "false";
      }
    }
  }

  /**
   * An option written "L) text" (a letter, a parenthesis, then text of more than one
   * visible character).
   */
  predicate LabelledOption(option: string)
  {
    |option| >= 2 && IsLetter(option[0]) && option[1] == ')' && |Normalize(option[2..])| >= 2
  }

  /**
   * For a labelled option, a one-character answer is accepted exactly when it is
   * the option's letter in lower case: for "B) ...", "b" and "B" are accepted and
   * "a" is rejected.
   */
  lemma SingleCharacterAnswer(q: Question, userAnswer: string)
    requires q.MultipleChoice? && LabelledOption(q.correctAnswer)
    requires |Normalize(userAnswer)| == 1
    ensures CheckAnswer(q, userAnswer) <==> Normalize(userAnswer)[0] == LowerChar(q.correctAnswer[0])
  {
    var option := q.correctAnswer;
    var answer := Normalize(userAnswer);
    TrimBlank(userAnswer);
    assert !IsBlank(userAnswer);
    // tier 1 cannot hold: the normalised option keeps at least "l)"
    TrimKeepsFront(option);
    TrimEndDrops(option);
    assert |TrimEnd(option)| >= 2 by {
      assert !IsSpace(option[1]);
      assert TrimEnd(option) == option[..|TrimEnd(option)|];
    }
    assert !MatchesFullOption(answer, option);
    // tier 3 cannot hold: the text after ')' is longer than one character
    assert IndexOf(option, ')') == 1;
    assert !MatchesTextPart(answer, option);
  }

  /** A visible, lower-case answer is its own normal form. */
  lemma NormalizeVisible(s: string)
    requires s != [] && !IsSpace(s[0]) && !IsSpace(s[|s| - 1])
    requires forall i :: 0 <= i < |s| ==> !('A' <= s[i] <= 'Z')
    ensures Normalize(s) == s
  {
    TrimNoOp(s);
    LowerNoUpper(s);
  }

  /**
   * For a labelled option, an answer that is the text after "L)" (up to case and
   * surrounding white space) is accepted.
   */
  lemma TextPartAccepted(q: Question, userAnswer: string)
    requires q.MultipleChoice? && LabelledOption(q.correctAnswer)
    requires Normalize(userAnswer) == Normalize(q.correctAnswer[2..])
    ensures CheckAnswer(q, userAnswer)
  {
    TrimBlank(userAnswer);
    assert IndexOf(q.correctAnswer, ')') == 1;
  }

  /** An example option, "B) ok", normalises its text part to "ok". */
  lemma ExampleOptionShape()
    ensures LabelledOption("B) ok")
    ensures Normalize("B) ok"[2..]) == "ok"
  {
    assert "B) ok"[2..] == " ok";
    assert Trim(" ok") == "ok" by {
      assert TrimStart(" ok") == TrimStart(" ok"[1..]);
      assert " ok"[1..] == "ok";
    }
    LowerNoUpper("ok");
  }

  /** For the correct option "B) ok", the answers "B) ok", "b" and "ok" are accepted and "a" is not. */
  lemma ExampleAnswers(q: Question)
    requires q.MultipleChoice? && q.correctAnswer == "B) ok"
    ensures CheckAnswer(q, "B) ok")
    ensures CheckAnswer(q, "b")
    ensures CheckAnswer(q, "ok")
    ensures !CheckAnswer(q, "a")
  {
    ExampleOptionShape();
    assert CheckAnswer(q, "B) ok") by {
      assert !IsSpace("B) ok"[0]);
      StoredAnswerAccepted(q);
    }
    assert CheckAnswer(q, "b") by {
      NormalizeVisible("b");
      SingleCharacterAnswer(q, "b");
    }
    assert !CheckAnswer(q, "a") by {
      NormalizeVisible("a");
      SingleCharacterAnswer(q, "a");
    }
    NormalizeVisible("ok");
    TextPartAccepted(q, "ok");
  }

  /** "false", "f", "true" and "t" are their own normal forms, and not blank. */
  lemma BooleanWordsNormal()
    ensures Normalize("false") == "false" && !IsBlank("false")
    ensures Normalize("f") == "f" && !IsBlank("f")
    ensures Normalize("true") == "true"
    ensures Normalize("t") == "t"
  {
    NormalizeVisible("false");
    assert !IsSpace("false"[0]);
    NormalizeVisible("f");
    assert !IsSpace("f"[0]);
    NormalizeVisible("true");
    NormalizeVisible("t");
  }

  /** A true/false question whose answer is False accepts "false" and "f", and rejects "true", "t" and "". */
  lemma FalseQuestionAnswers(q: Question)
    requires q.TrueFalse? && !q.correctValue
    ensures CheckAnswer(q, "false") && CheckAnswer(q, "f")
    ensures !CheckAnswer(q, "true") && !CheckAnswer(q, "t") && !CheckAnswer(q, "")
  {
    BooleanWordsNormal();
  }
}
