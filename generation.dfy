/** The pure parts of `generate_questions` in app.py: the difficulty
    description chosen for the prompt, and the mapping from a failed
    completion request to the banner text shown to the user. */
module Generation {
  import opened Text

  datatype Option<T> = None | Some(value: T)

  // The three grade labels offered by the difficulty selector.
  const Grade2: string := "כיתה ב׳ (קל)"
  const Grade3: string := "כיתה ג׳ (בינוני)"
  const Gifted: string := "מחוננים (מאתגר)"

  /** The selector's options, in display order. */
  const DifficultyOptions: seq<string> := [Grade2, Grade3, Gifted]

  const Grade2Description: string :=
    "ילדים בכיתה ב׳, בגילאי 7-8. השתמש במילים פשוטות מאוד, משפטים קצרים, ודוגמאות מהחיים היומיומיים של ילדים"
  const Grade3Description: string :=
    "ילדים בכיתה ג׳, בגילאי 8-9. השתמש בשפה ברורה, אפשר להוסיף מעט מורכבות"
  const GiftedDescription: string :=
    "ילדים מחוננים בכיתות ב-ג, שאוהבים אתגרים. אפשר להוסיף שאלות חשיבה ופתרון בעיות"

  /** `difficulty_map`: grade label to the audience description put into the prompt. */
  const DifficultyMap: map<string, string> :=
    map[Grade2 := Grade2Description, Grade3 := Grade3Description, Gifted := GiftedDescription]

  /** `difficulty_map.get(difficulty, difficulty_map["כיתה ב׳ (קל)"])`. */
  function Describe(difficulty: string): (desc: string)
    ensures difficulty == Grade2 ==> desc == Grade2Description
    ensures difficulty == Grade3 ==> desc == Grade3Description
    ensures difficulty == Gifted ==> desc == GiftedDescription
    ensures difficulty !in DifficultyOptions ==> desc == Grade2Description
  {
    if difficulty in DifficultyMap then DifficultyMap[difficulty] else DifficultyMap[Grade2]
  }

  /** The table has exactly the selector's options as keys, so the default
      is reached only by a label the selector cannot produce. */
  lemma TableKeysAreOptions()
    ensures DifficultyMap.Keys == set l | l in DifficultyOptions
    ensures |DifficultyOptions| == 3
  {
  }

  /** Each listed label has its own description: the lookup is one-to-one on them. */
  lemma DescriptionsDistinct(a: string, b: string)
    requires a in DifficultyOptions && b in DifficultyOptions
    ensures Describe(a) == Describe(b) <==> a == b
  {
    assert |Grade2Description| == 103 && |Grade3Description| == 69 && |GiftedDescription| == 78;
  }

  /** The arguments `generate_questions` is called with, besides the client:
      the topic, the difficulty label and the number of questions.  The
      prompt it builds from them uses `Describe(difficulty)`. */
  datatype Request = Request(topic: string, difficulty: string, count: int)

  /** The outcome of the completion request, as seen by `generate_questions`:
      the reply's text, or the text of the exception it raised. */
  datatype Completion = Answered(content: string) | Raised(message: string)

  /** The four kinds of failure the user is told about. */
  datatype Failure = ApiKeyProblem | RateLimited | TimedOut | Unexpected(detail: string)

  /** The classifier: ordered substring tests on the lowercased message. */
  function ClassifyError(message: string): Failure {
    var lowered := Lower(message);
    if Contains(lowered, "api_key") then ApiKeyProblem
    else if Contains(lowered, "rate_limit") then RateLimited
    else if Contains(lowered, "timeout") then TimedOut
    else Unexpected(message)
  }

  /** The substrings the classifier looks for, in the order it looks. */
  const Rules: seq<(string, Failure)> :=
    [("api_key", ApiKeyProblem), ("rate_limit", RateLimited), ("timeout", TimedOut)]

  /** Reference definition: the failure of the first rule whose substring occurs in `text`. */
  function FirstMatch(rules: seq<(string, Failure)>, text: string, otherwise: Failure): Failure {
    if rules == [] then otherwise
    else if Contains(text, rules[0].0) then rules[0].1
    else FirstMatch(rules[1..], text, otherwise)
  }

  /** The first rule that matches decides, whatever the later rules say. */
  lemma {:induction false} FirstMatchEarliest(rules: seq<(string, Failure)>, text: string, otherwise: Failure, k: nat)
    requires k < |rules| && Contains(text, rules[k].0)
    requires forall j :: 0 <= j < k ==> !Contains(text, rules[j].0)
    ensures FirstMatch(rules, text, otherwise) == rules[k].1
  {
    if k > 0 {
      assert !Contains(text, rules[0].0);
      FirstMatchEarliest(rules[1..], text, otherwise, k - 1);
    }
  }

  /** When no rule matches, the fallback is the answer. */
  lemma {:induction false} FirstMatchNone(rules: seq<(string, Failure)>, text: string, otherwise: Failure)
    requires forall j :: 0 <= j < |rules| ==> !Contains(text, rules[j].0)
    ensures FirstMatch(rules, text, otherwise) == otherwise
  {
    if rules != [] {
      assert !Contains(text, rules[0].0);
      FirstMatchNone(rules[1..], text, otherwise);
    }
  }

  /** The classifier is the first-match rule table applied to the lowercased
      message, with the original message as the fallback. */
  lemma ClassifyErrorIsFirstMatch(message: string)
    ensures ClassifyError(message) == FirstMatch(Rules, Lower(message), Unexpected(message))
  {
    var t := Lower(message);
    if Contains(t, "api_key") {
      FirstMatchEarliest(Rules, t, Unexpected(message), 0);
    } else if Contains(t, "rate_limit") {
      FirstMatchEarliest(Rules, t, Unexpected(message), 1);
    } else if Contains(t, "timeout") {
      FirstMatchEarliest(Rules, t, Unexpected(message), 2);
    } else {
      FirstMatchNone(Rules, t, Unexpected(message));
    }
  }

  /** A message is classified as rule `k` exactly when rule `k` occurs in the
      lowercased message and no earlier rule does. */
  lemma ClassifyErrorPriority(message: string, k: nat)
    requires k < |Rules|
    ensures ClassifyError(message) == Rules[k].1 <==>
              Contains(Lower(message), Rules[k].0) && forall j :: 0 <= j < k ==> !Contains(Lower(message), Rules[j].0)
  {
    ClassifyErrorIsFirstMatch(message);
  }

  /** The generic outcome keeps the original message, not the lowercased one,
      and is chosen exactly when none of the three substrings occurs. */
  lemma ClassifyErrorFallback(message: string)
    ensures ClassifyError(message).Unexpected? <==> forall j :: 0 <= j < |Rules| ==> !Contains(Lower(message), Rules[j].0)
    ensures ClassifyError(message).Unexpected? ==> ClassifyError(message).detail == message
  {
    assert Rules[0].0 == "api_key" && Rules[1].0 == "rate_limit" && Rules[2].0 == "timeout";
  }

  /** Case does not matter: messages that lowercase alike get the same kind of
      failure, and upper-casing never turns a known failure into another one. */
  lemma ClassifyErrorIgnoresCase(m1: string, m2: string)
    requires Lower(m1) == Lower(m2)
    ensures !ClassifyError(m1).Unexpected? ==> ClassifyError(m1) == ClassifyError(m2)
    ensures ClassifyError(m1).Unexpected? <==> ClassifyError(m2).Unexpected?
  {
  }

  /** Lowercasing a message first changes nothing but the generic message's text. */
  lemma ClassifyErrorLowered(message: string)
    ensures !ClassifyError(message).Unexpected? ==> ClassifyError(Lower(message)) == ClassifyError(message)
    ensures ClassifyError(message).Unexpected? <==> ClassifyError(Lower(message)).Unexpected?
  {
    LowerIdempotent(message);
    ClassifyErrorIgnoresCase(message, Lower(message));
  }

  const ApiKeyMessage: string := "🔑 בעיה עם מפתח ה-API. אנא בדוק שהמפתח תקין."
  const RateLimitMessage: string := "⏳ יותר מדי בקשות! אנא המתן מעט ונסה שוב."
  const TimeoutMessage: string := "⌛ הבקשה לקחה יותר מדי זמן. אנא נסה שוב."
  const GenericPrefix: string := "❌ שגיאה ביצירת השאלות: "

  /** The banner text for a failure. */
  function FailureMessage(f: Failure): (msg: string)
    ensures msg != ""
  {
    match f
    case ApiKeyProblem => ApiKeyMessage
    case RateLimited => RateLimitMessage
    case TimedOut => TimeoutMessage
    case Unexpected(detail) => GenericPrefix + detail
  }

  /** Different failures produce different banners, so the banner tells which
      failure it was (and, for the generic one, the original message). */
  lemma FailureMessageInjective(f: Failure, g: Failure)
    ensures FailureMessage(f) == FailureMessage(g) <==> f == g
  {
    if FailureMessage(f) == FailureMessage(g) {
      var m := FailureMessage(f);
      assert m[0] == FailureMessage(g)[0];
      if f.Unexpected? && g.Unexpected? {
        assert f.detail == m[|GenericPrefix|..];
        assert g.detail == m[|GenericPrefix|..];
      }
    }
  }

  /** `generate_questions`' result: the questions text or an error banner text. */
  datatype Outcome = Outcome(questions: Option<string>, error: Option<string>)

  /** `generate_questions` once the completion has been obtained. */
  function GenerateQuestions(completion: Completion): (r: Outcome)
    ensures r.questions.None? <==> r.error.Some?
    ensures completion.Answered? <==> r.error.None?
    ensures r.questions.Some? ==> r.questions.value == completion.content
    ensures r.error.Some? ==> r.error.value != ""
    ensures completion.Raised? ==> r.error == Some(FailureMessage(ClassifyError(completion.message)))
  {
    match completion
    case Answered(content) => Outcome(Some(content), None)
    case Raised(message) => Outcome(None, Some(FailureMessage(ClassifyError(message))))
  }
}
