# Kids' quiz generator: a Dafny model of `app.py`

`app.py` is a Streamlit page that asks a chat-completion service for a quiz
of questions in Hebrew for young children. It then shows the quiz as one card
per question. This project models the logic under the page:

- **Segmenter** (`segmenter.dfy`): `display_questions`. It cuts the free text
  of the reply into lines. A "question start" line opens a new numbered card.
  Any other non-blank line is joined, after one space, onto the card being
  built. `Segmentation` is the specification of what is shown. `Segment` and
  `ScanLines` are the application's loop, proved equal to it.
- **Generation** (`generation.dfy`): the pure parts of `generate_questions`.
  These are the difficulty table, with its fallback to the grade-2
  description, and the classification of a failed request into one of four
  banners.
- **Session** (`session.dfy`): one run of `main` after the widgets have been
  read.
  - It models the three gates of the generate button: a blank topic, a client
    error and a generation error.
  - It models the write of the four `session_state` slots, which happens
    only on success.
  - It models the view of the last quiz when the button was not pressed.
  - `Main` is the specification of a run. The class `QuizSession` holds the
    four slots and runs the same steps imperatively.
  - The client factory and the completion request are inputs of the run.
    The calls made to them are returned as a trace, so "stops before the
    client is built" can be stated.
- **Text** (`text.dfy`): the parts of Python's `str` that these use:
  `strip`, `split`, `startswith`, `lower`, `isdigit`, `in` and
  `split(':', 1)[1]`. `Join` is not used by the application. It only
  serves to state results, such as the text of a card built from several
  lines.

Two places where the code's behaviour is not a plain "number the questions
1, 2, 3":

- Numbering follows the code (`question_num` starts at 0 and goes up at each
  question start, `app.py:272`, `app.py:291`). So text before the first
  question start, or text with no question start at all, is shown as a card
  numbered **0**, not 1 (`LeadingTextIsCardZero`, `NoMarkersOneCard`).
- A question start with an empty body that is followed directly by another
  question start uses up its number without showing a card
  (`EmptyMarkerSkipsNumber`). Blank lines in between do not count
  (`BlankLinesIgnored`). A continuation line after it becomes that number's
  card instead (`EmptyMarkerTakesNextLine`).

## Model

| member | source | states |
|---|---|---|
| Text.Strip | app.py:270 | `str.strip()`: a result that neither starts nor ends with whitespace, no longer than the input; `StripSlice` and `StripEmpty` characterise it |
| Text.Split | app.py:270 | `str.split(sep)`: never an empty list, and no piece holds the separator; `JoinSplit` and `SplitAtFirst` characterise it |
| Text.Lower | app.py:255 | `str.lower()` on ASCII capitals: same length, each character lowercased one by one |
| Text.AfterFirst | app.py:294 | `split(':', 1)[1]`: shorter than the line; `AfterFirstSplit` characterises it |
| Text.IsSpace | app.py:270-276 | the characters `strip()` removes: Python's `str.isspace` set written out code point by code point; `StripSlice` and `StripEmpty` characterise what it removes |
| Text.IsDigit | app.py:281 | `str.isdigit` on the ASCII digits; `NumberedLineWindow` uses it |
| Text.StartsWith | app.py:281 | `str.startswith`: the prefix is the leading slice of the line; `QuestionLine` uses it |
| Text.StripSlice | app.py:270 | `strip()` keeps a slice of the input, and everything it removes at both ends is whitespace |
| Text.StripEmpty | app.py:275-277 | a stripped line is empty exactly when every character of it is whitespace |
| Text.StripIdempotent | app.py:270-276 | stripping twice is the same as stripping once |
| Text.JoinSplit | app.py:270 | the pieces of `split('\n')` joined with line feeds give back the text, so no character is lost |
| Text.SplitAtFirst | app.py:270 | splitting at the first separator yields the text before it followed by the split of the rest |
| Text.Contains | app.py:255-259 | Python's `sub in s` holds exactly when `sub` occurs at some position of `s` |
| Text.LowerIdempotent | app.py:255 | lowercasing an already lowercased message changes nothing |
| Text.AfterFirstSplit | app.py:294 | `split(':', 1)[1]` is the text after the first ':', and the text before it contains no ':' |
| Segmenter.IsMarker | app.py:281 | the question-start test; `NumberedLineWindow` and `QuestionLine` characterise it |
| Segmenter.MarkerBody | app.py:293-296 | the text a question-start line keeps; `MarkerBodyShape` characterises it |
| Segmenter.Classify | app.py:275-281 | how one loop iteration reads a raw line; `BlankLineEffect`, `ContinuationLineEffect` and `MarkerLineEffect` characterise it |
| Segmenter.Advance | app.py:275-299 | one iteration of the loop; `AdvanceKeepsInv` and the three line-effect lemmas characterise it |
| Segmenter.Lines | app.py:270 | the lines the loop iterates over; `JoinSplit` and `StripSlice` characterise it |
| Segmenter.Cards | app.py:272-308 | the cards shown for a list of raw lines; `BlankLinesIgnored` and `CardsOnlyGrow` characterise it |
| Segmenter.Segmentation | app.py:265-308 | the cards `display_questions` shows for a text; `SegmentationShape`, `NoMarkersOneCard`, `LeadingTextIsCardZero` and `TwoQuestions` characterise it |
| Segmenter.Flush | app.py:283-308 | `if current_question:` shows the accumulated question under the current number only when it is non-empty; `FlushShape` and `MarkerLineEffect` characterise it |
| Segmenter.ScanAll | app.py:275-299 | the `for` loop as a fold of `Advance` over the lines; `ScanAllInv`, `ScanAllSnoc`, `ScanAllDropsBlank` and `CardsOnlyGrow` characterise it |
| Segmenter.Segment | app.py:265-308 | `display_questions` shows exactly `Segmentation(text)`: non-empty one-line cards under strictly increasing numbers, at most one more card than there are question-start lines |
| Segmenter.ScanLines | app.py:274-299 | the `for line in lines` loop ends in the state reached by applying `Advance` to each line in order |
| Segmenter.SegmentationShape | app.py:265-308 | every card has non-empty text without line feeds, and numbers strictly increase; no number exceeds the count of question starts; the card flushed after the loop carries that count |
| Segmenter.ScanAllInv | app.py:272-299 | the loop keeps its invariant (shown cards well formed and numbered below `question_num`), and `question_num` counts the question starts read |
| Segmenter.AdvanceKeepsInv | app.py:276-299 | one iteration preserves the loop invariant |
| Segmenter.BlankLineEffect | app.py:275-277 | a whitespace-only line leaves the loop state unchanged |
| Segmenter.ContinuationLineEffect | app.py:297-299 | a line opening no question becomes the accumulator when it is empty, and is otherwise appended after one space; number and shown cards are unchanged |
| Segmenter.MarkerLineEffect | app.py:280-296 | a question-start line shows the accumulated question (only if non-empty) under the current number, adds one to the number and starts accumulating its body |
| Segmenter.EmptyMarkerSkipsNumber | app.py:282-296 | a question start with an empty body followed by another question start shows no card yet advances the number by two |
| Segmenter.EmptyMarkerTakesNextLine | app.py:282-299 | a question start with an empty body followed by a continuation line adds one to the number, and that line becomes the text of the card under it |
| Segmenter.MarkerBodyShape | app.py:293-296 | a question-start line keeps only the stripped text after its first ':' when it has one, and keeps the whole line otherwise |
| Segmenter.NumberedLineWindow | app.py:281 | for a line longer than two characters that starts with a digit, the test is true exactly when its second or third character is '.' or ':' |
| Segmenter.QuestionLine | app.py:281-294 | a line made of a label starting with the question word, ": " and a trimmed body opens a card holding exactly the body |
| Segmenter.BlankLinesIgnored | app.py:275-277 | removing a blank line from anywhere in the input does not change the cards shown |
| Segmenter.NoMarkersAccumulate | app.py:297-299 | without question starts nothing is shown during the loop, the number stays 0 and the continuation lines are joined by single spaces |
| Segmenter.NoMarkersOneCard | app.py:272-308 | text with no question-start line is one card numbered 0 holding its non-blank lines joined by spaces, or nothing when it is blank |
| Segmenter.OneLineNoMarker | app.py:270-308 | a single non-blank line that opens no question is one card numbered 0 holding the stripped line |
| Segmenter.CardsOnlyGrow | app.py:282-308 | cards once shown stay shown: the cards after a prefix of the lines are a prefix of the final cards |
| Segmenter.LeadingPlainsFirst | app.py:272-290 | continuation lines read before the first question start are shown by it, first, as card 0 holding them joined by spaces |
| Segmenter.LeadingLinesFirst | app.py:272-290 | on raw lines without line feeds, the continuation lines before the first question start are the first card, numbered 0 |
| Segmenter.LeadingTextIsCardZero | app.py:272-290 | text before the first question start is shown first, as a card numbered 0 |
| Segmenter.TwoQuestions | app.py:265-308 | "שאלה 1: b1", a continuation line, a blank line and "שאלה 2: b2" give the cards (1, "b1 more") and (2, "b2") |
| Generation.DifficultyMap | app.py:184-188 | the table from grade label to description; `TableKeysAreOptions` and `DescriptionsDistinct` characterise it |
| Generation.Describe | app.py:184-190 | each of the three grade labels gets its own description, and any other label gets the grade-2 description |
| Generation.TableKeysAreOptions | app.py:184-188 | the table's keys are exactly the three options of the difficulty selector |
| Generation.DescriptionsDistinct | app.py:184-188 | on the selector's labels the lookup is one-to-one |
| Generation.FirstMatchEarliest | app.py:255-260 | in the rule table, the first rule whose substring occurs decides, whatever later rules say |
| Generation.FirstMatchNone | app.py:261-262 | when no rule of the table matches, the fallback is the answer |
| Generation.ClassifyError | app.py:253-262 | the classifier; `ClassifyErrorIsFirstMatch`, `ClassifyErrorPriority` and `ClassifyErrorFallback` characterise it |
| Generation.ClassifyErrorIsFirstMatch | app.py:253-262 | the classifier is the first match of the rules api_key, rate_limit and timeout on the lowercased message; the fallback is the original message |
| Generation.ClassifyErrorPriority | app.py:255-260 | a message is classified by rule k exactly when rule k's substring occurs in the lowercased message and no earlier rule's does |
| Generation.ClassifyErrorFallback | app.py:261-262 | the generic failure is chosen exactly when none of the three substrings occurs, and it keeps the original, not the lowercased, message |
| Generation.ClassifyErrorIgnoresCase | app.py:255-259 | messages that lowercase alike get the same known failure, and are generic together |
| Generation.ClassifyErrorLowered | app.py:255-259 | lowercasing a message beforehand changes nothing but the generic failure's text |
| Generation.FailureMessage | app.py:256-262 | every failure banner is non-empty |
| Generation.FailureMessageInjective | app.py:256-262 | different failures give different banners, so the banner tells the failure, and for the generic one the message |
| Generation.GenerateQuestions | app.py:248-262 | exactly one of questions and error is present; the reply's content is returned unchanged; a raised error gives the banner of its classified failure, never empty |
| Session.Main | app.py:371-443 | one run of `main`; `OnlySuccessWrites`, `CallsInOrder`, `FailureScreens` and `PreviousOnlyWithoutClick` characterise it |
| Session.Pressed | app.py:371-390 | the run once the button was pressed, up to the client gate; `CallsInOrder` and `FailureScreens` characterise it |
| Session.Generated | app.py:392-423 | the run once the client is ready; `OnlySuccessWrites` and `FailureScreens` characterise it |
| Session.Previous | app.py:435-443 | the view of the last quiz; `PreviousOnlyWithoutClick` and `SuccessThenRevisit` characterise it |
| Session.Shown | app.py:423-443 | the cards the two `display_questions` calls render for a quiz screen, none for any other screen; `QuizSession.Run` returns them |
| Session.OnlySuccessWrites | app.py:371-419 | the four slots change only on a complete run, and then hold that run's content, unstripped topic, difficulty and count |
| Session.CallsInOrder | app.py:371-398 | the client is built exactly when the button was pressed with a non-blank topic; the completion is requested exactly when, in addition, the client is ready, and with the stripped topic; the client is always built first |
| Session.FailureScreens | app.py:371-407 | a blank topic shows the missing-topic banner, a client error its own text, a failed request the banner of its classified failure |
| Session.PreviousOnlyWithoutClick | app.py:371-443 | the last quiz is shown exactly when the button was not pressed and a quiz has been saved |
| Session.SuccessThenRevisit | app.py:415-443 | after a complete run, a run without a click shows the same questions under the same topic |
| Session.FailureKeepsPrevious | app.py:371-443 | after a failed run, a run without a click shows what it would have shown before the failure |
| Session.QuizSession.constructor | app.py:435 | a fresh session holds no quiz |
| Session.QuizSession.Run | app.py:371-443 | one run changes the slots, shows the screen and makes the calls `Main` specifies; the cards rendered are the segmentation of the quiz shown |
| Session.QuizSession.ShowPrevious | app.py:435-443 | without a click the saved quiz is shown under its saved topic, if there is one |
| Session.QuizSession.Press | app.py:371-390 | the topic gate and then the client gate, in that order, as `Pressed` specifies |
| Session.QuizSession.Generate | app.py:392-423 | builds the request from the stripped topic and writes the slots only when generation gave no error, as `Generated` specifies |
| Session.QuizSession.Save | app.py:416-419 | the four slots are written together with the given values |

## Left out

- Page layout, CSS, HTML cards, banners' markup, spinners and the success
  banner are not modelled. A screen is `Screen`, and a card is
  `Card(ordinal, text)`.
- The widgets are not modelled (`app.py:333-366`). Their values are the
  fields of `Inputs`. The model does not restrict the difficulty to the
  selector's options or the count to 3, 5, 7 and 10, since the code never
  relies on that.
- `import_openai`, `get_openai_client` and `st.secrets` are not modelled
  (`app.py:135-166`). What the factory returns is the input `ClientResult`.
  Every error text it can return is non-empty, so `if error:` is modelled as
  `ClientError?`.
- The completion request is not modelled: model name, messages, temperature,
  token limit and penalties. Its outcome is the input `Completion`: content,
  or the text of the raised exception.
- GenerateQuestions: does not model a reply whose `content` is `None`; the
  model's `Answered` always carries a string. In the source,
  `generate_questions` then returns `(None, None)`, so `main` stores `None`
  as `last_questions`. `display_questions(None)` then raises on that run and
  on every later run without a click, until a run succeeds and overwrites
  `last_questions`.
- The prompt template, the random seed and the random story style put into
  it are not modelled. `Request` records the arguments the prompt is built
  from, and `Describe` the description it uses.
- The regenerate button and `st.rerun()` (`app.py:425-430`) are not
  modelled as such. A rerun is the next call of `Run`. Read from the code:
  the button is drawn only inside `if generate_clicked:`. Clicking it reruns
  the script with `generate_clicked` false, so the button is not drawn again
  and `st.rerun()` is never reached. The `elif` at `app.py:435` then shows
  the same last quiz, which is the outcome `SuccessThenRevisit` states.
- Text primitives are limited to declared character sets, with no Unicode
  tables:
  - `str.lower` lowercases only ASCII capitals.
  - `str.isdigit` accepts only '0' to '9'.
  - `str.isspace` is Python's set written out code point by code point.
- The four `session_state` slots are modelled. Other session keys and the
  browser session's lifetime are not.
