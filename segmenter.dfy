/** The free-text question segmenter behind `display_questions`: the
    completion text is cut into lines, "question start" lines open a new
    card, every other non-blank line is glued onto the card being built.
    `Segmentation` is the specification, `Segment` the loop that the
    application runs. */
module Segmenter {
  import opened Text

  /** The Hebrew word for "question", with which the prompt asks the model to label each item. */
  const QuestionWord: string := "שאלה"

  /** The heuristic that recognises the first line of a question: it starts
      with the question word, or it is longer than two characters, starts
      with a digit and has a '.' or ':' among its first three characters. */
  predicate IsMarker(line: string) {
    || StartsWith(line, QuestionWord)
    || (|line| > 2 && IsDigit(line[0]) && ('.' in line[..3] || ':' in line[..3]))
  }

  /** The text a question-start line contributes (`MarkerBodyShape` states it). */
  function MarkerBody(line: string): string {
    if ':' in line then Strip(AfterFirst(line, ':')) else line
  }

  /** How one iteration of the loop reads a raw line: blank, the start of a
      question (with the body it keeps), or a continuation (stripped). */
  datatype Line = Blank | Opening(body: string) | Plain(text: string)

  function Classify(raw: string): Line {
    var line := Strip(raw);
    if line == "" then Blank
    else if IsMarker(line) then Opening(MarkerBody(line))
    else Plain(line)
  }

  function Classified(lines: seq<string>): seq<Line> {
    seq(|lines|, i requires 0 <= i < |lines| => Classify(lines[i]))
  }

  /** One displayed card: the number shown in its title and its text. */
  datatype Card = Card(ordinal: nat, text: string)

  /** The loop's state: the current question number, the text accumulated
      for the current question, and the cards already displayed. */
  datatype Scan = Scan(num: nat, current: string, cards: seq<Card>)

  const Start: Scan := Scan(0, "", [])

  /** The cards displayed so far, plus the accumulated question if it is non-empty. */
  function Flush(sc: Scan): seq<Card> {
    if sc.current != "" then sc.cards + [Card(sc.num, sc.current)] else sc.cards
  }

  /** One iteration of the loop. */
  function Advance(sc: Scan, l: Line): Scan {
    match l
    case Blank => sc
    case Opening(body) => Scan(sc.num + 1, body, Flush(sc))
    case Plain(text) => Scan(sc.num, if sc.current != "" then sc.current + " " + text else text, sc.cards)
  }

  /** The state after the loop has consumed the lines in order. */
  function ScanAll(ls: seq<Line>): Scan
    decreases |ls|
  {
    if ls == [] then Start else Advance(ScanAll(ls[..|ls| - 1]), ls[|ls| - 1])
  }

  /** The lines the loop iterates over: the stripped text split on line feeds. */
  function Lines(text: string): seq<string> {
    Split(Strip(text), '\n')
  }

  /** The cards displayed for a list of raw lines, in order. */
  function Cards(lines: seq<string>): seq<Card> {
    Flush(ScanAll(Classified(lines)))
  }

  /** The cards `display_questions` renders for `text`, in order. */
  function Segmentation(text: string): seq<Card> {
    Cards(Lines(text))
  }

  /** The number of question starts. */
  function Openings(ls: seq<Line>): nat
    decreases |ls|
  {
    if ls == [] then 0 else Openings(ls[..|ls| - 1]) + (if ls[|ls| - 1].Opening? then 1 else 0)
  }

  /** The number of question-start lines among raw lines. */
  function MarkerCount(lines: seq<string>): nat {
    Openings(Classified(lines))
  }

  /** The stripped texts of the continuation lines, in order. */
  function Plains(ls: seq<Line>): seq<string>
    decreases |ls|
  {
    if ls == [] then []
    else Plains(ls[..|ls| - 1]) + (if ls[|ls| - 1].Plain? then [ls[|ls| - 1].text] else [])
  }

  /** Cards a user may see: non-empty single-line texts under strictly increasing numbers. */
  ghost predicate WellFormed(cards: seq<Card>) {
    && (forall i :: 0 <= i < |cards| ==> cards[i].text != "" && '\n' !in cards[i].text)
    && (forall i, j :: 0 <= i < j < |cards| ==> cards[i].ordinal < cards[j].ordinal)
  }

  /** What a line read from newline-free input looks like. */
  ghost predicate Clean(l: Line) {
    match l
    case Blank => true
    case Opening(body) => '\n' !in body
    case Plain(text) => text != "" && '\n' !in text
  }

  /** What holds of the loop state between iterations. */
  ghost predicate ScanInv(sc: Scan) {
    && WellFormed(sc.cards)
    && (forall i :: 0 <= i < |sc.cards| ==> sc.cards[i].ordinal < sc.num)
    && '\n' !in sc.current
    && |sc.cards| <= sc.num
  }

  lemma StripKeepsOut(s: string, c: char)
    requires c !in s
    ensures c !in Strip(s)
  {
    var r := Strip(s);
    StripSlice(s);
    var lo :| StrippedAt(s, r, lo);
  }

  /** A question-start line keeps only the stripped text after its first ':'
      when it has one, and keeps the whole line, label included, otherwise. */
  lemma MarkerBodyShape(line: string)
    ensures ':' !in line ==> MarkerBody(line) == line
    ensures ':' in line ==> exists head :: ':' !in head && StartsWith(line, head + [':'])
                                       && MarkerBody(line) == Strip(line[|head| + 1..])
  {
    if ':' in line {
      var rest := AfterFirst(line, ':');
      AfterFirstSplit(line, ':');
      var head :| ':' !in head && line == head + [':'] + rest;
      assert line[|head| + 1..] == rest;
      assert StartsWith(line, head + [':']);
    }
  }

  lemma ClassifyClean(raw: string)
    requires '\n' !in raw
    ensures Clean(Classify(raw))
  {
    var line := Strip(raw);
    StripKeepsOut(raw, '\n');
    if line != "" && IsMarker(line) && ':' in line {
      var rest := AfterFirst(line, ':');
      AfterFirstSplit(line, ':');
      var head :| ':' !in head && line == head + [':'] + rest;
      assert rest == line[|head| + 1..];
      StripKeepsOut(rest, '\n');
    }
  }

  lemma ClassifiedClean(lines: seq<string>)
    requires forall k :: 0 <= k < |lines| ==> '\n' !in lines[k]
    ensures forall k :: 0 <= k < |lines| ==> Clean(Classified(lines)[k])
  {
    forall k | 0 <= k < |lines| ensures Clean(Classified(lines)[k]) {
      ClassifyClean(lines[k]);
    }
  }

  lemma FlushShape(sc: Scan)
    requires ScanInv(sc)
    ensures WellFormed(Flush(sc))
    ensures forall i :: 0 <= i < |Flush(sc)| ==> Flush(sc)[i].ordinal <= sc.num
    ensures |Flush(sc)| <= sc.num + 1
  {
  }

  lemma AdvanceKeepsInv(sc: Scan, l: Line)
    requires ScanInv(sc) && Clean(l)
    ensures ScanInv(Advance(sc, l))
  {
    if l.Opening? {
      FlushShape(sc);
    }
  }

  /** The loop invariant holds after any sequence of lines read from
      newline-free input, and the question number counts the question starts. */
  lemma {:induction false} ScanAllInv(ls: seq<Line>)
    requires forall k :: 0 <= k < |ls| ==> Clean(ls[k])
    ensures ScanInv(ScanAll(ls))
    ensures ScanAll(ls).num == Openings(ls)
  {
    if ls != [] {
      ScanAllInv(ls[..|ls| - 1]);
      AdvanceKeepsInv(ScanAll(ls[..|ls| - 1]), ls[|ls| - 1]);
    }
  }

  /** Every card has non-empty single-line text, numbers strictly increase,
      at most one more card than question-start lines is shown, no number
      exceeds the count of question-start lines, and the card shown after
      the loop (if any) carries exactly that count. */
  lemma SegmentationShape(text: string)
    ensures WellFormed(Segmentation(text))
    ensures |Segmentation(text)| <= MarkerCount(Lines(text)) + 1
    ensures forall i :: 0 <= i < |Segmentation(text)| ==> Segmentation(text)[i].ordinal <= MarkerCount(Lines(text))
    ensures ScanAll(Classified(Lines(text))).current != "" ==>
              Segmentation(text)[|Segmentation(text)| - 1] == Card(MarkerCount(Lines(text)), ScanAll(Classified(Lines(text))).current)
  {
    var ls := Classified(Lines(text));
    ClassifiedClean(Lines(text));
    ScanAllInv(ls);
    FlushShape(ScanAll(ls));
  }

  lemma ScanAllSnoc(ls: seq<Line>, i: nat)
    requires i < |ls|
    ensures ScanAll(ls[..i + 1]) == Advance(ScanAll(ls[..i]), ls[i])
  {
    assert ls[..i + 1][..i] == ls[..i];
  }

  /** `display_questions`: the lines of the stripped text are scanned and the
      last accumulated question is flushed; cards are returned instead of rendered. */
  method Segment(text: string) returns (cards: seq<Card>)
    ensures cards == Segmentation(text)
    ensures WellFormed(cards)
    ensures |cards| <= MarkerCount(Lines(text)) + 1
  {
    var lines := Split(Strip(text), '\n');
    var questionNum, current;
    questionNum, current, cards := ScanLines(lines);
    if current != "" {
      cards := cards + [Card(questionNum, current)];
    }
    SegmentationShape(text);
  }

  /** The `for line in lines` loop of `display_questions`. */
  method ScanLines(lines: seq<string>) returns (questionNum: nat, current: string, cards: seq<Card>)
    ensures Scan(questionNum, current, cards) == ScanAll(Classified(lines))
  {
    ghost var ls := Classified(lines);
    questionNum := 0;
    current := "";
    cards := [];
    for i := 0 to |lines|
      invariant Scan(questionNum, current, cards) == ScanAll(ls[..i])
    {
      ScanAllSnoc(ls, i);
      assert ls[i] == Classify(lines[i]);
      var line := Strip(lines[i]);
      if line == "" {
        continue;
      }
      if IsMarker(line) {
        if current != "" {
          cards := cards + [Card(questionNum, current)];
        }
        questionNum := questionNum + 1;
        if ':' in line {
          current := Strip(AfterFirst(line, ':'));
        } else {
          current := line;
        }
      } else {
        current := if current != "" then current + " " + line else line;
      }
    }
    assert ls[..|lines|] == ls;
  }

  /** A blank or whitespace-only line never changes the loop state. */
  lemma BlankLineEffect(sc: Scan, raw: string)
    requires AllSpace(raw)
    ensures Advance(sc, Classify(raw)) == sc
  {
    StripEmpty(raw);
  }

  /** A line that opens no question becomes the accumulator when that is
      empty and is otherwise appended after exactly one space. */
  lemma ContinuationLineEffect(sc: Scan, raw: string)
    requires Strip(raw) != "" && !IsMarker(Strip(raw))
    ensures Advance(sc, Classify(raw)).num == sc.num
    ensures Advance(sc, Classify(raw)).cards == sc.cards
    ensures Advance(sc, Classify(raw)).current
            == if sc.current == "" then Strip(raw) else sc.current + [' '] + Strip(raw)
  {
    assert Classify(raw) == Plain(Strip(raw));
  }

  /** A question-start line shows the accumulated question (if non-empty)
      under the current number and starts the next number with its body. */
  lemma MarkerLineEffect(sc: Scan, raw: string)
    requires Strip(raw) != "" && IsMarker(Strip(raw))
    ensures Advance(sc, Classify(raw)) == Scan(sc.num + 1, MarkerBody(Strip(raw)), Flush(sc))
    ensures |Flush(sc)| == if sc.current == "" then |sc.cards| else |sc.cards| + 1
  {
    assert Classify(raw) == Opening(MarkerBody(Strip(raw)));
  }

  /** A question-start line with an empty body that is followed by another
      question-start line shows no card of its own, yet uses up its number. */
  lemma EmptyMarkerSkipsNumber(sc: Scan, m1: string, m2: string)
    requires Classify(m1) == Opening("") && Classify(m2).Opening?
    ensures Advance(Advance(sc, Classify(m1)), Classify(m2)) == Scan(sc.num + 2, Classify(m2).body, Flush(sc))
  {
  }

  /** A question-start line with an empty body followed by a continuation
      line: the continuation becomes the text of the card under the new number. */
  lemma EmptyMarkerTakesNextLine(sc: Scan, m: string, raw: string)
    requires Classify(m) == Opening("") && Classify(raw).Plain?
    ensures Advance(Advance(sc, Classify(m)), Classify(raw)) == Scan(sc.num + 1, Classify(raw).text, Flush(sc))
  {
  }

  lemma {:induction false} ScanAllDropsBlank(xs: seq<Line>, ys: seq<Line>)
    ensures ScanAll(xs + [Blank] + ys) == ScanAll(xs + ys)
  {
    if ys == [] {
      assert xs + [Blank] + ys == xs + [Blank];
      assert (xs + [Blank])[..|xs|] == xs;
      assert xs + ys == xs;
    } else {
      var ys' := ys[..|ys| - 1];
      var y := ys[|ys| - 1];
      assert xs + [Blank] + ys == (xs + [Blank] + ys') + [y];
      assert xs + ys == (xs + ys') + [y];
      assert ((xs + [Blank] + ys') + [y])[..|xs + [Blank] + ys'|] == xs + [Blank] + ys';
      assert ((xs + ys') + [y])[..|xs + ys'|] == xs + ys';
      ScanAllDropsBlank(xs, ys');
    }
  }

  /** A blank line may be dropped from anywhere in the input without changing what is displayed. */
  lemma BlankLinesIgnored(xs: seq<string>, b: string, ys: seq<string>)
    requires AllSpace(b)
    ensures Cards(xs + [b] + ys) == Cards(xs + ys)
  {
    StripEmpty(b);
    ClassifiedAround(xs, b, ys);
    ClassifiedAppend(xs, ys);
    ScanAllDropsBlank(Classified(xs), Classified(ys));
  }

  lemma ClassifiedAppend(xs: seq<string>, ys: seq<string>)
    ensures Classified(xs + ys) == Classified(xs) + Classified(ys)
  {
    var l, r := Classified(xs + ys), Classified(xs) + Classified(ys);
    forall i | 0 <= i < |l| ensures l[i] == r[i] {
      if i < |xs| {
        assert (xs + ys)[i] == xs[i];
      } else {
        assert (xs + ys)[i] == ys[i - |xs|];
      }
    }
  }

  lemma ClassifiedAround(xs: seq<string>, b: string, ys: seq<string>)
    ensures Classified(xs + [b] + ys) == Classified(xs) + [Classify(b)] + Classified(ys)
  {
    ClassifiedAppend(xs + [b], ys);
    ClassifiedAppend(xs, [b]);
    assert Classified([b]) == [Classify(b)];
  }

  lemma {:induction false} PlainsNonEmpty(ls: seq<Line>)
    requires forall k :: 0 <= k < |ls| ==> Clean(ls[k])
    ensures forall k :: 0 <= k < |Plains(ls)| ==> Plains(ls)[k] != ""
  {
    if ls != [] {
      PlainsNonEmpty(ls[..|ls| - 1]);
    }
  }

  lemma NoMarkerStep(parts: seq<string>, l: Line)
    requires forall k :: 0 <= k < |parts| ==> parts[k] != ""
    requires !l.Opening? && Clean(l)
    ensures Advance(Scan(0, Join(parts, " "), []), l)
            == Scan(0, Join(parts + (if l.Plain? then [l.text] else []), " "), [])
  {
    if l.Plain? {
      JoinNonEmpty(parts, " ");
      JoinSnoc(parts, l.text, " ");
    } else {
      assert parts + [] == parts;
    }
  }

  /** Without question starts the number stays 0, nothing is shown during
      the loop, and the accumulator holds the continuation lines joined by
      single spaces. */
  lemma {:induction false} NoMarkersAccumulate(ls: seq<Line>)
    requires forall k :: 0 <= k < |ls| ==> Clean(ls[k])
    requires Openings(ls) == 0
    ensures ScanAll(ls) == Scan(0, Join(Plains(ls), " "), [])
  {
    if ls != [] {
      var init := ls[..|ls| - 1];
      NoMarkersAccumulate(init);
      PlainsNonEmpty(init);
      NoMarkerStep(Plains(init), ls[|ls| - 1]);
    }
  }

  /** Text without question-start lines is shown as a single card numbered 0
      holding its non-blank lines joined by single spaces, or not at all when
      it is blank. */
  lemma NoMarkersOneCard(text: string)
    requires MarkerCount(Lines(text)) == 0
    ensures var body := Plains(Classified(Lines(text)));
            Segmentation(text) == if body == [] then [] else [Card(0, Join(body, " "))]
  {
    var ls := Classified(Lines(text));
    ClassifiedClean(Lines(text));
    NoMarkersAccumulate(ls);
    PlainsNonEmpty(ls);
    JoinNonEmpty(Plains(ls), " ");
  }

  lemma {:induction false} SplitWithoutSeparator(s: string, sep: char)
    requires sep !in s
    ensures Split(s, sep) == [s]
  {
    if s != [] {
      SplitWithoutSeparator(s[1..], sep);
      assert [s[0]] + s[1..] == s;
    }
  }

  /** A single non-blank line that opens no question is shown as one card numbered 0 holding the stripped text. */
  lemma OneLineNoMarker(text: string)
    requires '\n' !in text && Strip(text) != "" && !IsMarker(Strip(text))
    ensures Segmentation(text) == [Card(0, Strip(text))]
  {
    var line := Strip(text);
    assert Lines(text) == [line] by {
      StripKeepsOut(text, '\n');
      SplitWithoutSeparator(line, '\n');
    }
    assert Classify(line) == Plain(line) by {
      StripIdempotent(text);
    }
    var ls := Classified([line]);
    assert ls == [Plain(line)];
    assert ScanAll(ls) == Scan(0, line, []) by {
      assert ls[..0] == [];
    }
  }

  /** Cards once shown stay shown: the cards after a prefix of the lines are a prefix of the later ones. */
  lemma {:induction false} CardsOnlyGrow(ls: seq<Line>, m: nat)
    requires m <= |ls|
    ensures ScanAll(ls[..m]).cards <= ScanAll(ls).cards <= Flush(ScanAll(ls))
  {
    if m == |ls| {
      assert ls[..m] == ls;
    } else {
      var init := ls[..|ls| - 1];
      assert init[..m] == ls[..m];
      CardsOnlyGrow(init, m);
    }
  }

  /** Continuation lines before the first question start are flushed by it, as card 0. */
  lemma LeadingPlainsFirst(ls: seq<Line>, k: nat)
    requires forall j :: 0 <= j < |ls| ==> Clean(ls[j])
    requires k < |ls| && ls[k].Opening? && Openings(ls[..k]) == 0 && Plains(ls[..k]) != []
    ensures Flush(ScanAll(ls)) != []
    ensures Flush(ScanAll(ls))[0] == Card(0, Join(Plains(ls[..k]), " "))
  {
    var pre := ls[..k];
    var body := Join(Plains(pre), " ");
    assert ScanAll(pre) == Scan(0, body, []) && body != "" by {
      NoMarkersAccumulate(pre);
      PlainsNonEmpty(pre);
      JoinNonEmpty(Plains(pre), " ");
    }
    assert ScanAll(ls[..k + 1]).cards == [Card(0, body)] by {
      ScanAllSnoc(ls, k);
    }
    CardsOnlyGrow(ls, k + 1);
  }

  /** The same, stated on the raw lines. */
  lemma LeadingLinesFirst(lines: seq<string>, k: nat)
    requires forall j :: 0 <= j < |lines| ==> '\n' !in lines[j]
    requires k < |lines| && Classify(lines[k]).Opening?
    requires MarkerCount(lines[..k]) == 0 && Plains(Classified(lines[..k])) != []
    ensures Cards(lines) != []
    ensures Cards(lines)[0] == Card(0, Join(Plains(Classified(lines[..k])), " "))
  {
    ClassifiedPrefix(lines, k);
    ClassifiedClean(lines);
    LeadingPlainsFirst(Classified(lines), k);
  }

  lemma ClassifiedPrefix(lines: seq<string>, k: nat)
    requires k <= |lines|
    ensures Classified(lines[..k]) == Classified(lines)[..k]
  {
  }

  /** Text before the first question-start line is shown first, as a card numbered 0. */
  lemma LeadingTextIsCardZero(text: string, k: nat)
    requires k < |Lines(text)| && Classify(Lines(text)[k]).Opening?
    requires MarkerCount(Lines(text)[..k]) == 0 && Plains(Classified(Lines(text)[..k])) != []
    ensures Segmentation(text) != []
    ensures Segmentation(text)[0] == Card(0, Join(Plains(Classified(Lines(text)[..k])), " "))
  {
    LeadingLinesFirst(Lines(text), k);
  }

  /** For a line that starts with a digit and is long enough, the test
      reduces to a '.' or ':' in the second or third character. */
  lemma NumberedLineWindow(line: string)
    requires |line| > 2 && IsDigit(line[0])
    ensures IsMarker(line) <==> line[1] in ".:" || line[2] in ".:"
  {
    assert line[..3] == [line[0], line[1], line[2]];
    assert !StartsWith(line, QuestionWord);
  }

  /** One leading space is stripped from a body whose ends are not whitespace. */
  lemma StripOneSpace(body: string)
    requires body != [] && !IsSpace(body[0]) && !IsSpace(body[|body| - 1])
    ensures Strip(" " + body) == body
  {
    var s := " " + body;
    assert s[0] == ' ' && s[1..] == body;
    assert TrimStart(s) == body by {
      StripFixed(body);
      assert TrimStart(body) == body;
    }
    assert TrimEnd(body) == body;
  }

  lemma LabelledLineFixed(tag: string, body: string)
    requires StartsWith(tag + ": " + body, QuestionWord)
    requires body != [] && !IsSpace(body[|body| - 1])
    ensures Strip(tag + ": " + body) == tag + ": " + body
  {
    var line := tag + ": " + body;
    assert line[0] == QuestionWord[0] by {
      assert line[..|QuestionWord|][0] == QuestionWord[0];
    }
    assert line[|line| - 1] == body[|body| - 1];
    StripFixed(line);
  }

  lemma LabelledAfterColon(tag: string, body: string)
    requires ':' !in tag
    ensures AfterFirst(tag + ": " + body, ':') == " " + body
  {
    assert tag + ": " + body == tag + [':'] + (" " + body);
    AfterFirstOf(tag, " " + body, ':');
  }

  lemma LabelledBody(tag: string, body: string)
    requires ':' !in tag
    requires body != [] && !IsSpace(body[0]) && !IsSpace(body[|body| - 1])
    ensures MarkerBody(tag + ": " + body) == body
  {
    var line := tag + ": " + body;
    LabelledAfterColon(tag, body);
    StripOneSpace(body);
    assert line[|tag|] == ':';
  }

  /** A non-empty single line without whitespace at either end. */
  predicate Trimmed(s: string) {
    s != [] && !IsSpace(s[0]) && !IsSpace(s[|s| - 1]) && '\n' !in s
  }

  /** Three lines, the third one blank, the fourth after it. */
  lemma FourLinesSplit(l1: string, l2: string, l4: string)
    requires '\n' !in l1 && '\n' !in l2 && '\n' !in l4
    requires l1 != [] && !IsSpace(l1[0]) && l4 != [] && !IsSpace(l4[|l4| - 1])
    ensures Lines(l1 + "\n" + l2 + "\n\n" + l4) == [l1, l2, "", l4]
  {
    var text := l1 + "\n" + l2 + "\n\n" + l4;
    assert text == l1 + ['\n'] + (l2 + ['\n'] + ("" + ['\n'] + l4));
    assert text[0] == l1[0] && text[|text| - 1] == l4[|l4| - 1];
    StripFixed(text);
    SplitAtFirst(l1, l2 + ['\n'] + ("" + ['\n'] + l4), '\n');
    SplitAtFirst(l2, "" + ['\n'] + l4, '\n');
    SplitAtFirst("", l4, '\n');
    SplitWithoutSeparator(l4, '\n');
  }

  /** Four lines are read one by one. */
  lemma ClassifiedFour(a: string, b: string, c: string, d: string, la: Line, lb: Line, lc: Line, ld: Line)
    requires Classified([a]) == [la] && Classified([b]) == [lb] && Classified([c]) == [lc] && Classified([d]) == [ld]
    ensures Classified([a, b, c, d]) == [la, lb, lc, ld]
  {
    assert [a, b, c, d] == [a, b, c] + [d];
    assert [a, b, c] == [a, b] + [c];
    assert [a, b] == [a] + [b];
    ClassifiedAppend([a, b, c], [d]);
    ClassifiedAppend([a, b], [c]);
    ClassifiedAppend([a], [b]);
    assert [la] + [lb] + [lc] + [ld] == [la, lb, lc, ld];
  }

  lemma ClassifiedOne(a: string, l: Line)
    requires Classify(a) == l
    ensures Classified([a]) == [l]
  {
    assert Classified([a])[0] == Classify(a);
  }

  /** Opening, continuation, blank, opening: two cards, the continuation joined with a space. */
  lemma TwoOpeningsRun(b1: string, more: string, b2: string)
    requires b1 != "" && more != "" && b2 != ""
    ensures Flush(ScanAll([Opening(b1), Plain(more), Blank, Opening(b2)]))
            == [Card(1, b1 + " " + more), Card(2, b2)]
  {
    var ls := [Opening(b1), Plain(more), Blank, Opening(b2)];
    assert ls[..0] == [] && ls[..1] == [Opening(b1)];
    ScanAllSnoc(ls, 0);
    ScanAllSnoc(ls, 1);
    ScanAllSnoc(ls, 2);
    ScanAllSnoc(ls, 3);
    assert ls[..4] == ls;
  }

  lemma TwoOpeningsCards(l1: string, more: string, l4: string, b1: string, b2: string)
    requires b1 != "" && more != "" && b2 != ""
    requires Classify(l1) == Opening(b1) && Classify(more) == Plain(more) && Classify(l4) == Opening(b2)
    ensures Cards([l1, more, "", l4]) == [Card(1, b1 + " " + more), Card(2, b2)]
  {
    ClassifiedOne(l1, Opening(b1));
    ClassifiedOne(more, Plain(more));
    ClassifiedOne("", Blank);
    ClassifiedOne(l4, Opening(b2));
    ClassifiedFour(l1, more, "", l4, Opening(b1), Plain(more), Blank, Opening(b2));
    TwoOpeningsRun(b1, more, b2);
  }

  /** A line made of a label that starts with the question word, ": " and a body opens a card holding the body. */
  lemma QuestionLine(tag: string, body: string)
    requires StartsWith(tag, QuestionWord) && ':' !in tag && Trimmed(body)
    ensures Classify(tag + ": " + body) == Opening(body)
  {
    assert StartsWith(tag + ": " + body, QuestionWord) by {
      assert (tag + ": " + body)[..4] == tag[..4];
    }
    LabelledLineFixed(tag, body);
    LabelledBody(tag, body);
  }

  /** A two-question text: the first question continued on the next line, a
      blank line, then the second question.  The cards are numbered 1 and 2
      and the continuation is joined to the first with a space. */
  lemma TwoQuestions(b1: string, more: string, b2: string)
    requires Trimmed(b1) && Trimmed(more) && Trimmed(b2) && !IsMarker(more)
    ensures Segmentation(("שאלה 1" + ": " + b1) + "\n" + more + "\n\n" + ("שאלה 2" + ": " + b2))
            == [Card(1, b1 + " " + more), Card(2, b2)]
  {
    var l1, l4 := "שאלה 1" + ": " + b1, "שאלה 2" + ": " + b2;
    assert StartsWith("שאלה 1", QuestionWord) && ':' !in "שאלה 1" && '\n' !in "שאלה 1";
    assert StartsWith("שאלה 2", QuestionWord) && ':' !in "שאלה 2" && '\n' !in "שאלה 2";
    assert l1[0] == 'ש' && l4[|l4| - 1] == b2[|b2| - 1];
    assert '\n' !in l1 && '\n' !in l4;
    FourLinesSplit(l1, more, l4);
    StripFixed(more);
    QuestionLine("שאלה 1", b1);
    QuestionLine("שאלה 2", b2);
    TwoOpeningsCards(l1, more, l4, b1, b2);
  }
}
