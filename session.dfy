/** One run of `main` in app.py after the inputs have been read: the generate
    button's three gates, the single write of the four `session_state`
    slots, and the view of the last quiz when the button was not pressed.
    The client factory and the completion request are inputs of the run;
    the calls made to them are returned as a trace. */
module Session {
  import opened Text
  import opened Segmenter
  import opened Generation

  /** What `get_openai_client` returned: a ready client, or an error text. */
  datatype ClientResult = ClientReady | ClientError(message: string)

  /** The outside services a run calls, in the order it calls them. */
  datatype ServiceCall = BuildClient | RequestCompletion(request: Request)

  /** What a run shows under the input widgets.  A quiz is shown as a
      header naming the topic and the questions text passed to
      `display_questions`; `Shown` gives the cards that renders. */
  datatype Screen =
    | Nothing
    | MissingTopic
    | ErrorBanner(message: string)
    | NewQuiz(topic: string, questions: string)
    | PreviousQuiz(topic: string, questions: string)

  /** The cards `display_questions` renders for a screen. */
  function Shown(screen: Screen): seq<Card> {
    if screen.NewQuiz? || screen.PreviousQuiz? then Segmentation(screen.questions) else []
  }

  /** The widget values of one run. */
  datatype Inputs = Inputs(clicked: bool, topic: string, difficulty: string, num: int)

  /** The four `session_state` slots, present together or not at all. */
  datatype Saved = Saved(questions: string, topic: string, difficulty: string, num: int)

  /** The result of a run: the slots afterwards, the screen and the trace. */
  datatype Step = Step(saved: Option<Saved>, screen: Screen, calls: seq<ServiceCall>)

  /** The view of the last quiz shown when the button was not pressed. */
  function Previous(saved: Option<Saved>): Screen {
    match saved
    case None => Nothing
    case Some(s) => PreviousQuiz(s.topic, s.questions)
  }

  /** Specification of one run. */
  function Main(saved: Option<Saved>, inputs: Inputs, client: ClientResult, completion: Completion): Step {
    if !inputs.clicked then Step(saved, Previous(saved), [])
    else Pressed(saved, inputs, client, completion)
  }

  /** The run once the button was pressed: the topic gate and the client gate. */
  function Pressed(saved: Option<Saved>, inputs: Inputs, client: ClientResult, completion: Completion): Step {
    if Strip(inputs.topic) == "" then Step(saved, MissingTopic, [])
    else if client.ClientError? then Step(saved, ErrorBanner(client.message), [BuildClient])
    else Generated(saved, inputs, completion)
  }

  /** The run once the client is ready: the generation gate and the one write. */
  function Generated(saved: Option<Saved>, inputs: Inputs, completion: Completion): Step {
    var calls := [BuildClient, RequestCompletion(Request(Strip(inputs.topic), inputs.difficulty, inputs.num))];
    var outcome := GenerateQuestions(completion);
    if outcome.error.Some? then Step(saved, ErrorBanner(outcome.error.value), calls)
    else
      var questions := outcome.questions.value;
      Step(Some(Saved(questions, inputs.topic, inputs.difficulty, inputs.num)),
           NewQuiz(inputs.topic, questions), calls)
  }

  /** A run completes when the button was pressed, the topic is not blank,
      the client was built and the completion answered. */
  predicate Succeeds(inputs: Inputs, client: ClientResult, completion: Completion) {
    inputs.clicked && Strip(inputs.topic) != "" && client.ClientReady? && completion.Answered?
  }

  /** The slots change only on a complete run, and then all four are
      overwritten with this run's values, whatever they held before. */
  lemma OnlySuccessWrites(saved: Option<Saved>, inputs: Inputs, client: ClientResult, completion: Completion)
    ensures Succeeds(inputs, client, completion) ==>
              Main(saved, inputs, client, completion).saved
              == Some(Saved(completion.content, inputs.topic, inputs.difficulty, inputs.num))
    ensures !Succeeds(inputs, client, completion) ==> Main(saved, inputs, client, completion).saved == saved
  {
  }

  /** The gates, in order, as seen in the trace: a blank topic stops the run
      before the client is built, a client error before generation, and the
      request carries the stripped topic with the chosen label and count. */
  lemma CallsInOrder(saved: Option<Saved>, inputs: Inputs, client: ClientResult, completion: Completion)
    ensures var calls := Main(saved, inputs, client, completion).calls;
            var request := Request(Strip(inputs.topic), inputs.difficulty, inputs.num);
            && (BuildClient in calls <==> inputs.clicked && Strip(inputs.topic) != "")
            && (RequestCompletion(request) in calls <==> inputs.clicked && Strip(inputs.topic) != "" && client.ClientReady?)
            && (calls != [] ==> calls[0] == BuildClient)
            && (forall k :: 1 <= k < |calls| ==> calls[k] == RequestCompletion(request))
            && |calls| <= 2
  {
    if inputs.clicked && Strip(inputs.topic) != "" && client.ClientReady? {
      assert Main(saved, inputs, client, completion).calls
             == [BuildClient, RequestCompletion(Request(Strip(inputs.topic), inputs.difficulty, inputs.num))];
    }
  }

  /** What each way of stopping shows: the missing-topic banner, the client's
      error text, or the banner of the classified failure. */
  lemma FailureScreens(saved: Option<Saved>, inputs: Inputs, client: ClientResult, completion: Completion)
    requires inputs.clicked
    ensures Strip(inputs.topic) == "" ==> Main(saved, inputs, client, completion).screen == MissingTopic
    ensures Strip(inputs.topic) != "" && client.ClientError? ==>
              Main(saved, inputs, client, completion).screen == ErrorBanner(client.message)
    ensures Strip(inputs.topic) != "" && client.ClientReady? && completion.Raised? ==>
              Main(saved, inputs, client, completion).screen
              == ErrorBanner(FailureMessage(ClassifyError(completion.message)))
  {
  }

  /** The last quiz is shown exactly when the button was not pressed and a
      quiz has been saved; a pressed button never shows it, even on failure. */
  lemma PreviousOnlyWithoutClick(saved: Option<Saved>, inputs: Inputs, client: ClientResult, completion: Completion)
    ensures Main(saved, inputs, client, completion).screen.PreviousQuiz? <==> !inputs.clicked && saved.Some?
  {
  }

  /** After a complete run, a run without a click shows the same cards under
      the same (unstripped) topic. */
  lemma SuccessThenRevisit(saved: Option<Saved>, inputs: Inputs, content: string, later: Inputs,
                           client: ClientResult, completion: Completion)
    requires Succeeds(inputs, ClientReady, Answered(content)) && !later.clicked
    ensures var first := Main(saved, inputs, ClientReady, Answered(content));
            && first.screen == NewQuiz(inputs.topic, content)
            && Main(first.saved, later, client, completion).screen == PreviousQuiz(inputs.topic, content)
  {
    OnlySuccessWrites(saved, inputs, ClientReady, Answered(content));
  }

  /** A failed run, however it fails, leaves the next unclicked run showing
      what it would have shown before. */
  lemma FailureKeepsPrevious(saved: Option<Saved>, inputs: Inputs, client: ClientResult, completion: Completion,
                             later: Inputs, client2: ClientResult, completion2: Completion)
    requires !Succeeds(inputs, client, completion) && !later.clicked
    ensures Main(Main(saved, inputs, client, completion).saved, later, client2, completion2).screen == Previous(saved)
  {
    OnlySuccessWrites(saved, inputs, client, completion);
  }

  /** `st.session_state` restricted to the four slots `main` writes. */
  class QuizSession {
    var lastQuestions: Option<string>
    var lastTopic: Option<string>
    var lastDifficulty: Option<string>
    var lastNum: Option<int>

    /** The slots are written together, so they are present together. */
    ghost predicate Valid()
      reads this
    {
      && lastTopic.Some? == lastQuestions.Some?
      && lastDifficulty.Some? == lastQuestions.Some?
      && lastNum.Some? == lastQuestions.Some?
    }

    /** The slots as one value. */
    function Slots(): Option<Saved>
      reads this
      requires Valid()
    {
      if lastQuestions.Some? then
        Some(Saved(lastQuestions.value, lastTopic.value, lastDifficulty.value, lastNum.value))
      else None
    }

    /** A fresh browser session holds no quiz. */
    constructor()
      ensures Valid() && Slots() == None
    {
      lastQuestions := None;
      lastTopic := None;
      lastDifficulty := None;
      lastNum := None;
    }

    /** One run of `main`, from the generate button onwards; `cards` are the
        cards `display_questions` renders on the screen shown. */
    method Run(inputs: Inputs, client: ClientResult, completion: Completion)
        returns (screen: Screen, cards: seq<Card>, calls: seq<ServiceCall>)
      requires Valid()
      modifies this
      ensures Valid()
      ensures Step(Slots(), screen, calls) == Main(old(Slots()), inputs, client, completion)
      ensures cards == Shown(screen) && WellFormed(cards)
    {
      if !inputs.clicked {
        screen := ShowPrevious();
        calls := [];
      } else {
        screen, calls := Press(inputs, client, completion);
      }
      cards := [];
      if screen.NewQuiz? || screen.PreviousQuiz? {
        cards := Segment(screen.questions);
      }
    }

    /** The `elif 'last_questions' in st.session_state` branch. */
    method ShowPrevious() returns (screen: Screen)
      requires Valid()
      ensures screen == Previous(Slots())
    {
      if lastQuestions.Some? {
        screen := PreviousQuiz(lastTopic.value, lastQuestions.value);
      } else {
        screen := Nothing;
      }
    }

    /** The `if generate_clicked` branch up to the client check. */
    method Press(inputs: Inputs, client: ClientResult, completion: Completion)
        returns (screen: Screen, calls: seq<ServiceCall>)
      requires Valid()
      modifies this
      ensures Valid()
      ensures Step(Slots(), screen, calls) == Pressed(old(Slots()), inputs, client, completion)
    {
      if Strip(inputs.topic) == "" {
        screen, calls := MissingTopic, [];
      } else if client.ClientError? {
        screen, calls := ErrorBanner(client.message), [BuildClient];
      } else {
        screen, calls := Generate(inputs, completion);
      }
    }

    /** The four `st.session_state[...] = ...` writes. */
    method Save(saved: Saved)
      modifies this
      ensures Valid() && Slots() == Some(saved)
    {
      lastQuestions := Some(saved.questions);
      lastTopic := Some(saved.topic);
      lastDifficulty := Some(saved.difficulty);
      lastNum := Some(saved.num);
    }

    /** Generation with a ready client, and the write of the four slots on success. */
    method Generate(inputs: Inputs, completion: Completion)
        returns (screen: Screen, calls: seq<ServiceCall>)
      requires Valid()
      modifies this
      ensures Valid()
      ensures Step(Slots(), screen, calls) == Generated(old(Slots()), inputs, completion)
    {
      calls := [BuildClient, RequestCompletion(Request(Strip(inputs.topic), inputs.difficulty, inputs.num))];
      var outcome := GenerateQuestions(completion);
      if outcome.error.Some? {
        screen := ErrorBanner(outcome.error.value);
        return;
      }
      var questions := outcome.questions.value;
      Save(Saved(questions, inputs.topic, inputs.difficulty, inputs.num));
      screen := NewQuiz(inputs.topic, questions);
    }
  }
}
