/** The quiz session: the questions of one batch, the position in it, the
    answer given to each question and the live score. The state is the record
    `QuizUiState`; the view model holds one and replaces it on every
    transition. Each transition is first defined as a function on states, and
    the view model's methods are proved to apply exactly that function. */
module QuizViewModel {
  import opened KotlinStd

  /** A question as the trivia service returns it. */
  datatype Question = Question(
    question: string,
    correctAnswer: string,
    incorrectAnswers: seq<string>,
    qtype: string,
    category: string,
    difficulty: string)

  datatype Category =
    | AnyCategory | GeneralKnowledge | Books | Film | Music | MusicalsTheatres
    | Television | VideoGames | BoardGames | ScienceNature | Computers
    | Mathematics | Mythology | Sports | Geography | History | Politics | Art
    | Celebrities | Animals | Vehicles | Comics | Gadgets | AnimeManga
    | CartoonAnimations
  {
    /** The trivia service's category number. */
    function Id(): int {
      match this
      case AnyCategory => 0
      case GeneralKnowledge => 9
      case Books => 10
      case Film => 11
      case Music => 12
      case MusicalsTheatres => 13
      case Television => 14
      case VideoGames => 15
      case BoardGames => 16
      case ScienceNature => 17
      case Computers => 18
      case Mathematics => 19
      case Mythology => 20
      case Sports => 21
      case Geography => 22
      case History => 23
      case Politics => 24
      case Art => 25
      case Celebrities => 26
      case Animals => 27
      case Vehicles => 28
      case Comics => 29
      case Gadgets => 30
      case AnimeManga => 31
      case CartoonAnimations => 32
    }
  }

  /** The category a category number stands for, as the service reads it. */
  function CategoryOfId(id: int): Option<Category> {
    if id == 0 then Some(AnyCategory)
    else if id == 9 then Some(GeneralKnowledge)
    else if id == 10 then Some(Books)
    else if id == 11 then Some(Film)
    else if id == 12 then Some(Music)
    else if id == 13 then Some(MusicalsTheatres)
    else if id == 14 then Some(Television)
    else if id == 15 then Some(VideoGames)
    else if id == 16 then Some(BoardGames)
    else if id == 17 then Some(ScienceNature)
    else if id == 18 then Some(Computers)
    else if id == 19 then Some(Mathematics)
    else if id == 20 then Some(Mythology)
    else if id == 21 then Some(Sports)
    else if id == 22 then Some(Geography)
    else if id == 23 then Some(History)
    else if id == 24 then Some(Politics)
    else if id == 25 then Some(Art)
    else if id == 26 then Some(Celebrities)
    else if id == 27 then Some(Animals)
    else if id == 28 then Some(Vehicles)
    else if id == 29 then Some(Comics)
    else if id == 30 then Some(Gadgets)
    else if id == 31 then Some(AnimeManga)
    else if id == 32 then Some(CartoonAnimations)
    else None
  }

  /** Category numbers are distinct: each one reads back as its category. */
  lemma CategoryIdRoundTrip(c: Category)
    ensures CategoryOfId(c.Id()) == Some(c)
  {
    match c
    case AnyCategory =>
    case GeneralKnowledge =>
    case Books =>
    case Film =>
    case Music =>
    case MusicalsTheatres =>
    case Television =>
    case VideoGames =>
    case BoardGames =>
    case ScienceNature =>
    case Computers =>
    case Mathematics =>
    case Mythology =>
    case Sports =>
    case Geography =>
    case History =>
    case Politics =>
    case Art =>
    case Celebrities =>
    case Animals =>
    case Vehicles =>
    case Comics =>
    case Gadgets =>
    case AnimeManga =>
    case CartoonAnimations =>
  }

  datatype Difficulty = AnyDifficulty | Easy | Medium | Hard {
    /** The service's `difficulty` parameter value. */
    function Value(): string {
      match this
      case AnyDifficulty => ""
      case Easy => "easy"
      case Medium => "medium"
      case Hard => "hard"
    }
  }

  datatype QuizType = AnyType | Multiple | Boolean {
    /** The service's `type` parameter value. */
    function Value(): string {
      match this
      case AnyType => ""
      case Multiple => "multiple"
      case Boolean => "boolean"
    }
  }

  datatype QuizConfig = QuizConfig(amount: int, category: Category, difficulty: Difficulty, qtype: QuizType)

  /** `QuizConfig()`: ten questions, every option "any". */
  const DefaultConfig: QuizConfig := QuizConfig(10, AnyCategory, AnyDifficulty, AnyType)

  /** The query parameters of one request to the trivia service; `None` is a
      parameter left out of the request. */
  datatype ApiRequest = ApiRequest(amount: int, category: Option<int>, difficulty: Option<string>, qtype: Option<string>)

  const MinAmount: int := 1
  const MaxAmount: int := 50

  /** The request `fetchQuestions` sends for a configuration: the amount is
      forced into [1, 50] and every "any" option is left out. */
  function RequestFor(config: QuizConfig): (r: ApiRequest)
    ensures MinAmount <= r.amount <= MaxAmount
    ensures MinAmount <= config.amount <= MaxAmount ==> r.amount == config.amount
    ensures config.amount < MinAmount ==> r.amount == MinAmount
    ensures config.amount > MaxAmount ==> r.amount == MaxAmount
    ensures r.category.None? <==> config.category == AnyCategory
    ensures r.category.Some? ==> CategoryOfId(r.category.value) == Some(config.category)
    ensures r.difficulty.None? <==> config.difficulty == AnyDifficulty
    ensures r.difficulty.Some? ==> r.difficulty.value == config.difficulty.Value() != ""
    ensures r.qtype.None? <==> config.qtype == AnyType
    ensures r.qtype.Some? ==> r.qtype.value == config.qtype.Value() != ""
  {
    CategoryIdRoundTrip(config.category);
    ApiRequest(
      CoerceIn(config.amount, MinAmount, MaxAmount),
      if config.category == AnyCategory then None else Some(config.category.Id()),
      if config.difficulty == AnyDifficulty then None else Some(config.difficulty.Value()),
      if config.qtype == AnyType then None else Some(config.qtype.Value()))
  }

  /** Nothing but the amount's clamping is lost in a request: two
      configurations that send the same request ask for the same category,
      difficulty and type, and for the same amount when both are in range. */
  lemma RequestDeterminesConfig(c1: QuizConfig, c2: QuizConfig)
    requires RequestFor(c1) == RequestFor(c2)
    ensures c1.category == c2.category && c1.difficulty == c2.difficulty && c1.qtype == c2.qtype
    ensures MinAmount <= c1.amount <= MaxAmount && MinAmount <= c2.amount <= MaxAmount ==> c1 == c2
  {
    var r := RequestFor(c1);
    if r.category.Some? {
      assert Some(c1.category) == CategoryOfId(r.category.value) == Some(c2.category);
    }
    if r.difficulty.Some? {
      assert c1.difficulty.Value() == c2.difficulty.Value();
    }
    if r.qtype.Some? {
      assert c1.qtype.Value() == c2.qtype.Value();
    }
  }

  /** What the service call produced: the questions, or an exception. */
  type Response = Result<seq<Question>>

  datatype QuizUiState = QuizUiState(
    loading: bool,
    error: Option<string>,
    questions: seq<Question>,
    currentIndex: int,
    userAnswers: seq<string>,
    score: int)

  /** The answer recorded for a question not answered yet. */
  const Unanswered: string := ""

  /** `QuizUiState(loading = true)`. */
  const LoadingState: QuizUiState := QuizUiState(true, None, [], 0, [], 0)

  /** The indices below `k` whose recorded answer is the question's correct answer. */
  function CorrectBelow(questions: seq<Question>, answers: seq<string>, k: nat): set<nat>
    requires k <= |questions| && k <= |answers|
  {
    set i: nat | i < k && answers[i] == questions[i].correctAnswer
  }

  /** The indices, among those `zip` pairs up, of correctly answered questions. */
  function CorrectIndices(questions: seq<Question>, answers: seq<string>): set<nat> {
    CorrectBelow(questions, answers, if |questions| < |answers| then |questions| else |answers|)
  }

  /** The sum of the 1/0 marks of the first `k` question/answer pairs. */
  function CountBelow(questions: seq<Question>, answers: seq<string>, k: nat): (n: nat)
    requires k <= |questions| && k <= |answers|
    ensures n <= k
  {
    if k == 0 then 0
    else CountBelow(questions, answers, k - 1) + (if answers[k - 1] == questions[k - 1].correctAnswer then 1 else 0)
  }

  /** The recount of `answerCurrentQuestion`: `zip` the questions with the
      answers and add 1 for every match. */
  function Score(questions: seq<Question>, answers: seq<string>): nat {
    CountBelow(questions, answers, if |questions| < |answers| then |questions| else |answers|)
  }

  lemma {:induction false} CountBelowIsCardinality(questions: seq<Question>, answers: seq<string>, k: nat)
    requires k <= |questions| && k <= |answers|
    ensures CountBelow(questions, answers, k) == |CorrectBelow(questions, answers, k)|
  {
    if k > 0 {
      CountBelowIsCardinality(questions, answers, k - 1);
      var prev := CorrectBelow(questions, answers, k - 1);
      if answers[k - 1] == questions[k - 1].correctAnswer {
        assert CorrectBelow(questions, answers, k) == prev + {k - 1};
        assert k - 1 !in prev;
      } else {
        assert CorrectBelow(questions, answers, k) == prev;
      }
    }
  }

  /** The score is the number of correctly answered questions, at most the
      number of questions. */
  lemma ScoreCountsMatches(questions: seq<Question>, answers: seq<string>)
    ensures Score(questions, answers) == |CorrectIndices(questions, answers)|
    ensures Score(questions, answers) <= |questions|
  {
    CountBelowIsCardinality(questions, answers, if |questions| < |answers| then |questions| else |answers|);
  }

  /** The state a successful fetch installs. */
  function Loaded(results: seq<Question>): (s: QuizUiState)
    ensures !s.loading && s.error.None?
    ensures s.questions == results && s.currentIndex == 0 && s.score == 0
    ensures |s.userAnswers| == |results|
    ensures forall i :: 0 <= i < |s.userAnswers| ==> s.userAnswers[i] == Unanswered
  {
    QuizUiState(false, None, results, 0, seq(|results|, _ => Unanswered), 0)
  }

  /** The state a failed fetch installs: the exception's message, no questions. */
  function Failed(message: Option<string>): (s: QuizUiState)
    ensures !s.loading && s.error == message
    ensures s.questions == [] && s.userAnswers == [] && s.currentIndex == 0 && s.score == 0
  {
    QuizUiState(false, message, [], 0, [], 0)
  }

  /** The state a finished fetch installs, whatever the outcome. */
  function Installed(response: Response): QuizUiState {
    match response
    case Ok(results) => Loaded(results)
    case Threw(message) => Failed(message)
  }

  /** `answerCurrentQuestion(answer)`: overwrite the current slot and recount. */
  function Answer(s: QuizUiState, answer: string): (r: QuizUiState)
    requires 0 <= s.currentIndex < |s.userAnswers|
    ensures |r.userAnswers| == |s.userAnswers|
    ensures r.userAnswers[s.currentIndex] == answer
    ensures forall j :: 0 <= j < |s.userAnswers| && j != s.currentIndex ==> r.userAnswers[j] == s.userAnswers[j]
    ensures r.score == |CorrectIndices(r.questions, r.userAnswers)| <= |r.questions|
    ensures r.loading == s.loading && r.error == s.error
    ensures r.questions == s.questions && r.currentIndex == s.currentIndex
  {
    var answers := s.userAnswers[s.currentIndex := answer];
    ScoreCountsMatches(s.questions, answers);
    s.(userAnswers := answers, score := Score(s.questions, answers))
  }

  /** `nextQuestion()`: move on unless this is the last question. */
  function Next(s: QuizUiState): (r: QuizUiState)
    ensures r.currentIndex == (if s.currentIndex < |s.questions| - 1 then s.currentIndex + 1 else s.currentIndex)
    ensures r.(currentIndex := s.currentIndex) == s
  {
    if s.currentIndex < |s.questions| - 1 then s.(currentIndex := s.currentIndex + 1) else s
  }

  predicate AllUnanswered(answers: seq<string>) {
    forall i :: 0 <= i < |answers| ==> answers[i] == Unanswered
  }

  /** The invariant of every state the view model can reach: one answer slot
      per question, the position inside the batch (0 for an empty one), and a
      score that is the recount of the answers, except that before the first
      answer of a batch the score is still the 0 it was installed with. */
  predicate Valid(s: QuizUiState) {
    && |s.userAnswers| == |s.questions|
    && 0 <= s.currentIndex
    && (|s.questions| == 0 ==> s.currentIndex == 0)
    && (|s.questions| > 0 ==> s.currentIndex < |s.questions|)
    && (s.score == Score(s.questions, s.userAnswers) || (s.score == 0 && AllUnanswered(s.userAnswers)))
  }

  lemma LoadingStateValid()
    ensures Valid(LoadingState)
  {
  }

  lemma InstalledValid(response: Response)
    ensures Valid(Installed(response))
  {
  }

  /** Answering keeps the invariant, and afterwards the score is exactly the
      number of correctly answered questions. */
  lemma AnswerValid(s: QuizUiState, answer: string)
    requires Valid(s) && |s.questions| > 0
    ensures Valid(Answer(s, answer))
    ensures Answer(s, answer).score == Score(s.questions, Answer(s, answer).userAnswers)
  {
  }

  /** Moving on keeps the invariant; in particular the position never leaves
      [0, |questions| - 1] for a non-empty batch. */
  lemma NextValid(s: QuizUiState)
    requires Valid(s)
    ensures Valid(Next(s))
    ensures |s.questions| > 0 ==> 0 <= Next(s).currentIndex <= |s.questions| - 1
  {
  }

  /** On the last question `nextQuestion` changes nothing; elsewhere it
      advances by exactly one. */
  lemma NextAtLast(s: QuizUiState)
    requires Valid(s)
    ensures Next(s) == s <==> s.currentIndex == |s.questions| - 1 || |s.questions| == 0
  {
  }

  /** Giving the same answer twice is the same as giving it once. */
  lemma AnswerIdempotent(s: QuizUiState, answer: string)
    requires 0 <= s.currentIndex < |s.userAnswers|
    ensures Answer(Answer(s, answer), answer) == Answer(s, answer)
  {
    var once := Answer(s, answer);
    assert once.userAnswers[s.currentIndex := answer] == once.userAnswers;
  }

  /** A later answer to the same question replaces an earlier one. */
  lemma AnswerOverwrites(s: QuizUiState, first: string, second: string)
    requires 0 <= s.currentIndex < |s.userAnswers|
    ensures Answer(Answer(s, first), second) == Answer(s, second)
  {
    var answers := s.userAnswers[s.currentIndex := second];
    assert Answer(s, first).userAnswers[s.currentIndex := second] == answers;
  }

  /** With no question whose correct answer is the empty text, every state
      the view model reaches has the recount as its score. */
  lemma ScoreIsRecount(s: QuizUiState)
    requires Valid(s)
    requires forall i :: 0 <= i < |s.questions| ==> s.questions[i].correctAnswer != Unanswered
    ensures s.score == Score(s.questions, s.userAnswers) == |CorrectIndices(s.questions, s.userAnswers)|
  {
    ScoreCountsMatches(s.questions, s.userAnswers);
    if AllUnanswered(s.userAnswers) {
      assert CorrectIndices(s.questions, s.userAnswers) == {};
    }
  }

  /** An unanswered slot is the empty text, so a question whose correct
      answer is the empty text already counts once any answer is given. */
  lemma EmptyCorrectAnswerCountsUnanswered()
    ensures var q0 := Question("Q0", "a", ["b"], "multiple", "Art", "easy");
            var q1 := Question("Q1", "", ["c"], "multiple", "Art", "easy");
            Answer(Loaded([q0, q1]), "b").score == 1
  {
    var q0 := Question("Q0", "a", ["b"], "multiple", "Art", "easy");
    var q1 := Question("Q1", "", ["c"], "multiple", "Art", "easy");
    var s := Answer(Loaded([q0, q1]), "b");
    assert s.userAnswers == ["b", ""];
    assert CountBelow(s.questions, s.userAnswers, 1) == 0;
  }

  /** The view model: the `StateFlow` value the screens read, and the
      request its most recent fetch sent to the trivia service. */
  class ViewModel {
    var state: QuizUiState
    var lastRequest: ApiRequest

    /** `init { fetchQuestions() }`: the view model starts loading, with the
        default request outstanding. */
    constructor ()
      ensures state == LoadingState && Valid(state)
      ensures lastRequest == RequestFor(DefaultConfig)
      ensures lastRequest == ApiRequest(10, None, None, None)
    {
      state := LoadingState;
      lastRequest := RequestFor(DefaultConfig);
    }

    /** `fetchQuestions(config)`, first half: the whole state is replaced by a
        loading state and the request for `config` is sent. */
    method FetchQuestions(config: QuizConfig) returns (request: ApiRequest)
      modifies this
      ensures state == LoadingState && Valid(state)
      ensures request == RequestFor(config) && lastRequest == request
    {
      state := LoadingState;
      request := RequestFor(config);
      lastRequest := request;
    }

    /** `fetchQuestions(config)`, second half: the launched coroutine
        installs what the service call produced. */
    method Deliver(response: Response)
      modifies this
      ensures state == Installed(response) && Valid(state)
      ensures lastRequest == old(lastRequest)
    {
      match response {
        case Ok(results) =>
          state := QuizUiState(false, None, results, 0, seq(|results|, _ => Unanswered), 0);
        case Threw(message) =>
          state := QuizUiState(false, message, [], 0, [], 0);
      }
    }

    /** `answerCurrentQuestion(answer)`: a mutable copy of the answers gets the
        answer in the current slot, then the score is recounted. */
    method AnswerCurrentQuestion(answer: string)
      requires 0 <= state.currentIndex < |state.userAnswers|
      modifies this
      ensures state == Answer(old(state), answer)
      ensures Valid(old(state)) && |old(state).questions| > 0 ==> Valid(state)
      ensures lastRequest == old(lastRequest)
    {
      var s := state;
      var updated := new string[|s.userAnswers|](i requires 0 <= i < |s.userAnswers| => s.userAnswers[i]);
      updated[s.currentIndex] := answer;
      assert updated[..] == s.userAnswers[s.currentIndex := answer];
      var correctCount := Score(s.questions, updated[..]);
      state := s.(userAnswers := updated[..], score := correctCount);
      if Valid(s) && |s.questions| > 0 {
        AnswerValid(s, answer);
      }
    }

    /** `nextQuestion()`. */
    method NextQuestion()
      modifies this
      ensures state == Next(old(state))
      ensures Valid(old(state)) ==> Valid(state)
      ensures lastRequest == old(lastRequest)
    {
      var s := state;
      if s.currentIndex < |s.questions| - 1 {
        state := s.(currentIndex := s.currentIndex + 1);
      }
    }

    /** `resetQuiz()`: a fetch with the default configuration, whatever
        configuration was used before. */
    method ResetQuiz() returns (request: ApiRequest)
      modifies this
      ensures state == LoadingState
      ensures request == RequestFor(DefaultConfig)
      ensures request == ApiRequest(10, None, None, None) && lastRequest == request
    {
      request := FetchQuestions(DefaultConfig);
    }
  }
}
