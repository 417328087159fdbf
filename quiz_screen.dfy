/** The decisions of the quiz screen: which view it shows, the options of the
    current question, whether the chosen option is marked right or wrong,
    the next/finish action and the attempt record it saves. All of it is
    computed from the view model's state; every change goes through the
    view model. */
module QuizScreen {
  import opened KotlinStd
  import opened QuizViewModel
  import opened Documents

  /** What the screen shows, in order of precedence. */
  datatype View = LoadingView | ErrorView(message: string) | NoQuizView | QuestionView(index: int)

  function ViewFor(s: QuizUiState): (v: View)
    ensures v.LoadingView? <==> s.loading
    ensures v.ErrorView? <==> !s.loading && s.error.Some?
    ensures v.ErrorView? ==> v.message == s.error.value
    ensures v.NoQuizView? <==> !s.loading && s.error.None? && |s.questions| == 0
    ensures v.QuestionView? <==> !s.loading && s.error.None? && |s.questions| > 0
    ensures v.QuestionView? ==> v.index == s.currentIndex
  {
    if s.loading then LoadingView
    else if s.error.Some? then ErrorView(s.error.value)
    else if |s.questions| == 0 then NoQuizView
    else QuestionView(s.currentIndex)
  }

  /** What the screen shows once a fetch has finished: the first question of
      a non-empty batch, the error text of a failure, and the "no quiz" card
      for an empty batch and also for a failure whose exception carries no
      message. */
  lemma FetchOutcomeView(response: Response)
    ensures response.Ok? && |response.value| > 0 ==> ViewFor(Installed(response)) == QuestionView(0)
    ensures response.Ok? && |response.value| == 0 ==> ViewFor(Installed(response)) == NoQuizView
    ensures response.Threw? && response.message.Some? ==> ViewFor(Installed(response)) == ErrorView(response.message.value)
    ensures response == Threw(None) ==> ViewFor(Installed(response)) == NoQuizView
  {
  }

  /** `shuffled()`: the random choices are an input. Each step takes the
      element at position `picks[0]` (modulo the number left) and shuffles
      the rest with the remaining picks. */
  function Shuffle(xs: seq<string>, picks: seq<nat>): (r: seq<string>)
    ensures multiset(r) == multiset(xs)
    ensures |r| == |xs|
    decreases |xs|
  {
    if |xs| == 0 then []
    else
      var k := if |picks| > 0 then picks[0] % |xs| else 0;
      var rest := xs[..k] + xs[k + 1..];
      assert xs == xs[..k] + [xs[k]] + xs[k + 1..];
      [xs[k]] + Shuffle(rest, if |picks| > 0 then picks[1..] else [])
  }

  /** The options shown for a question: its incorrect answers and its correct
      answer, in an order fixed by `picks`. */
  function Options(q: Question, picks: seq<nat>): (r: seq<string>)
    ensures multiset(r) == multiset(q.incorrectAnswers + [q.correctAnswer])
    ensures |r| == |q.incorrectAnswers| + 1
  {
    Shuffle(q.incorrectAnswers + [q.correctAnswer], picks)
  }

  /** Every answer of the question is among the options, the correct one included. */
  lemma OptionsComplete(q: Question, picks: seq<nat>)
    ensures q.correctAnswer in Options(q, picks)
    ensures forall i :: 0 <= i < |q.incorrectAnswers| ==> q.incorrectAnswers[i] in Options(q, picks)
  {
    var all := q.incorrectAnswers + [q.correctAnswer];
    var m := multiset(Options(q, picks));
    assert m == multiset(all);
    assert all[|all| - 1] == q.correctAnswer;
    assert q.correctAnswer in m;
    forall i | 0 <= i < |q.incorrectAnswers|
      ensures q.incorrectAnswers[i] in Options(q, picks)
    {
      assert all[i] == q.incorrectAnswers[i];
      assert all[i] in m;
    }
  }

  /** The answer recorded for the question on screen. */
  function Selected(s: QuizUiState): string
    requires 0 <= s.currentIndex < |s.userAnswers|
  {
    s.userAnswers[s.currentIndex]
  }

  predicate IsLast(s: QuizUiState) {
    s.currentIndex == |s.questions| - 1
  }

  /** The right/wrong mark of one option: none until an answer is chosen, then
      whether the option is the correct answer, chosen or not. */
  function IsCorrect(selected: string, option: string, correctAnswer: string): (r: Option<bool>)
    ensures r.None? <==> selected == Unanswered
    ensures r.Some? ==> (r.value <==> option == correctAnswer)
  {
    if selected != Unanswered then Some(option == correctAnswer) else None
  }

  datatype Feedback = NoFeedback | CorrectFeedback | IncorrectFeedback(correctAnswer: string)

  /** The message under the options. */
  function FeedbackFor(selected: string, correctAnswer: string): (f: Feedback)
    ensures f.CorrectFeedback? <==> selected != Unanswered && selected == correctAnswer
    ensures f.IncorrectFeedback? <==> selected != Unanswered && selected != correctAnswer
    ensures f.IncorrectFeedback? ==> f.correctAnswer == correctAnswer
  {
    if selected == Unanswered then NoFeedback
    else if selected == correctAnswer then CorrectFeedback
    else IncorrectFeedback(correctAnswer)
  }

  /** The result an attempt is saved with. */
  datatype Attempt = Attempt(score: int, totalQuestions: int, category: string)

  datatype Action = NextQuestion | FinishQuiz(attempt: Attempt)

  /** The category an attempt is filed under: the first question's, or the default for an empty batch. */
  function AttemptCategory(questions: seq<Question>): (c: string)
    ensures |questions| > 0 ==> c == questions[0].category
    ensures |questions| == 0 ==> c == DefaultCategory
  {
    if |questions| > 0 then questions[0].category else DefaultCategory
  }

  /** The next/finish button: absent until the question is answered; on the
      last question it finishes with the current score, elsewhere it moves on. */
  function ActionFor(s: QuizUiState): (a: Option<Action>)
    requires 0 <= s.currentIndex < |s.userAnswers|
    ensures a.Some? <==> Selected(s) != Unanswered
    ensures a == Some(NextQuestion) <==> Selected(s) != Unanswered && !IsLast(s)
    ensures a.Some? && a.value.FinishQuiz? ==>
              IsLast(s) && a.value.attempt == Attempt(s.score, |s.questions|, AttemptCategory(s.questions))
  {
    if Selected(s) == Unanswered then None
    else if IsLast(s) then Some(FinishQuiz(Attempt(s.score, |s.questions|, AttemptCategory(s.questions))))
    else Some(NextQuestion)
  }

  /** On a question view, the button moves on by exactly one question, and
      finishing records the recount of the answers over the whole batch. */
  lemma ActionEffect(s: QuizUiState)
    requires Valid(s) && ViewFor(s).QuestionView?
    ensures ActionFor(s) == Some(NextQuestion) ==> Next(s).currentIndex == s.currentIndex + 1
    ensures ActionFor(s).Some? && ActionFor(s).value.FinishQuiz? ==>
              var a := ActionFor(s).value.attempt;
              a.score == |CorrectIndices(s.questions, s.userAnswers)| <= a.totalQuestions == |s.questions|
              && a.category == s.questions[0].category
  {
    ScoreCountsMatches(s.questions, s.userAnswers);
  }

  /** `saveQuizResultToFirestore`: nothing without a signed-in user;
      otherwise one new document under that user's scores with exactly the
      four fields. */
  function SaveQuizResult(attempt: Attempt, currentUid: Option<string>, now: int): (r: Option<(string, ScoreDoc)>)
    ensures r.None? <==> currentUid.None?
    ensures r.Some? ==> r.value.0 == currentUid.value
    ensures r.Some? ==> r.value.1 == ScoreDoc(Some(attempt.score), Some(attempt.totalQuestions), Some(attempt.category), Some(now))
  {
    match currentUid
    case None => None
    case Some(uid) =>
      Some((uid, ScoreDoc(Some(attempt.score), Some(attempt.totalQuestions), Some(attempt.category), Some(now))))
  }
}
