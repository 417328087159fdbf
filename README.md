# BrainQuest core, modelled in Dafny

BrainQuest is an Android trivia app. A player signs up or logs in, then plays
a batch of questions drawn from the Open Trivia Database. Each finished
attempt is stored under the player's account. The profile, home and
leaderboard screens summarise the stored attempts.

This project models the logic of that app:

- the quiz session state held by the view model: fetch, answer, next and
  reset;
- the decisions of the quiz screen: which view it shows, the shuffled
  options, the right/wrong marks, next or finish, and the attempt record it
  saves;
- the leaderboard: the per-user loop that folds scores into total, best,
  count and mean, the stable descending sort chosen by tab, and the rank,
  badge and texts of each row;
- the profile statistics: the ten newest attempts, the mean of the
  per-attempt percentages, the best score, the displayed name, the
  recent-activity list with its dividers, the percentage bands and the
  "time ago" texts;
- the home summary: the aggregate percentage that assumes ten questions per
  attempt, the rank by position, the three newest attempts and the
  greeting;
- the sign-up and login forms: their ordered first-failure checks, the early
  return before the account call, and the field highlighting.

Files, one module each (plus two shared ones):

| file | module | models |
|---|---|---|
| `kotlin_std.dfy` | `KotlinStd` | the Kotlin/JVM behaviour the screens rely on: nullable values, exceptions as results, truncating division, `Long.toInt()`, `coerceIn`, `isBlank`, `take`, `Double` with its infinities and NaN, `toInt()`, decimal string templates |
| `documents.dfy` | `Documents`, `TimeText` | the stored user and attempt documents; the "time ago" texts |
| `quiz_view_model.dfy` | `QuizViewModel` | `QuizViewModel.kt` |
| `quiz_screen.dfy` | `QuizScreen` | `QuizScreen.kt` |
| `leaderboard.dfy` | `Leaderboard` | `LeaderboardScreen.kt` |
| `profile.dfy` | `Profile` | `ProfileScreen.kt` |
| `home.dfy` | `Home` | `HomeScreen.kt` |
| `signup.dfy` | `Signup` | `SignupScreen.kt` |
| `login.dfy` | `Login` | `LoginScreen.kt` |

Inputs to the model:

- Every read from the database or the trivia service is an input. A read
  that throws is `Threw(message)`, and the message may be absent.
- The random choices of `shuffled()` are an input sequence `picks`.
- The email pattern is a parameter `matchesEmail: string -> bool`.
- The current time is a parameter `now`, in milliseconds, read when a text is drawn. The home screen also reads the clock while it maps its recent-attempts query; that reading is a separate parameter, `fetchedAt`.
- The order in which the database returns documents is the input order.
  The profile's and home screen's "newest first" queries and the home
  screen's `highScore` ordering are therefore given as already ordered.

The view model is a class, `QuizViewModel.ViewModel`. Its field `state`
is the `StateFlow` value, and `lastRequest` records the request the most
recent fetch sent, from `init` on. Every method ensures that the new state is a pure
transition function (`Answer`, `Next`, `Installed`) of the old one. The
invariant `Valid` and the score properties are proved about those functions.
The two forms are classes too (`Signup.SignupForm`, `Login.LoginForm`),
because their validation writes the captured `error` variable. The
leaderboard loop is a method with a `for` loop proved against the function
`Entries`. The rest of the screens compute values and are functions.

## Model

| member | source | states |
|---|---|---|
| KotlinStd.Int32Of | app/src/main/java/com/axu/brainquest/ui/LeaderboardScreen.kt:99 | `Long.toInt()` gives a value in the `Int` range that is congruent to the input modulo 2^32, and the input itself when it fits |
| KotlinStd.Div | app/src/main/java/com/axu/brainquest/ui/ProfileScreen.kt:367-369 | integer division truncates toward zero: the quotient has the sign of the dividend |
| KotlinStd.DivBounds | app/src/main/java/com/axu/brainquest/ui/HomeScreen.kt:64-66 | the truncated quotient is the number of whole divisors in the dividend, on either side of zero |
| KotlinStd.CoerceIn | app/src/main/java/com/axu/brainquest/ui/QuizViewModel.kt:123 | `coerceIn(lo, hi)` lands in [lo, hi], keeps values inside it, and sends values below or above to the nearer bound |
| KotlinStd.Take | app/src/main/java/com/axu/brainquest/ui/ProfileScreen.kt:332 | `take(n)` is a prefix of length min(n, size) |
| KotlinStd.DoubleToInt | app/src/main/java/com/axu/brainquest/ui/LeaderboardScreen.kt:310 | `toInt()` of a finite value truncates toward zero and saturates at the `Int` bounds |
| KotlinStd.Double.ToInt | app/src/main/java/com/axu/brainquest/ui/ProfileScreen.kt:288 | `toInt()` of any double is an `Int`: a finite value truncates and saturates as `DoubleToInt`, positive infinity becomes `Int.MAX_VALUE`, negative infinity `Int.MIN_VALUE`, and NaN 0 |
| KotlinStd.Quotient | app/src/main/java/com/axu/brainquest/ui/ProfileScreen.kt:119 | `a.toDouble() / b` is finite exactly when `b` is non-zero, and is then the exact quotient; over 0 it is positive infinity for a positive `a`, negative infinity for a negative one, and NaN exactly for 0/0 |
| KotlinStd.Times | app/src/main/java/com/axu/brainquest/ui/ProfileScreen.kt:119 | `* 100` keeps a value finite exactly when it was, and then multiplies it exactly |
| KotlinStd.Plus | app/src/main/java/com/axu/brainquest/ui/ProfileScreen.kt:119 | a sum of doubles is finite exactly when both terms are, and is then their exact sum |
| KotlinStd.SumDoublesFinite | app/src/main/java/com/axu/brainquest/ui/ProfileScreen.kt:119 | `average()`'s running sum (`KotlinStd.SumDoubles`) is finite exactly when every term is |
| KotlinStd.MaxOrZero | app/src/main/java/com/axu/brainquest/ui/LeaderboardScreen.kt:106 | `maxOrNull() ?: 0` is 0 for no scores, and otherwise one of the scores and at least every score |
| KotlinStd.IntToStringRoundTrip | app/src/main/java/com/axu/brainquest/ui/LeaderboardScreen.kt:309 | the decimal text of an integer reads back as that integer, so distinct values never share a text; this specifies `KotlinStd.IntToString`, the `"$i"` template |
| KotlinStd.BlankExamples | app/src/main/java/com/axu/brainquest/ui/SignupScreen.kt:68 | `isBlank()` (`KotlinStd.IsBlank`, over the JVM whitespace set `KotlinStd.IsWhitespace`) holds for an empty text and one of spaces, tabs and no-break spaces, and fails for any text with a letter |
| KotlinStd.BlankConcat | app/src/main/java/com/axu/brainquest/ui/LoginScreen.kt:54 | two texts joined are blank exactly when both are |
| Documents.StringField | app/src/main/java/com/axu/brainquest/ui/LeaderboardScreen.kt:111-112 | `data[key] as? String` is present exactly when the key holds a string, and is then that string |
| TimeText.TextDeterminesAgo | app/src/main/java/com/axu/brainquest/ui/ProfileScreen.kt:367-371 | the "time ago" texts (`TimeText.Text`: "Recently", "just now", "N minutes ago", "N hours ago", "N days ago", as at ProfileScreen.kt:367-371 and HomeScreen.kt:62-66) never coincide for different buckets or counts |
| QuizViewModel.RequestFor | app/src/main/java/com/axu/brainquest/ui/QuizViewModel.kt:123-126 | the amount is clamped to [1, 50] (0 becomes 1, 75 becomes 50, values in range are kept); each option is absent exactly when it is "any", and otherwise carries the option's id or value |
| QuizViewModel.CategoryIdRoundTrip | app/src/main/java/com/axu/brainquest/ui/QuizViewModel.kt:29-55 | the 25 category ids are distinct: reading a category's id back gives that category |
| QuizViewModel.RequestDeterminesConfig | app/src/main/java/com/axu/brainquest/ui/QuizViewModel.kt:123-126 | only the clamping loses information: equal requests come from equal category, difficulty and type, and from equal configurations when both amounts are in range |
| QuizViewModel.CountBelowIsCardinality | app/src/main/java/com/axu/brainquest/ui/QuizViewModel.kt:145-147 | the running 1/0 sum over a prefix of the `zip` is the number of matching indices in it |
| QuizViewModel.ScoreCountsMatches | app/src/main/java/com/axu/brainquest/ui/QuizViewModel.kt:145-147 | the recount is the number of indices whose answer equals the correct answer, and at most the number of questions; this specifies `QuizViewModel.Score`, the `zip`/`sumOf` recount of QuizViewModel.kt:145-147 |
| QuizViewModel.Loaded | app/src/main/java/com/axu/brainquest/ui/QuizViewModel.kt:128-132 | a successful fetch installs: not loading, no error, the fetched questions, index 0, score 0, and one empty answer per question |
| QuizViewModel.Failed | app/src/main/java/com/axu/brainquest/ui/QuizViewModel.kt:134 | a failed fetch installs: not loading, the exception's message (possibly absent) as the error, no questions, no answers |
| QuizViewModel.Answer | app/src/main/java/com/axu/brainquest/ui/QuizViewModel.kt:139-153 | answering sets the current slot to the answer, keeps every other slot, the questions, index, loading and error, and makes the score the number of correctly answered questions |
| QuizViewModel.LoadingStateValid | app/src/main/java/com/axu/brainquest/ui/QuizViewModel.kt:110 | the initial loading state satisfies the session invariant |
| QuizViewModel.InstalledValid | app/src/main/java/com/axu/brainquest/ui/QuizViewModel.kt:128-134 | whatever a fetch produces, the installed state satisfies the session invariant; `QuizViewModel.Installed` is the outcome chosen by the `try`/`catch` of QuizViewModel.kt:128-134 |
| QuizViewModel.AnswerValid | app/src/main/java/com/axu/brainquest/ui/QuizViewModel.kt:139-153 | answering keeps the invariant, and afterwards the score is exactly the recount |
| QuizViewModel.NextValid | app/src/main/java/com/axu/brainquest/ui/QuizViewModel.kt:155-160 | moving on keeps the invariant, so for a non-empty batch the index stays in [0, size - 1] |
| QuizViewModel.Next | app/src/main/java/com/axu/brainquest/ui/QuizViewModel.kt:155-160 | moving on advances the index by one below the last question and otherwise changes nothing; the rest of the state is kept |
| QuizViewModel.NextAtLast | app/src/main/java/com/axu/brainquest/ui/QuizViewModel.kt:155-160 | `nextQuestion` changes nothing exactly on the last question (or an empty batch) |
| QuizViewModel.AnswerIdempotent | app/src/main/java/com/axu/brainquest/ui/QuizViewModel.kt:141-152 | giving the same answer twice leaves the state as giving it once |
| QuizViewModel.AnswerOverwrites | app/src/main/java/com/axu/brainquest/ui/QuizViewModel.kt:141-152 | a later answer to the same question replaces the earlier one entirely |
| QuizViewModel.ScoreIsRecount | app/src/main/java/com/axu/brainquest/ui/QuizViewModel.kt:145-147 | when no correct answer is the empty text, the score of every valid state is the number of correctly answered questions |
| QuizViewModel.EmptyCorrectAnswerCountsUnanswered | app/src/main/java/com/axu/brainquest/ui/QuizViewModel.kt:131 | a question whose correct answer is "" already counts as correct while unanswered |
| QuizViewModel.ViewModel.constructor | app/src/main/java/com/axu/brainquest/ui/QuizViewModel.kt:110-115 | the view model starts in the loading state, with the default request `RequestFor(DefaultConfig)` (10 questions, all "any") sent |
| QuizViewModel.ViewModel.FetchQuestions | app/src/main/java/com/axu/brainquest/ui/QuizViewModel.kt:117-127 | a fetch first replaces the whole state by the loading state and sends the request for the configuration, which becomes the recorded request |
| QuizViewModel.ViewModel.Deliver | app/src/main/java/com/axu/brainquest/ui/QuizViewModel.kt:128-135 | the completed call installs the loaded or failed state, which satisfies the invariant; the recorded request is kept |
| QuizViewModel.ViewModel.AnswerCurrentQuestion | app/src/main/java/com/axu/brainquest/ui/QuizViewModel.kt:139-153 | the new state is `Answer` of the old one, written through a mutable copy of the answers; the invariant is kept |
| QuizViewModel.ViewModel.NextQuestion | app/src/main/java/com/axu/brainquest/ui/QuizViewModel.kt:155-160 | the new state is `Next` of the old one; the invariant is kept |
| QuizViewModel.ViewModel.ResetQuiz | app/src/main/java/com/axu/brainquest/ui/QuizViewModel.kt:162-164 | a reset fetches with the default configuration (10 questions, all "any"), not the previous one |
| QuizScreen.ViewFor | app/src/main/java/com/axu/brainquest/ui/QuizScreen.kt:55-109 | the screen shows loading, else the error, else the "no quiz" card for an empty batch, else the current question |
| QuizScreen.FetchOutcomeView | app/src/main/java/com/axu/brainquest/ui/QuizScreen.kt:55-109 | after a fetch: a non-empty batch shows its first question, an empty batch and a failure without a message show the "no quiz" card, a failure with a message shows it |
| QuizScreen.Shuffle | app/src/main/java/com/axu/brainquest/ui/QuizScreen.kt:113 | `shuffled()` returns a permutation: same multiset, same length |
| QuizScreen.Options | app/src/main/java/com/axu/brainquest/ui/QuizScreen.kt:112-114 | the options are a permutation of the incorrect answers plus the correct one, of size incorrect + 1 |
| QuizScreen.OptionsComplete | app/src/main/java/com/axu/brainquest/ui/QuizScreen.kt:112-114 | the correct answer and every incorrect answer are among the options |
| QuizScreen.IsCorrect | app/src/main/java/com/axu/brainquest/ui/QuizScreen.kt:239-241 | an option has no mark while the answer is "", and otherwise is marked correct exactly when it is the correct answer, chosen or not |
| QuizScreen.FeedbackFor | app/src/main/java/com/axu/brainquest/ui/QuizScreen.kt:277-330 | the "correct" message appears exactly when a non-empty answer equals the correct one, the "incorrect" message (with the correct answer) exactly when it differs |
| QuizScreen.AttemptCategory | app/src/main/java/com/axu/brainquest/ui/QuizScreen.kt:261 | the attempt's category is the first question's, or "General Knowledge" for an empty batch |
| QuizScreen.ActionFor | app/src/main/java/com/axu/brainquest/ui/QuizScreen.kt:254-271 | the button exists exactly when the question is answered; it moves on exactly when this is not the last question, and on the last it finishes with (score, number of questions, category); `QuizScreen.Selected` and `QuizScreen.IsLast` are `selected` and `isLast` of QuizScreen.kt:115-116 |
| QuizScreen.ActionEffect | app/src/main/java/com/axu/brainquest/ui/QuizScreen.kt:259-268 | moving on advances by exactly one; finishing records the recount of correct answers, at most the number of questions, under the first question's category |
| QuizScreen.SaveQuizResult | app/src/main/java/com/axu/brainquest/ui/QuizScreen.kt:336-344 | nothing is saved without a signed-in user; otherwise one document under that user with exactly score, total, category and timestamp |
| Leaderboard.ScoresOf | app/src/main/java/com/axu/brainquest/ui/LeaderboardScreen.kt:98-100 | one score per score document, in order, each read with its default |
| Leaderboard.Average | app/src/main/java/com/axu/brainquest/ui/LeaderboardScreen.kt:105 | the mean is 0 for no scores and otherwise times the count gives the total of the raw scores |
| Leaderboard.EntryStats | app/src/main/java/com/axu/brainquest/ui/LeaderboardScreen.kt:103-106 | count is the number of scores, total their sum, best their max; with non-negative scores 0 <= mean <= best <= total, and a user with no scores has all zeros; this specifies `Leaderboard.EntryOf`, the entry built at LeaderboardScreen.kt:108-118, with `KotlinStd.Sum` as `sum()` |
| Leaderboard.EntryDefaults | app/src/main/java/com/axu/brainquest/ui/LeaderboardScreen.kt:111-112 | the name is the stored string, and "Anonymous" when the field is missing or not a string; the email is the stored string, and "" when the field is missing or not a string |
| Leaderboard.MissingScoreIsZero | app/src/main/java/com/axu/brainquest/ui/LeaderboardScreen.kt:99 | a score document without a `score` field counts as 0; a stored score is its `toInt()` (`Int32Of`), so it is unchanged when it fits in an `Int`; this specifies `Leaderboard.ScoreOf`, `getLong("score")?.toInt() ?: 0` of LeaderboardScreen.kt:99 |
| Leaderboard.EntriesFail | app/src/main/java/com/axu/brainquest/ui/LeaderboardScreen.kt:87-119 | the loop fails exactly when the scores query of some user with data fails |
| Leaderboard.EntriesPerUser | app/src/main/java/com/axu/brainquest/ui/LeaderboardScreen.kt:87-119 | a completed loop lists exactly the users with data, in user-list order, each with its own statistics; users without data are skipped; this specifies `Leaderboard.Entries`, the loop of LeaderboardScreen.kt:87-119 read as a recursion |
| Leaderboard.EntriesIds | app/src/main/java/com/axu/brainquest/ui/LeaderboardScreen.kt:87-119 | the entries' user ids are, in order, the ids of the users that have a document |
| Leaderboard.EntriesFromUsers | app/src/main/java/com/axu/brainquest/ui/LeaderboardScreen.kt:87-119 | every entry is built from one listed user with a document and readable scores, from that user's own name, email and scores |
| Leaderboard.BuildEntries | app/src/main/java/com/axu/brainquest/ui/LeaderboardScreen.kt:85-119 | the `for` loop with `continue` returns exactly the entries `Entries` defines, or the first failure |
| Leaderboard.Insert | app/src/main/java/com/axu/brainquest/ui/LeaderboardScreen.kt:122-126 | inserting adds the entry to the multiset and keeps a descending list descending |
| Leaderboard.SortByTab | app/src/main/java/com/axu/brainquest/ui/LeaderboardScreen.kt:122-126 | the result is a permutation of the entries, descending by total (tab 0), mean (tab 1) or best score (any other tab); `Leaderboard.Key` is the selector of each `sortedByDescending` at LeaderboardScreen.kt:123-125 |
| Leaderboard.SortStable | app/src/main/java/com/axu/brainquest/ui/LeaderboardScreen.kt:122-126 | the sort is stable: entries with equal statistic keep their user-list order |
| Leaderboard.InsertWithKey | app/src/main/java/com/axu/brainquest/ui/LeaderboardScreen.kt:122-126 | one insertion step adds the entry in front of the entries with its statistic and leaves every other statistic's entries as they were |
| Leaderboard.SortedDescPairwise | app/src/main/java/com/axu/brainquest/ui/LeaderboardScreen.kt:122-126 | in the sorted list an earlier entry's statistic is at least any later entry's |
| Leaderboard.TotalTabExample | app/src/main/java/com/axu/brainquest/ui/LeaderboardScreen.kt:123 | totals 30, 50, 10 of A, B, C rank as B, A, C |
| Leaderboard.ColorOf | app/src/main/java/com/axu/brainquest/ui/LeaderboardScreen.kt:301-306 | ranks 1, 2 and 3 get gold, silver and bronze, and only they |
| Leaderboard.BadgeFor | app/src/main/java/com/axu/brainquest/ui/LeaderboardScreen.kt:344-358 | ranks up to 3 show a trophy in their colour; other ranks show their number, which reads back as the rank |
| Leaderboard.Rows | app/src/main/java/com/axu/brainquest/ui/LeaderboardScreen.kt:276-283 | one row per entry whose rank is its 1-based position, marked as the user's own exactly when the uids match, with a trophy exactly in the first three rows; each row is `Leaderboard.RowFor` (LeaderboardScreen.kt:295-420): the name gets " (You)" exactly on the user's own row (line 386), and the caption under the score is "points", "average" or "best" by tab (`Leaderboard.ScoreLabel`, lines 414-418) |
| Leaderboard.ScoreTextShowsKey | app/src/main/java/com/axu/brainquest/ui/LeaderboardScreen.kt:308-312 | each tab's score text shows the statistic the tab sorts by, every tab from 2 on showing the best score; this specifies `Leaderboard.ScoreText`, the `when` of LeaderboardScreen.kt:308-312 |
| Leaderboard.LoadLeaderboard | app/src/main/java/com/axu/brainquest/ui/LeaderboardScreen.kt:78-133 | a failed read gives its message or "Failed to load leaderboard"; otherwise the entries sorted by the tab |
| Profile.ResultDefaults | app/src/main/java/com/axu/brainquest/ui/ProfileScreen.kt:107-114 | a missing score reads as 0, a missing total as 10, a missing category as "General Knowledge", a missing timestamp as none; this specifies `Profile.ResultOf`, the mapping of ProfileScreen.kt:107-113 |
| Profile.SavedAttemptReadsBack | app/src/main/java/com/axu/brainquest/ui/ProfileScreen.kt:107-114 | what the quiz screen saves reads back on the profile as the same score, total, category and time |
| Profile.RecentResults | app/src/main/java/com/axu/brainquest/ui/ProfileScreen.kt:102-114 | at most the ten newest attempts are read, each with its defaults, so the count is at most 10 |
| Profile.SumOfPercents | app/src/main/java/com/axu/brainquest/ui/ProfileScreen.kt:119 | with every total non-zero the running sum of percentages is finite and equals the exact sum |
| Profile.AverageIsMeanOfPercentages | app/src/main/java/com/axu/brainquest/ui/ProfileScreen.kt:118-120 | the average is 0 for no attempts, the mean of score/total*100 when every total is non-zero, and non-finite when some total is 0; this specifies `Profile.AverageScore`, ProfileScreen.kt:118-122 |
| Profile.StatsBounds | app/src/main/java/com/axu/brainquest/ui/ProfileScreen.kt:117-121 | with scores within positive totals the count is the number of attempts, the average is within [0, 100], and the best score is the largest score; this specifies `Profile.StatsOf`, the statistics of ProfileScreen.kt:115-130 |
| Profile.SingleAttemptExample | app/src/main/java/com/axu/brainquest/ui/ProfileScreen.kt:116-121 | one attempt of 7 out of 10 gives one quiz, 70 percent, best score 7 |
| Profile.NameFallbacks | app/src/main/java/com/axu/brainquest/ui/ProfileScreen.kt:124 | the name is the stored string name, else the account's display name, else "User"; this specifies `Profile.ProfileName` |
| Profile.ProfileOf | app/src/main/java/com/axu/brainquest/ui/ProfileScreen.kt:123-129 | the card carries the name with its fallbacks, the account's email or "No email" when it has none, the uid, and the statistics of the attempts read |
| Profile.LoadProfile | app/src/main/java/com/axu/brainquest/ui/ProfileScreen.kt:88-145 | without a user the screen goes to login; the first failing read gives its message or "Failed to load profile"; otherwise the ten newest attempts, with the card's statistics computed from exactly them, the name with its fallbacks, the uid, and the email or "No email" |
| Profile.ShownActivity | app/src/main/java/com/axu/brainquest/ui/ProfileScreen.kt:332 | exactly the five newest attempts are listed, or all of them when there are fewer, in the order read |
| Profile.DividersSeparateShown | app/src/main/java/com/axu/brainquest/ui/ProfileScreen.kt:403 | a divider follows a listed attempt exactly when it is not the last one listed; `Profile.HasDivider` is the condition of ProfileScreen.kt:403 |
| Profile.BandByRatio | app/src/main/java/com/axu/brainquest/ui/ProfileScreen.kt:380-386 | the band is green from 80 percent, orange from 60 percent, red below, decided by the exact score/total ratio; this specifies `Profile.PercentFigure` (ProfileScreen.kt:380) and `Profile.BandOf` (lines 382-396) |
| Profile.ProfileTimeAgoBuckets | app/src/main/java/com/axu/brainquest/ui/ProfileScreen.kt:364-371 | below an hour the text counts whole minutes (0 to 59), below a day whole hours (1 to 23), otherwise whole days; a future timestamp gives a non-positive minute count; this specifies `Profile.ProfileTimeAgo`, ProfileScreen.kt:362-371, "Recently" without a timestamp |
| Profile.ActivityLineShowsScore | app/src/main/java/com/axu/brainquest/ui/ProfileScreen.kt:374 | the activity line (`Profile.ActivityLine`) opens with "Score: ", then texts that read back as the score and, after "/", as the number of questions |
| Profile.AverageTextShowsAverage | app/src/main/java/com/axu/brainquest/ui/ProfileScreen.kt:288 | the average tile (`Profile.AverageText`) is a text that reads back as the truncated average, followed by "%" |
| Home.FormatTimeAgoBuckets | app/src/main/java/com/axu/brainquest/ui/HomeScreen.kt:59-68 | "just now" exactly below a minute (a future time included), otherwise whole minutes (1 to 59), hours (1 to 23) or days (at least 1); this specifies `Home.FormatTimeAgo` |
| Home.RawScores | app/src/main/java/com/axu/brainquest/ui/HomeScreen.kt:85-86 | one score per attempt document, a missing score counting as 0 |
| Home.AggregateIsTenPerAnswer | app/src/main/java/com/axu/brainquest/ui/HomeScreen.kt:87-89 | the aggregate times the number of attempts is ten times the sum of the scores; this specifies `Home.AggregatePercent`, HomeScreen.kt:86-88 |
| Home.AggregateBounds | app/src/main/java/com/axu/brainquest/ui/HomeScreen.kt:87-89 | with scores between 0 and 10 the aggregate is within [0, 100] |
| Home.AggregateMatchesProfile | app/src/main/java/com/axu/brainquest/ui/HomeScreen.kt:87-89 | when every attempt has ten questions and there are at most ten, the aggregate equals the profile's average |
| Home.AggregateDisagreesWithProfile | app/src/main/java/com/axu/brainquest/ui/HomeScreen.kt:87-89 | one attempt of 5 out of 5 shows 50 percent at home and 100 percent on the profile |
| Home.IndexOfFirst | app/src/main/java/com/axu/brainquest/ui/HomeScreen.kt:97 | `indexOfFirst` is -1 exactly when the uid is absent, and otherwise a position holding it with none before |
| Home.RankIsPosition | app/src/main/java/com/axu/brainquest/ui/HomeScreen.kt:97-98 | the rank is 0 exactly when the user is absent, and otherwise the 1-based position of the user's first occurrence; this specifies `Home.UserRank`, HomeScreen.kt:96-98; the ranked ids are only the users whose document has a `highScore` field |
| Home.RankTextShowsRank | app/src/main/java/com/axu/brainquest/ui/HomeScreen.kt:203 | rank 0 displays as "-", a positive rank as "#" followed by a text that reads back as the rank; this specifies `Home.RankText` |
| Home.RecentQuizzes | app/src/main/java/com/axu/brainquest/ui/HomeScreen.kt:101-115 | at most the three newest attempts are shown, each with its defaults |
| Home.RecentDefaults | app/src/main/java/com/axu/brainquest/ui/HomeScreen.kt:108-113 | a missing score is 0, a missing category "General Knowledge", and a missing timestamp is the time of the fetch (`Timestamp.now()`), so it reads as "just now" on a screen drawn less than a minute later; the fetch-time clock and the drawing-time clock of `formatTimeAgo` (HomeScreen.kt:60) are separate inputs; this specifies `Home.QuizOf`, the map of HomeScreen.kt:107-113 |
| Home.RecentLineShowsScore | app/src/main/java/com/axu/brainquest/ui/HomeScreen.kt:387 | the recent line (`Home.RecentLine`) opens with "Score: " and a text that reads back as the score, then "/10" whatever the attempt's size |
| Home.HomeNameFallbacks | app/src/main/java/com/axu/brainquest/ui/HomeScreen.kt:77 | the greeting is the stored string name, else the account's display name, else "Quiz Master"; this specifies `Home.HomeUserName`, with the initial value of HomeScreen.kt:53 |
| Home.SummaryOf | app/src/main/java/com/axu/brainquest/ui/HomeScreen.kt:70-117 | without a user everything keeps its initial value; with one, the greeting is the stored name with its fallbacks; each completed read sets its own tile (count and aggregate, rank, recent attempts), and a read that has not completed leaves its tile at 0 or empty |
| Signup.FirstFailure | app/src/main/java/com/axu/brainquest/ui/SignupScreen.kt:66-99 | an accepted form has a non-blank name of length at least 2, a non-blank matching email, and a non-blank password of length at least 6 equal to its confirmation; a reported failure is one the fields violate |
| Signup.FirstFailureIsEarliest | app/src/main/java/com/axu/brainquest/ui/SignupScreen.kt:66-99 | the reported check is the earliest violated one in the order name blank, name short, email blank, email pattern, password blank, password short, mismatch; none is reported exactly when no check fails; `Signup.Violates` states each check of SignupScreen.kt:68-94 on its own |
| Signup.NameChecksExample | app/src/main/java/com/axu/brainquest/ui/SignupScreen.kt:68-75 | a one-letter name is "too short", a name of spaces is "required" |
| Signup.ErrorAfterValidation | app/src/main/java/com/axu/brainquest/ui/SignupScreen.kt:66-99 | the error is cleared exactly when the form is accepted |
| Signup.MessageIdentifiesFailure | app/src/main/java/com/axu/brainquest/ui/SignupScreen.kt:69-93 | the seven error texts (`Signup.SignupFailure.Message`) are distinct, so the text shown names the failed check |
| Signup.RejectedFieldHighlighted | app/src/main/java/com/axu/brainquest/ui/SignupScreen.kt:255-299 | after a rejection the field whose check failed is highlighted; after an acceptance no field is; `Signup.NameHighlighted`, `Signup.EmailHighlighted`, `Signup.PasswordHighlighted` and `Signup.ConfirmHighlighted` are the `isError` conditions of SignupScreen.kt:255, 269, 284 and 299 |
| Signup.SignupForm.constructor | app/src/main/java/com/axu/brainquest/ui/SignupScreen.kt:58-63 | the form starts empty, without error, not busy |
| Signup.SignupForm.EditName | app/src/main/java/com/axu/brainquest/ui/SignupScreen.kt:249-252 | editing the name replaces it alone and clears the error |
| Signup.SignupForm.EditEmail | app/src/main/java/com/axu/brainquest/ui/SignupScreen.kt:263-266 | editing the email replaces it alone and clears the error |
| Signup.SignupForm.EditPassword | app/src/main/java/com/axu/brainquest/ui/SignupScreen.kt:277-280 | editing the password replaces it alone and clears the error |
| Signup.SignupForm.EditConfirmPassword | app/src/main/java/com/axu/brainquest/ui/SignupScreen.kt:292-295 | editing the confirmation replaces it alone and clears the error |
| Signup.SignupForm.ValidateInputs | app/src/main/java/com/axu/brainquest/ui/SignupScreen.kt:66-101 | returns true exactly when the form is accepted, and sets the error to the first failure's message or clears it |
| Signup.SignupForm.SignUp | app/src/main/java/com/axu/brainquest/ui/SignupScreen.kt:103-108 | a rejected form stops with the validation error and makes no account call; an accepted one turns busy, clears the error and sends its email and password |
| Login.FirstFailure | app/src/main/java/com/axu/brainquest/ui/LoginScreen.kt:52-75 | an accepted form has a non-blank matching email and a non-blank password of length at least 6; a reported failure is one the fields violate |
| Login.FirstFailureIsEarliest | app/src/main/java/com/axu/brainquest/ui/LoginScreen.kt:52-75 | the reported check is the earliest violated one in the order email blank, email pattern, password blank, password short; none is reported exactly when no check fails; `Login.Violates` states each check of LoginScreen.kt:54-68 on its own |
| Login.ErrorAfterValidation | app/src/main/java/com/axu/brainquest/ui/LoginScreen.kt:52-75 | the error is cleared exactly when the form is accepted |
| Login.MessageIdentifiesFailure | app/src/main/java/com/axu/brainquest/ui/LoginScreen.kt:55-67 | the four error texts (`Login.LoginFailure.Message`) are distinct, so the text shown names the failed check |
| Login.HighlightAfterValidation | app/src/main/java/com/axu/brainquest/ui/LoginScreen.kt:186-201 | a rejected email and a blank password are highlighted; a password rejected as too short highlights no field; `Login.EmailHighlighted` and `Login.PasswordHighlighted` are the `isError` conditions of LoginScreen.kt:186 and 201 |
| Login.ShortPasswordNotHighlighted | app/src/main/java/com/axu/brainquest/ui/LoginScreen.kt:201 | with an accepted email, the password "abc" is rejected as too short while its field is not highlighted |
| Login.LoginForm.constructor | app/src/main/java/com/axu/brainquest/ui/LoginScreen.kt:46-49 | the form starts empty, without error, not busy |
| Login.LoginForm.EditEmail | app/src/main/java/com/axu/brainquest/ui/LoginScreen.kt:180-183 | editing the email replaces it alone and clears the error |
| Login.LoginForm.EditPassword | app/src/main/java/com/axu/brainquest/ui/LoginScreen.kt:194-197 | editing the password replaces it alone and clears the error |
| Login.LoginForm.ValidateInputs | app/src/main/java/com/axu/brainquest/ui/LoginScreen.kt:52-75 | returns true exactly when the form is accepted, and sets the error to the first failure's message or clears it |
| Login.LoginForm.SignIn | app/src/main/java/com/axu/brainquest/ui/LoginScreen.kt:77-82 | a rejected form stops before any sign-in call; an accepted one turns busy, clears the error and sends its email and password |
| Login.LoginForm.SignInCompleted | app/src/main/java/com/axu/brainquest/ui/LoginScreen.kt:83-91 | the completed call ends the busy state; success goes home, failure stays with its message or "Login failed" |

## Left out

- Firebase Auth and Firestore: every read is an input value and every write a returned value. Queries, listeners and their threads are not modelled.
- The Open Trivia Database call over Retrofit: its outcome is the `Response` input of `Deliver`.
- Coroutines and `viewModelScope`. Two fetches in flight, such as `resetQuiz()` followed at once by `fetchQuestions(config)`, finish in an order the model does not decide. Each completion is one `Deliver` call, and the last one wins.
- Compose layout, navigation, theme colours, icons and the shared widgets. Only the values the screens compute are modelled.
- `remember(question)` caching of the shuffled options across recompositions: `Options` gives the options for one set of random choices.
- Float rounding: doubles and floats are exact reals, with the infinities and NaN of a division by zero kept. The home aggregate is always finite and is a plain `real`.
- Int overflow of sums: `scores.sum()` on the leaderboard and the quiz-score recount use unbounded integers. The `Long.toInt()` of each stored value is modelled.
- Home.RawScores: the stored `Long` is summed as a float; precision loss for very large values is not modelled.
- `getString` on a field that is not a string throws in Firestore; the home greeting treats such a field as absent.
- Score documents whose fields hold the wrong type: `getLong`, `getString` and `getTimestamp` throw for such a field (LeaderboardScreen.kt:99, ProfileScreen.kt:109-112, HomeScreen.kt:86 and 110-112). `Documents.ScoreDoc` holds each field as present with the right type or absent, so it cannot represent one. On the leaderboard such a throw would abandon the whole loop into the catch, as `Leaderboard.EntriesFail` shows for a failed query, and on the profile it would show the load error. The app's own writer, `QuizScreen.SaveQuizResult`, always writes the right types.
- The profile's "Member since" join date: it formats a date with the device's locale.
- The sign-up account-creation callbacks, the profile update and the user document write: calls into Firebase.
- The profile's sign-out button and the home screen's navigation buttons: navigation only.
- String lengths count Unicode code points; Kotlin counts UTF-16 units, which differ for characters outside the Basic Multilingual Plane.
- `Html.fromHtml` decoding of question texts: display only; comparisons use the raw strings, as the app does.
- The result screen and the score card messages: presentation thresholds on floats.

## Notes on the source

- On the leaderboard, a failed scores query of one user throws out of the whole loop. The catch then shows the error, so no entry is shown for anyone (`Leaderboard.EntriesFail`). Skipping only the affected user would keep everyone else's entries; the code abandons the whole loop, and so does the model.
- A failed quiz fetch whose exception has no message installs a state with neither an error nor questions. The screen then shows the "no quiz" card rather than the error view (`QuizScreen.FetchOutcomeView`).
- A fetch that completes after a newer one has started is not discarded. Whichever completes last installs its state. A late result is not thrown away.
- An unanswered slot is the empty string, so a question whose correct answer is empty counts as correct before it is answered (`QuizViewModel.EmptyCorrectAnswerCountsUnanswered`). The model keeps this.
- The home aggregate assumes ten questions per attempt. The profile takes the mean of per-attempt percentages. The two agree only when every attempt has ten questions (`Home.AggregateMatchesProfile`, `Home.AggregateDisagreesWithProfile`).
- The home screen ranks users with `orderBy("highScore", DESCENDING)` (HomeScreen.kt:93-94). Firestore returns only documents that have the ordered field. The app's only user-document write, at sign-up (SignupScreen.kt:123-128), stores uid, email, name and creation time and no `highScore`. So no signed-up user comes back from that query, and the rank tile shows "-": the absent case of `Home.RankIsPosition`. The ranked list given to `Home.UserRank` holds only the users whose document has a `highScore` field, in the query's order.
- The activity line's separator in ProfileScreen.kt:374 is a bullet whose UTF-8 bytes were re-encoded: the file holds U+00E2 U+20AC U+00A2, so the profile shows "Score: 7/10 â€¢ 5 minutes ago". `Profile.ActivityLine` uses those three characters (`Profile.MisencodedBullet`). The home screen's line (HomeScreen.kt:387) has a real U+2022 bullet, and so does `Home.RecentLine`.
- The profile's retry button sets `loading` and clears `error`. Its load effect is keyed on the current user only, so it does not run again. This cannot be stated in the model, which leaves out Compose's effect scheduling.
- Two other retry buttons do not undo the failure. On the leaderboard (LeaderboardScreen.kt:174-177), the retry sets `loading` and clears `error`, but the board is loaded only by `LaunchedEffect(selectedTab)`, which does not run again. On the quiz screen (QuizScreen.kt:69), the retry calls `fetchQuestions()` with the default configuration, not the one chosen; in the model this is `ViewModel.FetchQuestions(DefaultConfig)`.
