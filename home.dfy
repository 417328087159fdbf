/** The home screen's summary: the greeting name, the number of attempts,
    the aggregate percentage, the user's rank and the three newest attempts
    with their "time ago" texts. Each of the four reads is an input. */
module Home {
  import opened KotlinStd
  import opened Documents
  import opened TimeText
  import Profile

  /** `formatTimeAgo`: "just now" below a minute (a timestamp in the future
      included), then whole minutes, hours and days. */
  function FormatTimeAgo(timestamp: int, now: int): Ago {
    var diff := now - timestamp;
    if diff < MinuteMillis then JustNow
    else if diff < HourMillis then MinutesAgo(Div(diff, MinuteMillis))
    else if diff < DayMillis then HoursAgo(Div(diff, HourMillis))
    else DaysAgo(Div(diff, DayMillis))
  }

  /** Each bucket's count is the number of whole units elapsed, and never zero. */
  lemma FormatTimeAgoBuckets(timestamp: int, now: int)
    ensures var a := FormatTimeAgo(timestamp, now);
            && (a.JustNow? <==> now - timestamp < MinuteMillis)
            && (MinuteMillis <= now - timestamp < HourMillis ==>
                  a.MinutesAgo? && 1 <= a.n < 60 && a.n * MinuteMillis <= now - timestamp < (a.n + 1) * MinuteMillis)
            && (HourMillis <= now - timestamp < DayMillis ==>
                  a.HoursAgo? && 1 <= a.n < 24 && a.n * HourMillis <= now - timestamp < (a.n + 1) * HourMillis)
            && (DayMillis <= now - timestamp ==>
                  a.DaysAgo? && 1 <= a.n && a.n * DayMillis <= now - timestamp < (a.n + 1) * DayMillis)
  {
    var diff := now - timestamp;
    DivBounds(diff, MinuteMillis);
    DivBounds(diff, HourMillis);
    DivBounds(diff, DayMillis);
  }

  /** The scores as the home screen sums them: the stored `Long`, or 0 when missing. */
  function RawScores(docs: seq<ScoreDoc>): (xs: seq<int>)
    ensures |xs| == |docs|
    ensures forall i :: 0 <= i < |docs| ==> xs[i] == docs[i].score.GetOr(0)
  {
    seq(|docs|, i requires 0 <= i < |docs| => docs[i].score.GetOr(0))
  }

  /** `sum / (n * 10) * 100`: every attempt is taken to have ten questions. */
  function AggregatePercent(docs: seq<ScoreDoc>): real {
    var n := |docs|;
    if n > 0 then Sum(RawScores(docs)) as real / (n * 10) as real * 100.0 else 0.0
  }

  /** The aggregate is ten points per correct answer, spread over the attempts. */
  lemma AggregateIsTenPerAnswer(docs: seq<ScoreDoc>)
    requires |docs| > 0
    ensures AggregatePercent(docs) * |docs| as real == 10.0 * Sum(RawScores(docs)) as real
  {
    var n := |docs| as real;
    var s := Sum(RawScores(docs)) as real;
    CastProduct(|docs|, 10);
    assert AggregatePercent(docs) == s / (n * 10.0) * 100.0;
    assert s / (n * 10.0) * (n * 10.0) == s;
  }

  /** With non-negative scores of at most ten, the aggregate is a percentage. */
  lemma AggregateBounds(docs: seq<ScoreDoc>)
    requires forall i :: 0 <= i < |docs| ==> 0 <= docs[i].score.GetOr(0) <= 10
    ensures 0.0 <= AggregatePercent(docs) <= 100.0
  {
    if |docs| > 0 {
      var xs := RawScores(docs);
      SumNonNegative(xs);
      SumAtMost(xs, 10);
      AggregateIsTenPerAnswer(docs);
      var n := |docs| as real;
      var a := AggregatePercent(docs);
      CastProduct(|xs|, 10);
      assert a * n <= 100.0 * n;
      assert a * n >= 0.0;
    }
  }

  predicate TenQuestionAttempts(docs: seq<ScoreDoc>) {
    forall i :: 0 <= i < |docs| ==>
      docs[i].totalQuestions == Some(10) && IntMin <= docs[i].score.GetOr(0) <= IntMax
  }

  lemma {:induction false} PercentSumOfTens(docs: seq<ScoreDoc>)
    requires TenQuestionAttempts(docs)
    ensures Profile.AllTotalsNonZero(MapResults(docs))
    ensures Profile.PercentSum(MapResults(docs)) == 10.0 * Sum(RawScores(docs)) as real
  {
    var rs := MapResults(docs);
    if |docs| > 0 {
      var n := |docs|;
      var init := docs[..n - 1];
      assert TenQuestionAttempts(init);
      assert rs[..n - 1] == MapResults(init);
      assert RawScores(docs)[..n - 1] == RawScores(init);
      PercentSumOfTens(init);
      PercentOfTen(docs[n - 1]);
    }
  }

  lemma PercentOfTen(doc: ScoreDoc)
    requires doc.totalQuestions == Some(10) && IntMin <= doc.score.GetOr(0) <= IntMax
    ensures Profile.ResultOf(doc).totalQuestions == 10
    ensures Profile.PercentValue(Profile.ResultOf(doc)) == 10.0 * doc.score.GetOr(0) as real
  {
  }

  function MapResults(docs: seq<ScoreDoc>): (rs: seq<Profile.QuizResult>)
    ensures |rs| == |docs|
    ensures forall i :: 0 <= i < |docs| ==> rs[i] == Profile.ResultOf(docs[i])
  {
    seq(|docs|, i requires 0 <= i < |docs| => Profile.ResultOf(docs[i]))
  }

  /** When every attempt has ten questions and there are at most ten of them,
      the home aggregate and the profile average agree. */
  lemma AggregateMatchesProfile(docs: seq<ScoreDoc>)
    requires |docs| <= Profile.RecentLimit
    requires TenQuestionAttempts(docs)
    ensures Profile.StatsOf(Profile.RecentResults(docs)).averageScore == Finite(AggregatePercent(docs))
  {
    var rs := Profile.RecentResults(docs);
    assert rs == MapResults(docs);
    PercentSumOfTens(docs);
    AverageOfTens(docs, rs);
  }

  lemma AverageOfTens(docs: seq<ScoreDoc>, rs: seq<Profile.QuizResult>)
    requires Profile.AllTotalsNonZero(rs) && |rs| == |docs|
    requires Profile.PercentSum(rs) == 10.0 * Sum(RawScores(docs)) as real
    ensures Profile.AverageScore(rs) == Finite(AggregatePercent(docs))
  {
    var p := Profile.PercentSum(rs);
    Profile.AverageIsMeanOfPercentages(rs);
    if |docs| > 0 {
      AggregateIsTenPerAnswer(docs);
      QuotientOfProduct(AggregatePercent(docs), p, |docs| as real);
    }
  }

  lemma QuotientOfProduct(a: real, p: real, n: real)
    requires n > 0.0 && a * n == p
    ensures p / n == a
  {
  }

  /** An attempt of five questions all answered correctly: the profile shows
      100 percent, the home screen 50. */
  lemma AggregateDisagreesWithProfile()
    ensures var docs := [ScoreDoc(Some(5), Some(5), None, None)];
            && AggregatePercent(docs) == 50.0
            && Profile.StatsOf(Profile.RecentResults(docs)).averageScore == Finite(100.0)
  {
    var docs := [ScoreDoc(Some(5), Some(5), None, None)];
    assert RawScores(docs) == [5];
    assert RawScores(docs)[..0] == [];
    var rs := Profile.RecentResults(docs);
    assert rs == [Profile.QuizResult(5, 5, None, DefaultCategory)];
    var ps := Profile.Percents(rs);
    assert ps == [Finite(100.0)];
    assert ps[..0] == [];
    assert SumDoubles(ps) == Finite(100.0);
  }

  /** `indexOfFirst { it.id == uid }`: the first position holding `uid`, or -1. */
  function IndexOfFirst(ids: seq<string>, uid: string): (i: int)
    ensures -1 <= i < |ids|
    ensures i == -1 <==> uid !in ids
    ensures i >= 0 ==> ids[i] == uid && uid !in ids[..i]
  {
    if |ids| == 0 then -1
    else if ids[0] == uid then 0
    else
      var j := IndexOfFirst(ids[1..], uid);
      assert ids == [ids[0]] + ids[1..];
      if j == -1 then -1
      else
        assert ids[..j + 1] == [ids[0]] + ids[1..][..j];
        j + 1
  }

  /** The rank: the 1-based position in the ordered user list, or 0 when absent. */
  function UserRank(ids: seq<string>, uid: string): (r: nat) {
    var i := IndexOfFirst(ids, uid);
    if i != -1 then i + 1 else 0
  }

  lemma RankIsPosition(ids: seq<string>, uid: string)
    ensures UserRank(ids, uid) == 0 <==> uid !in ids
    ensures UserRank(ids, uid) > 0 ==>
              UserRank(ids, uid) <= |ids| && ids[UserRank(ids, uid) - 1] == uid
              && forall k :: 0 <= k < UserRank(ids, uid) - 1 ==> ids[k] != uid
  {
    var i := IndexOfFirst(ids, uid);
    if i >= 0 {
      assert forall k :: 0 <= k < i ==> ids[..i][k] == ids[k];
    }
  }

  /** `"#$rank"`, or "-" for rank 0. */
  function RankText(rank: int): string {
    if rank > 0 then "#" + IntToString(rank) else "-"
  }

  lemma RankTextShowsRank(rank: int)
    ensures rank <= 0 ==> RankText(rank) == "-"
    ensures rank > 0 ==> |RankText(rank)| > 1 && RankText(rank)[0] == '#' && ParseInt(RankText(rank)[1..]) == rank
  {
    if rank > 0 {
      assert RankText(rank)[1..] == IntToString(rank);
      IntToStringRoundTrip(rank);
    }
  }

  /** A recent-attempt entry as the home screen keeps it. */
  datatype RecentQuiz = RecentQuiz(score: int, timestamp: int, category: string)

  const HomeRecentLimit: nat := 3

  /** The defaults of a recent entry: score 0, the default category, and for
      the timestamp `Timestamp.now()` read while the query result is mapped.
      That clock, `fetchedAt`, is not the one `formatTimeAgo` reads when the
      line is drawn (`now` in `RecentLine`); the two are separate inputs. */
  function QuizOf(doc: ScoreDoc, fetchedAt: int): RecentQuiz {
    RecentQuiz(doc.score.GetOr(0), doc.timestamp.GetOr(fetchedAt), doc.category.GetOr(DefaultCategory))
  }

  /** The three newest attempts, each with its defaults. */
  function RecentQuizzes(docs: seq<ScoreDoc>, fetchedAt: int): (qs: seq<RecentQuiz>)
    ensures |qs| <= HomeRecentLimit
    ensures |qs| == if |docs| < HomeRecentLimit then |docs| else HomeRecentLimit
    ensures forall i :: 0 <= i < |qs| ==> qs[i] == QuizOf(docs[i], fetchedAt)
  {
    var shown := Take(docs, HomeRecentLimit);
    seq(|shown|, i requires 0 <= i < |shown| => QuizOf(shown[i], fetchedAt))
  }

  /** An attempt without a timestamp reads as made "just now" when drawn less
      than a minute after the fetch, and as made at the fetch time later on;
      one without a category is filed under the default. */
  lemma RecentDefaults(doc: ScoreDoc, fetchedAt: int, now: int)
    ensures doc.timestamp.None? ==> QuizOf(doc, fetchedAt).timestamp == fetchedAt
    ensures doc.timestamp.None? && now - fetchedAt < MinuteMillis ==> FormatTimeAgo(QuizOf(doc, fetchedAt).timestamp, now) == JustNow
    ensures doc.category.None? ==> QuizOf(doc, fetchedAt).category == "General Knowledge"
    ensures doc.score.None? ==> QuizOf(doc, fetchedAt).score == 0
  {
  }

  /** The line under a recent entry: "Score: s/10 • <time ago>", out of ten whatever the attempt's size. */
  function RecentLine(q: RecentQuiz, now: int): string {
    "Score: " + IntToString(q.score) + "/10 \U{2022} " + Text(FormatTimeAgo(q.timestamp, now))
  }

  /** The line opens with the score, which reads back as the attempt's score,
      and shows it out of ten. */
  lemma RecentLineShowsScore(q: RecentQuiz, now: int)
    ensures var line := RecentLine(q, now);
            var k := |IntToString(q.score)|;
            && |line| > 10 + k && line[..7] == "Score: "
            && ParseInt(line[7..7 + k]) == q.score && line[7 + k..10 + k] == "/10"
  {
    var a := IntToString(q.score);
    var rest := " \U{2022} " + Text(FormatTimeAgo(q.timestamp, now));
    var line := RecentLine(q, now);
    assert line == "Score: " + a + ("/10" + rest);
    ReadsBackBetween("Score: ", q.score, "/10" + rest);
  }

  /** The greeting: the stored name, else the account's display name, else
      "Quiz Master"; `userDoc` is absent when the document does not exist or
      its read has not completed. */
  function HomeUserName(user: Option<AuthUser>, userDoc: Option<UserData>): string {
    match user
    case None => "Quiz Master"
    case Some(u) =>
      var stored := if userDoc.Some? then StringField(userDoc.value, "name") else None;
      stored.GetOr(u.displayName.GetOr("Quiz Master"))
  }

  lemma HomeNameFallbacks(user: AuthUser, userDoc: Option<UserData>)
    ensures userDoc.Some? && "name" in userDoc.value && userDoc.value["name"].Str? ==>
              HomeUserName(Some(user), userDoc) == userDoc.value["name"].text
    ensures (userDoc.None? || "name" !in userDoc.value || !userDoc.value["name"].Str?) ==>
              HomeUserName(Some(user), userDoc) == user.displayName.GetOr("Quiz Master")
  {
  }

  /** What the summary card shows once the reads have completed; a read that
      has not completed (or failed) leaves its initial value. */
  datatype Summary = Summary(userName: string, totalQuizzes: int, averageScore: real, userRank: int, recent: seq<RecentQuiz>)

  function SummaryOf(user: Option<AuthUser>, userDoc: Option<UserData>, scores: Option<seq<ScoreDoc>>,
                     rankedIds: Option<seq<string>>, newest: Option<seq<ScoreDoc>>, fetchedAt: int): (s: Summary)
    ensures user.None? ==> s == Summary("Quiz Master", 0, 0.0, 0, [])
    ensures user.Some? ==> s.userName == HomeUserName(user, userDoc)
    ensures rankedIds.None? ==> s.userRank == 0
    ensures newest.None? ==> s.recent == []
    ensures user.Some? && scores.Some? ==> s.totalQuizzes == |scores.value| && s.averageScore == AggregatePercent(scores.value)
    ensures user.Some? && rankedIds.Some? ==> s.userRank == UserRank(rankedIds.value, user.value.uid)
    ensures user.Some? && newest.Some? ==> s.recent == RecentQuizzes(newest.value, fetchedAt)
    ensures scores.None? ==> s.totalQuizzes == 0 && s.averageScore == 0.0
  {
    match user
    case None => Summary("Quiz Master", 0, 0.0, 0, [])
    case Some(u) =>
      Summary(
        HomeUserName(user, userDoc),
        if scores.Some? then |scores.value| else 0,
        if scores.Some? then AggregatePercent(scores.value) else 0.0,
        if rankedIds.Some? then UserRank(rankedIds.value, u.uid) else 0,
        if newest.Some? then RecentQuizzes(newest.value, fetchedAt) else [])
  }
}
