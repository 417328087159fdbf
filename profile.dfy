/** The profile screen: the signed-in user's ten most recent attempts, the
    count / average / best statistics over them, the displayed name and
    email, and the recent-activity list with its percentage bands and
    "time ago" texts. The fetched documents are inputs. */
module Profile {
  import opened KotlinStd
  import opened Documents
  import opened TimeText
  import QuizScreen

  /** One attempt as the profile reads it back. */
  datatype QuizResult = QuizResult(score: int, totalQuestions: int, timestamp: Option<int>, category: string)

  const DefaultTotal: int := 10

  /** A stored attempt with its defaults: score 0, 10 questions, the default
      category; `getLong(..)?.toInt()` keeps the low 32 bits. */
  function ResultOf(doc: ScoreDoc): QuizResult {
    QuizResult(
      if doc.score.Some? then Int32Of(doc.score.value) else 0,
      if doc.totalQuestions.Some? then Int32Of(doc.totalQuestions.value) else DefaultTotal,
      doc.timestamp,
      doc.category.GetOr(DefaultCategory))
  }

  /** A document without fields reads as a zero score out of ten in the default category. */
  lemma ResultDefaults(doc: ScoreDoc)
    ensures doc.score.None? ==> ResultOf(doc).score == 0
    ensures doc.totalQuestions.None? ==> ResultOf(doc).totalQuestions == 10
    ensures doc.category.None? ==> ResultOf(doc).category == "General Knowledge"
    ensures doc.timestamp.None? ==> ResultOf(doc).timestamp.None?
  {
  }

  /** What the quiz screen saves is what the profile reads back, as long as
      the counts fit in an `Int`. */
  lemma SavedAttemptReadsBack(attempt: QuizScreen.Attempt, uid: string, now: int)
    requires IntMin <= attempt.score <= IntMax && IntMin <= attempt.totalQuestions <= IntMax
    ensures QuizScreen.SaveQuizResult(attempt, Some(uid), now).Some?
    ensures ResultOf(QuizScreen.SaveQuizResult(attempt, Some(uid), now).value.1)
            == QuizResult(attempt.score, attempt.totalQuestions, Some(now), attempt.category)
  {
  }

  /** How many attempts the scores query reads, newest first. */
  const RecentLimit: nat := 10

  /** The attempts read: the first ten of the documents in descending time order. */
  function RecentResults(docs: seq<ScoreDoc>): (rs: seq<QuizResult>)
    ensures |rs| <= RecentLimit
    ensures |rs| == if |docs| < RecentLimit then |docs| else RecentLimit
    ensures forall i :: 0 <= i < |rs| ==> rs[i] == ResultOf(docs[i])
  {
    var shown := Take(docs, RecentLimit);
    seq(|shown|, i requires 0 <= i < |shown| => ResultOf(shown[i]))
  }

  /** `score.toDouble() / totalQuestions * 100`. */
  function Percent(r: QuizResult): Double {
    Times(Quotient(r.score, r.totalQuestions), 100.0)
  }

  function Percents(rs: seq<QuizResult>): (ps: seq<Double>)
    ensures |ps| == |rs|
    ensures forall i :: 0 <= i < |rs| ==> ps[i] == Percent(rs[i])
  {
    seq(|rs|, i requires 0 <= i < |rs| => Percent(rs[i]))
  }

  /** `percentages.average()` when there is at least one attempt, else 0.0. */
  function AverageScore(rs: seq<QuizResult>): Double {
    if |rs| > 0 then
      var s := SumDoubles(Percents(rs));
      if s.Finite? then Finite(s.x / |rs| as real) else s
    else Finite(0.0)
  }

  datatype Stats = Stats(totalQuizzes: int, averageScore: Double, bestScore: int)

  function Scores(rs: seq<QuizResult>): (xs: seq<int>)
    ensures |xs| == |rs|
    ensures forall i :: 0 <= i < |rs| ==> xs[i] == rs[i].score
  {
    seq(|rs|, i requires 0 <= i < |rs| => rs[i].score)
  }

  function StatsOf(rs: seq<QuizResult>): Stats {
    Stats(|rs|, AverageScore(rs), MaxOrZero(Scores(rs)))
  }

  /** The percentage of one attempt, on the reals. */
  function PercentValue(r: QuizResult): real
    requires r.totalQuestions != 0
  {
    r.score as real / r.totalQuestions as real * 100.0
  }

  predicate AllTotalsNonZero(rs: seq<QuizResult>) {
    forall i :: 0 <= i < |rs| ==> rs[i].totalQuestions != 0
  }

  /** The sum of the percentages, on the reals: the reference the average is checked against. */
  function PercentSum(rs: seq<QuizResult>): real
    requires AllTotalsNonZero(rs)
  {
    if |rs| == 0 then 0.0 else PercentSum(rs[..|rs| - 1]) + PercentValue(rs[|rs| - 1])
  }

  lemma {:induction false} SumOfPercents(rs: seq<QuizResult>)
    requires AllTotalsNonZero(rs)
    ensures SumDoubles(Percents(rs)) == Finite(PercentSum(rs))
  {
    if |rs| > 0 {
      var init := rs[..|rs| - 1];
      assert Percents(rs)[..|rs| - 1] == Percents(init);
      SumOfPercents(init);
    }
  }

  /** With every total non-zero the average is the mean of the per-attempt
      percentages (not the mean of the raw scores); a single attempt out of
      zero questions makes it non-finite. */
  lemma AverageIsMeanOfPercentages(rs: seq<QuizResult>)
    ensures |rs| == 0 ==> AverageScore(rs) == Finite(0.0)
    ensures |rs| > 0 && AllTotalsNonZero(rs) ==> AverageScore(rs) == Finite(PercentSum(rs) / |rs| as real)
    ensures !AllTotalsNonZero(rs) ==> !AverageScore(rs).Finite?
  {
    SumDoublesFinite(Percents(rs));
    if AllTotalsNonZero(rs) {
      SumOfPercents(rs);
    } else {
      var k :| 0 <= k < |rs| && rs[k].totalQuestions == 0;
      assert !Percents(rs)[k].Finite?;
    }
  }

  predicate ScoresWithinTotals(rs: seq<QuizResult>) {
    forall i :: 0 <= i < |rs| ==> 0 <= rs[i].score <= rs[i].totalQuestions && rs[i].totalQuestions > 0
  }

  lemma PercentBetween(r: QuizResult)
    requires 0 <= r.score <= r.totalQuestions && r.totalQuestions > 0
    ensures 0.0 <= PercentValue(r) <= 100.0
  {
    var q := r.score as real / r.totalQuestions as real;
    assert q * r.totalQuestions as real == r.score as real;
    assert q <= 1.0;
  }

  lemma {:induction false} PercentSumBetween(rs: seq<QuizResult>)
    requires ScoresWithinTotals(rs)
    ensures 0.0 <= PercentSum(rs) <= 100.0 * |rs| as real
  {
    if |rs| > 0 {
      var init := rs[..|rs| - 1];
      assert ScoresWithinTotals(init);
      PercentSumBetween(init);
      PercentBetween(rs[|rs| - 1]);
    }
  }

  /** For attempts scored within their totals the average is a percentage
      and the best score lies between 0 and the largest total. */
  lemma StatsBounds(rs: seq<QuizResult>)
    requires ScoresWithinTotals(rs)
    ensures StatsOf(rs).totalQuizzes == |rs|
    ensures StatsOf(rs).averageScore.Finite?
    ensures 0.0 <= StatsOf(rs).averageScore.x <= 100.0
    ensures 0 <= StatsOf(rs).bestScore
    ensures forall i :: 0 <= i < |rs| ==> rs[i].score <= StatsOf(rs).bestScore
    ensures |rs| > 0 ==> exists i :: 0 <= i < |rs| && rs[i].score == StatsOf(rs).bestScore
  {
    AverageIsMeanOfPercentages(rs);
    if |rs| > 0 {
      PercentSumBetween(rs);
      MeanOfBounded(PercentSum(rs), |rs| as real);
    }
    BestIsLargest(rs);
  }

  lemma MeanOfBounded(s: real, n: real)
    requires n > 0.0 && 0.0 <= s <= 100.0 * n
    ensures 0.0 <= s / n <= 100.0
  {
    assert s / n * n == s;
  }

  lemma BestIsLargest(rs: seq<QuizResult>)
    requires ScoresWithinTotals(rs)
    ensures 0 <= MaxOrZero(Scores(rs))
    ensures forall i :: 0 <= i < |rs| ==> rs[i].score <= MaxOrZero(Scores(rs))
    ensures |rs| > 0 ==> exists i :: 0 <= i < |rs| && rs[i].score == MaxOrZero(Scores(rs))
  {
    var m := MaxOrZero(Scores(rs));
    if |rs| > 0 {
      assert Scores(rs)[0] <= m;
      var k :| 0 <= k < |rs| && Scores(rs)[k] == m;
    }
  }

  /** One attempt of seven out of ten: one quiz, 70 percent, best score seven. */
  lemma SingleAttemptExample()
    ensures StatsOf([QuizResult(7, 10, None, DefaultCategory)]) == Stats(1, Finite(70.0), 7)
  {
    var rs := [QuizResult(7, 10, None, DefaultCategory)];
    var ps := Percents(rs);
    assert ps == [Finite(70.0)];
    assert ps[..0] == [];
    assert SumDoubles(ps) == Finite(70.0);
    assert Scores(rs) == [7];
  }

  /** The profile card. */
  datatype UserProfile = UserProfile(name: string, email: string, uid: string, stats: Stats)

  /** The stored name if it is a string, else the account's display name, else "User". */
  function ProfileName(data: Option<UserData>, user: AuthUser): string {
    var stored := if data.Some? then StringField(data.value, "name") else None;
    stored.GetOr(user.displayName.GetOr("User"))
  }

  lemma NameFallbacks(data: Option<UserData>, user: AuthUser)
    ensures data.Some? && "name" in data.value && data.value["name"].Str? ==>
              ProfileName(data, user) == data.value["name"].text
    ensures (data.None? || "name" !in data.value || !data.value["name"].Str?) && user.displayName.Some? ==>
              ProfileName(data, user) == user.displayName.value
    ensures (data.None? || "name" !in data.value || !data.value["name"].Str?) && user.displayName.None? ==>
              ProfileName(data, user) == "User"
  {
  }

  /** The profile card: the name with its fallbacks, the account's email or
      "No email", the uid and the statistics of the attempts read. */
  function ProfileOf(user: AuthUser, data: Option<UserData>, recent: seq<QuizResult>): (p: UserProfile)
    ensures p.uid == user.uid && p.stats == StatsOf(recent) && p.name == ProfileName(data, user)
    ensures user.email.Some? ==> p.email == user.email.value
    ensures user.email.None? ==> p.email == "No email"
  {
    UserProfile(ProfileName(data, user), user.email.GetOr("No email"), user.uid, StatsOf(recent))
  }

  datatype ProfileState =
    | RedirectToLogin
    | ProfileError(message: string)
    | ProfileShown(profile: UserProfile, recent: seq<QuizResult>)

  /** The load effect: without a signed-in user the screen goes to the login
      screen; otherwise the user document is read, then the ten newest
      attempts, and the first of the two reads that throws decides the
      error text. */
  function LoadProfile(user: Option<AuthUser>, userDoc: Result<Option<UserData>>, scores: Result<seq<ScoreDoc>>): (st: ProfileState)
    ensures st.RedirectToLogin? <==> user.None?
    ensures user.Some? && userDoc.Threw? ==> st == ProfileError(userDoc.message.GetOr("Failed to load profile"))
    ensures user.Some? && userDoc.Ok? && scores.Threw? ==> st == ProfileError(scores.message.GetOr("Failed to load profile"))
    ensures st.ProfileShown? <==> user.Some? && userDoc.Ok? && scores.Ok?
    ensures st.ProfileShown? ==>
              && st.recent == RecentResults(scores.value)
              && st.profile.uid == user.value.uid
              && st.profile.stats.totalQuizzes == |st.recent| <= RecentLimit
              && st.profile.stats == StatsOf(st.recent)
              && st.profile.name == ProfileName(userDoc.value, user.value)
              && st.profile.email == user.value.email.GetOr("No email")
  {
    match user
    case None => RedirectToLogin
    case Some(u) =>
      match userDoc
      case Threw(m) => ProfileError(m.GetOr("Failed to load profile"))
      case Ok(data) =>
        match scores
        case Threw(m) => ProfileError(m.GetOr("Failed to load profile"))
        case Ok(docs) =>
          var recent := RecentResults(docs);
          ProfileShown(ProfileOf(u, data, recent), recent)
  }

  /** The recent-activity card shows at most five attempts. */
  const ShownLimit: nat := 5

  function ShownActivity(recent: seq<QuizResult>): (shown: seq<QuizResult>)
    ensures |shown| <= ShownLimit
    ensures |shown| == if |recent| < ShownLimit then |recent| else ShownLimit
    ensures shown <= recent
  {
    Take(recent, ShownLimit)
  }

  /** `index < recentQuizzes.size - 1 && index < 4`. */
  predicate HasDivider(index: int, size: int) {
    index < size - 1 && index < 4
  }

  /** A divider follows every shown entry except the last one shown. */
  lemma DividersSeparateShown(recent: seq<QuizResult>, index: int)
    requires 0 <= index < |ShownActivity(recent)|
    ensures HasDivider(index, |recent|) <==> index < |ShownActivity(recent)| - 1
  {
  }

  /** `(score.toFloat() / totalQuestions * 100).toInt()`. */
  function PercentFigure(r: QuizResult): int {
    Percent(r).ToInt()
  }

  datatype Band = Green | Orange | Red

  function BandOf(percentage: int): Band {
    if percentage >= 80 then Green else if percentage >= 60 then Orange else Red
  }

  /** For a non-negative score out of a positive total the band is decided by
      the exact ratio: green from 80 percent, orange from 60 percent, red below. */
  lemma BandByRatio(r: QuizResult)
    requires r.totalQuestions > 0 && r.score >= 0
    ensures BandOf(PercentFigure(r)) == Green <==> 100 * r.score >= 80 * r.totalQuestions
    ensures BandOf(PercentFigure(r)) == Orange <==> 60 * r.totalQuestions <= 100 * r.score < 80 * r.totalQuestions
    ensures BandOf(PercentFigure(r)) == Red <==> 100 * r.score < 60 * r.totalQuestions
  {
    var p := r.score as real / r.totalQuestions as real * 100.0;
    assert Percent(r) == Finite(p);
    assert p >= 0.0;
    TruncAtLeast(p, 80);
    TruncAtLeast(p, 60);
    RatioAtLeast(r.score, r.totalQuestions, 80);
    RatioAtLeast(r.score, r.totalQuestions, 60);
  }

  lemma TruncAtLeast(x: real, k: int)
    requires x >= 0.0 && 0 <= k <= IntMax
    ensures DoubleToInt(x) >= k <==> x >= k as real
  {
  }

  lemma RatioAtLeast(s: int, t: int, k: int)
    requires t > 0
    ensures s as real / t as real * 100.0 >= k as real <==> 100 * s >= k * t
  {
    var p := s as real / t as real * 100.0;
    assert p * t as real == 100.0 * s as real;
    CastProduct(100, s);
    CastProduct(k, t);
    if p >= k as real {
      assert p * t as real >= k as real * t as real;
    } else {
      assert p * t as real < k as real * t as real;
    }
  }

  /** The text under an activity entry: "Recently" without a timestamp,
      otherwise minutes below an hour, hours below a day, else days, each a
      truncated quotient of the elapsed milliseconds. */
  function ProfileTimeAgo(timestamp: Option<int>, now: int): Ago {
    match timestamp
    case None => Recently
    case Some(t) =>
      var diff := now - t;
      if diff < HourMillis then MinutesAgo(Div(diff, MinuteMillis))
      else if diff < DayMillis then HoursAgo(Div(diff, HourMillis))
      else DaysAgo(Div(diff, DayMillis))
  }

  /** Each bucket's count is the number of whole units elapsed. */
  lemma ProfileTimeAgoBuckets(t: int, now: int)
    ensures var a := ProfileTimeAgo(Some(t), now);
            && (0 <= now - t < HourMillis ==>
                  a.MinutesAgo? && 0 <= a.n < 60 && a.n * MinuteMillis <= now - t < (a.n + 1) * MinuteMillis)
            && (HourMillis <= now - t < DayMillis ==>
                  a.HoursAgo? && 1 <= a.n < 24 && a.n * HourMillis <= now - t < (a.n + 1) * HourMillis)
            && (DayMillis <= now - t ==>
                  a.DaysAgo? && 1 <= a.n && a.n * DayMillis <= now - t < (a.n + 1) * DayMillis)
    ensures now - t < 0 ==> ProfileTimeAgo(Some(t), now).MinutesAgo? && ProfileTimeAgo(Some(t), now).n <= 0
  {
    var diff := now - t;
    DivBounds(diff, MinuteMillis);
    DivBounds(diff, HourMillis);
    DivBounds(diff, DayMillis);
  }

  /** The separator of the activity line as the app shows it: in
      ProfileScreen.kt the bullet's UTF-8 bytes were read as Windows-1252 and
      saved again, so the text is " \u00E2\u20AC\u00A2 " rather than " \u2022 ". */
  const MisencodedBullet: string := " \U{00E2}\U{20AC}\U{00A2} "

  /** The line under an activity entry: "Score: s/t", the separator, then the time ago. */
  function ActivityLine(r: QuizResult, now: int): string {
    "Score: " + IntToString(r.score) + "/" + IntToString(r.totalQuestions) + MisencodedBullet + Text(ProfileTimeAgo(r.timestamp, now))
  }

  /** The average tile: `"${averageScore.toInt()}%"`. */
  function AverageText(s: Stats): string {
    IntToString(s.averageScore.ToInt()) + "%"
  }

  /** The activity line opens with the score, which reads back as the
      attempt's score, followed by "/" and the number of questions, which
      reads back too. */
  lemma ActivityLineShowsScore(r: QuizResult, now: int)
    ensures var line := ActivityLine(r, now);
            var k, m := |IntToString(r.score)|, |IntToString(r.totalQuestions)|;
            && |line| > 8 + k + m && line[..7] == "Score: "
            && ParseInt(line[7..7 + k]) == r.score && line[7 + k] == '/'
            && ParseInt(line[8 + k..8 + k + m]) == r.totalQuestions
  {
    var a, b := IntToString(r.score), IntToString(r.totalQuestions);
    ScoreLineParts(a, b, MisencodedBullet, Text(ProfileTimeAgo(r.timestamp, now)));
    IntToStringRoundTrip(r.score);
    IntToStringRoundTrip(r.totalQuestions);
  }

  /** Where the two numbers sit in a text "Score: a/b" followed by anything. */
  lemma ScoreLineParts(a: string, b: string, sep: string, tail: string)
    ensures var line := "Score: " + a + "/" + b + sep + tail;
            && |line| == 8 + |a| + |b| + |sep| + |tail| && line[..7] == "Score: "
            && line[7..7 + |a|] == a && line[7 + |a|] == '/' && line[8 + |a|..8 + |a| + |b|] == b
  {
    var u1 := "Score: " + a;
    var u2 := u1 + "/";
    var u3 := u2 + b;
    var line := u3 + sep + tail;
    assert line[7..7 + |a|] == a by {
      assert forall j :: 0 <= j < |a| ==> line[7 + j] == u3[7 + j] == u1[7 + j] == a[j];
    }
    assert line[8 + |a|..8 + |a| + |b|] == b by {
      assert forall j :: 0 <= j < |b| ==> line[8 + |a| + j] == u3[8 + |a| + j] == b[j];
    }
    assert line[7 + |a|] == '/' by {
      assert line[7 + |a|] == u2[7 + |a|];
    }
    assert line[..7] == "Score: " by {
      assert forall j :: 0 <= j < 7 ==> line[j] == u1[j];
    }
  }

  /** The average tile is the truncated average followed by "%". */
  lemma AverageTextShowsAverage(s: Stats)
    ensures var t := AverageText(s);
            && |t| >= 2 && t[|t| - 1] == '%' && ParseInt(t[..|t| - 1]) == s.averageScore.ToInt()
  {
    var n := IntToString(s.averageScore.ToInt());
    assert AverageText(s)[..|AverageText(s)| - 1] == n;
    IntToStringRoundTrip(s.averageScore.ToInt());
  }
}
