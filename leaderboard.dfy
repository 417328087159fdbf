/** The leaderboard: one entry per user document (total, best, count and mean
    of that user's raw scores), ordered by the statistic of the selected tab,
    and the rank, badge and texts each row shows. */
module Leaderboard {
  import opened KotlinStd
  import opened Documents

  datatype LeaderboardEntry = LeaderboardEntry(
    uid: string,
    name: string,
    email: string,
    totalQuizzes: int,
    averageScore: real,
    bestScore: int,
    totalScore: int)

  /** One document of the `users` collection, with what the query of its
      `scores` sub-collection produced. */
  datatype UserDoc = UserDoc(id: string, data: Option<UserData>, scores: Result<seq<ScoreDoc>>)

  /** `doc.getLong("score")?.toInt() ?: 0`. */
  function ScoreOf(d: ScoreDoc): int {
    if d.score.Some? then Int32Of(d.score.value) else 0
  }

  function ScoresOf(docs: seq<ScoreDoc>): (r: seq<int>)
    ensures |r| == |docs|
    ensures forall i :: 0 <= i < |docs| ==> r[i] == ScoreOf(docs[i])
  {
    seq(|docs|, i requires 0 <= i < |docs| => ScoreOf(docs[i]))
  }

  /** `if (scores.isNotEmpty()) scores.average() else 0.0`. */
  function Average(xs: seq<int>): (a: real)
    ensures |xs| == 0 ==> a == 0.0
    ensures |xs| > 0 ==> a * |xs| as real == Sum(xs) as real
  {
    if |xs| == 0 then 0.0 else Sum(xs) as real / |xs| as real
  }

  /** The entry of one user with data. */
  function EntryOf(uid: string, data: UserData, scores: seq<int>): LeaderboardEntry {
    LeaderboardEntry(
      uid,
      StringField(data, "name").GetOr("Anonymous"),
      StringField(data, "email").GetOr(""),
      |scores|, Average(scores), MaxOrZero(scores), Sum(scores))
  }

  /** A user's statistics, for non-negative scores: nothing is negative, the
      best score is at most the total, and the mean at most the best score.
      A user with no scores gets all zeros. */
  lemma EntryStats(uid: string, data: UserData, scores: seq<int>)
    requires forall i :: 0 <= i < |scores| ==> scores[i] >= 0
    ensures var e := EntryOf(uid, data, scores);
            && e.uid == uid && e.totalQuizzes == |scores|
            && 0 <= e.bestScore <= e.totalScore
            && 0.0 <= e.averageScore <= e.bestScore as real
            && e.averageScore * e.totalQuizzes as real == e.totalScore as real
            && (|scores| == 0 ==> e.totalScore == 0 && e.bestScore == 0 && e.averageScore == 0.0)
  {
    SumNonNegative(scores);
    if |scores| > 0 {
      var m := MaxOrZero(scores);
      var k :| 0 <= k < |scores| && scores[k] == m;
      SumAtLeastElement(scores, k);
      AverageBounds(scores, m);
    }
  }

  lemma AverageBounds(xs: seq<int>, bound: int)
    requires |xs| > 0
    requires forall i :: 0 <= i < |xs| ==> 0 <= xs[i] <= bound
    ensures 0.0 <= Average(xs) <= bound as real
  {
    var n, total := |xs|, Sum(xs);
    SumNonNegative(xs);
    SumAtMost(xs, bound);
    assert total <= n * bound;
    CastProduct(n, bound);
    assert total as real <= n as real * bound as real;
    MeanBetween(Average(xs), n as real, total as real, bound as real);
  }

  lemma MeanBetween(a: real, n: real, total: real, bound: real)
    requires n > 0.0 && a * n == total && 0.0 <= total <= n * bound
    ensures 0.0 <= a <= bound
  {
  }

  /** The name and the email are the stored strings; a field that is
      missing or holds anything but a string falls back to "Anonymous" for
      the name and "" for the email. */
  lemma EntryDefaults(uid: string, data: UserData, scores: seq<int>)
    ensures "name" in data && data["name"].Str? ==> EntryOf(uid, data, scores).name == data["name"].text
    ensures !("name" in data && data["name"].Str?) ==> EntryOf(uid, data, scores).name == "Anonymous"
    ensures "email" in data && data["email"].Str? ==> EntryOf(uid, data, scores).email == data["email"].text
    ensures !("email" in data && data["email"].Str?) ==> EntryOf(uid, data, scores).email == ""
  {
  }

  /** A score document without a `score` field counts as 0; a stored score
      goes through `toInt()`, which keeps every value in the `Int` range. */
  lemma MissingScoreIsZero(d: ScoreDoc)
    ensures d.score.None? ==> ScoreOf(d) == 0
    ensures d.score.Some? ==> ScoreOf(d) == Int32Of(d.score.value)
    ensures d.score.Some? && IntMin <= d.score.value <= IntMax ==> ScoreOf(d) == d.score.value
  {
  }

  /** The entries the loop collects, in user-list order: users whose document
      has no data are skipped; the first failed scores query aborts. */
  function Entries(users: seq<UserDoc>): Result<seq<LeaderboardEntry>> {
    if |users| == 0 then Ok([])
    else
      var last := users[|users| - 1];
      match Entries(users[..|users| - 1])
      case Threw(m) => Threw(m)
      case Ok(es) =>
        if last.data.None? then Ok(es)
        else
          match last.scores
          case Threw(m) => Threw(m)
          case Ok(docs) => Ok(es + [EntryOf(last.id, last.data.value, ScoresOf(docs))])
  }

  /** The ids of the users with data, in order. */
  function DataIds(users: seq<UserDoc>): seq<string> {
    if |users| == 0 then []
    else DataIds(users[..|users| - 1]) + (if users[|users| - 1].data.Some? then [users[|users| - 1].id] else [])
  }

  function Ids(entries: seq<LeaderboardEntry>): seq<string> {
    if |entries| == 0 then [] else Ids(entries[..|entries| - 1]) + [entries[|entries| - 1].uid]
  }

  lemma {:induction false} ThrewPersists(users: seq<UserDoc>, j: nat)
    requires j <= |users| && Entries(users[..j]).Threw?
    ensures Entries(users) == Entries(users[..j])
    decreases |users| - j
  {
    if j < |users| {
      var init := users[..|users| - 1];
      assert init[..j] == users[..j];
      ThrewPersists(init, j);
    } else {
      assert users[..j] == users;
    }
  }

  /** The loop fails exactly when some user with data has a failed scores query. */
  lemma {:induction false} EntriesFail(users: seq<UserDoc>)
    ensures Entries(users).Ok? <==> forall i :: 0 <= i < |users| && users[i].data.Some? ==> users[i].scores.Ok?
  {
    if |users| > 0 {
      var init := users[..|users| - 1];
      EntriesFail(init);
      assert forall i :: 0 <= i < |init| ==> init[i] == users[i];
    }
  }

  /** A successful loop has one entry per user with data, in user-list order,
      and each entry holds that user's statistics; in particular a user with
      no scores is listed with all-zero statistics. */
  lemma EntriesPerUser(users: seq<UserDoc>)
    requires Entries(users).Ok?
    ensures Ids(Entries(users).value) == DataIds(users)
    ensures forall k :: 0 <= k < |Entries(users).value| ==> FromUser(users, Entries(users).value[k])
  {
    EntriesIds(users);
    EntriesFromUsers(users);
  }

  lemma {:induction false} EntriesIds(users: seq<UserDoc>)
    requires Entries(users).Ok?
    ensures Ids(Entries(users).value) == DataIds(users)
  {
    if |users| > 0 {
      var init := users[..|users| - 1];
      var last := users[|users| - 1];
      assert Entries(init).Ok?;
      EntriesIds(init);
      var all := Entries(users).value;
      if last.data.Some? {
        assert all == Entries(init).value + [EntryOf(last.id, last.data.value, ScoresOf(last.scores.value))];
        assert all[..|all| - 1] == Entries(init).value;
      }
    }
  }

  /** The user an entry comes from. */
  predicate FromUser(users: seq<UserDoc>, e: LeaderboardEntry) {
    exists i :: 0 <= i < |users| && users[i].data.Some? && users[i].scores.Ok?
      && e == EntryOf(users[i].id, users[i].data.value, ScoresOf(users[i].scores.value))
  }

  lemma {:induction false} EntriesFromUsers(users: seq<UserDoc>)
    requires Entries(users).Ok?
    ensures forall k :: 0 <= k < |Entries(users).value| ==> FromUser(users, Entries(users).value[k])
  {
    if |users| > 0 {
      var init := users[..|users| - 1];
      var last := users[|users| - 1];
      assert Entries(init).Ok?;
      EntriesFromUsers(init);
      var es := Entries(init).value;
      var all := Entries(users).value;
      assert last.data.Some? ==> all == es + [EntryOf(last.id, last.data.value, ScoresOf(last.scores.value))];
      assert last.data.None? ==> all == es;
      forall k | 0 <= k < |all|
        ensures FromUser(users, all[k])
      {
        if k < |es| {
          var i :| 0 <= i < |init| && init[i].data.Some? && init[i].scores.Ok?
                   && es[k] == EntryOf(init[i].id, init[i].data.value, ScoresOf(init[i].scores.value));
          assert users[i] == init[i];
        } else {
          assert users[|users| - 1] == last;
        }
      }
    }
  }

  /** The loop of `LeaderboardScreen` over the user documents. */
  method BuildEntries(users: seq<UserDoc>) returns (result: Result<seq<LeaderboardEntry>>)
    ensures result == Entries(users)
  {
    var entries: seq<LeaderboardEntry> := [];
    for i := 0 to |users|
      invariant Entries(users[..i]) == Ok(entries)
    {
      assert users[..i + 1][..i] == users[..i];
      var userDoc := users[i];
      if userDoc.data.None? {
        continue;
      }
      match userDoc.scores {
        case Threw(m) =>
          ThrewPersists(users, i + 1);
          return Threw(m);
        case Ok(docs) =>
          var scores := ScoresOf(docs);
          entries := entries + [EntryOf(userDoc.id, userDoc.data.value, scores)];
      }
    }
    assert users[..|users|] == users;
    return Ok(entries);
  }

  /** The statistic a tab sorts by: 0 the total, 1 the mean, any other the best score. */
  function Key(tab: int, e: LeaderboardEntry): real {
    if tab == 0 then e.totalScore as real
    else if tab == 1 then e.averageScore
    else e.bestScore as real
  }

  /** Each entry's statistic is at least the next one's. */
  predicate SortedDesc(tab: int, s: seq<LeaderboardEntry>) {
    forall i :: 0 <= i < |s| - 1 ==> Key(tab, s[i]) >= Key(tab, s[i + 1])
  }

  /** The entries whose statistic is `k`, in order. */
  function WithKey(tab: int, s: seq<LeaderboardEntry>, k: real): seq<LeaderboardEntry> {
    if |s| == 0 then []
    else (if Key(tab, s[0]) == k then [s[0]] else []) + WithKey(tab, s[1..], k)
  }

  /** Puts `x` in front of the first entry whose statistic is not greater. */
  function Insert(tab: int, x: LeaderboardEntry, s: seq<LeaderboardEntry>): (r: seq<LeaderboardEntry>)
    ensures multiset(r) == multiset(s) + multiset{x}
    ensures r[0] == x || (|s| > 0 && r[0] == s[0])
    ensures SortedDesc(tab, s) ==> SortedDesc(tab, r)
  {
    if |s| == 0 then [x]
    else if Key(tab, s[0]) <= Key(tab, x) then
      ConsSorted(tab, x, s);
      [x] + s
    else
      assert s == [s[0]] + s[1..];
      var rest := Insert(tab, x, s[1..]);
      TailSorted(tab, s);
      ConsSorted(tab, s[0], rest);
      [s[0]] + rest
  }

  lemma ConsSorted(tab: int, e: LeaderboardEntry, t: seq<LeaderboardEntry>)
    ensures SortedDesc(tab, t) && (|t| == 0 || Key(tab, e) >= Key(tab, t[0])) ==> SortedDesc(tab, [e] + t)
  {
    var r := [e] + t;
    assert forall i :: 0 < i < |r| ==> r[i] == t[i - 1];
  }

  lemma TailSorted(tab: int, s: seq<LeaderboardEntry>)
    requires |s| > 0
    ensures SortedDesc(tab, s) ==> SortedDesc(tab, s[1..]) && (|s| == 1 || Key(tab, s[0]) >= Key(tab, s[1]))
  {
  }

  /** `sortedByDescending` on the tab's statistic. */
  function SortByTab(tab: int, s: seq<LeaderboardEntry>): (r: seq<LeaderboardEntry>)
    ensures multiset(r) == multiset(s)
    ensures |r| == |s|
    ensures SortedDesc(tab, r)
  {
    if |s| == 0 then []
    else
      assert s == [s[0]] + s[1..];
      Insert(tab, s[0], SortByTab(tab, s[1..]))
  }

  /** Inserting `x` adds it to the entries with its statistic, in front of
      them, and leaves the entries with any other statistic as they were. */
  lemma {:induction false} InsertWithKey(tab: int, x: LeaderboardEntry, s: seq<LeaderboardEntry>, k: real)
    ensures WithKey(tab, Insert(tab, x, s), k) == (if Key(tab, x) == k then [x] else []) + WithKey(tab, s, k)
  {
    if |s| == 0 {
      WithKeyCons(tab, x, [], k);
    } else if Key(tab, s[0]) <= Key(tab, x) {
      WithKeyCons(tab, x, s, k);
    } else {
      var rest := Insert(tab, x, s[1..]);
      InsertWithKey(tab, x, s[1..], k);
      assert Insert(tab, x, s) == [s[0]] + rest;
      WithKeyCons(tab, s[0], rest, k);
      SwapEmpty(if Key(tab, s[0]) == k then [s[0]] else [], if Key(tab, x) == k then [x] else [], WithKey(tab, s[1..], k));
    }
  }

  lemma SwapEmpty(a: seq<LeaderboardEntry>, b: seq<LeaderboardEntry>, w: seq<LeaderboardEntry>)
    requires a == [] || b == []
    ensures a + (b + w) == b + (a + w)
  {
  }

  lemma WithKeyCons(tab: int, e: LeaderboardEntry, t: seq<LeaderboardEntry>, k: real)
    ensures WithKey(tab, [e] + t, k) == (if Key(tab, e) == k then [e] else []) + WithKey(tab, t, k)
  {
    assert ([e] + t)[1..] == t;
  }

  /** The sort is stable: for every value of the statistic, the entries
      with that value come out in the order they went in. */
  lemma {:induction false} SortStable(tab: int, s: seq<LeaderboardEntry>, k: real)
    ensures WithKey(tab, SortByTab(tab, s), k) == WithKey(tab, s, k)
  {
    if |s| > 0 {
      SortStable(tab, s[1..], k);
      InsertWithKey(tab, s[0], SortByTab(tab, s[1..]), k);
    }
  }

  /** The sorted list is descending between any two positions, not only neighbours. */
  lemma {:induction false} SortedDescPairwise(tab: int, s: seq<LeaderboardEntry>, i: nat, j: nat)
    requires SortedDesc(tab, s) && i <= j < |s|
    ensures Key(tab, s[i]) >= Key(tab, s[j])
    decreases j - i
  {
    if i < j {
      SortedDescPairwise(tab, s, i + 1, j);
    }
  }

  function Sample(uid: string, total: int): LeaderboardEntry {
    LeaderboardEntry(uid, uid, "", 1, total as real, total, total)
  }

  /** The total-score tab orders totals 30, 50, 10 of A, B, C as B, A, C. */
  lemma TotalTabExample()
    ensures SortByTab(0, [Sample("A", 30), Sample("B", 50), Sample("C", 10)])
         == [Sample("B", 50), Sample("A", 30), Sample("C", 10)]
  {
    var a, b, c := Sample("A", 30), Sample("B", 50), Sample("C", 10);
    assert [a, b, c][1..] == [b, c];
    assert [b, c][1..] == [c];
    assert SortByTab(0, [c]) == [c];
    assert Insert(0, b, [c]) == [b, c];
    assert Insert(0, a, [c]) == [a, c];
    assert [b, c][1..] == [c];
    assert Insert(0, a, [b, c]) == [b] + [a, c];
    assert [b] + [a, c] == [b, a, c];
  }

  datatype RankColor = Gold | Silver | Bronze | PlainColor

  /** The circle left of a row: a trophy in the rank's colour for the first
      three ranks, the rank number otherwise. */
  datatype RankBadge = Trophy(color: RankColor) | RankNumber(text: string)

  function ColorOf(rank: int): (c: RankColor)
    ensures c == Gold <==> rank == 1
    ensures c == Silver <==> rank == 2
    ensures c == Bronze <==> rank == 3
  {
    if rank == 1 then Gold else if rank == 2 then Silver else if rank == 3 then Bronze else PlainColor
  }

  function BadgeFor(rank: int): (b: RankBadge)
    ensures b.Trophy? <==> rank <= 3
    ensures b.Trophy? ==> b.color == ColorOf(rank)
    ensures b.RankNumber? ==> ParseInt(b.text) == rank
  {
    if rank <= 3 then Trophy(ColorOf(rank))
    else
      IntToStringRoundTrip(rank);
      RankNumber(IntToString(rank))
  }

  /** The score text of a row: the total, the mean truncated with a percent
      sign, or the best score; every tab from 2 on is "best". */
  function ScoreText(tab: int, e: LeaderboardEntry): string {
    if tab == 0 then IntToString(e.totalScore)
    else if tab == 1 then IntToString(DoubleToInt(e.averageScore)) + "%"
    else IntToString(e.bestScore)
  }

  function ScoreLabel(tab: int): string {
    if tab == 0 then "points" else if tab == 1 then "average" else "best"
  }

  /** What one `LeaderboardItem` shows. */
  datatype Row = Row(rank: int, badge: RankBadge, name: string, quizzes: string,
                     scoreText: string, caption: string, isCurrentUser: bool)

  function RowFor(rank: int, e: LeaderboardEntry, isCurrentUser: bool, tab: int): Row {
    Row(rank, BadgeFor(rank), e.name + (if isCurrentUser then " (You)" else ""),
        IntToString(e.totalQuizzes) + " quizzes completed", ScoreText(tab, e), ScoreLabel(tab), isCurrentUser)
  }

  /** `itemsIndexed`: every entry of the sorted list becomes a row whose rank
      is its 1-based position; the signed-in user's own row is marked. */
  function Rows(board: seq<LeaderboardEntry>, tab: int, currentUid: Option<string>): (rows: seq<Row>)
    ensures |rows| == |board|
    ensures forall i :: 0 <= i < |rows| ==> rows[i].rank == i + 1
    ensures forall i :: 0 <= i < |rows| ==> (rows[i].isCurrentUser <==> currentUid == Some(board[i].uid))
    ensures forall i :: 0 <= i < |rows| ==> (rows[i].badge.Trophy? <==> i < 3)
    ensures forall i :: 0 <= i < |rows| ==> rows[i].scoreText == ScoreText(tab, board[i])
    ensures forall i :: 0 <= i < |rows| ==>
              rows[i].name == board[i].name + (if rows[i].isCurrentUser then " (You)" else "")
    ensures forall i :: 0 <= i < |rows| ==>
              rows[i].caption == (if tab == 0 then "points" else if tab == 1 then "average" else "best")
  {
    seq(|board|, i requires 0 <= i < |board| =>
      RowFor(i + 1, board[i], currentUid == Some(board[i].uid), tab))
  }

  /** Each tab's text shows the statistic it sorts by: the integer text reads
      back as the total or best score, and as the truncated mean on tab 1. */
  lemma ScoreTextShowsKey(tab: int, e: LeaderboardEntry)
    ensures tab == 0 ==> ParseInt(ScoreText(tab, e)) == e.totalScore
    ensures tab != 0 && tab != 1 ==> ParseInt(ScoreText(tab, e)) == e.bestScore
    ensures tab == 1 ==> ScoreText(tab, e) == IntToString(DoubleToInt(Key(tab, e))) + "%"
  {
    IntToStringRoundTrip(e.totalScore);
    IntToStringRoundTrip(e.bestScore);
  }

  datatype BoardState = BoardLoading | BoardError(message: string) | Board(entries: seq<LeaderboardEntry>)

  /** The effect of `LaunchedEffect(selectedTab)`: read every user and their
      scores, then sort by the tab; any exception becomes the error text. */
  method LoadLeaderboard(usersQuery: Result<seq<UserDoc>>, tab: int) returns (state: BoardState)
    ensures usersQuery.Threw? ==> state == BoardError(usersQuery.message.GetOr("Failed to load leaderboard"))
    ensures usersQuery.Ok? && Entries(usersQuery.value).Threw? ==>
              state == BoardError(Entries(usersQuery.value).message.GetOr("Failed to load leaderboard"))
    ensures usersQuery.Ok? && Entries(usersQuery.value).Ok? ==>
              state == Board(SortByTab(tab, Entries(usersQuery.value).value))
  {
    match usersQuery {
      case Threw(m) =>
        state := BoardError(m.GetOr("Failed to load leaderboard"));
      case Ok(users) =>
        var entries := BuildEntries(users);
        match entries {
          case Threw(m) =>
            state := BoardError(m.GetOr("Failed to load leaderboard"));
          case Ok(es) =>
            state := Board(SortByTab(tab, es));
        }
    }
  }
}
