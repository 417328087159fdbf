/** The shapes of the Firestore documents the screens read and write: the
    `users/{uid}` profile document and the `users/{uid}/scores` attempt
    documents. Every field read back may be missing. */
module Documents {
  import opened KotlinStd

  /** A field value of a `users/{uid}` document. */
  datatype FieldValue = Str(text: string) | Num(number: int) | OtherValue

  /** The data map of a user document. */
  type UserData = map<string, FieldValue>

  /** `data[key] as? String`: the value when it is a string, otherwise null. */
  function StringField(data: UserData, key: string): (r: Option<string>)
    ensures r.Some? <==> key in data && data[key].Str?
    ensures r.Some? ==> data[key] == Str(r.value)
  {
    if key in data && data[key].Str? then Some(data[key].text) else None
  }

  /** A document of `users/{uid}/scores`. `score` and `totalQuestions` are
      what `getLong` returns (a 64-bit value), `timestamp` is the stored
      time in milliseconds since the epoch. */
  datatype ScoreDoc = ScoreDoc(
    score: Option<int>,
    totalQuestions: Option<int>,
    category: Option<string>,
    timestamp: Option<int>)

  /** The signed-in user as the authentication service describes it. */
  datatype AuthUser = AuthUser(uid: string, displayName: Option<string>, email: Option<string>)

  /** The category every screen falls back to. */
  const DefaultCategory: string := "General Knowledge"
}

/** The "time ago" texts of the profile and home screens. */
module TimeText {
  import opened KotlinStd

  const MinuteMillis: int := 60000
  const HourMillis: int := 3600000
  const DayMillis: int := 86400000

  /** How long ago an attempt was made; the count is the truncated quotient. */
  datatype Ago = Recently | JustNow | MinutesAgo(n: int) | HoursAgo(n: int) | DaysAgo(n: int)

  function Text(a: Ago): string {
    match a
    case Recently => "Recently"
    case JustNow => "just now"
    case MinutesAgo(n) => IntToString(n) + " minutes ago"
    case HoursAgo(n) => IntToString(n) + " hours ago"
    case DaysAgo(n) => IntToString(n) + " days ago"
  }

  /** The sixth character from the end tells the five kinds of text apart. */
  function Mark(a: Ago): char {
    match a
    case Recently => 'c'
    case JustNow => 's'
    case MinutesAgo(_) => 'e'
    case HoursAgo(_) => 'r'
    case DaysAgo(_) => 'y'
  }

  lemma TextMark(a: Ago)
    ensures |Text(a)| >= 8 && Text(a)[|Text(a)| - 6] == Mark(a)
  {
    match a
    case Recently =>
    case JustNow =>
    case MinutesAgo(n) => SuffixChar(IntToString(n), " minutes ago", 6);
    case HoursAgo(n) => SuffixChar(IntToString(n), " hours ago", 6);
    case DaysAgo(n) => SuffixChar(IntToString(n), " days ago", 6);
  }

  lemma SuffixChar(p: string, q: string, k: int)
    requires 1 <= k <= |q|
    ensures |p + q| >= |q| && (p + q)[|p + q| - k] == q[|q| - k]
  {
  }

  lemma CountTextInjective(n: int, m: int, suffix: string)
    requires IntToString(n) + suffix == IntToString(m) + suffix
    ensures n == m
  {
    var t := IntToString(n) + suffix;
    assert t[..|t| - |suffix|] == IntToString(n);
    assert (IntToString(m) + suffix)[..|t| - |suffix|] == IntToString(m);
    IntToStringRoundTrip(n);
    IntToStringRoundTrip(m);
  }

  /** Distinct elapsed times in distinct buckets never share a text: the
      text determines the bucket and its count. */
  lemma TextDeterminesAgo(a: Ago, b: Ago)
    ensures Text(a) == Text(b) ==> a == b
  {
    if Text(a) == Text(b) {
      TextMark(a);
      TextMark(b);
      assert Mark(a) == Mark(b);
      match a
      case MinutesAgo(n) => CountTextInjective(n, b.n, " minutes ago");
      case HoursAgo(n) => CountTextInjective(n, b.n, " hours ago");
      case DaysAgo(n) => CountTextInjective(n, b.n, " days ago");
      case Recently =>
      case JustNow =>
    }
  }
}
