/** The few Kotlin and JVM library behaviours the BrainQuest core relies on,
    written out so that the screens can be modelled exactly: nullable values,
    exceptions caught by `try`/`catch`, truncating integer division, the
    32-bit `Int`, `isBlank`, `take` and decimal string templates. */
module KotlinStd {

  /** A Kotlin nullable value `T?`. */
  datatype Option<T> = None | Some(value: T) {
    /** The elvis operator `x ?: default`. */
    function GetOr(default: T): T {
      if Some? then value else default
    }
  }

  /** The result of a call that either returns or throws; a thrown exception
      carries its `localizedMessage`, which may itself be null. */
  datatype Result<T> = Ok(value: T) | Threw(message: Option<string>)

  const IntMin: int := -0x8000_0000
  const IntMax: int := 0x7FFF_FFFF

  /** `Long.toInt()`: keeps the low 32 bits, read as a signed two's-complement value. */
  function Int32Of(x: int): (r: int)
    ensures IntMin <= r <= IntMax
    ensures (r - x) % 0x1_0000_0000 == 0
    ensures IntMin <= x <= IntMax ==> r == x
  {
    (x - IntMin) % 0x1_0000_0000 + IntMin
  }

  /** Kotlin's `/` on `Int` and `Long` for a positive divisor: it truncates
      toward zero (divide the magnitude, keep the sign), whereas Dafny's `/`
      is Euclidean. */
  function Div(a: int, b: int): (q: int)
    requires b > 0
    ensures a >= 0 ==> q >= 0
    ensures a <= 0 ==> q <= 0
  {
    if a >= 0 then a / b else -((-a) / b)
  }

  /** The quotient is the integer part of `a / b`: for a non-negative `a` the
      largest `q` with `q * b <= a`, and for a negative `a` the negation of
      that for `-a`. */
  lemma DivBounds(a: int, b: int)
    requires b > 0
    ensures a >= 0 ==> Div(a, b) * b <= a < Div(a, b) * b + b
    ensures a < 0 ==> Div(a, b) * b - b < a <= Div(a, b) * b
  {
    var m := if a >= 0 then a else -a;
    assert m == b * (m / b) + m % b && 0 <= m % b < b;
    if a < 0 {
      assert Div(a, b) * b == -((m / b) * b);
    }
  }

  /** `x.coerceIn(lo, hi)`. */
  function CoerceIn(x: int, lo: int, hi: int): (r: int)
    requires lo <= hi
    ensures lo <= r <= hi
    ensures lo <= x <= hi ==> r == x
    ensures x < lo ==> r == lo
    ensures x > hi ==> r == hi
  {
    if x < lo then lo else if x > hi then hi else x
  }

  /** `Char.isWhitespace()` on the JVM: Java's whitespace characters together
      with every space, line and paragraph separator. */
  predicate IsWhitespace(c: char) {
    c == '\t' || c == '\n' || c == '\U{B}' || c == '\U{C}' || c == '\r'
    || ('\U{1C}' <= c <= '\U{1F}')
    || c == ' ' || c == '\U{A0}' || c == '\U{1680}' || ('\U{2000}' <= c <= '\U{200A}')
    || c == '\U{2028}' || c == '\U{2029}' || c == '\U{202F}' || c == '\U{205F}' || c == '\U{3000}'
  }

  /** `CharSequence.isBlank()`: empty, or whitespace only. */
  predicate IsBlank(s: string) {
    forall i :: 0 <= i < |s| ==> IsWhitespace(s[i])
  }

  /** An empty text and one of spaces, tabs and no-break spaces are blank; a
      text with a letter in it is not, wherever the letter is. */
  lemma BlankExamples()
    ensures IsBlank("") && IsBlank(" \t\U{A0}\U{3000}")
    ensures !IsBlank("a") && !IsBlank("  a  ")
  {
    assert !IsWhitespace("a"[0]);
    assert !IsWhitespace("  a  "[2]);
  }

  /** Two texts joined are blank exactly when both are. */
  lemma {:induction false} BlankConcat(s: string, t: string)
    ensures IsBlank(s + t) <==> IsBlank(s) && IsBlank(t)
  {
    if IsBlank(s) && IsBlank(t) {
      forall i | 0 <= i < |s + t|
        ensures IsWhitespace((s + t)[i])
      {
        if i < |s| { assert (s + t)[i] == s[i]; } else { assert (s + t)[i] == t[i - |s|]; }
      }
    }
    if IsBlank(s + t) {
      forall i | 0 <= i < |s| ensures IsWhitespace(s[i]) { assert (s + t)[i] == s[i]; }
      forall i | 0 <= i < |t| ensures IsWhitespace(t[i]) { assert (s + t)[|s| + i] == t[i]; }
    }
  }

  /** `List.take(n)`: the first `n` elements, or all of them when there are fewer. */
  function Take<T>(s: seq<T>, n: nat): (r: seq<T>)
    ensures |r| == if |s| < n then |s| else n
    ensures r <= s
  {
    if |s| <= n then s else s[..n]
  }

  /** `Double.toInt()` on a finite value: truncates toward zero and saturates
      at the bounds of `Int`. */
  function DoubleToInt(x: real): (r: int)
    ensures IntMin <= r <= IntMax
    ensures 0.0 <= x < IntMax as real ==> r as real <= x < r as real + 1.0
    ensures IntMin as real < x <= 0.0 ==> r as real - 1.0 < x <= r as real
    ensures x >= IntMax as real ==> r == IntMax
    ensures x <= IntMin as real ==> r == IntMin
  {
    var t := if x >= 0.0 then x.Floor else -((-x).Floor);
    if t < IntMin then IntMin else if t > IntMax then IntMax else t
  }

  /** A `Double` (or `Float`) value. Finite values are kept exact, so
      rounding is not modelled; the infinities and NaN that a division by
      zero produces are. */
  datatype Double = Finite(x: real) | PosInf | NegInf | NaN {
    /** `toInt()`: NaN becomes 0 and the infinities the bounds of `Int`. */
    function ToInt(): (r: int)
      ensures IntMin <= r <= IntMax
      ensures Finite? ==> r == DoubleToInt(x)
      ensures PosInf? ==> r == IntMax
      ensures NegInf? ==> r == IntMin
      ensures NaN? ==> r == 0
    {
      match this
      case Finite(x) => DoubleToInt(x)
      case PosInf => IntMax
      case NegInf => IntMin
      case NaN => 0
    }
  }

  /** `a.toDouble() / b`: exact for a non-zero divisor; for a zero divisor an
      infinity with the sign of `a`, or NaN when `a` is zero too. */
  function Quotient(a: int, b: int): (r: Double)
    ensures r.Finite? <==> b != 0
    ensures b != 0 ==> r.x == a as real / b as real
    ensures r == NaN <==> a == 0 && b == 0
    ensures b == 0 && a > 0 ==> r == PosInf
    ensures b == 0 && a < 0 ==> r == NegInf
  {
    if b != 0 then Finite(a as real / b as real)
    else if a > 0 then PosInf
    else if a < 0 then NegInf
    else NaN
  }

  /** `d * k` for a positive constant `k`. */
  function Times(d: Double, k: real): (r: Double)
    requires k > 0.0
    ensures r.Finite? <==> d.Finite?
    ensures d.Finite? ==> r.x == d.x * k
  {
    if d.Finite? then Finite(d.x * k) else d
  }

  /** `a + b`: opposite infinities give NaN, and NaN absorbs everything. */
  function Plus(a: Double, b: Double): (r: Double)
    ensures r.Finite? <==> a.Finite? && b.Finite?
    ensures r.Finite? ==> r.x == a.x + b.x
  {
    if a.NaN? || b.NaN? then NaN
    else if a.PosInf? then (if b.NegInf? then NaN else PosInf)
    else if a.NegInf? then (if b.PosInf? then NaN else NegInf)
    else if b.Finite? then Finite(a.x + b.x)
    else b
  }

  /** The running `sum += e` over a list of doubles, from the first element on. */
  function SumDoubles(ds: seq<Double>): Double {
    if |ds| == 0 then Finite(0.0) else Plus(SumDoubles(ds[..|ds| - 1]), ds[|ds| - 1])
  }

  /** A sum of doubles is finite exactly when every term is. */
  lemma {:induction false} SumDoublesFinite(ds: seq<Double>)
    ensures SumDoubles(ds).Finite? <==> forall i :: 0 <= i < |ds| ==> ds[i].Finite?
  {
    if |ds| > 0 {
      var init := ds[..|ds| - 1];
      SumDoublesFinite(init);
      assert forall i :: 0 <= i < |init| ==> init[i] == ds[i];
    }
  }

  function DigitChar(d: int): char
    requires 0 <= d < 10
  {
    "0123456789"[d]
  }

  function DigitValue(c: char): int {
    if '0' <= c <= '9' then (c as int) - ('0' as int) else 0
  }

  /** The decimal text of a natural number, as a string template prints it. */
  function NatToString(n: nat): (s: string)
    ensures |s| > 0
    ensures forall i :: 0 <= i < |s| ==> '0' <= s[i] <= '9'
    ensures s[0] == '0' ==> n == 0
  {
    if n < 10 then [DigitChar(n)] else NatToString(n / 10) + [DigitChar(n % 10)]
  }

  /** The text `"$i"` of an `Int` or `Long` value. */
  function IntToString(i: int): string {
    if i < 0 then "-" + NatToString(-i) else NatToString(i)
  }

  /** The middle part of a text written as three parts. */
  lemma SliceOfConcat(p: string, a: string, q: string)
    ensures |p + a + q| == |p| + |a| + |q|
    ensures (p + a + q)[..|p|] == p
    ensures (p + a + q)[|p|..|p| + |a|] == a
  {
    var w := p + a + q;
    assert forall i :: 0 <= i < |a| ==> w[|p| + i] == a[i];
    assert forall i :: 0 <= i < |p| ==> w[i] == p[i];
  }

  /** An integer printed between two texts reads back from its place. */
  lemma ReadsBackBetween(p: string, i: int, q: string)
    ensures var w, k := p + IntToString(i) + q, |IntToString(i)|;
            |w| == |p| + k + |q| && w[..|p|] == p && w[|p| + k..] == q && ParseInt(w[|p|..|p| + k]) == i
  {
    var t := IntToString(i);
    var w := p + t + q;
    SliceOfConcat(p, t, q);
    assert w[|p| + |t|..] == q;
    IntToStringRoundTrip(i);
  }

  /** Reads back a string of decimal digits. */
  function ParseNat(s: string): nat {
    if |s| == 0 then 0 else ParseNat(s[..|s| - 1]) * 10 + (var d := DigitValue(s[|s| - 1]); if d < 0 then 0 else d)
  }

  /** Reads back the text of an `Int`. */
  function ParseInt(s: string): int {
    if |s| > 0 && s[0] == '-' then 0 - ParseNat(s[1..]) else ParseNat(s)
  }

  lemma {:induction false} NatToStringRoundTrip(n: nat)
    ensures ParseNat(NatToString(n)) == n
  {
    if n >= 10 {
      var s := NatToString(n);
      assert s[..|s| - 1] == NatToString(n / 10);
      NatToStringRoundTrip(n / 10);
    }
  }

  /** The printed text of an integer determines it: distinct values never share a text. */
  lemma IntToStringRoundTrip(i: int)
    ensures ParseInt(IntToString(i)) == i
  {
    if i < 0 {
      var t := NatToString(-i);
      var u := "-" + t;
      assert u[1..] == t;
      assert ParseInt(u) == 0 - ParseNat(t);
      NatToStringRoundTrip(-i);
    } else {
      var t := NatToString(i);
      assert ParseInt(t) == ParseNat(t);
      NatToStringRoundTrip(i);
    }
  }

  /** `sum()` of a list of integers. */
  function Sum(xs: seq<int>): int {
    if |xs| == 0 then 0 else Sum(xs[..|xs| - 1]) + xs[|xs| - 1]
  }

  /** `maxOrNull() ?: 0`. */
  function MaxOrZero(xs: seq<int>): (m: int)
    ensures |xs| == 0 ==> m == 0
    ensures |xs| > 0 ==> m in xs
    ensures forall i :: 0 <= i < |xs| ==> xs[i] <= m
  {
    if |xs| == 0 then 0
    else if |xs| == 1 then xs[0]
    else
      var m := MaxOrZero(xs[..|xs| - 1]);
      if xs[|xs| - 1] > m then xs[|xs| - 1] else m
  }

  lemma {:induction false} SumNonNegative(xs: seq<int>)
    requires forall i :: 0 <= i < |xs| ==> xs[i] >= 0
    ensures Sum(xs) >= 0
  {
    if |xs| > 0 {
      SumNonNegative(xs[..|xs| - 1]);
    }
  }

  lemma {:induction false} SumAtLeastElement(xs: seq<int>, k: nat)
    requires forall i :: 0 <= i < |xs| ==> xs[i] >= 0
    requires k < |xs|
    ensures xs[k] <= Sum(xs)
  {
    var init := xs[..|xs| - 1];
    if k == |xs| - 1 {
      SumNonNegative(init);
    } else {
      SumAtLeastElement(init, k);
    }
  }

  lemma {:induction false} SumAtMost(xs: seq<int>, bound: int)
    requires forall i :: 0 <= i < |xs| ==> xs[i] <= bound
    ensures Sum(xs) <= |xs| * bound
  {
    if |xs| > 0 {
      SumAtMost(xs[..|xs| - 1], bound);
    }
  }

  /** A product of integers, read as a real. */
  lemma CastProduct(n: int, m: int)
    ensures (n * m) as real == n as real * m as real
  {
  }
}
