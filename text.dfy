/** The Python string operations the handlers use: `str.strip()`, `str.upper()`,
    slicing with out-of-range bounds, and `str()` / `len()` rendered in decimal.
 */
module Text {

  // ---------------------------------------------------------------------------
  // Whitespace and str.strip()
  // ---------------------------------------------------------------------------

  /** The characters Python's `str.isspace()` accepts, which `str.strip()` removes. */
  predicate IsSpace(c: char) {
    var n := c as int;
    (0x09 <= n <= 0x0D) || (0x1C <= n <= 0x20) || n == 0x85 || n == 0xA0
    || n == 0x1680 || (0x2000 <= n <= 0x200A) || n == 0x2028 || n == 0x2029
    || n == 0x202F || n == 0x205F || n == 0x3000
  }

  predicate AllSpace(s: string) {
    forall i :: 0 <= i < |s| ==> IsSpace(s[i])
  }

  lemma AllSpaceConcat(x: string, y: string)
    requires AllSpace(x) && AllSpace(y)
    ensures AllSpace(x + y)
  {
    assert forall i :: |x| <= i < |x + y| ==> (x + y)[i] == y[i - |x|];
  }

  /** Neither end of `s` is whitespace: what `strip()` leaves behind. */
  predicate Trimmed(s: string) {
    s == [] || (!IsSpace(s[0]) && !IsSpace(s[|s| - 1]))
  }

  /** The number of whitespace characters at the front of `s`. */
  function LeadingSpace(s: string): (n: nat)
    ensures n <= |s|
    ensures forall i :: 0 <= i < n ==> IsSpace(s[i])
    ensures n < |s| ==> !IsSpace(s[n])
  {
    if |s| > 0 && IsSpace(s[0]) then 1 + LeadingSpace(s[1..]) else 0
  }

  /** The index at which the whitespace at the back of `s` begins. */
  function TrailingStart(s: string): (n: nat)
    ensures n <= |s|
    ensures forall i :: n <= i < |s| ==> IsSpace(s[i])
    ensures 0 < n ==> !IsSpace(s[n - 1])
  {
    if |s| > 0 && IsSpace(s[|s| - 1]) then TrailingStart(s[..|s| - 1]) else |s|
  }

  /** `str.lstrip()`. */
  function TrimLeft(s: string): string {
    s[LeadingSpace(s)..]
  }

  /** `str.rstrip()`. */
  function TrimRight(s: string): string {
    s[..TrailingStart(s)]
  }

  /** `str.strip()`: `lstrip()` followed by `rstrip()`. */
  function Strip(s: string): string {
    TrimRight(TrimLeft(s))
  }

  /** Whitespace in front of a part that starts with a non-space is exactly
      what `lstrip()` removes. */
  lemma LeadingSpaceOf(w: string, u: string)
    requires AllSpace(w)
    requires u == [] || !IsSpace(u[0])
    ensures LeadingSpace(w + u) == |w|
  {
    assert forall i :: 0 <= i < |w| ==> (w + u)[i] == w[i];
    assert u != [] ==> (w + u)[|w|] == u[0];
  }

  /** Whitespace behind a part that ends with a non-space is exactly what
      `rstrip()` removes. */
  lemma TrailingStartOf(u: string, w: string)
    requires AllSpace(w)
    requires u == [] || !IsSpace(u[|u| - 1])
    ensures TrailingStart(u + w) == |u|
  {
    assert forall i :: 0 <= i < |w| ==> (u + w)[|u| + i] == w[i];
    assert u != [] ==> (u + w)[|u| - 1] == u[|u| - 1];
  }

  /** What `strip()` returns has no whitespace at either end. */
  lemma StripTrimmed(s: string)
    ensures Trimmed(Strip(s))
  {
    var l := TrimLeft(s);
    var r := TrimRight(l);
    if r != [] {
      assert r[0] == l[0];
      assert r[|r| - 1] == l[TrailingStart(l) - 1];
    }
  }

  /** `strip()` splits its input into leading whitespace `a`, the result, and
      trailing whitespace `b`. */
  lemma StripSplits(s: string) returns (a: string, b: string)
    ensures AllSpace(a) && AllSpace(b)
    ensures s == a + Strip(s) + b
  {
    var lo := LeadingSpace(s);
    var l := s[lo..];
    var n := TrailingStart(l);
    var hi := lo + n;
    assert Strip(s) == s[lo..hi] by {
      assert TrimLeft(s) == l;
      assert l[..n] == s[lo..hi];
    }
    a, b := s[..lo], s[hi..];
    assert AllSpace(a) by {
      assert forall i :: 0 <= i < lo ==> a[i] == s[i];
    }
    assert AllSpace(b) by {
      assert forall i :: 0 <= i < |b| ==> b[i] == l[n + i];
    }
    assert s == a + s[lo..hi] + b;
  }

  /** Any such split determines the result: whitespace around a trimmed core
      is exactly what `strip()` removes. */
  lemma StripOfPadded(a: string, t: string, b: string)
    requires AllSpace(a) && AllSpace(b) && Trimmed(t)
    ensures Strip(a + t + b) == t
  {
    if t == [] {
      assert a + t + b == (a + b) + [];
      LeadingSpaceOf(a + b, []);
    } else {
      assert a + t + b == a + (t + b);
      LeadingSpaceOf(a, t + b);
      assert TrimLeft(a + t + b) == t + b;
      TrailingStartOf(t, b);
    }
  }

  /** Extra leading and trailing whitespace does not change what `strip()` returns. */
  lemma StripIgnoresPadding(w1: string, s: string, w2: string)
    requires AllSpace(w1) && AllSpace(w2)
    ensures Strip(w1 + s + w2) == Strip(s)
  {
    StripTrimmed(s);
    var a, b := StripSplits(s);
    var t := Strip(s);
    AllSpaceConcat(w1, a);
    AllSpaceConcat(b, w2);
    calc {
      w1 + s + w2;
      w1 + (a + t + b) + w2;
      (w1 + a) + t + (b + w2);
    }
    StripOfPadded(w1 + a, t, b + w2);
  }

  /** `strip()` is idempotent. */
  lemma StripIdempotent(s: string)
    ensures Strip(Strip(s)) == Strip(s)
  {
    StripTrimmed(s);
    assert Strip(s) == [] + Strip(s) + [];
    StripOfPadded([], Strip(s), []);
  }

  // ---------------------------------------------------------------------------
  // str.upper(), restricted to ASCII
  // ---------------------------------------------------------------------------

  function UpperChar(c: char): char {
    if 'a' <= c <= 'z' then (c as int - 32) as char else c
  }

  /** `str.upper()` on ASCII letters; every other character is kept. */
  function Upper(s: string): (r: string)
    ensures |r| == |s|
    ensures forall i :: 0 <= i < |s| ==> r[i] == UpperChar(s[i])
  {
    if s == [] then [] else [UpperChar(s[0])] + Upper(s[1..])
  }

  /** Upper-casing twice is upper-casing once; no lower-case ASCII letter is left. */
  lemma UpperIdempotent(s: string)
    ensures Upper(Upper(s)) == Upper(s)
    ensures forall i :: 0 <= i < |s| ==> !('a' <= Upper(s)[i] <= 'z')
  {
    var u := Upper(s);
    forall i | 0 <= i < |s|
      ensures UpperChar(u[i]) == u[i] && !('a' <= u[i] <= 'z')
    {
      UpperCharIdempotent(s[i]);
    }
    assert Upper(u) == u;
  }

  lemma UpperCharIdempotent(c: char)
    ensures UpperChar(UpperChar(c)) == UpperChar(c)
    ensures !('a' <= UpperChar(c) <= 'z')
  {
  }

  // ---------------------------------------------------------------------------
  // Slicing, where Python clamps out-of-range bounds
  // ---------------------------------------------------------------------------

  function Min(x: int, y: int): int { if x <= y then x else y }

  function Max(x: int, y: int): int { if x >= y then x else y }

  /** `s[lo:hi]` for constant bounds 0 <= lo <= hi: bounds past the end are clamped. */
  function Slice(s: string, lo: nat, hi: nat): (r: string)
    requires lo <= hi
    ensures |r| == Min(hi, |s|) - Min(lo, |s|)
    ensures forall k :: 0 <= k < |r| ==> r[k] == s[lo + k]
  {
    s[Min(lo, |s|)..Min(hi, |s|)]
  }

  /** `s[lo:]`: empty when `lo` is past the end. */
  function SliceFrom(s: string, lo: nat): (r: string)
    ensures |r| == |s| - Min(lo, |s|)
    ensures forall k :: 0 <= k < |r| ==> r[k] == s[lo + k]
  {
    s[Min(lo, |s|)..]
  }

  /** Three slices of five and the rest put together give back the text. */
  lemma SlicesJoin(t: string)
    ensures Slice(t, 0, 5) + Slice(t, 5, 10) + Slice(t, 10, 15) + SliceFrom(t, 15) == t
  {
    var m5, m10, m15 := Min(5, |t|), Min(10, |t|), Min(15, |t|);
    assert t == t[..m5] + t[m5..m10] + t[m10..m15] + t[m15..];
  }

  // ---------------------------------------------------------------------------
  // Decimal rendering, as `str(n)` and f"{n}" produce it
  // ---------------------------------------------------------------------------

  predicate IsDigit(c: char) { '0' <= c <= '9' }

  predicate AllDigits(s: string) {
    forall i :: 0 <= i < |s| ==> IsDigit(s[i])
  }

  function DigitChar(d: nat): (c: char)
    requires d < 10
    ensures IsDigit(c)
  {
    ('0' as int + d) as char
  }

  function DigitValue(c: char): (d: nat)
    requires IsDigit(c)
    ensures d < 10
  {
    c as int - '0' as int
  }

  /** The decimal digits of `n`, most significant first, without leading zeros. */
  function NatToDecimal(n: nat): string {
    if n < 10 then [DigitChar(n)] else NatToDecimal(n / 10) + [DigitChar(n % 10)]
  }

  /** `NatToDecimal` produces a non-empty string of digits with no leading zero. */
  lemma {:induction false} DecimalDigits(n: nat)
    ensures |NatToDecimal(n)| >= 1
    ensures AllDigits(NatToDecimal(n))
    ensures |NatToDecimal(n)| > 1 ==> NatToDecimal(n)[0] != '0'
  {
    if n >= 10 {
      DecimalDigits(n / 10);
    }
  }

  /** `str(n)` for any integer: a minus sign in front of a negative number. */
  function IntToDecimal(n: int): (r: string)
    ensures |r| >= 1
    ensures n >= 0 <==> IsDigit(r[0])
  {
    DecimalDigits(if n >= 0 then n else -n);
    if n >= 0 then NatToDecimal(n) else "-" + NatToDecimal(-n)
  }

  /** The value of a string of decimal digits; the reading that `NatToDecimal` inverts. */
  function DecimalValue(s: string): nat
    requires AllDigits(s)
  {
    if s == [] then 0 else DecimalValue(s[..|s| - 1]) * 10 + DigitValue(s[|s| - 1])
  }

  /** Reading back the decimal rendering of `n` gives `n`. */
  lemma {:induction false} DecimalRoundTrip(n: nat)
    ensures AllDigits(NatToDecimal(n)) && DecimalValue(NatToDecimal(n)) == n
  {
    DecimalDigits(n);
    if n >= 10 {
      DecimalDigits(n / 10);
      var r := NatToDecimal(n);
      assert r[..|r| - 1] == NatToDecimal(n / 10);
      DecimalRoundTrip(n / 10);
    }
  }

  /** Different naturals render as different decimal strings. */
  lemma DecimalInjective(m: nat, n: nat)
    requires NatToDecimal(m) == NatToDecimal(n)
    ensures m == n
  {
    DecimalRoundTrip(m);
    DecimalRoundTrip(n);
  }
}
