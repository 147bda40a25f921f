/**
 * "HH:mm" clock texts as the scheduling code handles them: parsing with
 * `split(':').map(Number)`, rendering with `toString().padStart(2, '0')`,
 * comparing with JavaScript's string `<`, and the half-open run of slot
 * minutes that `generateTimeSlots` walks through.
 */
module Clock {
  import opened Common

  predicate IsDigit(c: char) {
    '0' <= c <= '9'
  }

  function DigitValue(c: char): (d: nat)
    requires IsDigit(c)
    ensures d < 10
  {
    c as int - '0' as int
  }

  function DigitChar(d: nat): (c: char)
    requires d < 10
    ensures IsDigit(c) && DigitValue(c) == d
  {
    ('0' as int + d) as char
  }

  /** Decimal rendering of a non-negative number (`Number.prototype.toString`). */
  function NatToString(n: nat): (s: string)
    ensures 1 <= |s|
    ensures forall i :: 0 <= i < |s| ==> IsDigit(s[i])
    ensures n < 10 <==> |s| == 1
  {
    if n < 10 then [DigitChar(n)] else NatToString(n / 10) + [DigitChar(n % 10)]
  }

  /** `n.toString().padStart(2, '0')`: two digits below 100, the plain rendering above. */
  function Pad2(n: nat): (s: string)
    ensures 2 <= |s|
    ensures forall i :: 0 <= i < |s| ==> IsDigit(s[i])
  {
    if n < 10 then ['0', DigitChar(n)] else NatToString(n)
  }

  lemma Pad2Digits(n: nat)
    requires n < 100
    ensures Pad2(n) == [DigitChar(n / 10), DigitChar(n % 10)]
  {
    if n >= 10 {
      assert NatToString(n / 10) == [DigitChar(n / 10)];
    }
  }

  /** The "HH:mm" text of a minute of the day, as `generateTimeSlots` renders it. */
  function FormatClock(minutes: nat): (r: string)
    ensures |r| >= 5 && r[|r| - 3] == ':'
    ensures forall i :: 0 <= i < |r| && i != |r| - 3 ==> IsDigit(r[i])
    ensures minutes < 100 * 60 <==> |r| == 5
  {
    Pad2(minutes / 60) + ":" + Pad2(minutes % 60)
  }

  /** Texts whose two halves `Number` reads as digit pairs. */
  predicate IsClockText(s: string) {
    |s| == 5 && IsDigit(s[0]) && IsDigit(s[1]) && s[2] == ':' && IsDigit(s[3]) && IsDigit(s[4])
  }

  /** A clock text in canonical form: its minutes are below 60. */
  predicate IsCanonicalClock(s: string) {
    IsClockText(s) && s[3] <= '5'
  }

  /**
   * `h * 60 + m` after `s.split(':').map(Number)`; `None` stands for the NaN
   * that any other text produces.
   */
  function ParseClock(s: string): (r: Option<nat>)
    ensures r.Some? <==> IsClockText(s)
    ensures r.Some? ==> r.value <= 99 * 60 + 99
  {
    if IsClockText(s) then
      Some((DigitValue(s[0]) * 10 + DigitValue(s[1])) * 60 + DigitValue(s[3]) * 10 + DigitValue(s[4]))
    else
      None
  }

  lemma FormatShape(m: nat)
    requires m < 100 * 60
    ensures FormatClock(m) == [DigitChar(m / 60 / 10), DigitChar(m / 60 % 10), ':', DigitChar(m % 60 / 10), DigitChar(m % 60 % 10)]
  {
    Pad2Digits(m / 60);
    Pad2Digits(m % 60);
  }

  /** Rendering then parsing gives the minute back, and the rendering is canonical. */
  lemma ParseFormat(m: nat)
    requires m < 100 * 60
    ensures IsCanonicalClock(FormatClock(m))
    ensures ParseClock(FormatClock(m)) == Some(m)
  {
    FormatShape(m);
    var h, mm := m / 60, m % 60;
    assert h * 60 + mm == m;
    assert (h / 10) * 10 + h % 10 == h;
    assert (mm / 10) * 10 + mm % 10 == mm;
  }

  /** Parsing then rendering a canonical text gives the text back. */
  lemma FormatParse(s: string)
    requires IsCanonicalClock(s)
    ensures FormatClock(ParseClock(s).value) == s
  {
    var h := DigitValue(s[0]) * 10 + DigitValue(s[1]);
    var mm := DigitValue(s[3]) * 10 + DigitValue(s[4]);
    var m := ParseClock(s).value;
    assert mm < 60;
    assert m / 60 == h && m % 60 == mm;
    FormatShape(m);
    assert h / 10 == DigitValue(s[0]) && h % 10 == DigitValue(s[1]);
    assert mm / 10 == DigitValue(s[3]) && mm % 10 == DigitValue(s[4]);
    assert DigitChar(DigitValue(s[0])) == s[0];
    assert DigitChar(DigitValue(s[1])) == s[1];
    assert DigitChar(DigitValue(s[3])) == s[3];
    assert DigitChar(DigitValue(s[4])) == s[4];
  }

  // ---------------------------------------------------------------------------
  // JavaScript string order

  /**
   * JavaScript's `a < b` on strings, compared character by character with a
   * proper prefix smaller. JavaScript compares UTF-16 code units and Dafny's
   * `char` compares code points; the two orders agree on the digit-and-colon
   * texts this is used on.
   */
  predicate LexLess(a: string, b: string): (r: bool)
    ensures r ==> a != b
    ensures |a| < |b| && a == b[..|a|] ==> r
    decreases |a|
  {
    if |a| == 0 then |b| > 0
    else if |b| == 0 then false
    else if a[0] != b[0] then a[0] < b[0]
    else LexLess(a[1..], b[1..])
  }

  lemma {:induction false} LexLessIrreflexive(a: string)
    ensures !LexLess(a, a)
    decreases |a|
  {
    if |a| > 0 {
      LexLessIrreflexive(a[1..]);
    }
  }

  lemma {:induction false} LexLessTransitive(a: string, b: string, c: string)
    requires LexLess(a, b) && LexLess(b, c)
    ensures LexLess(a, c)
    decreases |a|
  {
    if |a| > 0 && a[0] == b[0] && b[0] == c[0] {
      LexLessTransitive(a[1..], b[1..], c[1..]);
    }
  }

  /** Any two different strings are ordered one way or the other, never both. */
  lemma {:induction false} LexLessTotal(a: string, b: string)
    ensures a == b || LexLess(a, b) || LexLess(b, a)
    ensures !(LexLess(a, b) && LexLess(b, a))
    decreases |a|
  {
    if |a| > 0 && |b| > 0 && a[0] == b[0] {
      LexLessTotal(a[1..], b[1..]);
      if a[1..] == b[1..] {
        assert a == [a[0]] + a[1..] && b == [b[0]] + b[1..];
      }
    }
  }

  /** On canonical clock texts the string order is the order of the minutes. */
  lemma CanonicalOrder(a: string, b: string)
    requires IsCanonicalClock(a) && IsCanonicalClock(b)
    ensures LexLess(a, b) <==> ParseClock(a).value < ParseClock(b).value
  {
    var a0, a1, a3, a4 := DigitValue(a[0]), DigitValue(a[1]), DigitValue(a[3]), DigitValue(a[4]);
    var b0, b1, b3, b4 := DigitValue(b[0]), DigitValue(b[1]), DigitValue(b[3]), DigitValue(b[4]);
    var a', b' := a[1..], b[1..];
    var a'', b'' := a'[1..], b'[1..];
    var a3', b3' := a''[1..], b''[1..];
    var a4', b4' := a3'[1..], b3'[1..];
    assert a4' == [a[4]] && b4' == [b[4]];
    assert a4'[1..] == [] && b4'[1..] == [];
    assert LexLess(a4', b4') <==> a4 < b4;
    assert LexLess(a3', b3') <==> a3 < b3 || (a3 == b3 && a4 < b4);
    assert LexLess(a'', b'') <==> LexLess(a3', b3');
    assert LexLess(a', b') <==> a1 < b1 || (a1 == b1 && LexLess(a'', b''));
    assert LexLess(a, b) <==> a0 < b0 || (a0 == b0 && LexLess(a', b'));
    var ma, mb := ParseClock(a).value, ParseClock(b).value;
    assert ma == (a0 * 10 + a1) * 60 + a3 * 10 + a4;
    assert mb == (b0 * 10 + b1) * 60 + b3 * 10 + b4;
  }

  // ---------------------------------------------------------------------------
  // Slots

  /** The minutes `generateTimeSlots` visits: `from`, `from + interval`, ... while below `close`. */
  function SlotMinutes(from: nat, close: int, interval: nat): seq<nat>
    requires interval > 0
    decreases close - from
  {
    if from >= close then [] else [from] + SlotMinutes(from + interval, close, interval)
  }

  /**
   * The slots lie in [from, close), start at `from`, step by `interval` and
   * so strictly increase, and the run stops at the first step reaching `close`.
   */
  lemma {:induction false} SlotMinutesShape(from: nat, close: int, interval: nat)
    requires interval > 0
    ensures var ms := SlotMinutes(from, close, interval);
      && (|ms| == 0 <==> from >= close)
      && (|ms| > 0 ==> ms[0] == from && ms[|ms| - 1] + interval >= close)
      && (forall k :: 0 <= k < |ms| ==> from <= ms[k] < close)
      && (forall k :: 0 <= k < |ms| - 1 ==> ms[k + 1] == ms[k] + interval)
      && (forall i, j :: 0 <= i < j < |ms| ==> ms[i] < ms[j])
    decreases close - from
  {
    if from < close {
      SlotMinutesShape(from + interval, close, interval);
    }
  }

  /** Slot `k` is `from + k * interval`. */
  lemma {:induction false} SlotAt(from: nat, close: int, interval: nat, k: nat)
    requires interval > 0 && k < |SlotMinutes(from, close, interval)|
    ensures SlotMinutes(from, close, interval)[k] == from + k * interval
    decreases k
  {
    if k > 0 {
      SlotAt(from + interval, close, interval, k - 1);
      assert (k - 1) * interval + interval == k * interval;
    }
  }

  /** The number of slots is the ceiling of the span over the interval. */
  lemma {:induction false} SlotCount(from: nat, close: int, interval: nat)
    requires interval > 0
    ensures |SlotMinutes(from, close, interval)| ==
      if from >= close then 0 else (close - from + interval - 1) / interval
    decreases close - from
  {
    if from < close {
      SlotCount(from + interval, close, interval);
      var x := close - from + interval - 1;
      DivShift(x - interval, interval);
      if from + interval >= close {
        DivUnique(x, interval, 1, x - interval);
      }
    }
  }

  lemma DivUnique(x: int, d: int, q: int, r: int)
    requires d > 0 && 0 <= r < d && x == d * q + r
    ensures x / d == q && x % d == r
  {
    var q', r' := x / d, x % d;
    assert d * (q - q') == r' - r;
    if q > q' {
      MulAtLeast(d, q - q');
    } else if q < q' {
      MulAtLeast(d, q' - q);
    }
  }

  lemma MulAtLeast(d: int, k: int)
    requires d > 0 && k >= 1
    ensures d * k >= d
  {
  }

  lemma DivShift(y: int, d: int)
    requires d > 0
    ensures (y + d) / d == y / d + 1
  {
    var q, r := y / d, y % d;
    assert y + d == d * (q + 1) + r;
    DivUnique(y + d, d, q + 1, r);
  }
}
