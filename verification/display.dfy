/** The countdown as the page shows it: whole minutes, a colon, and the
    seconds padded to two digits (`25:00`, `4:05`, `0:00`). Its partner is
    `ParseClock`, which reads such a text back; the two are inverse. */
module Display {
  import opened Options

  predicate IsDigit(ch: char) {
    '0' <= ch <= '9'
  }

  predicate AllDigits(s: string) {
    forall i :: 0 <= i < |s| ==> IsDigit(s[i])
  }

  /** A decimal numeral as `String(n)` writes it: digits only, and no
      leading zero unless the numeral is `0` itself. */
  predicate Canonical(s: string) {
    |s| >= 1 && AllDigits(s) && (|s| > 1 ==> s[0] != '0')
  }

  function DigitChar(d: nat): (ch: char)
    requires d < 10
    ensures IsDigit(ch) && ch as int - '0' as int == d
  {
    ('0' as int + d) as char
  }

  function DigitValue(ch: char): (d: nat)
    requires IsDigit(ch)
    ensures d < 10 && DigitChar(d) == ch
  {
    ch as int - '0' as int
  }

  /** The decimal numeral of `n`, as `String(n)` gives it. */
  function Decimal(n: nat): (s: string)
    ensures Canonical(s)
    decreases n
  {
    if n < 10 then [DigitChar(n)]
    else Decimal(n / 10) + [DigitChar(n % 10)]
  }

  /** The number a string of digits denotes. */
  function ValueOf(s: string): nat
    requires AllDigits(s)
    decreases |s|
  {
    if s == [] then 0
    else ValueOf(s[..|s| - 1]) * 10 + DigitValue(s[|s| - 1])
  }

  /** `s.padStart(width, fill)`: `fill` repeated on the left until the
      string is `width` long; a string already that long is unchanged. */
  function PadStart(s: string, width: nat, fill: char): (r: string)
    ensures |r| == if |s| < width then width else |s|
    ensures |s| >= width ==> r == s
    ensures |s| < width ==> r == seq(width - |s|, _ => fill) + s
    decreases width - |s|
  {
    if |s| >= width then s
    else
      var r := PadStart([fill] + s, width, fill);
      assert seq(width - |[fill] + s|, _ => fill) + ([fill] + s) == seq(width - |s|, _ => fill) + s;
      r
  }

  /** The countdown text for `timer` seconds. */
  function Clock(timer: nat): (r: string)
    ensures |r| >= 4 && r[|r| - 3] == ':'
    ensures Canonical(r[..|r| - 3]) && AllDigits(r[|r| - 2..])
  {
    var minutes, seconds := Decimal(timer / 60), PadStart(Decimal(timer % 60), 2, '0');
    PadDigits(timer % 60);
    var r := minutes + ":" + seconds;
    assert r[..|r| - 3] == minutes && r[|r| - 2..] == seconds;
    r
  }

  /** Reads a countdown text back: a canonical minute numeral, a colon and
      two digits naming fewer than 60 seconds. Anything else is `None`. */
  function ParseClock(s: string): Option<nat> {
    if |s| >= 4 && s[|s| - 3] == ':' && Canonical(s[..|s| - 3]) && AllDigits(s[|s| - 2..])
       && ValueOf(s[|s| - 2..]) < 60
    then Some(ValueOf(s[..|s| - 3]) * 60 + ValueOf(s[|s| - 2..]))
    else None
  }

  /** The value of a numeral is the number it was written from. */
  lemma {:induction false} DecimalValue(n: nat)
    ensures ValueOf(Decimal(n)) == n
    decreases n
  {
    if n >= 10 {
      var s := Decimal(n);
      DecimalValue(n / 10);
      assert s[..|s| - 1] == Decimal(n / 10);
    }
  }

  /** A digit string that starts with a non-zero digit denotes at least 1. */
  lemma {:induction false} LeadingDigitPositive(s: string)
    requires |s| >= 1 && AllDigits(s) && s[0] != '0'
    ensures ValueOf(s) >= 1
    decreases |s|
  {
    if |s| > 1 {
      LeadingDigitPositive(s[..|s| - 1]);
    }
  }

  /** A canonical numeral is the numeral of its own value. */
  lemma {:induction false} CanonicalDecimal(s: string)
    requires Canonical(s)
    ensures Decimal(ValueOf(s)) == s
    decreases |s|
  {
    if |s| > 1 {
      var front := s[..|s| - 1];
      var d := DigitValue(s[|s| - 1]);
      LeadingDigitPositive(front);
      CanonicalDecimal(front);
      var n := ValueOf(s);
      assert n == ValueOf(front) * 10 + d;
      assert n / 10 == ValueOf(front) && n % 10 == d;
      assert s == front + [s[|s| - 1]];
    }
  }

  /** Seconds below 100 pad to their two decimal digits. */
  lemma PadDigits(x: nat)
    requires x < 100
    ensures PadStart(Decimal(x), 2, '0') == [DigitChar(x / 10), DigitChar(x % 10)]
  {
  }

  /** Seconds below 100 pad to exactly two digits that denote them. */
  lemma TwoDigits(x: nat)
    requires x < 100
    ensures var p := PadStart(Decimal(x), 2, '0');
            |p| == 2 && AllDigits(p) && ValueOf(p) == x
  {
    PadDigits(x);
    var p := [DigitChar(x / 10), DigitChar(x % 10)];
    ValueOfTwo(p);
  }

  /** The value of a two-digit string, digit by digit. */
  lemma ValueOfTwo(p: string)
    requires |p| == 2 && AllDigits(p)
    ensures ValueOf(p) == DigitValue(p[0]) * 10 + DigitValue(p[1])
  {
    var front := p[..1];
    assert front[..0] == [];
    assert ValueOf(front) == DigitValue(p[0]);
  }

  /** Two two-digit strings with the same value are the same string. */
  lemma TwoDigitsUnique(p: string, q: string)
    requires |p| == 2 && |q| == 2 && AllDigits(p) && AllDigits(q)
    requires ValueOf(p) == ValueOf(q)
    ensures p == q
  {
  }

  /** Reading the shown countdown back gives the seconds it was made from. */
  lemma ClockRoundTrip(timer: nat)
    ensures ParseClock(Clock(timer)) == Some(timer)
  {
    var r := Clock(timer);
    var minutes := Decimal(timer / 60);
    var seconds := PadStart(Decimal(timer % 60), 2, '0');
    TwoDigits(timer % 60);
    DecimalValue(timer / 60);
    assert r == minutes + ":" + seconds;
    assert r[..|r| - 3] == minutes;
    assert r[|r| - 3] == ':';
    assert r[|r| - 2..] == seconds;
    assert ValueOf(minutes) * 60 + ValueOf(seconds) == timer;
  }

  /** Every text `ParseClock` accepts is exactly how its value is shown, so
      distinct countdowns never look alike. */
  lemma ParseClockExact(s: string)
    requires ParseClock(s).Some?
    ensures Clock(ParseClock(s).value) == s
  {
    var front := s[..|s| - 3];
    var back := s[|s| - 2..];
    var t := ParseClock(s).value;
    var m := ValueOf(front);
    var x := ValueOf(back);
    assert t == m * 60 + x && x < 60;
    assert t / 60 == m && t % 60 == x;
    CanonicalDecimal(front);
    TwoDigits(x);
    TwoDigitsUnique(PadStart(Decimal(x), 2, '0'), back);
    assert s == front + ":" + back;
  }

  /** The Focus length the page starts with shows as 25:00. */
  lemma DefaultFocusShows()
    ensures Clock(1500) == "25:00"
  {
  }
}
