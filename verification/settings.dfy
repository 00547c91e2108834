/** The session configuration and the validators that clamp what the user
    types into the three number fields. */
module Settings {
  import opened Effects

  const SecondsPerMinute := 60

  /** Bounds of the two minute fields. */
  const MinMinutes := 0
  const MaxMinutes := 60

  /** Bounds of the interval-count field. */
  const MinIntervals := 1
  const MaxIntervals := 10

  /** What a number field hands to its change handler: nothing, text that
      is not a number, or text from which `parseInt` reads the integer `n`. */
  datatype RawInput = Empty | NonNumeric | Num(n: int)

  /** Focus and rest lengths in minutes, the number of Focus/Rest intervals,
      the auto-pause switch and the selected playlist. */
  datatype Config = Config(
    focus: nat,
    rest: nat,
    intervals: nat,
    autoPause: bool,
    selection: Selection)

  /** The configuration the page starts with. */
  const Default := Config(25, 5, 1, false, NoSelection)

  /** The ranges the validators keep every stored setting in. */
  predicate Valid(c: Config) {
    && c.focus <= MaxMinutes
    && c.rest <= MaxMinutes
    && MinIntervals <= c.intervals <= MaxIntervals
  }

  function Dist(a: int, b: int): nat {
    if a <= b then b - a else a - b
  }

  /** `Math.max(lo, Math.min(hi, n))`: the point of [lo, hi] nearest `n`. */
  function Clamp(lo: int, hi: int, n: int): (r: int)
    requires lo <= hi
    ensures lo <= r <= hi
    ensures forall m :: lo <= m <= hi ==> Dist(r, n) <= Dist(m, n)
    ensures lo <= n <= hi ==> r == n
  {
    var capped := if hi < n then hi else n;
    if lo < capped then capped else lo
  }

  /** Validator of a minute field: no number means 0 minutes, a number is
      clamped into [0, 60]. */
  function ClampMinutes(raw: RawInput): (r: nat)
    ensures MinMinutes <= r <= MaxMinutes
    ensures !raw.Num? ==> r == 0
    ensures raw.Num? ==> forall m :: MinMinutes <= m <= MaxMinutes ==> Dist(r, raw.n) <= Dist(m, raw.n)
    ensures raw.Num? && MinMinutes <= raw.n <= MaxMinutes ==> r == raw.n
  {
    match raw
    case Empty => 0
    case NonNumeric => 0
    case Num(n) => Clamp(MinMinutes, MaxMinutes, n)
  }

  /** Validator of the interval-count field: no number means 1 interval, a
      number is clamped into [1, 10]. */
  function ClampIntervals(raw: RawInput): (r: nat)
    ensures MinIntervals <= r <= MaxIntervals
    ensures !raw.Num? ==> r == 1
    ensures raw.Num? ==> forall m :: MinIntervals <= m <= MaxIntervals ==> Dist(r, raw.n) <= Dist(m, raw.n)
    ensures raw.Num? && MinIntervals <= raw.n <= MaxIntervals ==> r == raw.n
  {
    match raw
    case Empty => 1
    case NonNumeric => 1
    case Num(n) => Clamp(MinIntervals, MaxIntervals, n)
  }

  /** Both validators are idempotent: feeding a stored value back through
      its field leaves it as it is. */
  lemma ClampIdempotent(raw: RawInput)
    ensures ClampMinutes(Num(ClampMinutes(raw))) == ClampMinutes(raw)
    ensures ClampIntervals(Num(ClampIntervals(raw))) == ClampIntervals(raw)
  {
  }

  /** Editing the interval-count field stores the clamped count and touches
      no other setting. */
  function UpdateIntervals(c: Config, raw: RawInput): (r: Config)
    ensures r.intervals == ClampIntervals(raw)
    ensures MinIntervals <= r.intervals <= MaxIntervals
    ensures !raw.Num? ==> r.intervals == 1
    ensures r.focus == c.focus && r.rest == c.rest
    ensures r.autoPause == c.autoPause && r.selection == c.selection
    ensures Valid(c) ==> Valid(r)
  {
    c.(intervals := ClampIntervals(raw))
  }
}
