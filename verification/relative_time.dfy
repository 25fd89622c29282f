/** The "how long ago" captions shared by the employee table and the alert
    list: a minute difference taken from two millisecond clocks, bucketed, then
    rendered as `Never`, `Just now`, `Nm ago`, `Nh ago`, `Nd ago` or a date. */
module RelativeTime {
  import opened Wrappers
  import opened Text

  const MillisPerMinute: int := 60000

  /** `Math.floor((now - at) / 60000)`: the whole minutes elapsed, rounded
      towards minus infinity (a timestamp in the future gives a negative count). */
  function DiffMinutes(now: int, at: int): (m: int)
    ensures m * MillisPerMinute <= now - at < (m + 1) * MillisPerMinute
  {
    (now - at) / MillisPerMinute
  }

  /** What a caption says. `OnDate` carries the locale-formatted date, which
      the model takes as given. */
  datatype Elapsed =
    | Never
    | JustNow
    | Minutes(n: int)
    | Hours(n: int)
    | Days(n: int)
    | OnDate(text: string)

  function UnitSuffix(unit: char): string {
    [unit] + " ago"
  }

  /** The caption text. */
  function Render(e: Elapsed): string {
    match e
    case Never => "Never"
    case JustNow => "Just now"
    case Minutes(n) => IntToString(n) + UnitSuffix('m')
    case Hours(n) => IntToString(n) + UnitSuffix('h')
    case Days(n) => IntToString(n) + UnitSuffix('d')
    case OnDate(t) => t
  }

  predicate IsNumeral(s: string) {
    && |s| >= 1
    && forall i :: 0 <= i < |s| ==> IsDigit(s[i]) || (i == 0 && s[i] == '-')
  }

  /** Reads a caption back. Dates are not read back. */
  function Parse(s: string): Option<Elapsed> {
    if s == "Never" then Some(Never)
    else if s == "Just now" then Some(JustNow)
    else if |s| >= 6 && s[|s| - 4..] == " ago" && IsNumeral(s[..|s| - 5]) then
      var n := ParseInt(s[..|s| - 5]);
      match s[|s| - 5]
      case 'm' => Some(Minutes(n))
      case 'h' => Some(Hours(n))
      case 'd' => Some(Days(n))
      case _ => None
    else None
  }

  lemma IntToStringIsNumeral(n: int)
    ensures IsNumeral(IntToString(n))
  {
    var s := IntToString(n);
    if n < 0 {
      assert s[1..] == NatToString(-n);
      assert forall i :: 1 <= i < |s| ==> s[i] == NatToString(-n)[i - 1];
    }
  }

  /** Every caption other than a date reads back as the value it renders. */
  lemma {:induction false} ParseRender(e: Elapsed)
    requires !e.OnDate?
    ensures Parse(Render(e)) == Some(e)
  {
    match e
    case Never =>
    case JustNow =>
    case Minutes(n) => NumberedRoundTrip(n, 'm');
    case Hours(n) => NumberedRoundTrip(n, 'h');
    case Days(n) => NumberedRoundTrip(n, 'd');
  }

  lemma NumberedRoundTrip(n: int, unit: char)
    requires unit == 'm' || unit == 'h' || unit == 'd'
    ensures var s := IntToString(n) + UnitSuffix(unit);
      && s != "Never" && s != "Just now"
      && |s| >= 6 && s[|s| - 4..] == " ago"
      && s[..|s| - 5] == IntToString(n) && s[|s| - 5] == unit
      && IsNumeral(s[..|s| - 5]) && ParseInt(s[..|s| - 5]) == n
  {
    var s := IntToString(n) + UnitSuffix(unit);
    assert s[|s| - 1] == 'o';
    assert s[..|s| - 5] == IntToString(n);
    IntToStringIsNumeral(n);
    IntRoundTrip(n);
  }

  /** Distinct non-date captions are distinct strings. */
  lemma RenderInjective(e1: Elapsed, e2: Elapsed)
    requires !e1.OnDate? && !e2.OnDate?
    ensures Render(e1) == Render(e2) ==> e1 == e2
  {
    ParseRender(e1);
    ParseRender(e2);
  }
}
