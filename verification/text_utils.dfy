/** The text helpers of the frontend: `truncate` and the relative-time wording of
    `formatRelativeTime`, the latter as a function of the whole seconds elapsed
    (`Math.floor((now - then) / 1000)`). */
module TextUtils {
  import opened Decimal

  // ---------------------------------------------------------------------------
  // truncate

  /** Where `text.slice(0, end)` stops: a negative end counts back from the end of
      the text, and both kinds are clamped to the text. */
  function SliceEnd(len: nat, end: int): (e: nat)
    ensures e <= len
    ensures 0 <= end <= len ==> e == end
    ensures end > len ==> e == len
    ensures end < 0 ==> e == if len + end < 0 then 0 else len + end
  {
    if end < 0 then (if len + end < 0 then 0 else len + end)
    else if end > len then len
    else end
  }

  const Ellipsis := "..."

  /** `truncate(text, length)` */
  function Truncate(text: string, length: int): (r: string)
    ensures |text| <= length ==> r == text
    ensures |text| > length ==>
      |r| >= 3 && r[|r| - 3..] == Ellipsis && |r| - 3 <= |text| && r[..|r| - 3] == text[..|r| - 3]
    ensures |text| > length && length >= 0 ==> |r| == length + 3 && r[..length] == text[..length]
    ensures length < 0 ==> |r| == 3 + (if |text| + length < 0 then 0 else |text| + length)
  {
    if |text| <= length then text
    else
      var e := SliceEnd(|text|, length);
      var r := text[..e] + Ellipsis;
      assert |r| - 3 == e && r[..e] == text[..e] && r[e..] == Ellipsis;
      r
  }

  /** Truncating a truncated text again to the same non-negative length changes
      nothing: the ellipsis is only ever added once. */
  lemma TruncateIdempotent(text: string, length: int)
    requires length >= 0
    ensures Truncate(Truncate(text, length), length) == Truncate(text, length)
  {
    var r := Truncate(text, length);
    if |text| > length {
      assert r[..length] == text[..length];
      assert Truncate(r, length) == r[..length] + Ellipsis;
      assert r == text[..length] + Ellipsis;
    }
  }

  // ---------------------------------------------------------------------------
  // formatRelativeTime

  /** The length of the run of decimal digits a text starts with. */
  function DigitRun(s: string): (k: nat)
    ensures k <= |s| && AllDigits(s[..k])
    ensures k < |s| ==> !IsDigit(s[k])
  {
    if s == [] || !IsDigit(s[0]) then 0
    else
      var k := 1 + DigitRun(s[1..]);
      assert s[..k] == [s[0]] + s[1..][..k - 1];
      k
  }

  lemma {:induction false} DigitRunOfNumber(a: string, b: string)
    requires AllDigits(a) && b != [] && !IsDigit(b[0])
    ensures DigitRun(a + b) == |a|
  {
    if a != [] {
      assert (a + b)[1..] == a[1..] + b;
      DigitRunOfNumber(a[1..], b);
    }
  }

  datatype TimeUnit = Minute | Hour | Day

  function UnitName(u: TimeUnit): string {
    match u
    case Minute => "minute"
    case Hour => "hour"
    case Day => "day"
  }

  function UnitSeconds(u: TimeUnit): nat {
    match u
    case Minute => 60
    case Hour => 3600
    case Day => 86400
  }

  /** `${n} ${unit}${n > 1 ? "s" : ""} ago` */
  function AgoText(n: nat, u: TimeUnit): string {
    NatToString(n) + " " + UnitName(u) + (if n > 1 then "s" else "") + " ago"
  }

  const JustNow := "Just now"

  /** The wording, or the absolute date `formatDate` renders for a week or more. */
  datatype RelativeTime = Text(s: string) | AbsoluteDate

  function FormatRelativeTime(d: int): (r: RelativeTime)
    ensures d < 60 <==> r == Text(JustNow)
    ensures d >= 604800 <==> r.AbsoluteDate?
  {
    if d < 60 then Text(JustNow)
    else if d < 3600 then Text(AgoText(d / 60, Minute))
    else if d < 86400 then Text(AgoText(d / 3600, Hour))
    else if d < 604800 then Text(AgoText(d / 86400, Day))
    else AbsoluteDate
  }

  /** The unit the wording uses for a difference of `d` seconds. */
  function UnitFor(d: int): TimeUnit {
    if d < 3600 then Minute else if d < 86400 then Hour else Day
  }

  /** Between a minute and a week, the wording reads back: it starts with a count `n`
      that is the number of whole units elapsed (so `n` units fit into `d` and `n + 1`
      do not), `n` lies in 1..59 minutes, 1..23 hours or 1..6 days, and what follows is
      the unit, plural exactly when `n > 1`, then "ago". */
  lemma RelativeTimeReadsBack(d: int)
    requires 60 <= d < 604800
    ensures FormatRelativeTime(d).Text?
    ensures var s := FormatRelativeTime(d).s;
      var u := UnitFor(d);
      var k := DigitRun(s);
      var n := Value(s[..k]);
      && n * UnitSeconds(u) <= d < (n + 1) * UnitSeconds(u)
      && 1 <= n && n * UnitSeconds(u) < UnitSeconds(u) * (if u == Minute then 60 else if u == Hour then 24 else 7)
      && s[k..] == " " + UnitName(u) + (if n > 1 then "s" else "") + " ago"
  {
    var u := UnitFor(d);
    var n: nat := d / UnitSeconds(u);
    var s := FormatRelativeTime(d).s;
    var tail := " " + UnitName(u) + (if n > 1 then "s" else "") + " ago";
    assert s == NatToString(n) + tail;
    DigitRunOfNumber(NatToString(n), tail);
    assert s[..DigitRun(s)] == NatToString(n);
    ValueOfNatToString(n);
  }
}
