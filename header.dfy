/** The last-sync timestamp text and the status badge colour of the header (src/components/Header.tsx). */
module Header {
  import opened Types
  import opened JsNumbers

  /** What the `Date` getters return: zero-based month, day of month, 24-hour clock. */
  datatype DateParts = DateParts(year: int, month: nat, day: nat, hours: nat, minutes: nat, seconds: nat)

  /** The ranges the `Date` getters keep to. */
  predicate ValidParts(d: DateParts)
  {
    d.month <= 11 && 1 <= d.day <= 31 && d.hours <= 23 && d.minutes <= 59 && d.seconds <= 59
  }

  /** `String(n).padStart(2, "0")`. */
  function Pad2(n: nat): (s: string)
    ensures |s| >= 2 && AllDigits(s)
    ensures n >= 10 ==> s == NatToString(n)
    ensures n < 10 ==> s == "0" + NatToString(n)
    ensures n < 100 ==> |s| == 2
    ensures ParseNat(s) == Some(n)
  {
    var digits := NatToString(n);
    NatToStringRoundTrip(n);
    if |digits| >= 2 then digits
    else
      var s := "0" + digits;
      assert s[..1] == "0" && s[..1][..0] == [] && digits[..0] == [];
      assert DigitsValue(s) == DigitValue(digits[0]) == DigitsValue(digits);
      s
  }

  /** The part after the year: `-MM-DD, HH:mm:ss`. */
  function TimeTail(mo: string, dd: string, hh: string, mi: string, ss: string): string
  {
    "-" + mo + "-" + dd + ", " + hh + ":" + mi + ":" + ss
  }

  /** `Y-MM-DD, HH:mm:ss`, the month printed one-based. */
  function FormatDate(d: DateParts): (r: string)
    ensures |r| >= |IntToString(d.year)| + 16
    ensures r[..|IntToString(d.year)|] == IntToString(d.year)
    ensures r[|IntToString(d.year)|] == '-'
    ensures ValidParts(d) ==> |r| == |IntToString(d.year)| + 16
  {
    IntToString(d.year) + TimeTail(Pad2(d.month + 1), Pad2(d.day), Pad2(d.hours), Pad2(d.minutes), Pad2(d.seconds))
  }

  /** Reads text of the form `Y-MM-DD, HH:mm:ss` back into date parts. */
  function ParseDate(s: string): Option<DateParts>
  {
    if |s| < 17 then None
    else
      var k := |s| - 16;
      var year := ParseInt(s[..k]);
      var month := ParseNat(s[k + 1..k + 3]);
      var day := ParseNat(s[k + 4..k + 6]);
      var hours := ParseNat(s[k + 8..k + 10]);
      var minutes := ParseNat(s[k + 11..k + 13]);
      var seconds := ParseNat(s[k + 14..k + 16]);
      if s[k] == '-' && s[k + 3] == '-' && s[k + 6..k + 8] == ", " && s[k + 10] == ':' && s[k + 13] == ':'
         && year.Some? && month.Some? && month.value >= 1 && day.Some? && hours.Some? && minutes.Some? && seconds.Some?
      then Some(DateParts(year.value, month.value - 1, day.value, hours.value, minutes.value, seconds.value))
      else None
  }

  /** Where the fields and the separators sit in a tail of two-character fields. */
  lemma TailLayout(mo: string, dd: string, hh: string, mi: string, ss: string)
    requires |mo| == 2 && |dd| == 2 && |hh| == 2 && |mi| == 2 && |ss| == 2
    ensures var t := TimeTail(mo, dd, hh, mi, ss);
      && |t| == 16 && t[0] == '-' && t[3] == '-' && t[6..8] == ", " && t[10] == ':' && t[13] == ':'
      && t[1..3] == mo && t[4..6] == dd && t[8..10] == hh && t[11..13] == mi && t[14..16] == ss
  {
  }

  /**
   * The formatted text has the unpadded year, then exactly sixteen characters
   * of two-digit fields and fixed separators, and it reads back as the same
   * date, so the printed month is the getter's month plus one.
   */
  lemma FormatDateRoundTrip(d: DateParts)
    requires ValidParts(d)
    ensures |FormatDate(d)| == |IntToString(d.year)| + 16
    ensures ParseDate(FormatDate(d)) == Some(d)
  {
    var y := IntToString(d.year);
    var t := TimeTail(Pad2(d.month + 1), Pad2(d.day), Pad2(d.hours), Pad2(d.minutes), Pad2(d.seconds));
    TailLayout(Pad2(d.month + 1), Pad2(d.day), Pad2(d.hours), Pad2(d.minutes), Pad2(d.seconds));
    IntToStringRoundTrip(d.year);
    var s := FormatDate(d);
    var k := |y|;
    assert s == y + t;
    assert s[..k] == y;
    assert s[k..] == t;
    assert forall i, j :: 0 <= i <= j <= 16 ==> s[k + i..k + j] == t[i..j];
  }

  /** The class names of the status badge: green when online, red when offline, yellow under maintenance. */
  function StatusColor(s: StationStatus): (r: string)
    ensures |r| >= 10 && r[..3] == "bg-"
    ensures s == Online ==> r[3..8] == "green"
    ensures s == Offline ==> r[3..6] == "red"
    ensures s == Maintenance ==> r[3..9] == "yellow"
  {
    match s
    case Online =>
      var c := "bg-" + "green" + "-100 text-green-800";
      assert c[..3] == "bg-" && c[3..8] == "green";
      c
    case Offline =>
      var c := "bg-" + "red" + "-100 text-red-800";
      assert c[..3] == "bg-" && c[3..6] == "red";
      c
    case Maintenance =>
      var c := "bg-" + "yellow" + "-100 text-yellow-800";
      assert c[..3] == "bg-" && c[3..9] == "yellow";
      c
  }

  /** Each station status has its own badge colour. */
  lemma StatusColorsDistinct(a: StationStatus, b: StationStatus)
    ensures StatusColor(a) == StatusColor(b) <==> a == b
  {
  }
}
