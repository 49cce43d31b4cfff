/** Dates as the forms hold them (wall-clock fields) and the three ways the
    dashboard prints them. */
module Calendar {
  import opened JsNumber

  /** A point in time by its calendar fields. */
  datatype DateTime = DateTime(year: nat, month: nat, day: nat,
                               hour: nat, minute: nat, second: nat, millis: nat)

  /** Fields in range; years of four digits. */
  predicate Valid(d: DateTime) {
    d.year <= 9999 && 1 <= d.month <= 12 && 1 <= d.day <= 31 &&
    d.hour < 24 && d.minute < 60 && d.second < 60 && d.millis < 1000
  }

  /** The fields in order of significance. */
  function Fields(d: DateTime): seq<nat> {
    [d.year, d.month, d.day, d.hour, d.minute, d.second, d.millis]
  }

  predicate FieldsLess(a: seq<nat>, b: seq<nat>)
    requires |a| == |b|
  {
    a != [] && (a[0] < b[0] || (a[0] == b[0] && FieldsLess(a[1..], b[1..])))
  }

  /** `a < b` on two dates: the earlier instant. */
  predicate Earlier(a: DateTime, b: DateTime) {
    FieldsLess(Fields(a), Fields(b))
  }

  lemma {:induction false} FieldsLessOrder(a: seq<nat>, b: seq<nat>, c: seq<nat>)
    requires |a| == |b| == |c|
    ensures !FieldsLess(a, a)
    ensures FieldsLess(a, b) ==> !FieldsLess(b, a)
    ensures FieldsLess(a, b) && FieldsLess(b, c) ==> FieldsLess(a, c)
    ensures a == b || FieldsLess(a, b) || FieldsLess(b, a)
  {
    if a != [] {
      FieldsLessOrder(a[1..], b[1..], c[1..]);
      if a[0] == b[0] && a[1..] == b[1..] {
        assert a == [a[0]] + a[1..] && b == [b[0]] + b[1..];
      }
    }
  }

  /** `Earlier` is a strict total order. */
  lemma EarlierOrder(a: DateTime, b: DateTime, c: DateTime)
    ensures !Earlier(a, a)
    ensures Earlier(a, b) ==> !Earlier(b, a)
    ensures Earlier(a, b) && Earlier(b, c) ==> Earlier(a, c)
    ensures a == b || Earlier(a, b) || Earlier(b, a)
  {
    FieldsLessOrder(Fields(a), Fields(b), Fields(c));
    if Fields(a) == Fields(b) {
      assert a.year == Fields(a)[0] && a.millis == Fields(a)[6];
    }
  }

  function Zeros(k: nat): (r: string)
    ensures |r| == k && AllDigits(r)
  {
    if k == 0 then [] else Zeros(k - 1) + ['0']
  }

  /** `String(n).padStart(width, "0")`. */
  function PadZeros(n: nat, width: nat): (r: string)
    ensures AllDigits(r)
    ensures |r| == if |NatToString(n)| >= width then |NatToString(n)| else width
  {
    var s := NatToString(n);
    if |s| >= width then s else Zeros(width - |s|) + s
  }

  lemma {:induction false} ZerosValue(k: nat)
    ensures DigitsValue(Zeros(k)) == 0
  {
    if k > 0 {
      assert Zeros(k)[..k - 1] == Zeros(k - 1);
      ZerosValue(k - 1);
    }
  }

  lemma {:induction false} LeadingZerosValue(k: nat, s: string)
    requires AllDigits(s)
    ensures DigitsValue(Zeros(k) + s) == DigitsValue(s)
  {
    if s == [] {
      assert Zeros(k) + s == Zeros(k);
      ZerosValue(k);
    } else {
      var t := Zeros(k) + s;
      assert t[..|t| - 1] == Zeros(k) + s[..|s| - 1];
      LeadingZerosValue(k, s[..|s| - 1]);
    }
  }

  /** Padding keeps the number: the digits read back as `n`. */
  lemma PadZerosValue(n: nat, width: nat)
    ensures DigitsValue(PadZeros(n, width)) == n
  {
    NatToStringValue(n);
    if |NatToString(n)| < width {
      LeadingZerosValue(width - |NatToString(n)|, NatToString(n));
    }
  }

  function Pow10(k: nat): (r: nat)
    ensures r >= 1
  {
    if k == 0 then 1 else 10 * Pow10(k - 1)
  }

  lemma {:induction false} NatToStringLength(n: nat, width: nat)
    requires width >= 1 && n < Pow10(width)
    ensures |NatToString(n)| <= width
  {
    if n >= 10 {
      NatToStringLength(n / 10, width - 1);
    }
  }

  /** A field of at most `width` digits pads to exactly `width` characters. */
  lemma PadZerosWidth(n: nat, width: nat)
    requires width >= 1 && n < Pow10(width)
    ensures |PadZeros(n, width)| == width
  {
    NatToStringLength(n, width);
  }

  /** `formatDate`: "DD/MM/YYYY", day and month padded to two digits. */
  function FormatDate(d: DateTime): (s: string)
    ensures Valid(d) ==> |s| > 6 && s[2] == '/' && s[5] == '/'
  {
    var s := PadZeros(d.day, 2) + "/" + PadZeros(d.month, 2) + "/" + NatToString(d.year);
    if Valid(d) then
      PadZerosWidth(d.day, 2);
      PadZerosWidth(d.month, 2);
      s
    else s
  }

  /** The printed date reads back as the day, the month and the year. */
  lemma FormatDateFields(d: DateTime)
    requires Valid(d)
    ensures var r := FormatDate(d);
      |r| > 6 && r[2] == '/' && r[5] == '/' &&
      AllDigits(r[..2]) && DigitsValue(r[..2]) == d.day &&
      AllDigits(r[3..5]) && DigitsValue(r[3..5]) == d.month &&
      AllDigits(r[6..]) && DigitsValue(r[6..]) == d.year
  {
    var dd, mm, yy := PadZeros(d.day, 2), PadZeros(d.month, 2), NatToString(d.year);
    PadZerosWidth(d.day, 2);
    PadZerosWidth(d.month, 2);
    PadZerosValue(d.day, 2);
    PadZerosValue(d.month, 2);
    NatToStringValue(d.year);
    var r := FormatDate(d);
    assert r == dd + "/" + mm + "/" + yy;
    assert r[..2] == dd && r[3..5] == mm && r[6..] == yy;
  }

  /** date-fns `format(d, "yyyy-MM-dd")`. */
  function IsoDate(d: DateTime): (s: string)
    ensures Valid(d) ==> |s| == 10 && s[4] == '-' && s[7] == '-'
  {
    var s := PadZeros(d.year, 4) + "-" + PadZeros(d.month, 2) + "-" + PadZeros(d.day, 2);
    if Valid(d) then
      assert Pow10(4) == 10000;
      PadZerosWidth(d.year, 4);
      PadZerosWidth(d.month, 2);
      PadZerosWidth(d.day, 2);
      s
    else s
  }

  /** The clock part "HH:mm:ss". */
  function IsoClock(d: DateTime): string {
    PadZeros(d.hour, 2) + ":" + PadZeros(d.minute, 2) + ":" + PadZeros(d.second, 2)
  }

  /** `toISOString()`: "YYYY-MM-DDTHH:mm:ss.sssZ". */
  function IsoString(d: DateTime): string {
    IsoDate(d) + "T" + IsoClock(d) + "." + PadZeros(d.millis, 3) + "Z"
  }

  /** `s.split(".")[0]`: everything before the first point. */
  function BeforePoint(s: string): (r: string)
    ensures r <= s && '.' !in r
    ensures |r| < |s| ==> s[|r|] == '.'
  {
    if s == [] || s[0] == '.' then [] else [s[0]] + BeforePoint(s[1..])
  }

  /** The expected-payment date as sent: the ISO string cut at the point, with
      "Z" put back. */
  function IsoSeconds(d: DateTime): (s: string)
    ensures |s| > 0 && '.' !in s && s[|s| - 1] == 'Z'
    ensures s[..|s| - 1] <= IsoString(d)
  {
    BeforePoint(IsoString(d)) + "Z"
  }

  lemma {:induction false} BeforePointOf(a: string, b: string)
    requires '.' !in a
    ensures BeforePoint(a + "." + b) == a
  {
    if a != [] {
      assert (a + "." + b)[1..] == a[1..] + "." + b;
      BeforePointOf(a[1..], b);
    }
  }

  lemma DigitsHaveNoPoint(s: string)
    requires AllDigits(s)
    ensures '.' !in s
  {
  }

  /** The sent date is the date and the clock to the second, in UTC form: the
      milliseconds are dropped. */
  lemma IsoSecondsShape(d: DateTime)
    ensures IsoSeconds(d) == IsoDate(d) + "T" + IsoClock(d) + "Z"
  {
    var head := IsoDate(d) + "T" + IsoClock(d);
    DigitsHaveNoPoint(PadZeros(d.year, 4));
    DigitsHaveNoPoint(PadZeros(d.month, 2));
    DigitsHaveNoPoint(PadZeros(d.day, 2));
    DigitsHaveNoPoint(PadZeros(d.hour, 2));
    DigitsHaveNoPoint(PadZeros(d.minute, 2));
    DigitsHaveNoPoint(PadZeros(d.second, 2));
    assert '.' !in head;
    assert IsoString(d) == head + "." + (PadZeros(d.millis, 3) + "Z");
    BeforePointOf(head, PadZeros(d.millis, 3) + "Z");
  }

  /** Two instants within the same second are sent as the same string. */
  lemma IsoSecondsIgnoresMillis(a: DateTime, b: DateTime)
    requires a.(millis := 0) == b.(millis := 0)
    ensures IsoSeconds(a) == IsoSeconds(b)
  {
    IsoSecondsShape(a);
    IsoSecondsShape(b);
  }

  /** The printed day reads back as year, month and day. */
  lemma IsoDateFields(d: DateTime)
    requires Valid(d)
    ensures var r := IsoDate(d);
      |r| == 10 && r[4] == '-' && r[7] == '-' &&
      AllDigits(r[..4]) && DigitsValue(r[..4]) == d.year &&
      AllDigits(r[5..7]) && DigitsValue(r[5..7]) == d.month &&
      AllDigits(r[8..]) && DigitsValue(r[8..]) == d.day
  {
    var yy, mm, dd := PadZeros(d.year, 4), PadZeros(d.month, 2), PadZeros(d.day, 2);
    assert Pow10(4) == 10000;
    PadZerosWidth(d.year, 4);
    PadZerosWidth(d.month, 2);
    PadZerosWidth(d.day, 2);
    PadZerosValue(d.year, 4);
    PadZerosValue(d.month, 2);
    PadZerosValue(d.day, 2);
    var r := IsoDate(d);
    assert r == yy + "-" + mm + "-" + dd;
    assert r[..4] == yy && r[5..7] == mm && r[8..] == dd;
  }
}
