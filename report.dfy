/** File names of the generated reports: the scale, an optional patient part and the
    report date in ISO form (YYYY-MM-DD), with a .docx extension. The date is a
    parameter here; the program reads it from the clock. */
module Report {

  /** A calendar date. */
  datatype Date = Date(year: int, month: int, day: int)

  function DaysInMonth(year: int, month: int): int
  {
    if month == 2 then
      if year % 4 == 0 && (year % 100 != 0 || year % 400 == 0) then 29 else 28
    else if month in {4, 6, 9, 11} then 30
    else 31
  }

  /** Dates the program's calendar type can hold: years 1 to 9999. */
  predicate ValidDate(d: Date)
  {
    1 <= d.year <= 9999 && 1 <= d.month <= 12 && 1 <= d.day <= DaysInMonth(d.year, d.month)
  }

  function Pow10(w: nat): (p: nat)
    ensures p >= 1
  {
    if w == 0 then 1 else 10 * Pow10(w - 1)
  }

  predicate IsDigit(c: char)
  {
    '0' <= c <= '9'
  }

  predicate AllDigits(s: string)
  {
    forall i :: 0 <= i < |s| ==> IsDigit(s[i])
  }

  /** Decimal digits of `n`, zero-padded on the left to exactly `width` characters. */
  function Padded(n: nat, width: nat): (s: string)
    requires n < Pow10(width)
    ensures |s| == width && AllDigits(s)
  {
    if width == 0 then ""
    else Padded(n / 10, width - 1) + [('0' as int + n % 10) as char]
  }

  /** The number a string of decimal digits denotes. */
  function DigitsValue(s: string): (n: nat)
    requires AllDigits(s)
  {
    if s == [] then 0 else 10 * DigitsValue(s[..|s| - 1]) + (s[|s| - 1] as int - '0' as int)
  }

  /** Reading back a padded number gives the number. */
  lemma {:induction false} PaddedRoundTrip(n: nat, width: nat)
    requires n < Pow10(width)
    ensures DigitsValue(Padded(n, width)) == n
  {
    if width > 0 {
      var s := Padded(n, width);
      assert s[..|s| - 1] == Padded(n / 10, width - 1);
      PaddedRoundTrip(n / 10, width - 1);
    }
  }

  /** Padding the number a digit string denotes, to the string's own width, gives
      the string back. */
  lemma {:induction false} DigitsRoundTrip(s: string)
    requires AllDigits(s)
    ensures DigitsValue(s) < Pow10(|s|) && Padded(DigitsValue(s), |s|) == s
  {
    if s != [] {
      var front := s[..|s| - 1];
      assert AllDigits(front);
      DigitsRoundTrip(front);
      var n := DigitsValue(s);
      assert n / 10 == DigitsValue(front) && n % 10 == s[|s| - 1] as int - '0' as int;
    }
  }

  /** ISO form of a date: four-digit year, two-digit month, two-digit day. */
  function IsoFormat(d: Date): (s: string)
    requires ValidDate(d)
    ensures |s| == 10 && s[4] == '-' && s[7] == '-'
    ensures AllDigits(s[..4]) && AllDigits(s[5..7]) && AllDigits(s[8..])
  {
    var s := Padded(d.year, 4) + "-" + Padded(d.month, 2) + "-" + Padded(d.day, 2);
    assert s[..4] == Padded(d.year, 4) && s[5..7] == Padded(d.month, 2) && s[8..] == Padded(d.day, 2);
    s
  }

  /** The date an ISO string names. */
  function ParseIso(s: string): Date
    requires |s| == 10 && AllDigits(s[..4]) && AllDigits(s[5..7]) && AllDigits(s[8..])
  {
    Date(DigitsValue(s[..4]), DigitsValue(s[5..7]), DigitsValue(s[8..]))
  }

  /** The ISO form names the date it was made from, so different dates get different forms. */
  lemma IsoRoundTrip(d: Date)
    requires ValidDate(d)
    ensures ParseIso(IsoFormat(d)) == d
  {
    var s := IsoFormat(d);
    assert s[..4] == Padded(d.year, 4);
    assert s[5..7] == Padded(d.month, 2);
    assert s[8..] == Padded(d.day, 2);
    PaddedRoundTrip(d.year, 4);
    PaddedRoundTrip(d.month, 2);
    PaddedRoundTrip(d.day, 2);
  }

  /** `s` with every space replaced by an underscore. */
  function Underscored(s: string): (r: string)
    ensures |r| == |s|
    ensures forall i :: 0 <= i < |s| ==> r[i] == (if s[i] == ' ' then '_' else s[i])
  {
    if s == [] then [] else Underscored(s[..|s| - 1]) + [if s[|s| - 1] == ' ' then '_' else s[|s| - 1]]
  }

  /** The patient part of a local report's name: the card number, else the name,
      else the word "patient" (an empty string counts as missing), spaces replaced. */
  function SafeIdentifier(patientName: string, patientId: string): (r: string)
    ensures ' ' !in r
    ensures patientId != "" ==> r == Underscored(patientId)
    ensures patientId == "" && patientName != "" ==> r == Underscored(patientName)
    ensures patientId == "" && patientName == "" ==> r == "patient"
  {
    Underscored(if patientId != "" then patientId else if patientName != "" then patientName else "patient")
  }

  /** Name of the report offered for download: scale, underscore, ISO date, ".docx". */
  function WebFilename(scale: string, d: Date): (f: string)
    requires ValidDate(d)
    ensures |f| == |scale| + 16
    ensures f[..|scale|] == scale && f[|scale|] == '_'
    ensures f[|f| - 15..|f| - 5] == IsoFormat(d) && f[|f| - 5..] == ".docx"
  {
    var f := scale + "_" + IsoFormat(d) + ".docx";
    assert f[..|scale|] == scale;
    assert f[|f| - 15..|f| - 5] == IsoFormat(d);
    f
  }

  /** Name of the report saved locally: scale, patient part and ISO date, joined by
      underscores, then ".docx". */
  function LocalFilename(patientName: string, patientId: string, scale: string, d: Date): (f: string)
    requires ValidDate(d)
    ensures var safe := SafeIdentifier(patientName, patientId);
      |f| == |scale| + |safe| + 17 &&
      f[..|scale|] == scale && f[|scale|] == '_' && f[|scale| + 1..|scale| + 1 + |safe|] == safe &&
      f[|f| - 16] == '_' && f[|f| - 15..|f| - 5] == IsoFormat(d) && f[|f| - 5..] == ".docx"
  {
    var safe := SafeIdentifier(patientName, patientId);
    var f := scale + "_" + safe + "_" + IsoFormat(d) + ".docx";
    assert f[..|scale|] == scale;
    assert f[|scale| + 1..|scale| + 1 + |safe|] == safe;
    assert f[|f| - 15..|f| - 5] == IsoFormat(d);
    f
  }

  /** The report date can be read back from either file name. */
  lemma DateFromFilenames(patientName: string, patientId: string, scale: string, d: Date)
    requires ValidDate(d)
    ensures var w := WebFilename(scale, d); ParseIso(w[|w| - 15..|w| - 5]) == d
    ensures var l := LocalFilename(patientName, patientId, scale, d); ParseIso(l[|l| - 15..|l| - 5]) == d
  {
    IsoRoundTrip(d);
  }

  /** Reports of two different dates never share a file name. */
  lemma FilenamesDistinguishDates(scale: string, d1: Date, d2: Date)
    requires ValidDate(d1) && ValidDate(d2) && d1 != d2
    ensures WebFilename(scale, d1) != WebFilename(scale, d2)
  {
    DateFromFilenames("", "", scale, d1);
    DateFromFilenames("", "", scale, d2);
  }
}
