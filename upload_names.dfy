/**
 * The pure parts of the upload handler: the case-insensitive ".pdf" test on
 * the caller's filename (app.py:262) and the name the file is stored under,
 * `{subject}_{YYYYMMDD_HHMMSS}.pdf` (app.py:263), with the clock reading
 * passed in as a `Stamp`.
 */
module UploadNames {

  /** Lower-casing of one character; ASCII letters only (see README). */
  function LowerChar(c: char): char {
    if 'A' <= c <= 'Z' then (c as int + 32) as char else c
  }

  function Lower(s: string): string {
    seq(|s|, i requires 0 <= i < |s| => LowerChar(s[i]))
  }

  predicate EndsWith(s: string, suffix: string) {
    |suffix| <= |s| && s[|s| - |suffix|..] == suffix
  }

  /** `filename.lower().endswith('.pdf')` */
  predicate IsPdfName(filename: string) {
    EndsWith(Lower(filename), ".pdf")
  }

  /** The suffix test, character by character: a dot, then p, d, f in either case. */
  lemma IsPdfNameByChars(filename: string)
    ensures IsPdfName(filename) <==>
      var n := |filename|;
      n >= 4 && filename[n - 4] == '.' &&
      filename[n - 3] in "pP" && filename[n - 2] in "dD" && filename[n - 1] in "fF"
  {
    var n := |filename|;
    var low := Lower(filename);
    if n >= 4 {
      var tail := low[n - 4..];
      assert tail == [low[n - 4], low[n - 3], low[n - 2], low[n - 1]];
    }
  }

  function Pow10(k: nat): (r: nat)
    ensures r >= 1
  {
    if k == 0 then 1 else 10 * Pow10(k - 1)
  }

  predicate IsDigit(c: char) {
    '0' <= c <= '9'
  }

  predicate AllDigits(s: string) {
    forall i :: 0 <= i < |s| ==> IsDigit(s[i])
  }

  function DigitChar(d: nat): (c: char)
    requires d < 10
    ensures IsDigit(c)
  {
    ('0' as int + d) as char
  }

  /** `n` in decimal, zero-padded on the left to exactly `width` digits. */
  function Digits(n: nat, width: nat): (r: string)
    requires n < Pow10(width)
    ensures |r| == width && AllDigits(r)
  {
    if width == 0 then ""
    else
      assert n / 10 < Pow10(width - 1);
      Digits(n / 10, width - 1) + [DigitChar(n % 10)]
  }

  /** The number a string of decimal digits denotes. */
  function Value(s: string): nat
    requires AllDigits(s)
  {
    if s == [] then 0
    else Value(s[..|s| - 1]) * 10 + (s[|s| - 1] as int - '0' as int)
  }

  /** Reading the padded digits back gives the number that was written. */
  lemma {:induction false} ValueOfDigits(n: nat, width: nat)
    requires n < Pow10(width)
    ensures Value(Digits(n, width)) == n
  {
    if width > 0 {
      var s := Digits(n, width);
      assert n / 10 < Pow10(width - 1);
      assert s[..|s| - 1] == Digits(n / 10, width - 1);
      ValueOfDigits(n / 10, width - 1);
    }
  }

  /** A reading of `datetime.now()` down to the second. */
  datatype Stamp = Stamp(year: nat, month: nat, day: nat, hour: nat, minute: nat, second: nat)

  predicate ValidStamp(t: Stamp) {
    1000 <= t.year <= 9999 && 1 <= t.month <= 12 && 1 <= t.day <= 31 &&
    t.hour <= 23 && t.minute <= 59 && t.second <= 59
  }

  /** Fifteen characters: eight digits, an underscore, six digits. */
  predicate StampShaped(s: string) {
    |s| == 15 && s[8] == '_' && AllDigits(s[..8]) && AllDigits(s[9..])
  }

  /** `strftime('%Y%m%d_%H%M%S')` */
  function StampText(t: Stamp): (r: string)
    requires ValidStamp(t)
    ensures StampShaped(r)
  {
    var date := Digits(t.year, 4) + Digits(t.month, 2) + Digits(t.day, 2);
    var time := Digits(t.hour, 2) + Digits(t.minute, 2) + Digits(t.second, 2);
    var r := date + "_" + time;
    assert r[..8] == date && r[9..] == time;
    r
  }

  /** Reads the six fields back out of a stamp's text. */
  function ParseStamp(s: string): Stamp
    requires StampShaped(s)
  {
    var date, time := s[..8], s[9..];
    Stamp(Value(date[0..4]), Value(date[4..6]), Value(date[6..8]),
          Value(time[0..2]), Value(time[2..4]), Value(time[4..6]))
  }

  lemma StampRoundTrip(t: Stamp)
    requires ValidStamp(t)
    ensures ParseStamp(StampText(t)) == t
  {
    var y, mo, d := Digits(t.year, 4), Digits(t.month, 2), Digits(t.day, 2);
    var h, mi, s := Digits(t.hour, 2), Digits(t.minute, 2), Digits(t.second, 2);
    var text := StampText(t);
    assert text == y + mo + d + "_" + h + mi + s;
    var date, time := text[..8], text[9..];
    assert date == y + mo + d && time == h + mi + s;
    assert date[0..4] == y && date[4..6] == mo && date[6..8] == d;
    assert time[0..2] == h && time[2..4] == mi && time[4..6] == s;
    ValueOfDigits(t.year, 4);
    ValueOfDigits(t.month, 2);
    ValueOfDigits(t.day, 2);
    ValueOfDigits(t.hour, 2);
    ValueOfDigits(t.minute, 2);
    ValueOfDigits(t.second, 2);
  }

  /**
   * The name an upload is stored under. The subject goes in exactly as the
   * caller sent it: nothing is sanitised, so a subject holding "/" or ".."
   * reaches the stored name unchanged.
   */
  function StoredName(subject: string, t: Stamp): (r: string)
    requires ValidStamp(t)
    ensures |r| == |subject| + 20
    ensures r[..|subject|] == subject && r[|subject|] == '_'
    ensures StampShaped(r[|subject| + 1..|subject| + 16])
    ensures r[|subject| + 16..] == ".pdf"
  {
    var stamp := StampText(t);
    var r := subject + "_" + stamp + ".pdf";
    assert r[|subject| + 1..|subject| + 16] == stamp;
    r
  }

  /** The stamp can be read back out of a stored name. */
  lemma StoredNameStamp(subject: string, t: Stamp)
    requires ValidStamp(t)
    ensures ParseStamp(StoredName(subject, t)[|subject| + 1..|subject| + 16]) == t
  {
    var stamp := StampText(t);
    assert StoredName(subject, t) == subject + "_" + stamp + ".pdf";
    assert StoredName(subject, t)[|subject| + 1..|subject| + 16] == stamp;
    StampRoundTrip(t);
  }

  /** Two uploads of one subject in different seconds never share a name. */
  lemma StoredNameInjective(subject: string, t1: Stamp, t2: Stamp)
    requires ValidStamp(t1) && ValidStamp(t2)
    requires StoredName(subject, t1) == StoredName(subject, t2)
    ensures t1 == t2
  {
    StoredNameStamp(subject, t1);
    StoredNameStamp(subject, t2);
  }

  /** A generated name passes the handler's own PDF test. */
  lemma StoredNameIsPdf(subject: string, t: Stamp)
    requires ValidStamp(t)
    ensures IsPdfName(StoredName(subject, t))
  {
  }

  /** The success message of the upload handler (app.py:269). */
  function UploadMessage(subject: string, filename: string): string {
    "Course material uploaded successfully! Subject: " + subject + ", File: " + filename
  }
}
