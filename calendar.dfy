/** Calendar dates, wall-clock readings, and Go's `Format("2006-01-02")` layout used for outbox buckets. */
module Calendar {
  import opened Base

  /** A calendar date as `time.Time` reports it (proleptic Gregorian, years from 0). */
  datatype Date = Date(year: nat, month: nat, day: nat)

  predicate ValidDate(d: Date) {
    1 <= d.month <= 12 && 1 <= d.day <= 31
  }

  /** A reading of `time.Now()`: the calendar date in the process's zone and the nanoseconds into that day. */
  datatype Instant = Instant(date: Date, nanos: nat)

  predicate IsDigit(c: char) {
    '0' <= c <= '9'
  }

  function DigitChar(d: nat): (c: char)
    requires d < 10
    ensures IsDigit(c) && DigitValue(c) == d
  {
    ('0' as int + d) as char
  }

  function DigitValue(c: char): nat
    requires IsDigit(c)
  {
    c as int - '0' as int
  }

  predicate AllDigits(s: string) {
    forall i :: 0 <= i < |s| ==> IsDigit(s[i])
  }

  function Pow10(w: nat): nat {
    if w == 0 then 1 else 10 * Pow10(w - 1)
  }

  /**
   * Decimal digits of `n`, left-padded with zeros to at least `w` characters, as Go's
   * layout elements "2006", "01" and "02" print a year, a month and a day.
   */
  function Pad(n: nat, w: nat): string
    decreases n + w
  {
    if n < 10 && w <= 1 then [DigitChar(n)]
    else Pad(n / 10, if w == 0 then 0 else w - 1) + [DigitChar(n % 10)]
  }

  /** The value of a string of decimal digits. */
  function ParseDigits(s: string): nat
    requires AllDigits(s)
  {
    if s == [] then 0 else 10 * ParseDigits(s[..|s| - 1]) + DigitValue(s[|s| - 1])
  }

  lemma {:induction false} PadDigits(n: nat, w: nat)
    ensures |Pad(n, w)| >= 1 && AllDigits(Pad(n, w))
    ensures ParseDigits(Pad(n, w)) == n
    decreases n + w
  {
    if n < 10 && w <= 1 {
    } else {
      var w' := if w == 0 then 0 else w - 1;
      PadDigits(n / 10, w');
      var p := Pad(n / 10, w');
      assert Pad(n, w) == p + [DigitChar(n % 10)];
      assert Pad(n, w)[..|Pad(n, w)| - 1] == p;
    }
  }

  lemma {:induction false} PadWidth(n: nat, w: nat)
    requires 1 <= w && n < Pow10(w)
    ensures |Pad(n, w)| == w
    decreases n + w
  {
    if n < 10 && w <= 1 {
    } else {
      assert w >= 2;
      assert n / 10 < Pow10(w - 1);
      PadWidth(n / 10, w - 1);
    }
  }

  lemma {:induction false} PadAtLeastWidth(n: nat, w: nat)
    ensures |Pad(n, w)| >= w
    decreases n + w
  {
    if n < 10 && w <= 1 {
    } else {
      PadAtLeastWidth(n / 10, if w == 0 then 0 else w - 1);
    }
  }

  /** The bucket key of a date: `d.Format("2006-01-02")`. */
  function Bucket(d: Date): string {
    Pad(d.year, 4) + "-" + Pad(d.month, 2) + "-" + Pad(d.day, 2)
  }

  /** Reads a "YYYY-MM-DD" key back; years past 9999 have more than four digits. */
  function ParseBucket(s: string): (r: Option<Date>)
    ensures r.Some? ==> |s| >= 10
  {
    if |s| >= 10 && s[|s| - 3] == '-' && s[|s| - 6] == '-'
       && AllDigits(s[..|s| - 6]) && AllDigits(s[|s| - 5..|s| - 3]) && AllDigits(s[|s| - 2..])
    then Some(Date(ParseDigits(s[..|s| - 6]), ParseDigits(s[|s| - 5..|s| - 3]), ParseDigits(s[|s| - 2..])))
    else None
  }

  /** Where the three fields of a joined "Y-M-D" string sit, counting from its end. */
  lemma JoinedFields(y: string, m: string, dd: string)
    requires |m| == 2 && |dd| == 2
    ensures var s := y + "-" + m + "-" + dd;
      |s| == |y| + 6 && s[|s| - 3] == '-' && s[|s| - 6] == '-'
      && s[..|s| - 6] == y && s[|s| - 5..|s| - 3] == m && s[|s| - 2..] == dd
  {
    var s := y + "-" + m + "-" + dd;
    assert s[..|s| - 6] == y;
    assert s[|s| - 5..|s| - 3] == m;
    assert s[|s| - 2..] == dd;
  }

  /** The three fields of a bucket key, and their digits. */
  lemma BucketFields(d: Date)
    requires ValidDate(d)
    ensures |Pad(d.month, 2)| == 2 && |Pad(d.day, 2)| == 2 && |Pad(d.year, 4)| >= 4
    ensures d.year < 10000 ==> |Pad(d.year, 4)| == 4
    ensures AllDigits(Pad(d.year, 4)) && ParseDigits(Pad(d.year, 4)) == d.year
    ensures AllDigits(Pad(d.month, 2)) && ParseDigits(Pad(d.month, 2)) == d.month
    ensures AllDigits(Pad(d.day, 2)) && ParseDigits(Pad(d.day, 2)) == d.day
  {
    PadAtLeastWidth(d.year, 4);
    PadDigits(d.year, 4);
    PadDigits(d.month, 2);
    PadDigits(d.day, 2);
    PadWidth(d.month, 2);
    PadWidth(d.day, 2);
    if d.year < 10000 {
      PadWidth(d.year, 4);
    }
  }

  /** A bucket key has the layout YYYY-MM-DD: digits, with dashes in the two separator positions. */
  lemma BucketLayout(d: Date)
    requires ValidDate(d)
    ensures |Bucket(d)| >= 10
    ensures d.year < 10000 ==> |Bucket(d)| == 10
    ensures var s := Bucket(d); s[|s| - 3] == '-' && s[|s| - 6] == '-'
    ensures var s := Bucket(d);
      AllDigits(s[..|s| - 6]) && AllDigits(s[|s| - 5..|s| - 3]) && AllDigits(s[|s| - 2..])
  {
    BucketFields(d);
    JoinedFields(Pad(d.year, 4), Pad(d.month, 2), Pad(d.day, 2));
  }

  /** The bucket key determines the date: parsing it gives the date back. */
  lemma BucketRoundTrip(d: Date)
    requires ValidDate(d)
    ensures ParseBucket(Bucket(d)) == Some(d)
  {
    BucketFields(d);
    JoinedFields(Pad(d.year, 4), Pad(d.month, 2), Pad(d.day, 2));
  }

  /** Two days never share a bucket. */
  lemma BucketInjective(d1: Date, d2: Date)
    requires ValidDate(d1) && ValidDate(d2)
    ensures Bucket(d1) == Bucket(d2) <==> d1 == d2
  {
    BucketRoundTrip(d1);
    BucketRoundTrip(d2);
  }
}
