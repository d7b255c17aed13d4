/** The X-Timestamp header value built by `_getXTime` (mytts/tts.py), and a reader for it. */
module Timestamp {
  import opened Wrappers
  import opened Decimal

  /** The fields of `datetime.now()` that the timestamp uses; the clock itself is an input. */
  datatype DateTime = DateTime(year: nat, month: nat, day: nat, hour: nat, minute: nat, second: nat, microsecond: nat)
  {
    /** The ranges `datetime` guarantees for its fields. */
    predicate Valid() {
      1 <= year <= 9999 && 1 <= month <= 12 && 1 <= day <= 31
      && hour < 24 && minute < 60 && second < 60 && microsecond < 1000000
    }
  }

  /** `hr_cr`: the hour moved back by one, modulo 24 (Python's `%` by a positive divisor is never negative). */
  function ShiftedHour(hour: nat): (h: nat)
    ensures h < 24
    ensures hour < 24 ==> (h + 1) % 24 == hour
  {
    (hour - 1) % 24
  }

  /** The millisecond field: the first three characters of `str(microsecond)`, which is not zero-padded. */
  function MillisField(us: nat): (f: string)
    ensures 1 <= |f| <= 3 && AllDigits(f)
  {
    var d := NatToString(us);
    if |d| <= 3 then d else d[..3]
  }

  /** The list `n` of `_getXTime`: every numeric field through `"%02d"` (the hour first moved back by
      one), then the millisecond field. */
  function XTimeParts(t: DateTime): (n: seq<string>)
    ensures |n| == 7
    ensures forall i :: 0 <= i < 7 ==> |n[i]| > 0 && AllDigits(n[i])
  {
    [Pad2(t.year), Pad2(t.month), Pad2(t.day), Pad2(ShiftedHour(t.hour)),
     Pad2(t.minute), Pad2(t.second), MillisField(t.microsecond)]
  }

  /** `_getXTime`: the template `{}-{}-{}T{}:{}:{}.{}Z` filled with the parts. */
  function XTime(t: DateTime): string {
    JoinFields(XTimeParts(t), Separators)
  }

  /** The three leading decimal digits of n (n itself below 1000). */
  function LeadingThreeDigits(n: nat): nat {
    if n < 1000 then n else LeadingThreeDigits(n / 10)
  }

  /** The millisecond field is the numeral of the first three digits: 42 gives "42", 5000 gives "500". */
  lemma {:induction false} MillisFieldLeadingDigits(us: nat)
    ensures MillisField(us) == NatToString(LeadingThreeDigits(us))
    ensures us < 1000 ==> MillisField(us) == NatToString(us)
  {
    if us >= 1000 {
      MillisFieldLeadingDigits(us / 10);
      var d := NatToString(us);
      var e := NatToString(us / 10);
      NatToStringDropLast(us);
      assert NumDigits(us / 10) >= 3 by {
        assert us / 10 >= 100;
        assert us / 100 >= 10 by { assert us / 100 == us / 10 / 10; }
        assert NumDigits(us / 100) >= 2;
      }
      assert d[..3] == e[..3];
    }
  }

  /** The text of each timestamp field, as a reader splits it. */
  datatype Fields = Fields(year: string, month: string, day: string, hour: string,
                           minute: string, second: string, fraction: string)

  /** Length of the run of digits that starts s. */
  function DigitRun(s: string): (k: nat)
    ensures k <= |s| && AllDigits(s[..k])
    ensures k < |s| ==> !IsDigit(s[k])
  {
    if s == [] || !IsDigit(s[0]) then 0
    else
      var k := 1 + DigitRun(s[1..]);
      assert s[..k] == [s[0]] + s[1..][..k - 1];
      k
  }

  /** A non-empty run of digits ended by `sep`: the digits, and what follows `sep`. */
  function DigitsThen(s: string, sep: char): (r: Option<(string, string)>)
    ensures r.Some? ==> |r.value.0| > 0 && AllDigits(r.value.0)
  {
    var k := DigitRun(s);
    if 0 < k < |s| && s[k] == sep then Some((s[..k], s[k + 1..])) else None
  }

  /** The separator that ends each of the seven fields, in order. */
  const Separators: string := "--T::.Z"

  /** Splits s into non-empty digit runs, the i-th ended by seps[i], with nothing after the last. */
  function SplitFields(s: string, seps: string): (r: Option<seq<string>>)
    ensures r.Some? ==> |r.value| == |seps|
    ensures r.Some? ==> forall i :: 0 <= i < |r.value| ==> |r.value[i]| > 0 && AllDigits(r.value[i])
    decreases |seps|
  {
    if seps == [] then
      if s == [] then Some([]) else None
    else
      var p :- DigitsThen(s, seps[0]);
      var rest :- SplitFields(p.1, seps[1..]);
      Some([p.0] + rest)
  }

  /** Each field followed by its separator, concatenated. */
  function JoinFields(fields: seq<string>, seps: string): string
    requires |fields| == |seps|
    decreases |seps|
  {
    if seps == [] then [] else fields[0] + ([seps[0]] + JoinFields(fields[1..], seps[1..]))
  }

  /** Splits a timestamp into its fields; None unless it has the shape `Y-M-DTh:m:s.fZ`. */
  function ParseXTime(s: string): (r: Option<Fields>)
    ensures r.Some? ==> var f := r.value;
      && AllDigits(f.year) && AllDigits(f.month) && AllDigits(f.day) && AllDigits(f.hour)
      && AllDigits(f.minute) && AllDigits(f.second) && AllDigits(f.fraction)
  {
    var fs :- SplitFields(s, Separators);
    Some(Fields(fs[0], fs[1], fs[2], fs[3], fs[4], fs[5], fs[6]))
  }

  lemma {:induction false} DigitRunOfDigits(d: string, sep: char, rest: string)
    requires AllDigits(d) && !IsDigit(sep)
    ensures DigitRun(d + [sep] + rest) == |d|
  {
    if d != [] {
      assert (d + [sep] + rest)[1..] == d[1..] + [sep] + rest;
      DigitRunOfDigits(d[1..], sep, rest);
    }
  }

  lemma DigitsThenSplit(d: string, sep: char, rest: string)
    requires |d| > 0 && AllDigits(d) && !IsDigit(sep)
    ensures DigitsThen(d + ([sep] + rest), sep) == Some((d, rest))
  {
    DigitRunOfDigits(d, sep, rest);
    var s := d + [sep] + rest;
    assert s == d + ([sep] + rest);
    assert s[..|d|] == d && s[|d| + 1..] == rest;
  }

  /** Non-empty digit fields joined by non-digit separators split back into themselves. */
  lemma {:induction false} SplitJoinFields(fields: seq<string>, seps: string)
    requires |fields| == |seps|
    requires forall i :: 0 <= i < |fields| ==> |fields[i]| > 0 && AllDigits(fields[i])
    requires forall i :: 0 <= i < |seps| ==> !IsDigit(seps[i])
    ensures SplitFields(JoinFields(fields, seps), seps) == Some(fields)
  {
    if seps != [] {
      var rest := JoinFields(fields[1..], seps[1..]);
      DigitsThenSplit(fields[0], seps[0], rest);
      SplitJoinFields(fields[1..], seps[1..]);
      assert [fields[0]] + fields[1..] == fields;
    }
  }

  /** A timestamp is a single line: it holds digits and separators only. */
  lemma {:induction false} JoinFieldsNoCR(fields: seq<string>, seps: string)
    requires |fields| == |seps|
    requires forall i :: 0 <= i < |fields| ==> AllDigits(fields[i])
    requires '\r' !in seps
    ensures '\r' !in JoinFields(fields, seps)
  {
    if seps != [] {
      JoinFieldsNoCR(fields[1..], seps[1..]);
      var f := fields[0];
      assert forall i :: 0 <= i < |f| ==> IsDigit(f[i]);
    }
  }

  lemma XTimeNoCR(t: DateTime)
    ensures '\r' !in XTime(t)
  {
    JoinFieldsNoCR(XTimeParts(t), Separators);
  }

  /** Reading a timestamp back recovers the text of every field. */
  lemma ParseXTimeOfXTime(t: DateTime)
    ensures ParseXTime(XTime(t)) == Some(Fields(Pad2(t.year), Pad2(t.month), Pad2(t.day),
      Pad2(ShiftedHour(t.hour)), Pad2(t.minute), Pad2(t.second), MillisField(t.microsecond)))
  {
    SplitJoinFields(XTimeParts(t), Separators);
  }

  /** For an instant `datetime` can produce, month, day, hour, minute and second are two digits
      each, and month, day, minute and second read back as the instant's own fields. */
  lemma XTimeTwoDigitFields(t: DateTime)
    requires t.Valid()
    ensures ParseXTime(XTime(t)).Some?
    ensures var f := ParseXTime(XTime(t)).value;
      && |f.month| == 2 && |f.day| == 2 && |f.hour| == 2 && |f.minute| == 2 && |f.second| == 2
      && DigitsValue(f.month) == t.month && DigitsValue(f.day) == t.day
      && DigitsValue(f.minute) == t.minute && DigitsValue(f.second) == t.second
  {
    ParseXTimeOfXTime(t);
    Pad2TwoDigits(t.month);
    Pad2TwoDigits(t.day);
    Pad2TwoDigits(ShiftedHour(t.hour));
    Pad2TwoDigits(t.minute);
    Pad2TwoDigits(t.second);
  }

  /** The hour field reads as the real hour minus one, modulo 24: hour 0 gives "23". */
  lemma XTimeHourField(t: DateTime)
    requires t.hour < 24
    ensures ParseXTime(XTime(t)).Some?
    ensures var h := ParseXTime(XTime(t)).value.hour;
      && DigitsValue(h) < 24
      && (DigitsValue(h) + 1) % 24 == t.hour
      && (t.hour == 0 ==> h == "23")
  {
    ParseXTimeOfXTime(t);
    var sh := ShiftedHour(t.hour);
    assert ParseXTime(XTime(t)).value.hour == Pad2(sh);
    assert DigitsValue(Pad2(sh)) == sh;
    if t.hour == 0 {
      HourZeroField();
    }
  }

  lemma HourZeroField()
    ensures Pad2(ShiftedHour(0)) == "23"
  {
    assert ShiftedHour(0) == 23;
    assert NatToString(2) == "2";
    assert NatToString(23) == "23";
  }

  /** A four-digit year is passed through unchanged, and the fraction is the leading three digits
      of the microseconds without zero padding. */
  lemma XTimeYearAndFraction(t: DateTime)
    ensures ParseXTime(XTime(t)).Some?
    ensures var f := ParseXTime(XTime(t)).value;
      && (1000 <= t.year <= 9999 ==> f.year == NatToString(t.year) && |f.year| == 4)
      && f.fraction == NatToString(LeadingThreeDigits(t.microsecond))
  {
    ParseXTimeOfXTime(t);
    MillisFieldLeadingDigits(t.microsecond);
    if 1000 <= t.year <= 9999 {
      NumDigitsFour(t.year);
    }
  }
}
