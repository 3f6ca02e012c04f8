/**
 * Naive Python `datetime` values as the landing store uses them: the file-name
 * format "%Y-%m-%dT%H-%M-%S" written by `strftime` and read back by `strptime`,
 * and `isoformat()` for the envelope's metadata.
 */
module Timestamps {

  import opened Wrappers
  import opened Text

  /** A naive `datetime`: calendar fields plus microseconds. */
  datatype DateTime = DateTime(year: nat, month: nat, day: nat,
                               hour: nat, minute: nat, second: nat, micro: nat)

  predicate IsLeapYear(y: nat) {
    y % 4 == 0 && (y % 100 != 0 || y % 400 == 0)
  }

  function DaysInMonth(y: nat, m: nat): nat {
    if m == 2 then (if IsLeapYear(y) then 29 else 28)
    else if m == 4 || m == 6 || m == 9 || m == 11 then 30
    else 31
  }

  /** The values `datetime` accepts (years 1 to 9999, the proleptic Gregorian calendar). */
  predicate Valid(t: DateTime) {
    && 1 <= t.year <= 9999
    && 1 <= t.month <= 12
    && 1 <= t.day <= DaysInMonth(t.year, t.month)
    && t.hour < 24 && t.minute < 60 && t.second < 60
    && t.micro < 1000000
  }

  /** `a < b` on naive datetimes: field by field, most significant first. */
  predicate Before(a: DateTime, b: DateTime) {
    if a.year != b.year then a.year < b.year
    else if a.month != b.month then a.month < b.month
    else if a.day != b.day then a.day < b.day
    else if a.hour != b.hour then a.hour < b.hour
    else if a.minute != b.minute then a.minute < b.minute
    else if a.second != b.second then a.second < b.second
    else a.micro < b.micro
  }

  /** What survives a trip through the file-name format: everything but microseconds. */
  function Truncate(t: DateTime): DateTime {
    t.(micro := 0)
  }

  /** `t.strftime("%Y-%m-%dT%H-%M-%S")`: fixed width, 19 characters. */
  function Stamp(t: DateTime): (s: string)
    ensures |s| == 19
  {
    Digits(t.year, 4) + ("-" + (Digits(t.month, 2) + ("-" + (Digits(t.day, 2) + ("T" +
      (Digits(t.hour, 2) + ("-" + (Digits(t.minute, 2) + ("-" + Digits(t.second, 2))))))))))
  }

  /** `t.isoformat()`: "YYYY-MM-DDTHH:MM:SS", then ".ffffff" when microseconds are not zero. */
  function IsoFormat(t: DateTime): (s: string)
    ensures |s| == if t.micro == 0 then 19 else 26
  {
    Digits(t.year, 4) + "-" + Digits(t.month, 2) + "-" + Digits(t.day, 2) + "T" +
    Digits(t.hour, 2) + ":" + Digits(t.minute, 2) + ":" + Digits(t.second, 2) +
    (if t.micro == 0 then "" else "." + Digits(t.micro, 6))
  }

  // ---------------------------------------------------------------------------
  // datetime.strptime(s, "%Y-%m-%dT%H-%M-%S")

  /** `%m`, `%H`, `%M`, `%S` accept one or two digits; the range is checked afterwards. */
  predicate NumberField(f: string) {
    1 <= |f| <= 2 && AllDigits(f)
  }

  /** `%d` also accepts a space followed by one digit. */
  predicate DayField(f: string) {
    NumberField(f) || (|f| == 2 && f[0] == ' ' && IsDigit(f[1]))
  }

  function DayValue(f: string): nat
    requires DayField(f)
  {
    if f[0] == ' ' then Value(f[1..]) else Value(f)
  }

  /** The characters a parsable time text can contain. */
  predicate StampChar(c: char) {
    IsDigit(c) || c == '-' || c == 'T' || c == 't' || c == ' '
  }

  /** The six field texts of a time text, before their values are checked. */
  datatype FieldTexts = FieldTexts(year: string, month: string, day: string,
                                   hour: string, minute: string, second: string)

  /** The time part of a time text: up to `-`, up to `-`, and the rest. */
  function SplitTime(s: string): Option<(string, string, string)>
  {
    var p3 :- SplitFirst(s, {'-'});
    var p4 :- SplitFirst(p3.1, {'-'});
    Some((p3.0, p4.0, p4.1))
  }

  /**
   * Cutting a time text at its literals: four digits, `-`, then the text up to
   * the next `-`, up to `T` or `t`, and the time part.
   */
  function SplitStamp(s: string): Option<FieldTexts>
  {
    if |s| < 5 || !AllDigits(s[..4]) || s[4] != '-' then None
    else
      var p1 :- SplitFirst(s[5..], {'-'});
      var p2 :- SplitFirst(p1.1, {'T', 't'});
      var time :- SplitTime(p2.1);
      Some(FieldTexts(s[..4], p1.0, p2.0, time.0, time.1, time.2))
  }

  /** The range checks `strptime` applies to the field texts. */
  function FromFields(f: FieldTexts): (r: Option<DateTime>)
    ensures r.Some? ==> Valid(r.value) && r.value.micro == 0
  {
    if AllDigits(f.year) && NumberField(f.month) && DayField(f.day) && NumberField(f.hour)
       && NumberField(f.minute) && NumberField(f.second)
    then
      var t := DateTime(Value(f.year), Value(f.month), DayValue(f.day), Value(f.hour), Value(f.minute), Value(f.second), 0);
      if Valid(t) then Some(t) else None
    else None
  }

  /**
   * `datetime.strptime(s, "%Y-%m-%dT%H-%M-%S")`: None where Python raises
   * ValueError. `%Y` takes exactly four digits, the other fields one or two,
   * the literal `T` matches either case, the whole text must be consumed and
   * the fields must form a valid datetime (no month 13, no 30 February, no
   * second 60). The result has no microseconds.
   */
  function ParseStamp(s: string): (r: Option<DateTime>)
    ensures r.Some? ==> Valid(r.value) && r.value.micro == 0
  {
    var f :- SplitStamp(s);
    FromFields(f)
  }

  predicate AllStampChars(s: string) {
    forall i :: 0 <= i < |s| ==> StampChar(s[i])
  }

  lemma SplitChars(s: string, seps: set<char>)
    requires SplitFirst(s, seps).Some?
    requires forall c :: c in seps ==> StampChar(c)
    requires AllStampChars(SplitFirst(s, seps).value.0) && AllStampChars(SplitFirst(s, seps).value.1)
    ensures AllStampChars(s)
  {
    var (a, b) := SplitFirst(s, seps).value;
    forall i | 0 <= i < |s| ensures StampChar(s[i]) {
      if i < |a| {
        assert s[i] == a[i];
      } else if i > |a| {
        assert s[i] == b[i - |a| - 1];
      }
    }
  }

  lemma FieldTextChars(f: string)
    requires AllDigits(f) || DayField(f)
    ensures AllStampChars(f)
  {
    if !AllDigits(f) && f[0] == ' ' {
      assert StampChar(f[1]);
    }
  }

  /** The time part of a text that parses holds only digits and `-`. */
  lemma TimeChars(s: string)
    requires SplitTime(s).Some?
    requires var r := SplitTime(s).value; NumberField(r.0) && NumberField(r.1) && NumberField(r.2)
    ensures AllStampChars(s)
  {
    var p3 := SplitFirst(s, {'-'}).value;
    var p4 := SplitFirst(p3.1, {'-'}).value;
    FieldTextChars(p3.0);
    FieldTextChars(p4.0);
    FieldTextChars(p4.1);
    SplitChars(p3.1, {'-'});
    SplitChars(s, {'-'});
  }

  /** What a successful parse says about the field texts. */
  lemma ParsedFields(s: string)
    requires ParseStamp(s).Some?
    ensures SplitStamp(s).Some?
    ensures var f := SplitStamp(s).value;
      AllDigits(f.year) && NumberField(f.month) && DayField(f.day) && NumberField(f.hour)
      && NumberField(f.minute) && NumberField(f.second)
  {
  }

  /** Every character of a text that parses is a digit, a separator or a space. */
  lemma ParsedChars(s: string)
    requires ParseStamp(s).Some?
    ensures AllStampChars(s)
  {
    ParsedFields(s);
    FieldChars(s);
  }

  lemma FieldChars(s: string)
    requires SplitStamp(s).Some?
    requires var f := SplitStamp(s).value;
      AllDigits(f.year) && NumberField(f.month) && DayField(f.day) && NumberField(f.hour)
      && NumberField(f.minute) && NumberField(f.second)
    ensures AllStampChars(s)
  {
    var f := SplitStamp(s).value;
    var p1 := SplitFirst(s[5..], {'-'}).value;
    var p2 := SplitFirst(p1.1, {'T', 't'}).value;
    assert f.month == p1.0 && f.day == p2.0 && f.year == s[..4];
    assert SplitTime(p2.1).value == (f.hour, f.minute, f.second);
    TimeChars(p2.1);
    FieldTextChars(f.day);
    SplitChars(p1.1, {'T', 't'});
    FieldTextChars(f.month);
    SplitChars(s[5..], {'-'});
    FieldTextChars(f.year);
    PrefixChars(s);
  }

  lemma PrefixChars(s: string)
    requires |s| >= 5 && s[4] == '-' && AllStampChars(s[..4]) && AllStampChars(s[5..])
    ensures AllStampChars(s)
  {
    forall i | 0 <= i < |s| ensures StampChar(s[i]) {
      if i < 4 {
        assert s[i] == s[..4][i];
      } else if i > 4 {
        assert s[i] == s[5..][i - 5];
      }
    }
  }

  /** A text with an underscore in it never parses. */
  lemma UnderscoreNeverParses(s: string)
    requires '_' in s
    ensures ParseStamp(s).None?
  {
    if ParseStamp(s).Some? {
      ParsedChars(s);
      assert false;
    }
  }

  /** Splitting at a separator that the text before it avoids. */
  lemma SplitAt(a: string, sep: char, b: string, seps: set<char>)
    requires sep in seps && Avoids(a, seps)
    ensures SplitFirst(a + ([sep] + b), seps) == Some((a, b))
  {
    assert a + ([sep] + b) == a + [sep] + b;
    SplitFirstOf(a, sep, b, seps);
  }

  lemma DigitsAvoid(s: string)
    requires AllDigits(s)
    ensures Avoids(s, {'-'}) && Avoids(s, {'T', 't'})
  {
    assert forall i :: 0 <= i < |s| ==> IsDigit(s[i]);
  }

  lemma SplitTimeOf(h: string, mi: string, se: string)
    requires AllDigits(h) && AllDigits(mi)
    ensures SplitTime(h + ("-" + (mi + ("-" + se)))) == Some((h, mi, se))
  {
    DigitsAvoid(h);
    DigitsAvoid(mi);
    SplitAt(h, '-', mi + ("-" + se), {'-'});
    SplitAt(mi, '-', se, {'-'});
  }

  lemma SplitDateOf(y: string, mo: string, d: string, rest: string)
    requires |y| == 4 && AllDigits(y) && AllDigits(mo) && AllDigits(d)
    requires SplitTime(rest).Some?
    ensures SplitStamp(y + ("-" + (mo + ("-" + (d + ("T" + rest)))))) ==
            Some(FieldTexts(y, mo, d, SplitTime(rest).value.0, SplitTime(rest).value.1, SplitTime(rest).value.2))
  {
    var s := y + ("-" + (mo + ("-" + (d + ("T" + rest)))));
    assert s[..4] == y && s[4] == '-' && s[5..] == mo + ("-" + (d + ("T" + rest)));
    DigitsAvoid(mo);
    DigitsAvoid(d);
    SplitAt(mo, '-', d + ("T" + rest), {'-'});
    SplitAt(d, 'T', rest, {'T', 't'});
  }

  /** `SplitStamp` finds the six fields `Stamp` wrote. */
  lemma SplitStampOfStamp(t: DateTime)
    ensures SplitStamp(Stamp(t)) == Some(FieldTexts(Digits(t.year, 4), Digits(t.month, 2), Digits(t.day, 2),
                                                    Digits(t.hour, 2), Digits(t.minute, 2), Digits(t.second, 2)))
  {
    var h, mi, se := Digits(t.hour, 2), Digits(t.minute, 2), Digits(t.second, 2);
    SplitTimeOf(h, mi, se);
    SplitDateOf(Digits(t.year, 4), Digits(t.month, 2), Digits(t.day, 2), h + ("-" + (mi + ("-" + se))));
  }

  /** A two-digit field reads back as the number written. */
  lemma TwoDigitField(n: nat)
    requires n < 100
    ensures NumberField(Digits(n, 2)) && DayField(Digits(n, 2))
    ensures Value(Digits(n, 2)) == n && DayValue(Digits(n, 2)) == n
  {
    ValueOfDigits(n, 2);
    assert IsDigit(Digits(n, 2)[0]);
  }

  /** Parsing what `Stamp` wrote gives back the datetime without its microseconds. */
  lemma ParseStampRoundTrip(t: DateTime)
    requires Valid(t)
    ensures ParseStamp(Stamp(t)) == Some(Truncate(t))
  {
    SplitStampOfStamp(t);
    FromFieldsOfDigits(t);
  }

  lemma FromFieldsOfDigits(t: DateTime)
    requires Valid(t)
    ensures FromFields(FieldTexts(Digits(t.year, 4), Digits(t.month, 2), Digits(t.day, 2),
                                  Digits(t.hour, 2), Digits(t.minute, 2), Digits(t.second, 2))) == Some(Truncate(t))
  {
    ValueOfDigits(t.year, 4);
    TwoDigitField(t.month);
    TwoDigitField(t.day);
    TwoDigitField(t.hour);
    TwoDigitField(t.minute);
    TwoDigitField(t.second);
  }

  // ---------------------------------------------------------------------------
  // The file-name format sorts like time

  /** One fixed-width field followed by the rest of the text. */
  lemma FieldThen(a: nat, b: nat, w: nat, u: string, v: string)
    requires a < Pow10(w) && b < Pow10(w)
    ensures Lt(Digits(a, w) + u, Digits(b, w) + v) <==> a < b || (a == b && Lt(u, v))
  {
    LtAppend(Digits(a, w), Digits(b, w), u, v);
    DigitsOrder(a, b, w);
    DigitsInjective(a, b, w);
  }

  /**
   * Because every field has a fixed width, comparing two stamps as strings is
   * comparing the datetimes they came from, to the second.
   */
  lemma StampOrder(a: DateTime, b: DateTime)
    requires Valid(a) && Valid(b)
    ensures Lt(Stamp(a), Stamp(b)) <==> Before(Truncate(a), Truncate(b))
  {
    var sa6, sb6 := Digits(a.second, 2), Digits(b.second, 2);
    LtAppend(sa6, sb6, [], []);
    LtIrreflexive([]);
    assert sa6 + [] == sa6 && sb6 + [] == sb6;
    FieldThen(a.second, b.second, 2, [], []);
    var sa5, sb5 := Digits(a.minute, 2) + ("-" + sa6), Digits(b.minute, 2) + ("-" + sb6);
    LtCommonPrefix("-", sa6, sb6);
    FieldThen(a.minute, b.minute, 2, "-" + sa6, "-" + sb6);
    var sa4, sb4 := Digits(a.hour, 2) + ("-" + sa5), Digits(b.hour, 2) + ("-" + sb5);
    LtCommonPrefix("-", sa5, sb5);
    FieldThen(a.hour, b.hour, 2, "-" + sa5, "-" + sb5);
    var sa3, sb3 := Digits(a.day, 2) + ("T" + sa4), Digits(b.day, 2) + ("T" + sb4);
    LtCommonPrefix("T", sa4, sb4);
    FieldThen(a.day, b.day, 2, "T" + sa4, "T" + sb4);
    var sa2, sb2 := Digits(a.month, 2) + ("-" + sa3), Digits(b.month, 2) + ("-" + sb3);
    LtCommonPrefix("-", sa3, sb3);
    FieldThen(a.month, b.month, 2, "-" + sa3, "-" + sb3);
    LtCommonPrefix("-", sa2, sb2);
    FieldThen(a.year, b.year, 4, "-" + sa2, "-" + sb2);
  }

  /** Equal stamps mean the same second. */
  lemma StampInjective(a: DateTime, b: DateTime)
    requires Valid(a) && Valid(b)
    ensures Stamp(a) == Stamp(b) <==> Truncate(a) == Truncate(b)
  {
    if Stamp(a) == Stamp(b) {
      ParseStampRoundTrip(a);
      ParseStampRoundTrip(b);
    }
  }
}
