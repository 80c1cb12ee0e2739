/** The timestamp format the order normaliser parses: `datetime.strptime(s, "%Y-%m-%dT%H:%M:%SZ")`
    (core/order_manager.py, `parse_datetime`; inlined in db/order_manager.py), and the
    sub-second truncation applied to the second status-log entry.

    CPython's strptime compiles the format to a regular expression in which `%Y` is exactly
    four digits and `%m %d %H %M %S` accept one or two digits (`%d` also a space followed by a
    digit), literal letters match either case, and the whole string must be consumed; the
    fields are then checked by the calendar (year 1..9999, a day that exists in its month,
    seconds 0..59). The parser below follows that grammar over ASCII digits. */
module DateTimes {
  import opened Wrappers

  datatype DateTime = DateTime(year: int, month: int, day: int, hour: int, minute: int, second: int)

  predicate IsLeapYear(y: int)
  {
    y % 4 == 0 && (y % 100 != 0 || y % 400 == 0)
  }

  function DaysInMonth(y: int, m: int): int
    requires 1 <= m <= 12
  {
    if m == 2 then (if IsLeapYear(y) then 29 else 28)
    else if m == 4 || m == 6 || m == 9 || m == 11 then 30
    else 31
  }

  /** What `datetime(...)` accepts. */
  predicate Valid(dt: DateTime)
  {
    && 1 <= dt.year <= 9999
    && 1 <= dt.month <= 12
    && 1 <= dt.day <= DaysInMonth(dt.year, dt.month)
    && 0 <= dt.hour <= 23
    && 0 <= dt.minute <= 59
    && 0 <= dt.second <= 59
  }

  // ---------------------------------------------------------------- digits

  predicate IsDigit(c: char)
  {
    '0' <= c <= '9'
  }

  function DigitValue(c: char): int
    requires IsDigit(c)
  {
    c as int - '0' as int
  }

  function DigitChar(n: int): (c: char)
    requires 0 <= n <= 9
    ensures IsDigit(c) && DigitValue(c) == n
  {
    ('0' as int + n) as char
  }

  predicate AllDigits(s: string)
  {
    forall i :: 0 <= i < |s| ==> IsDigit(s[i])
  }

  /** Decimal value of a digit string, as `int(...)` reads it. */
  function Number(s: string): nat
    requires AllDigits(s)
  {
    if s == [] then 0 else Number(s[..|s| - 1]) * 10 + DigitValue(s[|s| - 1])
  }

  // ---------------------------------------------------------------- field tokens

  /** `%m`: `1[0-2]|0[1-9]|[1-9]` */
  predicate MonthToken(t: string)
  {
    || (|t| == 1 && '1' <= t[0] <= '9')
    || (|t| == 2 && ((t[0] == '1' && '0' <= t[1] <= '2') || (t[0] == '0' && '1' <= t[1] <= '9')))
  }

  /** `%d`: `3[01]|[12]\d|0[1-9]|[1-9]| [1-9]` */
  predicate DayToken(t: string)
  {
    || (|t| == 1 && '1' <= t[0] <= '9')
    || (|t| == 2 && (|| (t[0] == '3' && '0' <= t[1] <= '1')
                     || ('1' <= t[0] <= '2' && IsDigit(t[1]))
                     || ((t[0] == '0' || t[0] == ' ') && '1' <= t[1] <= '9')))
  }

  /** `%H`: `2[0-3]|[0-1]\d|\d` */
  predicate HourToken(t: string)
  {
    || (|t| == 1 && IsDigit(t[0]))
    || (|t| == 2 && ((t[0] == '2' && '0' <= t[1] <= '3') || ('0' <= t[0] <= '1' && IsDigit(t[1]))))
  }

  /** `%M`: `[0-5]\d|\d` */
  predicate MinuteToken(t: string)
  {
    || (|t| == 1 && IsDigit(t[0]))
    || (|t| == 2 && '0' <= t[0] <= '5' && IsDigit(t[1]))
  }

  /** `%S`: `6[0-1]|[0-5]\d|\d` (60 and 61 pass the pattern and are refused by the calendar) */
  predicate SecondToken(t: string)
  {
    || (|t| == 1 && IsDigit(t[0]))
    || (|t| == 2 && ((t[0] == '6' && '0' <= t[1] <= '1') || ('0' <= t[0] <= '5' && IsDigit(t[1]))))
  }

  /** Value of a one- or two-character field; a leading space (only `%d` allows one) is ignored. */
  function FieldValue(t: string): int
    requires 1 <= |t| <= 2
    requires (t[0] == ' ' && |t| == 2) || IsDigit(t[0])
    requires |t| == 2 ==> IsDigit(t[1])
  {
    if |t| == 1 then DigitValue(t[0])
    else if t[0] == ' ' then DigitValue(t[1])
    else DigitValue(t[0]) * 10 + DigitValue(t[1])
  }

  // ---------------------------------------------------------------- splitting

  predicate NoneIn(t: string, seps: set<char>)
  {
    forall i :: 0 <= i < |t| ==> t[i] !in seps
  }

  /** Splits `s` at its first character in `seps`: the part before and the part after it. */
  function SplitOnce(s: string, seps: set<char>): (r: Option<(string, string)>)
    ensures r.Some? ==> && |r.value.0| < |s|
                        && s == r.value.0 + [s[|r.value.0|]] + r.value.1
                        && s[|r.value.0|] in seps
                        && NoneIn(r.value.0, seps)
    ensures r.None? <==> NoneIn(s, seps)
  {
    if s == [] then None
    else if s[0] in seps then Some(([], s[1..]))
    else
      match SplitOnce(s[1..], seps)
      case None => None
      case Some(p) => Some(([s[0]] + p.0, p.1))
  }

  lemma {:induction false} SplitOnceAt(a: string, c: char, b: string, seps: set<char>)
    requires NoneIn(a, seps) && c in seps
    ensures SplitOnce(a + [c] + b, seps) == Some((a, b))
  {
    if a == [] {
      assert a + [c] + b == [c] + b;
    } else {
      assert (a + [c] + b)[1..] == a[1..] + [c] + b;
      SplitOnceAt(a[1..], c, b, seps);
      assert [a[0]] + a[1..] == a;
    }
  }

  // ---------------------------------------------------------------- parsing

  /** The five variable-width fields that follow `YYYY-`. */
  datatype Fields = Fields(month: string, day: string, hour: string, minute: string, second: string)

  /** Cuts `MM-DDTHH:MM:SSZ` at its separators; `None` when a separator is missing or
      something follows the final 'Z'. */
  function SplitFields(s: string): Option<Fields>
  {
    match SplitOnce(s, {'-'})
    case None => None
    case Some(p1) =>
      match SplitOnce(p1.1, {'T', 't'})
      case None => None
      case Some(p2) =>
        match SplitOnce(p2.1, {':'})
        case None => None
        case Some(p3) =>
          match SplitOnce(p3.1, {':'})
          case None => None
          case Some(p4) =>
            match SplitOnce(p4.1, {'Z', 'z'})
            case None => None
            case Some(p5) =>
              if p5.1 != [] then None  // "unconverted data remains"
              else Some(Fields(p1.0, p2.0, p3.0, p4.0, p5.0))
  }

  lemma SplitFieldsOf(m: string, d: string, h: string, mi: string, sec: string, t: char, z: char, tail: string)
    requires NoneIn(m, {'-'}) && NoneIn(d, {'T', 't'}) && NoneIn(h, {':'})
    requires NoneIn(mi, {':'}) && NoneIn(sec, {'Z', 'z'})
    requires t in {'T', 't'} && z in {'Z', 'z'}
    ensures SplitFields(m + ['-'] + (d + [t] + (h + [':'] + (mi + [':'] + (sec + [z] + tail)))))
            == if tail == [] then Some(Fields(m, d, h, mi, sec)) else None
  {
    var r4 := sec + [z] + tail;
    var r3 := mi + [':'] + r4;
    var r2 := h + [':'] + r3;
    var r1 := d + [t] + r2;
    SplitOnceAt(m, '-', r1, {'-'});
    SplitOnceAt(d, t, r2, {'T', 't'});
    SplitOnceAt(h, ':', r3, {':'});
    SplitOnceAt(mi, ':', r4, {':'});
    SplitOnceAt(sec, z, tail, {'Z', 'z'});
  }

  predicate TokensOk(f: Fields)
  {
    MonthToken(f.month) && DayToken(f.day) && HourToken(f.hour) && MinuteToken(f.minute) && SecondToken(f.second)
  }

  /** `datetime.strptime(s, "%Y-%m-%dT%H:%M:%SZ")`: `None` where Python raises ValueError. */
  function ParseDateTime(s: string): (r: Option<DateTime>)
    ensures r.Some? ==> Valid(r.value)
  {
    if |s| < 5 || !AllDigits(s[..4]) || s[4] != '-' then None
    else
      match SplitFields(s[5..])
      case None => None
      case Some(f) =>
        if !TokensOk(f) then None
        else
          var dt := DateTime(Number(s[..4]), FieldValue(f.month), FieldValue(f.day),
                             FieldValue(f.hour), FieldValue(f.minute), FieldValue(f.second));
          if Valid(dt) then Some(dt) else None
  }

  // ---------------------------------------------------------------- canonical form

  function Pad2(n: int): (t: string)
    requires 0 <= n <= 99
    ensures |t| == 2 && AllDigits(t)
  {
    [DigitChar(n / 10), DigitChar(n % 10)]
  }

  function Pad4(n: int): (t: string)
    requires 0 <= n <= 9999
    ensures |t| == 4 && AllDigits(t)
  {
    [DigitChar(n / 1000), DigitChar(n / 100 % 10), DigitChar(n / 10 % 10), DigitChar(n % 10)]
  }

  /** `YYYY-MM-DDTHH:MM:SSZ`, the fixed-width form the delivery platform sends. */
  function Format(dt: DateTime): (s: string)
    requires Valid(dt)
    ensures |s| == 20
  {
    Pad4(dt.year) + "-" + Pad2(dt.month) + "-" + Pad2(dt.day) + "T"
    + Pad2(dt.hour) + ":" + Pad2(dt.minute) + ":" + Pad2(dt.second) + "Z"
  }

  lemma Pad4Value(n: int)
    requires 0 <= n <= 9999
    ensures Number(Pad4(n)) == n
  {
    var t := Pad4(n);
    assert t[..1][..0] == [];
    assert t[..2][..1] == t[..1] && t[..3][..2] == t[..2] && t[..4][..3] == t[..3] && t[..4] == t;
    var q1, q2, q3 := n / 1000, n / 100, n / 10;
    assert q2 / 10 == q1 && q3 / 10 == q2 && n / 10 == q3;
    assert Number(t[..1]) == q1;
    assert Number(t[..2]) == q1 * 10 + q2 % 10 == q2;
    assert Number(t[..3]) == q2 * 10 + q3 % 10 == q3;
  }

  lemma Pad2Token(n: int)
    requires 0 <= n <= 99
    ensures FieldValue(Pad2(n)) == n
    ensures 1 <= n <= 12 ==> MonthToken(Pad2(n))
    ensures 1 <= n <= 31 ==> DayToken(Pad2(n))
    ensures n <= 23 ==> HourToken(Pad2(n))
    ensures n <= 59 ==> MinuteToken(Pad2(n)) && SecondToken(Pad2(n))
  {
  }

  /** Where the separators of the canonical form sit. */
  lemma {:induction false} FormatLayout(dt: DateTime, tail: string)
    requires Valid(dt)
    ensures var s := Format(dt)[..19] + ['Z'] + tail;
            && s[..4] == Pad4(dt.year) && s[4] == '-'
            && s[5..] == Pad2(dt.month) + ['-'] + (Pad2(dt.day) + ['T'] + (Pad2(dt.hour) + [':']
                 + (Pad2(dt.minute) + [':'] + (Pad2(dt.second) + ['Z'] + tail))))
  {
  }

  /** The canonical rendering of every valid timestamp parses back to itself. */
  lemma {:induction false} ParseFormat(dt: DateTime)
    requires Valid(dt)
    ensures ParseDateTime(Format(dt)) == Some(dt)
  {
    var s := Format(dt);
    assert s == s[..19] + ['Z'] + [];
    FormatLayout(dt, []);
    SplitFieldsOf(Pad2(dt.month), Pad2(dt.day), Pad2(dt.hour), Pad2(dt.minute), Pad2(dt.second), 'T', 'Z', []);
    Pad4Value(dt.year);
    Pad2Token(dt.month);
    Pad2Token(dt.day);
    Pad2Token(dt.hour);
    Pad2Token(dt.minute);
    Pad2Token(dt.second);
  }

  // ---------------------------------------------------------------- sub-second truncation

  /** `at.split(".")[0] + "Z"`: everything before the first '.', then a 'Z'. */
  function TruncateSubseconds(at: string): (r: string)
    ensures |r| >= 1 && r[|r| - 1] == 'Z'
    ensures var k := |r| - 1;
            && k <= |at| && r[..k] == at[..k] && NoneIn(r[..k], {'.'})
            && (k == |at| || at[k] == '.')
  {
    match SplitOnce(at, {'.'})
    case Some(p) => p.0 + "Z"
    case None => at + "Z"
  }

  /** A status-log time with a fractional part, `YYYY-MM-DDTHH:MM:SS.<digits>Z`, parses to
      the same whole second. */
  lemma TruncatedUpdateParses(dt: DateTime, fraction: string)
    requires Valid(dt)
    ensures ParseDateTime(TruncateSubseconds(Format(dt)[..19] + "." + fraction)) == Some(dt)
  {
    var s := Format(dt);
    FormatLayout(dt, []);
    assert s == s[..19] + ['Z'] + [];
    assert NoneIn(s[..19], {'.'});
    assert s[..19] + "." + fraction == s[..19] + ['.'] + fraction;
    SplitOnceAt(s[..19], '.', fraction, {'.'});
    ParseFormat(dt);
  }

  /** A status-log time without a fractional part gets a second 'Z' appended and is refused. */
  lemma WholeSecondUpdateRejected(dt: DateTime)
    requires Valid(dt)
    ensures ParseDateTime(TruncateSubseconds(Format(dt))) == None
  {
    var s := Format(dt);
    FormatLayout(dt, []);
    FormatLayout(dt, ['Z']);
    assert s == s[..19] + ['Z'] + [];
    assert NoneIn(s, {'.'});
    var t := TruncateSubseconds(s);
    assert t == s[..19] + ['Z'] + ['Z'];
    SplitFieldsOf(Pad2(dt.month), Pad2(dt.day), Pad2(dt.hour), Pad2(dt.minute), Pad2(dt.second), 'T', 'Z', ['Z']);
  }

  /** What the parser makes of a string with every separator in place. */
  lemma ParseOf(y: string, m: string, d: string, h: string, mi: string, sec: string, t: char, z: char)
    requires |y| == 4 && AllDigits(y)
    requires NoneIn(m, {'-'}) && NoneIn(d, {'T', 't'}) && NoneIn(h, {':'})
    requires NoneIn(mi, {':'}) && NoneIn(sec, {'Z', 'z'})
    requires t in {'T', 't'} && z in {'Z', 'z'}
    ensures var f := Fields(m, d, h, mi, sec);
            ParseDateTime(y + ['-'] + (m + ['-'] + (d + [t] + (h + [':'] + (mi + [':'] + (sec + [z]))))))
            == if !TokensOk(f) then None
               else var dt := DateTime(Number(y), FieldValue(m), FieldValue(d), FieldValue(h), FieldValue(mi), FieldValue(sec));
                    if Valid(dt) then Some(dt) else None
  {
    var rest := m + ['-'] + (d + [t] + (h + [':'] + (mi + [':'] + (sec + [z] + []))));
    var s := y + ['-'] + rest;
    assert sec + [z] + [] == sec + [z];
    assert s[..4] == y && s[4] == '-' && s[5..] == rest;
    SplitFieldsOf(m, d, h, mi, sec, t, z, []);
  }

  /** The grammar is wider than the fixed-width form: one-digit fields and a lower-case 't'
      are accepted ("2024-1-5t7:3:9Z"). */
  lemma ShortFieldsAccepted(y: string, m: string, d: string, h: string, mi: string, sec: string)
    requires y == "2024" && m == "1" && d == "5" && h == "7" && mi == "3" && sec == "9"
    ensures ParseDateTime(y + ['-'] + (m + ['-'] + (d + ['t'] + (h + [':'] + (mi + [':'] + (sec + ['Z']))))))
            == Some(DateTime(2024, 1, 5, 7, 3, 9))
  {
    assert TokensOk(Fields(m, d, h, mi, sec));
    assert FieldValue(m) == 1 && FieldValue(d) == 5 && FieldValue(h) == 7;
    assert FieldValue(mi) == 3 && FieldValue(sec) == 9;
    ParseOf(y, m, d, h, mi, sec, 't', 'Z');
    YearValue(y);
    assert y[..4] == y;
    assert Number(y) == 2024;
  }

  lemma YearValue(s: string)
    requires |s| >= 4 && AllDigits(s[..4])
    ensures Number(s[..4]) == DigitValue(s[0]) * 1000 + DigitValue(s[1]) * 100 + DigitValue(s[2]) * 10 + DigitValue(s[3])
  {
    var t := s[..4];
    assert t[..3][..2] == t[..2] && t[..2][..1] == t[..1] && t[..1][..0] == [];
    assert Number(t[..1]) == DigitValue(s[0]);
    assert Number(t[..2]) == DigitValue(s[0]) * 10 + DigitValue(s[1]);
    assert Number(t[..3]) == Number(t[..2]) * 10 + DigitValue(s[2]);
    assert Number(t) == Number(t[..3]) * 10 + DigitValue(s[3]);
  }

  /** A well-formed string naming a day that does not exist is refused ("2023-02-29T10:00:00Z"). */
  lemma NonexistentDayRejected(y: string, m: string, d: string, h: string, mi: string, sec: string)
    requires y == "2023" && m == "02" && d == "29" && h == "10" && mi == "00" && sec == "00"
    ensures ParseDateTime(y + ['-'] + (m + ['-'] + (d + ['T'] + (h + [':'] + (mi + [':'] + (sec + ['Z'])))))) == None
  {
    ParseOf(y, m, d, h, mi, sec, 'T', 'Z');
    YearValue(y);
    assert y[..4] == y;
    assert Number(y) == 2023;
  }
}
