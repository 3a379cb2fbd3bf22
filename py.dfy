/** The Python values and the Python built-ins that the song model relies on:
    `str()`, `int()`, `datetime.strptime`, `str.split`, `str.strip`,
    `str.lower`, slicing, insertion into a `dict` and de-duplication
    through `set`. Only what the music manager uses is modelled. */
module Py {

  datatype Option<+T> = None | Some(value: T)

  /** The exceptions the modelled code raises or lets through. */
  datatype Error =
    | TypeError
    | ValueError
    | AttributeError
    | IndexError
    | UnboundLocalError
    | PlayerError
    | SystemExit

  datatype Result<+T> = Ok(value: T) | Err(error: Error)

  /** `datetime.date` and `datetime.datetime` (microseconds and time
      zones are not modelled). */
  datatype CalDate = CalDate(year: int, month: int, day: int)
  datatype Moment = Moment(date: CalDate, hour: int, minute: int, second: int)

  /** A Python value as it reaches a song field: `str`, `int`, `date`,
      `datetime` or `None`. */
  datatype Value =
    | Str(s: string)
    | Int(i: int)
    | Date(d: CalDate)
    | DateTime(t: Moment)
    | Null

  // ---------------------------------------------------------------------
  // Calendar

  predicate IsLeapYear(y: int) {
    y % 4 == 0 && (y % 100 != 0 || y % 400 == 0)
  }

  function DaysInMonth(y: int, m: int): (n: int)
    requires 1 <= m <= 12
    ensures 28 <= n <= 31
  {
    if m == 2 then (if IsLeapYear(y) then 29 else 28)
    else if m == 4 || m == 6 || m == 9 || m == 11 then 30
    else 31
  }

  /** The dates `datetime.date` accepts (MINYEAR 1 to MAXYEAR 9999). */
  predicate ValidDate(d: CalDate) {
    1 <= d.year <= 9999 && 1 <= d.month <= 12 && 1 <= d.day <= DaysInMonth(d.year, d.month)
  }

  predicate ValidMoment(t: Moment) {
    ValidDate(t.date) && 0 <= t.hour < 24 && 0 <= t.minute < 60 && 0 <= t.second < 60
  }

  /** `datetime.datetime.fromordinal(d.toordinal())`: midnight of the day. */
  function Midnight(d: CalDate): (t: Moment)
    ensures t.date == d && t.hour == 0 && t.minute == 0 && t.second == 0
  {
    Moment(d, 0, 0, 0)
  }

  // ---------------------------------------------------------------------
  // Decimal digits

  predicate IsDigit(c: char) { '0' <= c <= '9' }

  predicate AllDigits(s: string) {
    forall i :: 0 <= i < |s| ==> IsDigit(s[i])
  }

  function DigitChar(d: nat): (c: char)
    requires d < 10
    ensures IsDigit(c) && c as int - '0' as int == d
  {
    (d + '0' as int) as char
  }

  /** The value of a string of decimal digits, most significant first. */
  function DigitsValue(s: string): nat
    requires AllDigits(s)
  {
    if |s| == 0 then 0
    else DigitsValue(s[..|s| - 1]) * 10 + (s[|s| - 1] as int - '0' as int)
  }

  /** The decimal digits of `n`, without leading zeros. */
  function Decimal(n: nat): (s: string)
    ensures 1 <= |s| && AllDigits(s)
  {
    if n < 10 then [DigitChar(n)] else Decimal(n / 10) + [DigitChar(n % 10)]
  }

  lemma {:induction false} DecimalValue(n: nat)
    ensures DigitsValue(Decimal(n)) == n
  {
    if n >= 10 {
      var s := Decimal(n);
      assert s[..|s| - 1] == Decimal(n / 10);
      DecimalValue(n / 10);
    }
  }

  /** `n` written with at least `width` digits, zero padded (`%0<width>d`). */
  function Padded(n: nat, width: nat): (s: string)
    ensures |s| >= width && AllDigits(s)
    decreases width
  {
    var d := Decimal(n);
    if |d| >= width then d else ['0'] + Padded(n, width - 1)
  }

  /** `str(i)` for an `int`. */
  function IntText(i: int): (s: string)
    ensures |s| >= 1
  {
    if i < 0 then "-" + Decimal(-i) else Decimal(i)
  }

  /** Digits with single `_` separators between them: the digit part
      `int()` accepts. */
  predicate Grouped(s: string) {
    && |s| > 0 && IsDigit(s[0]) && IsDigit(s[|s| - 1])
    && (forall i :: 0 <= i < |s| ==> IsDigit(s[i]) || s[i] == '_')
    && (forall i :: 0 <= i < |s| - 1 ==> s[i] == '_' ==> IsDigit(s[i + 1]))
  }

  /** The digits of `s` with its `_` separators dropped. */
  function Ungrouped(s: string): (d: string)
    requires forall i :: 0 <= i < |s| ==> IsDigit(s[i]) || s[i] == '_'
    ensures AllDigits(d) && |d| <= |s|
  {
    if |s| == 0 then []
    else (if s[0] == '_' then [] else [s[0]]) + Ungrouped(s[1..])
  }

  lemma {:induction false} UngroupedDigits(s: string)
    requires AllDigits(s)
    ensures Ungrouped(s) == s
  {
    if |s| > 0 {
      UngroupedDigits(s[1..]);
      assert s == [s[0]] + s[1..];
    }
  }

  /** `int(s)` for a `str`: whitespace around the number is ignored. */
  function ParseInt(s: string): (r: Result<int>)
    ensures r.Err? ==> r.error == ValueError
  {
    ParseNumber(Strip(s))
  }

  /** The number itself: an optional sign followed by ASCII digits, with
      single `_` allowed between digits; anything else raises
      `ValueError`. */
  function ParseNumber(t: string): (r: Result<int>)
    ensures r.Err? ==> r.error == ValueError
  {
    if |t| > 0 && (t[0] == '-' || t[0] == '+') then
      var digits := t[1..];
      if Grouped(digits) then
        var n: int := DigitsValue(Ungrouped(digits));
        Ok(if t[0] == '-' then -n else n)
      else Err(ValueError)
    else if Grouped(t) then Ok(DigitsValue(Ungrouped(t)))
    else Err(ValueError)
  }

  /** `int(str(i)) == i`. */
  lemma IntTextRoundTrip(i: int)
    ensures ParseInt(IntText(i)) == Ok(i)
  {
    IntTextStripped(i);
    IntTextNumber(i);
  }

  /** The text of `i` is read back as `i`. */
  lemma IntTextNumber(i: int)
    ensures ParseNumber(IntText(i)) == Ok(i)
  {
    var n: nat := if i < 0 then -i else i;
    var d := Decimal(n);
    DigitsGrouped(d);
    DecimalValue(n);
    var s := IntText(i);
    if i < 0 {
      assert s == "-" + d;
      NegativeNumber(s, d);
    } else {
      assert s == d;
      UnsignedNumber(d);
    }
  }

  lemma NegativeNumber(s: string, d: string)
    requires s == "-" + d && Grouped(d) && Ungrouped(d) == d
    ensures ParseNumber(s) == Ok(-(DigitsValue(d) as int))
  {
    assert s[0] == '-' && s[1..] == d;
  }

  lemma UnsignedNumber(d: string)
    requires Grouped(d) && Ungrouped(d) == d
    ensures ParseNumber(d) == Ok(DigitsValue(d))
  {
    assert IsDigit(d[0]);
  }

  /** A number's text has no whitespace around it. */
  lemma IntTextStripped(i: int)
    ensures Strip(IntText(i)) == IntText(i)
  {
    var s := IntText(i);
    var d := if i < 0 then Decimal(-i) else Decimal(i);
    assert IsDigit(d[|d| - 1]);
    assert s[|s| - 1] == d[|d| - 1];
    assert s[0] == '-' || IsDigit(s[0]);
    StripUnpadded(s);
  }

  /** Plain digits are a grouped number without separators. */
  lemma DigitsGrouped(d: string)
    requires |d| > 0 && AllDigits(d)
    ensures Grouped(d) && Ungrouped(d) == d
  {
    UngroupedDigits(d);
  }

  /** `int()` ignores the whitespace around a number. */
  lemma ParseIntPadded()
    ensures ParseInt(" 7\n") == Ok(7)
  {
    var s := " 7\n";
    assert s[1..] == "7\n" && s[..2] == " 7";
    assert LeadingSpaces(s) == 1 && EndOfText(s) == 2;
    assert Strip(s) == "7";
    UngroupedDigits("7");
  }

  /** `int()` accepts a single underscore between digits. */
  lemma ParseIntGrouped()
    ensures ParseInt("1_0") == Ok(10)
  {
    StripUnpadded("1_0");
    GroupedNumber();
  }

  lemma GroupedNumber()
    ensures ParseNumber("1_0") == Ok(10)
  {
    var t := "1_0";
    assert Grouped(t);
    assert t[1..] == "_0" && t[1..][1..] == "0";
    UngroupedDigits("0");
    assert Ungrouped(t) == "10";
    assert "10"[..1] == "1" && "1"[..0] == "";
    assert DigitsValue("10") == 10;
  }

  /** A doubled underscore is refused. */
  lemma ParseIntDoubledUnderscore()
    ensures ParseInt("1__0") == Err(ValueError)
  {
    var s := "1__0";
    StripUnpadded(s);
    assert s[1] == '_' && s[2] == '_';
    assert !Grouped(s);
  }

  // ---------------------------------------------------------------------
  // str() and int() of a value

  /** `str(date)`: `YYYY-MM-DD`. */
  function DateText(d: CalDate): string {
    Padded(if d.year < 0 then 0 else d.year, 4) + "-"
    + Padded(if d.month < 0 then 0 else d.month, 2) + "-"
    + Padded(if d.day < 0 then 0 else d.day, 2)
  }

  /** `str(datetime)`: `YYYY-MM-DD HH:MM:SS`. */
  function MomentText(t: Moment): string {
    DateText(t.date) + " "
    + Padded(if t.hour < 0 then 0 else t.hour, 2) + ":"
    + Padded(if t.minute < 0 then 0 else t.minute, 2) + ":"
    + Padded(if t.second < 0 then 0 else t.second, 2)
  }

  /** The built-in `str` applied to a value; it never fails. */
  function ToStr(v: Value): (r: Value)
    ensures r.Str?
    ensures v.Str? ==> r == v
  {
    match v
    case Str(s) => Str(s)
    case Int(i) => Str(IntText(i))
    case Date(d) => Str(DateText(d))
    case DateTime(t) => Str(MomentText(t))
    case Null => Str("None")
  }

  /** The built-in `int` applied to a value: identity on `int`, parsing on
      `str` (`ValueError` when it is not a number), `TypeError` on `None`
      and on dates. */
  function ToInt(v: Value): (r: Result<Value>)
    ensures r.Ok? ==> r.value.Int?
    ensures r.Ok? <==> v.Int? || (v.Str? && ParseInt(v.s).Ok?)
    ensures v.Int? ==> r == Ok(v)
  {
    match v
    case Int(i) => Ok(Int(i))
    case Str(s) => (match ParseInt(s) case Ok(i) => Ok(Int(i)) case Err(e) => Err(e))
    case _ => Err(TypeError)
  }

  // ---------------------------------------------------------------------
  // datetime.strptime(text, "%Y-%m-%dT%H:%M:%SZ")

  /** The two-digit field of `s` starting at `i`. */
  function Field2(s: string, i: nat): Option<nat>
    requires i + 2 <= |s|
  {
    if AllDigits(s[i..i + 2]) then Some(DigitsValue(s[i..i + 2])) else None
  }

  /** `strptime` with the format `%Y-%m-%dT%H:%M:%SZ`, every numeric field
      at its full width. The literal `T` and `Z` match either case, as
      `strptime` matches case-insensitively. A string that does not have
      the form, or names a day or time that does not exist, raises
      `ValueError`; a value that is not a `str` raises `TypeError`. */
  function Strptime(v: Value): (r: Result<Moment>)
    ensures r.Ok? ==> ValidMoment(r.value)
    ensures r.Err? ==> r.error == (if v.Str? then ValueError else TypeError)
  {
    match v
    case Str(s) =>
      if |s| != 20 || s[4] != '-' || s[7] != '-' || (s[10] != 'T' && s[10] != 't')
         || s[13] != ':' || s[16] != ':' || (s[19] != 'Z' && s[19] != 'z')
         || !AllDigits(s[0..4])
      then Err(ValueError)
      else
        var year := DigitsValue(s[0..4]);
        (match (Field2(s, 5), Field2(s, 8), Field2(s, 11), Field2(s, 14), Field2(s, 17))
         case (Some(month), Some(day), Some(hour), Some(minute), Some(second)) =>
           var t := Moment(CalDate(year, month, day), hour, minute, second);
           if ValidMoment(t) then Ok(t) else Err(ValueError)
         case _ => Err(ValueError))
    case _ => Err(TypeError)
  }

  /** The text `strptime` reads back: `YYYY-MM-DDTHH:MM:SSZ`. */
  function IsoZ(t: Moment): string
    requires ValidMoment(t)
  {
    Padded(t.date.year, 4) + "-" + Padded(t.date.month, 2) + "-" + Padded(t.date.day, 2)
    + "T" + Padded(t.hour, 2) + ":" + Padded(t.minute, 2) + ":" + Padded(t.second, 2) + "Z"
  }

  lemma {:induction false} PaddedValue(n: nat, width: nat)
    ensures DigitsValue(Padded(n, width)) == n
    ensures |Decimal(n)| <= width ==> |Padded(n, width)| == width
    decreases width
  {
    var d := Decimal(n);
    if |d| >= width {
      DecimalValue(n);
    } else {
      PaddedValue(n, width - 1);
      LeadingZero(Padded(n, width - 1));
    }
  }

  /** A zero in front of a digit string does not change its value. */
  lemma {:induction false} LeadingZero(s: string)
    requires AllDigits(s)
    ensures DigitsValue(['0'] + s) == DigitsValue(s)
    decreases |s|
  {
    if |s| > 0 {
      var t := ['0'] + s;
      assert t[..|t| - 1] == ['0'] + s[..|s| - 1];
      LeadingZero(s[..|s| - 1]);
    }
  }

  /** Numbers below 10^k have at most k digits. */
  lemma {:induction false} DecimalLength(n: nat, k: nat)
    requires n < Pow10(k)
    ensures |Decimal(n)| <= (if k == 0 then 1 else k)
    decreases k
  {
    if n >= 10 {
      assert k >= 2;
      DecimalLength(n / 10, k - 1);
    }
  }

  function Pow10(k: nat): nat {
    if k == 0 then 1 else 10 * Pow10(k - 1)
  }

  /** A number below 10^width, padded to `width`, takes exactly `width`
      digits and reads back as itself. */
  lemma PaddedExact(n: nat, width: nat)
    requires 1 <= width && n < Pow10(width)
    ensures |Padded(n, width)| == width && DigitsValue(Padded(n, width)) == n
  {
    DecimalLength(n, width);
    PaddedValue(n, width);
  }

  /** `s` holds the fields of `t` where the format puts them. */
  predicate IsoShape(s: string, t: Moment) {
    |s| == 20 && s[4] == '-' && s[7] == '-' && s[10] == 'T' && s[13] == ':' && s[16] == ':' && s[19] == 'Z'
    && AllDigits(s[0..4]) && DigitsValue(s[0..4]) == t.date.year
    && Field2(s, 5) == Some(t.date.month) && Field2(s, 8) == Some(t.date.day)
    && Field2(s, 11) == Some(t.hour) && Field2(s, 14) == Some(t.minute) && Field2(s, 17) == Some(t.second)
  }

  /** Where each padded field of `IsoZ(t)` sits. */
  lemma IsoZSlices(t: Moment)
    requires ValidMoment(t)
    requires |Padded(t.date.year, 4)| == 4 && |Padded(t.date.month, 2)| == 2 && |Padded(t.date.day, 2)| == 2
    requires |Padded(t.hour, 2)| == 2 && |Padded(t.minute, 2)| == 2 && |Padded(t.second, 2)| == 2
    ensures var s := IsoZ(t);
      |s| == 20 && s[4] == '-' && s[7] == '-' && s[10] == 'T' && s[13] == ':' && s[16] == ':' && s[19] == 'Z'
      && s[0..4] == Padded(t.date.year, 4) && s[5..7] == Padded(t.date.month, 2) && s[8..10] == Padded(t.date.day, 2)
      && s[11..13] == Padded(t.hour, 2) && s[14..16] == Padded(t.minute, 2) && s[17..19] == Padded(t.second, 2)
  {
    var y, mo, da := Padded(t.date.year, 4), Padded(t.date.month, 2), Padded(t.date.day, 2);
    var h, mi, se := Padded(t.hour, 2), Padded(t.minute, 2), Padded(t.second, 2);
    var a := y + "-" + mo + "-" + da;
    var b := "T" + h + ":" + mi + ":" + se + "Z";
    assert IsoZ(t) == a + b;
    IsoDatePart(y, mo, da);
    IsoTimePart(h, mi, se);
    SliceOfConcat(a, b, 0, 4); SliceOfConcat(a, b, 5, 7); SliceOfConcat(a, b, 8, 10);
    SliceOfConcat(a, b, 11, 13); SliceOfConcat(a, b, 14, 16); SliceOfConcat(a, b, 17, 19);
  }

  /** The date half of the `...Z` form. */
  lemma IsoDatePart(y: string, mo: string, da: string)
    requires |y| == 4 && |mo| == 2 && |da| == 2
    ensures var a := y + "-" + mo + "-" + da;
      |a| == 10 && a[4] == '-' && a[7] == '-' && a[0..4] == y && a[5..7] == mo && a[8..10] == da
  {
    SliceOfConcat(y + "-" + mo + "-", da, 8, 10);
    SliceOfConcat(y + "-", mo + "-" + da, 5, 7);
    SliceOfConcat(y, "-" + mo + "-" + da, 0, 4);
  }

  /** The time half of the `...Z` form. */
  lemma IsoTimePart(h: string, mi: string, se: string)
    requires |h| == 2 && |mi| == 2 && |se| == 2
    ensures var b := "T" + h + ":" + mi + ":" + se + "Z";
      |b| == 10 && b[0] == 'T' && b[3] == ':' && b[6] == ':' && b[9] == 'Z'
      && b[1..3] == h && b[4..6] == mi && b[7..9] == se
  {
    SliceOfConcat("T", h + ":" + mi + ":" + se + "Z", 1, 3);
    SliceOfConcat("T" + h + ":", mi + ":" + se + "Z", 4, 6);
    SliceOfConcat("T" + h + ":" + mi + ":", se + "Z", 7, 9);
  }

  /** A slice of a concatenation that lies within one of its halves. */
  lemma SliceOfConcat<T>(a: seq<T>, b: seq<T>, i: nat, j: nat)
    requires i <= j <= |a| + |b| && (j <= |a| || |a| <= i)
    ensures j <= |a| ==> (a + b)[i..j] == a[i..j]
    ensures |a| <= i ==> (a + b)[i..j] == b[i - |a|..j - |a|]
  {
  }

  lemma IsoZShape(t: Moment)
    requires ValidMoment(t)
    ensures IsoShape(IsoZ(t), t)
  {
    var d := t.date;
    assert Pow10(2) == 100 && Pow10(4) == 10000;
    PaddedExact(d.year, 4); PaddedExact(d.month, 2); PaddedExact(d.day, 2);
    PaddedExact(t.hour, 2); PaddedExact(t.minute, 2); PaddedExact(t.second, 2);
    IsoZSlices(t);
  }

  /** Every valid moment, written in the `...Z` form, parses back to itself. */
  lemma IsoZRoundTrip(t: Moment)
    requires ValidMoment(t)
    ensures Strptime(Str(IsoZ(t))) == Ok(t)
  {
    IsoZShape(t);
  }

  // ---------------------------------------------------------------------
  // Strings

  /** `str.lower()` over ASCII letters. */
  function LowerChar(c: char): char {
    if 'A' <= c <= 'Z' then (c as int - 'A' as int + 'a' as int) as char else c
  }

  function Lower(s: string): (r: string)
    ensures |r| == |s| && forall i :: 0 <= i < |s| ==> r[i] == LowerChar(s[i])
  {
    if |s| == 0 then [] else [LowerChar(s[0])] + Lower(s[1..])
  }

  /** `str.replace(a, b)` for single characters. */
  function ReplaceChar(s: string, a: char, b: char): (r: string)
    ensures |r| == |s|
    ensures forall i :: 0 <= i < |s| ==> r[i] == (if s[i] == a then b else s[i])
  {
    if |s| == 0 then [] else [if s[0] == a then b else s[0]] + ReplaceChar(s[1..], a, b)
  }

  /** `str.split(sep)` with an explicit one-character separator: never
      empty, empty pieces kept. */
  function Split(s: string, sep: char): (parts: seq<string>)
    ensures |parts| >= 1
  {
    if |s| == 0 then [""]
    else
      var rest := Split(s[1..], sep);
      if s[0] == sep then [""] + rest else [[s[0]] + rest[0]] + rest[1..]
  }

  /** `sep.join(parts)`. */
  function Join(parts: seq<string>, sep: char): string {
    if |parts| == 0 then ""
    else if |parts| == 1 then parts[0]
    else parts[0] + [sep] + Join(parts[1..], sep)
  }

  /** Splitting loses nothing: joining the pieces gives the string back,
      and no piece holds the separator. */
  lemma {:induction false} SplitJoin(s: string, sep: char)
    ensures Join(Split(s, sep), sep) == s
    ensures forall p :: p in Split(s, sep) ==> sep !in p
  {
    if |s| > 0 {
      SplitJoin(s[1..], sep);
      var rest := Split(s[1..], sep);
      if s[0] == sep {
        assert Split(s, sep) == [""] + rest;
        assert s == [] + [sep] + s[1..];
      } else {
        var parts := Split(s, sep);
        assert parts[1..] == rest[1..];
        if |rest| > 1 {
          assert rest == [rest[0]] + rest[1..];
          assert Join(rest, sep) == rest[0] + [sep] + Join(rest[1..], sep);
        }
        assert s == [s[0]] + s[1..];
        forall p | p in parts ensures sep !in p {
          if p != parts[0] { assert p in rest; }
        }
      }
    }
  }

  /** What `str.isspace()` holds of a character. */
  predicate IsSpace(c: char) {
    c == ' ' || ('\t' <= c <= '\r') || ('\U{1c}' <= c <= '\U{1f}') || c == '\U{85}'
    || c == '\U{a0}' || c == '\U{1680}' || ('\U{2000}' <= c <= '\U{200a}')
    || c == '\U{2028}' || c == '\U{2029}' || c == '\U{202f}' || c == '\U{205f}' || c == '\U{3000}'
  }

  /** How many whitespace characters `s` starts with. */
  function LeadingSpaces(s: string): (n: nat)
    ensures n <= |s|
  {
    if |s| > 0 && IsSpace(s[0]) then 1 + LeadingSpaces(s[1..]) else 0
  }

  /** The length of `s` once its trailing whitespace is cut off. */
  function EndOfText(s: string): (n: nat)
    ensures n <= |s|
  {
    if |s| > 0 && IsSpace(s[|s| - 1]) then EndOfText(s[..|s| - 1]) else |s|
  }

  /** `str.strip()`: whitespace removed from both ends. */
  function Strip(s: string): string {
    var i := LeadingSpaces(s);
    var j := EndOfText(s);
    if j <= i then [] else s[i..j]
  }

  lemma {:induction false} LeadingSpacesMeaning(s: string)
    ensures forall k :: 0 <= k < LeadingSpaces(s) ==> IsSpace(s[k])
    ensures LeadingSpaces(s) < |s| ==> !IsSpace(s[LeadingSpaces(s)])
  {
    if |s| > 0 && IsSpace(s[0]) {
      var t := s[1..];
      LeadingSpacesMeaning(t);
      forall k | 1 <= k < LeadingSpaces(s) ensures IsSpace(s[k]) {
        assert s[k] == t[k - 1];
      }
      if LeadingSpaces(s) < |s| {
        assert s[LeadingSpaces(s)] == t[LeadingSpaces(t)];
      }
    }
  }

  lemma {:induction false} EndOfTextMeaning(s: string)
    ensures forall k :: EndOfText(s) <= k < |s| ==> IsSpace(s[k])
    ensures EndOfText(s) > 0 ==> !IsSpace(s[EndOfText(s) - 1])
  {
    if |s| > 0 && IsSpace(s[|s| - 1]) {
      var t := s[..|s| - 1];
      EndOfTextMeaning(t);
      forall k | EndOfText(s) <= k < |s| - 1 ensures IsSpace(s[k]) {
        assert s[k] == t[k];
      }
      if EndOfText(s) > 0 {
        assert s[EndOfText(s) - 1] == t[EndOfText(t) - 1];
      }
    }
  }

  /** The stripped string is the middle of `s`: only whitespace was cut
      off, and it neither starts nor ends with whitespace. */
  lemma StripIsTrimmedInfix(s: string)
    ensures exists i, j :: (0 <= i <= j <= |s| && Strip(s) == s[i..j]
      && (forall k :: 0 <= k < i ==> IsSpace(s[k]))
      && (forall k :: j <= k < |s| ==> IsSpace(s[k])))
    ensures |Strip(s)| > 0 ==> !IsSpace(Strip(s)[0]) && !IsSpace(Strip(s)[|Strip(s)| - 1])
  {
    var i := LeadingSpaces(s);
    var j := EndOfText(s);
    LeadingSpacesMeaning(s);
    EndOfTextMeaning(s);
    if j <= i {
      StripOfBlank(s, i, j);
    } else {
      StripOfText(s, i, j);
    }
  }

  /** A string of whitespace only strips to the empty string. */
  lemma StripOfBlank(s: string, i: nat, j: nat)
    requires i == LeadingSpaces(s) && j == EndOfText(s) && j <= i
    requires forall k :: j <= k < |s| ==> IsSpace(s[k])
    ensures Strip(s) == s[0..0] && forall k :: 0 <= k < |s| ==> IsSpace(s[k])
  {
    EndOfTextMeaning(s);
    LeadingSpacesMeaning(s);
  }

  /** Otherwise the stripped string runs from the first to the last
      character that is not whitespace. */
  lemma StripOfText(s: string, i: nat, j: nat)
    requires i == LeadingSpaces(s) && j == EndOfText(s) && i < j
    requires i < |s| ==> !IsSpace(s[i])
    requires j > 0 ==> !IsSpace(s[j - 1])
    ensures j <= |s| && Strip(s) == s[i..j]
    ensures |Strip(s)| > 0 && !IsSpace(Strip(s)[0]) && !IsSpace(Strip(s)[|Strip(s)| - 1])
  {
    assert Strip(s)[0] == s[i];
    assert Strip(s)[|Strip(s)| - 1] == s[j - 1];
  }

  /** A string that neither starts nor ends with whitespace strips to
      itself. */
  lemma StripUnpadded(s: string)
    requires |s| > 0 && !IsSpace(s[0]) && !IsSpace(s[|s| - 1])
    ensures Strip(s) == s
  {
    assert LeadingSpaces(s) == 0 && EndOfText(s) == |s|;
  }

  /** The same, for a name known to be a stripped piece. */
  lemma StrippedName(name: string, s: string)
    requires name == Strip(s)
    ensures exists i, j :: (0 <= i <= j <= |s| && name == s[i..j]
      && (forall k :: 0 <= k < i ==> IsSpace(s[k]))
      && (forall k :: j <= k < |s| ==> IsSpace(s[k])))
    ensures |name| > 0 ==> !IsSpace(name[0]) && !IsSpace(name[|name| - 1])
  {
    StripIsTrimmedInfix(s);
  }

  // ---------------------------------------------------------------------
  // Sequences, dicts, sets

  /** Python's `s[:stop]`, a negative `stop` counting from the end. */
  function SliceTo<T>(s: seq<T>, stop: int): (r: seq<T>)
    ensures r == s[..(if stop >= 0 then (if stop <= |s| then stop else |s|)
                      else (if |s| + stop >= 0 then |s| + stop else 0))]
  {
    if stop >= 0 then (if stop <= |s| then s[..stop] else s)
    else if |s| + stop >= 0 then s[..|s| + stop] else []
  }

  /** The keys of an insertion-ordered dict. */
  function Keys<K, V>(d: seq<(K, V)>): (ks: seq<K>)
    ensures |ks| == |d| && forall i :: 0 <= i < |d| ==> ks[i] == d[i].0
  {
    if |d| == 0 then [] else [d[0].0] + Keys(d[1..])
  }

  predicate Distinct<T(==)>(s: seq<T>) {
    forall i, j :: 0 <= i < j < |s| ==> s[i] != s[j]
  }

  /** The position of the first `k` in `ks`. */
  function IndexOf<K(==)>(ks: seq<K>, k: K): (i: nat)
    requires k in ks
    ensures i < |ks| && ks[i] == k && forall j :: 0 <= j < i ==> ks[j] != k
  {
    if ks[0] == k then 0 else 1 + IndexOf(ks[1..], k)
  }

  /** `d[k] = v` on an insertion-ordered dict: a key already present keeps
      its place and takes the new value, a new key goes to the end. */
  function DictInsert<K(==), V>(d: seq<(K, V)>, k: K, v: V): (r: seq<(K, V)>)
    ensures k in Keys(d) ==> |r| == |d|
    ensures k !in Keys(d) ==> r == d + [(k, v)]
    ensures Keys(r) == if k in Keys(d) then Keys(d) else Keys(d) + [k]
    ensures Distinct(Keys(d)) ==> Distinct(Keys(r))
    ensures Distinct(Keys(d)) ==> forall i :: 0 <= i < |d| ==> r[i] == (if d[i].0 == k then (k, v) else d[i])
  {
    if k in Keys(d) then
      var i := IndexOf(Keys(d), k);
      var r := d[i := (k, v)];
      assert Keys(r) == Keys(d) by {
        forall j | 0 <= j < |d| ensures Keys(r)[j] == Keys(d)[j] {
        }
      }
      r
    else
      var r := d + [(k, v)];
      assert Keys(r) == Keys(d) + [k];
      r
  }

  /** The value a dict holds for `k`: the last one inserted. */
  function Lookup<K(==), V>(d: seq<(K, V)>, k: K): Option<V> {
    if |d| == 0 then None
    else if d[|d| - 1].0 == k then Some(d[|d| - 1].1)
    else Lookup(d[..|d| - 1], k)
  }

  /** A key that was never inserted has no value. */
  lemma {:induction false} LookupAbsent<K, V>(d: seq<(K, V)>, k: K)
    requires k !in Keys(d)
    ensures Lookup(d, k) == None
  {
    if |d| > 0 {
      assert Keys(d[..|d| - 1]) == Keys(d)[..|d| - 1];
      LookupAbsent(d[..|d| - 1], k);
    }
  }

  /** `{k: v for k, v in pairs}`: the pairs inserted in order. */
  function DictFrom<K(==), V>(ps: seq<(K, V)>): seq<(K, V)> {
    if |ps| == 0 then []
    else DictInsert(DictFrom(ps[..|ps| - 1]), ps[|ps| - 1].0, ps[|ps| - 1].1)
  }

  /** The dict holds every key of the pairs once, and for each the value of
      the last pair with that key. */
  lemma DictFromMeaning<K, V>(ps: seq<(K, V)>)
    ensures Distinct(Keys(DictFrom(ps)))
    ensures forall k :: k in Keys(DictFrom(ps)) <==> k in Keys(ps)
    ensures forall i :: 0 <= i < |DictFrom(ps)| ==> Lookup(ps, DictFrom(ps)[i].0) == Some(DictFrom(ps)[i].1)
  {
    DictFromKeys(ps);
    DictFromLookup(ps);
  }

  lemma {:induction false} DictFromKeys<K, V>(ps: seq<(K, V)>)
    ensures Distinct(Keys(DictFrom(ps)))
    ensures forall k :: k in Keys(DictFrom(ps)) <==> k in Keys(ps)
  {
    if |ps| > 0 {
      var init := ps[..|ps| - 1];
      var (k, v) := ps[|ps| - 1];
      DictFromKeys(init);
      assert Keys(ps) == Keys(init) + [k];
      assert DictFrom(ps) == DictInsert(DictFrom(init), k, v);
    }
  }

  lemma {:induction false} DictFromLookup<K, V>(ps: seq<(K, V)>)
    ensures forall i :: 0 <= i < |DictFrom(ps)| ==> Lookup(ps, DictFrom(ps)[i].0) == Some(DictFrom(ps)[i].1)
  {
    if |ps| > 0 {
      var init := ps[..|ps| - 1];
      DictFromKeys(init);
      DictFromLookup(init);
      forall i | 0 <= i < |DictFrom(ps)| ensures Lookup(ps, DictFrom(ps)[i].0) == Some(DictFrom(ps)[i].1) {
        DictFromLookupAt(ps, init, i);
      }
    }
  }

  /** One entry of the dict built from non-empty pairs, given the lookup
      property of the dict built from all pairs but the last. */
  lemma DictFromLookupAt<K, V>(ps: seq<(K, V)>, init: seq<(K, V)>, i: nat)
    requires |ps| > 0 && init == ps[..|ps| - 1] && Distinct(Keys(DictFrom(init)))
    requires forall j :: 0 <= j < |DictFrom(init)| ==> Lookup(init, DictFrom(init)[j].0) == Some(DictFrom(init)[j].1)
    requires i < |DictFrom(ps)|
    ensures Lookup(ps, DictFrom(ps)[i].0) == Some(DictFrom(ps)[i].1)
  {
    var (k, v) := ps[|ps| - 1];
    var r0 := DictFrom(init);
    var e := DictFrom(ps)[i];
    assert DictFrom(ps) == DictInsert(r0, k, v);
    DictFromEntry(r0, k, v, i);
    if e.0 != k {
      assert Lookup(ps, e.0) == Lookup(init, e.0);
      assert e == r0[i];
    }
  }

  /** An entry of `d[k] = v` is the new pair or an entry of `d` at the same
      place. */
  lemma DictFromEntry<K, V>(d: seq<(K, V)>, k: K, v: V, i: nat)
    requires Distinct(Keys(d)) && i < |DictInsert(d, k, v)|
    ensures DictInsert(d, k, v)[i].0 == k ==> DictInsert(d, k, v)[i] == (k, v)
    ensures DictInsert(d, k, v)[i].0 != k ==> i < |d| && DictInsert(d, k, v)[i] == d[i]
  {
    var r := DictInsert(d, k, v);
    if k in Keys(d) {
      assert Keys(r)[i] == Keys(d)[i];
    } else if i < |d| {
      assert Keys(d)[i] == d[i].0;
    }
  }

  /** Every pair of `d[k] = v` is the new pair or a pair of `d`. */
  lemma DictInsertEntry<K, V>(d: seq<(K, V)>, k: K, v: V, i: nat)
    requires i < |DictInsert(d, k, v)|
    ensures DictInsert(d, k, v)[i] == (k, v) || DictInsert(d, k, v)[i] in d
  {
    var r := DictInsert(d, k, v);
    if k in Keys(d) {
      var j := IndexOf(Keys(d), k);
      assert r == d[j := (k, v)];
      if i != j {
        assert r[i] == d[i];
      }
    } else if i < |d| {
      assert r[i] == d[i];
    }
  }

  /** A second update of the same position overwrites the first. */
  lemma UpdateTwice<T>(s: seq<T>, i: nat, a: T, b: T)
    requires i < |s|
    ensures s[i := a][i := b] == s[i := b]
  {
    var t := s[i := a][i := b];
    var u := s[i := b];
    assert forall j :: 0 <= j < |s| ==> t[j] == u[j];
  }

  /** What a prefix holds, the sequence holds. */
  lemma InPrefix<T>(s: seq<T>, n: nat, x: T)
    requires n <= |s| && x in s[..n]
    ensures x in s
  {
    var q :| 0 <= q < n && s[..n][q] == x;
    assert s[q] == x;
  }

  /** The prefix one element longer. */
  lemma TakeSnoc<T>(s: seq<T>, i: nat)
    requires i < |s|
    ensures s[..i] + [s[i]] == s[..i + 1]
    ensures s[..i + 1][..i] == s[..i]
  {
  }

  lemma TakeAll<T>(s: seq<T>)
    ensures s[..|s|] == s
  {
  }

  /** The prefix before an appended element. */
  lemma SnocTake<T>(s: seq<T>, x: T)
    ensures (s + [x])[..|s|] == s
  {
  }

  /** Appending a non-empty sequence is appending all of it but its last
      element, then that element. */
  lemma SplitLast<T>(a: seq<T>, b: seq<T>)
    requires |b| > 0
    ensures a + b == (a + b[..|b| - 1]) + [b[|b| - 1]]
  {
    assert b == b[..|b| - 1] + [b[|b| - 1]];
  }

  /** `list(set(s))`: every element once. Python leaves the order open;
      this model keeps the first occurrences in order. */
  function Dedup<T(==)>(s: seq<T>): (r: seq<T>)
  {
    if |s| == 0 then []
    else
      var r := Dedup(s[..|s| - 1]);
      if s[|s| - 1] in r then r else r + [s[|s| - 1]]
  }

  /** De-duplication keeps exactly the elements, each once. */
  lemma {:induction false} DedupSpec<T>(s: seq<T>)
    ensures Distinct(Dedup(s))
    ensures forall x :: x in Dedup(s) <==> x in s
  {
    if |s| > 0 {
      var init := s[..|s| - 1];
      DedupSpec(init);
      assert s == init + [s[|s| - 1]];
    }
  }
}
