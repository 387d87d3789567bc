/** Writing a log line and reading it back (DebugViewppLib/FileIO.cpp, GetDateTimeText in
    DebugViewppLib/Conversions.cpp).

    Written times are whole microseconds, read times are exact decimal numbers.  The system's
    conversions between file times and local calendar times are parameters. */
module FileIO {
  import opened Arithmetic
  import opened Options

  const WORD_MAX := 0xFFFF
  const DWORD_MAX := 0xFFFF_FFFF
  const QWORD_MAX := 0xFFFF_FFFF_FFFF_FFFF

  // ----- decimal numbers -----

  predicate IsDigit(c: char) {
    '0' <= c <= '9'
  }

  predicate AllDigits(s: string) {
    forall i :: 0 <= i < |s| ==> IsDigit(s[i])
  }

  function Digit(d: nat): (c: char)
    requires d < 10
    ensures IsDigit(c) && DigitValue(c) == d
  {
    ('0' as int + d) as char
  }

  function DigitValue(c: char): nat
    requires IsDigit(c)
  {
    c as int - '0' as int
  }

  /** A run of text without tabs or line ends, as the columns other than the message are. */
  predicate Plain(s: string) {
    '\t' !in s && '\n' !in s
  }

  function Value(s: string): nat
    requires AllDigits(s)
  {
    if s == "" then 0 else 10 * Value(s[..|s| - 1]) + DigitValue(s[|s| - 1])
  }

  /** n in decimal with at least width digits, as printf's %0<width>d writes it. */
  function Padded(n: nat, width: nat): string
    decreases n, width
  {
    if n < 10 then if width <= 1 then [Digit(n)] else Padded(0, width - 1) + [Digit(n)]
    else Padded(n / 10, if width > 0 then width - 1 else 0) + [Digit(n % 10)]
  }

  function Decimal(n: nat): string {
    Padded(n, 1)
  }

  lemma AppendDigit(s: string, d: nat)
    requires AllDigits(s) && d < 10
    ensures AllDigits(s + [Digit(d)]) && Value(s + [Digit(d)]) == 10 * Value(s) + d
  {
    assert (s + [Digit(d)])[..|s|] == s;
  }

  lemma {:induction false} PaddedValue(n: nat, width: nat)
    ensures Padded(n, width) != "" && AllDigits(Padded(n, width)) && Value(Padded(n, width)) == n
    ensures |Padded(n, width)| >= width
    decreases n, width
  {
    if n >= 10 {
      var w := if width > 0 then width - 1 else 0;
      PaddedValue(n / 10, w);
      AppendDigit(Padded(n / 10, w), n % 10);
    } else if width > 1 {
      PaddedValue(0, width - 1);
      AppendDigit(Padded(0, width - 1), n);
    } else {
      AppendDigit("", n);
      assert "" + [Digit(n)] == [Digit(n)];
    }
  }

  lemma {:induction false} PaddedLength(n: nat, width: nat, limit: nat)
    requires 0 < width && limit == Power10(width) && n < limit
    ensures |Padded(n, width)| == width
    decreases width
  {
    if width > 1 {
      assert limit == 10 * Power10(width - 1);
      PaddedLength(if n < 10 then 0 else n / 10, width - 1, Power10(width - 1));
    }
  }

  /** The length of the leading run of digits. */
  function DigitRun(s: string): (n: nat)
    ensures n <= |s| && AllDigits(s[..n])
  {
    if s == "" || !IsDigit(s[0]) then 0 else 1 + DigitRun(s[1..])
  }

  lemma {:induction false} RunOfDigits(d: string, rest: string)
    requires AllDigits(d) && (rest == "" || !IsDigit(rest[0]))
    ensures DigitRun(d + rest) == |d|
  {
    if d == "" {
      assert d + rest == rest;
    } else {
      assert (d + rest)[1..] == d[1..] + rest;
      RunOfDigits(d[1..], rest);
    }
  }

  predicate IsSpace(c: char) {
    c == ' ' || c == '\t' || c == '\n' || c == '\r' || c == '\U{0B}' || c == '\U{0C}'
  }

  function SkipSpace(s: string): (r: string)
    ensures |r| <= |s|
  {
    if s != "" && IsSpace(s[0]) then SkipSpace(s[1..]) else s
  }

  /** A run of digits in front of s, and what follows it. */
  function ReadNumber(s: string): Option<(nat, string)> {
    var n := DigitRun(s);
    if n == 0 then None else Some((Value(s[..n]), s[n..]))
  }

  lemma ReadPadded(n: nat, width: nat, rest: string)
    requires rest == "" || !IsDigit(rest[0])
    ensures ReadNumber(Padded(n, width) + rest) == Some((n, rest))
    ensures SkipSpace(Padded(n, width) + rest) == Padded(n, width) + rest
  {
    var d := Padded(n, width);
    PaddedValue(n, width);
    RunOfDigits(d, rest);
    assert (d + rest)[..|d|] == d && (d + rest)[|d|..] == rest;
    assert IsDigit(d[0]) && (d + rest)[0] == d[0];
  }

  // ----- the time column -----

  const MICRO := 1_000_000

  /** "%.06f" of a number of whole microseconds. */
  function GetOffsetText(micros: int): string {
    if micros < 0 then "-" + OffsetText(-micros) else OffsetText(micros)
  }

  function OffsetText(m: nat): string {
    Decimal(m / MICRO) + ("." + Padded(m % MICRO, 6))
  }

  /** Digits with an optional fraction, at least one digit in all: the two runs of digits. */
  function ReadFraction(u: string): (r: Option<(string, string)>)
    ensures r.Some? ==> AllDigits(r.value.0) && AllDigits(r.value.1)
  {
    var whole := DigitRun(u);
    var tail := u[whole..];
    var fraction := if tail != "" && tail[0] == '.' then DigitRun(tail[1..]) else 0;
    if whole + fraction == 0 then None
    else Some((u[..whole], if fraction > 0 then tail[1..][..fraction] else ""))
  }

  /** The value of digits after the decimal point. */
  function Fraction(s: string): real
    requires AllDigits(s)
  {
    if s == "" then 0.0 else (DigitValue(s[0]) as real + Fraction(s[1..])) / 10.0
  }

  function Number(whole: string, fraction: string): real
    requires AllDigits(whole) && AllDigits(fraction)
  {
    Value(whole) as real + Fraction(fraction)
  }

  /** std::stod for plain decimal notation; None where it throws. */
  function ReadDecimal(text: string): Option<real> {
    var s := SkipSpace(text);
    if s != "" && s[0] == '-' then
      var (whole, fraction) :- ReadFraction(s[1..]);
      Some(-Number(whole, fraction))
    else
      var (whole, fraction) :- ReadFraction(if s != "" && s[0] == '+' then s[1..] else s);
      Some(Number(whole, fraction))
  }

  function Seconds(micros: int): real {
    micros as real / 1_000_000.0
  }

  lemma MicroIsPower()
    ensures Power10(6) == MICRO
  {
    assert Power10(2) == 100;
    assert Power10(4) == 100 * Power10(2);
  }

  lemma WholeAndFraction(m: nat)
    ensures (m / MICRO) as real + (m % MICRO) as real / 1_000_000.0 == Seconds(m)
  {
    assert m == m / MICRO * MICRO + m % MICRO;
  }

  lemma FractionOf(w: string, f: string)
    requires w != "" && f != "" && AllDigits(w) && AllDigits(f)
    ensures ReadFraction(w + ("." + f)) == Some((w, f))
  {
    var u := w + ("." + f);
    RunOfDigits(w, "." + f);
    assert u[..|w|] == w && u[|w|..] == "." + f;
    assert ("." + f)[1..] == f;
    assert f + "" == f;
    RunOfDigits(f, "");
    assert f[..|f|] == f;
  }

  lemma {:induction false} ValueFromFront(s: string)
    requires s != "" && AllDigits(s)
    ensures Value(s) == DigitValue(s[0]) * Power10(|s| - 1) + Value(s[1..])
  {
    if |s| > 1 {
      var init := s[..|s| - 1];
      assert init[1..] == s[1..][..|s| - 2];
      ValueFromFront(init);
      TenTimes(DigitValue(s[0]), Power10(|s| - 2), Value(init[1..]));
    }
  }

  lemma TenTimes(d: nat, p: nat, v: nat)
    ensures 10 * (d * p + v) == d * (10 * p) + 10 * v
  {
  }

  lemma {:induction false} FractionScaled(s: string)
    requires AllDigits(s)
    ensures Scaled(Fraction(s), Power10(|s|)) == Value(s) as real
  {
    if s != "" {
      var d, p := DigitValue(s[0]), Power10(|s| - 1);
      FractionScaled(s[1..]);
      ValueFromFront(s);
      ScaleStep(d, Fraction(s[1..]), p, Value(s[1..]));
    }
  }

  function Scaled(x: real, p: nat): real {
    x * p as real
  }

  lemma ScaleStep(d: nat, f: real, p: nat, v: nat)
    requires Scaled(f, p) == v as real
    ensures Scaled((d as real + f) / 10.0, 10 * p) == (d * p + v) as real
  {
    assert (10 * p) as real == 10.0 * p as real;
    assert (d * p) as real == d as real * p as real;
  }

  lemma NumberOf(m: nat, w: string, f: string)
    requires AllDigits(w) && AllDigits(f) && |f| == 6
    requires Value(w) == m / MICRO && Value(f) == m % MICRO
    ensures Number(w, f) == Seconds(m)
  {
    MicroIsPower();
    FractionScaled(f);
    WholeAndFraction(m);
  }

  /** An offset's text is two runs of digits around a dot. */
  lemma OffsetParts(m: nat) returns (w: string, f: string)
    ensures OffsetText(m) == w + ("." + f) && w != "" && AllDigits(w) && AllDigits(f)
    ensures f != "" && Number(w, f) == Seconds(m)
  {
    w, f := Decimal(m / MICRO), Padded(m % MICRO, 6);
    PaddedValue(m / MICRO, 1);
    PaddedValue(m % MICRO, 6);
    assert MICRO == Power10(6) by { MicroIsPower(); }
    PaddedLength(m % MICRO, 6, MICRO);
    NumberOf(m, w, f);
  }

  lemma ReadUnsigned(w: string, f: string, x: real)
    requires w != "" && f != "" && AllDigits(w) && AllDigits(f) && Number(w, f) == x
    ensures ReadDecimal(w + ("." + f)) == Some(x)
  {
    var digits := w + ("." + f);
    FractionOf(w, f);
    assert digits[0] == w[0];
    assert SkipSpace(digits) == digits;
  }

  lemma ReadNegative(w: string, f: string, x: real)
    requires w != "" && f != "" && AllDigits(w) && AllDigits(f) && Number(w, f) == -x
    ensures ReadDecimal("-" + (w + ("." + f))) == Some(x)
  {
    var digits := w + ("." + f);
    FractionOf(w, f);
    var text := "-" + digits;
    assert SkipSpace(text) == text && text[1..] == digits;
  }

  lemma ReadShape(negative: bool, w: string, f: string, x: real, text: string)
    requires w != "" && f != "" && AllDigits(w) && AllDigits(f) && Number(w, f) == (if negative then -x else x)
    requires text == if negative then "-" + (w + ("." + f)) else w + ("." + f)
    ensures ReadDecimal(text) == Some(x)
  {
    if negative {
      ReadNegative(w, f, x);
    } else {
      ReadUnsigned(w, f, x);
    }
  }

  /** The text of an offset, whatever is made of it. */
  lemma OffsetShape(micros: int) returns (w: string, f: string)
    ensures w != "" && f != "" && AllDigits(w) && AllDigits(f)
    ensures GetOffsetText(micros) == if micros < 0 then "-" + (w + ("." + f)) else w + ("." + f)
    ensures Number(w, f) == if micros < 0 then -Seconds(micros) else Seconds(micros)
  {
    w, f := OffsetParts(if micros < 0 then -micros else micros);
  }

  lemma OffsetIsPlain(m: nat)
    ensures Plain(OffsetText(m)) && Plain("-" + OffsetText(m))
  {
    PaddedValue(m / MICRO, 1);
    PaddedValue(m % MICRO, 6);
  }

  lemma OffsetRoundTrip(micros: int, text: string)
    requires text == GetOffsetText(micros)
    ensures ReadDecimal(text) == Some(Seconds(micros))
  {
    var w, f := OffsetShape(micros);
    ReadShape(micros < 0, w, f, Seconds(micros), text);
  }

  // ----- the date column -----

  datatype SystemTime =
    SystemTime(year: nat, month: nat, day: nat, hour: nat, minute: nat, second: nat, ms: nat)

  /** The fields are 16 bit words. */
  predicate Words(t: SystemTime) {
    t.year <= WORD_MAX && t.month <= WORD_MAX && t.day <= WORD_MAX && t.hour <= WORD_MAX
    && t.minute <= WORD_MAX && t.second <= WORD_MAX && t.ms <= WORD_MAX
  }

  /** What FileTimeToSystemTime gives for a zero file time. */
  const EPOCH := SystemTime(1601, 1, 1, 0, 0, 0, 0)

  function DateTimeText(t: SystemTime): string {
    Padded(t.year, 4) + ("/" + (Padded(t.month, 2) + ("/" + (Padded(t.day, 2) + (" " + TimeText(t))))))
  }

  function TimeText(t: SystemTime): string {
    Padded(t.hour, 2) + (":" + (Padded(t.minute, 2) + (":" + (Padded(t.second, 2) + ("." + Padded(t.ms, 3))))))
  }

  /** Extraction of a word from a stream, with or without skipping space first. */
  function ReadWord(s: string, skip: bool): Option<(nat, string)> {
    var (n, rest) :- ReadNumber(if skip then SkipSpace(s) else s);
    if n <= WORD_MAX then Some((n, rest)) else None
  }

  /** Extraction of a character, which must be the expected one. */
  function ReadChar(s: string, c: char, skip: bool): Option<string> {
    var t := if skip then SkipSpace(s) else s;
    if t != "" && t[0] == c then Some(t[1..]) else None
  }

  function ReadTime(s: string): Option<(nat, nat, nat, nat)> {
    var (hour, s1) :- ReadWord(s, false);
    var s2 :- ReadChar(s1, ':', false);
    var (minute, s3) :- ReadWord(s2, false);
    var s4 :- ReadChar(s3, ':', false);
    var (second, s5) :- ReadWord(s4, false);
    var s6 :- ReadChar(s5, '.', false);
    var (ms, _) :- ReadWord(s6, false);
    Some((hour, minute, second, ms))
  }

  function ReadDateTime(s: string): Option<SystemTime> {
    var (year, s1) :- ReadWord(s, true);
    var s2 :- ReadChar(s1, '/', true);
    var (month, s3) :- ReadWord(s2, true);
    var s4 :- ReadChar(s3, '/', true);
    var (day, s5) :- ReadWord(s4, true);
    var s6 :- ReadChar(s5, ' ', false);
    var (hour, minute, second, ms) :- ReadTime(s6);
    Some(SystemTime(year, month, day, hour, minute, second, ms))
  }

  lemma ReadWordOf(n: nat, width: nat, rest: string, skip: bool)
    requires n <= WORD_MAX && (rest == "" || !IsDigit(rest[0]))
    ensures ReadWord(Padded(n, width) + rest, skip) == Some((n, rest))
  {
    ReadPadded(n, width, rest);
  }

  lemma ReadCharOf(c: char, rest: string, skip: bool)
    requires !IsSpace(c) || !skip
    ensures ReadChar([c] + rest, c, skip) == Some(rest)
  {
    assert ([c] + rest)[1..] == rest;
  }

  lemma TimeRoundTrip(t: SystemTime)
    requires Words(t)
    ensures ReadTime(TimeText(t)) == Some((t.hour, t.minute, t.second, t.ms))
  {
    var s6 := Padded(t.ms, 3);
    var s4 := Padded(t.second, 2) + ("." + s6);
    var s2 := Padded(t.minute, 2) + (":" + s4);
    assert s6 + "" == s6;
    ReadWordOf(t.ms, 3, "", false);
    ReadCharOf('.', s6, false);
    ReadWordOf(t.second, 2, "." + s6, false);
    ReadCharOf(':', s4, false);
    ReadWordOf(t.minute, 2, ":" + s4, false);
    ReadCharOf(':', s2, false);
    ReadWordOf(t.hour, 2, ":" + s2, false);
  }

  lemma DateTimeRoundTrip(t: SystemTime)
    requires Words(t)
    ensures ReadDateTime(DateTimeText(t)) == Some(t)
  {
    var s6 := TimeText(t);
    var s4 := Padded(t.day, 2) + (" " + s6);
    var s2 := Padded(t.month, 2) + ("/" + s4);
    TimeRoundTrip(t);
    ReadCharOf(' ', s6, false);
    ReadWordOf(t.day, 2, " " + s6, true);
    ReadCharOf('/', s4, true);
    ReadWordOf(t.month, 2, "/" + s4, true);
    ReadCharOf('/', s2, true);
    ReadWordOf(t.year, 4, "/" + s2, true);
  }

  // ----- columns -----

  /** The text up to the first tab, and what follows that tab. */
  function NextColumn(s: string): (string, string) {
    if s == "" then ("", "")
    else if s[0] == '\t' then ("", s[1..])
    else
      var (column, rest) := NextColumn(s[1..]);
      ([s[0]] + column, rest)
  }

  class TabSplitter {
    const text: string
    var it: nat

    ghost predicate Valid()
      reads this
    {
      it <= |text|
    }

    function Tail(): string
      requires Valid()
      reads this
    {
      text[it..]
    }

    constructor (text: string)
      ensures Valid() && Tail() == text
    {
      this.text, this.it := text, 0;
    }

    method GetNext() returns (s: string)
      requires Valid()
      modifies this
      ensures Valid() && (s, Tail()) == NextColumn(old(Tail()))
    {
      var found := it;
      while found < |text| && text[found] != '\t'
        invariant it <= found <= |text|
        invariant forall i :: it <= i < found ==> text[i] != '\t'
      {
        found := found + 1;
      }
      s := text[it..found];
      ColumnWithin(text, it, found);
      it := if found == |text| then found else found + 1;
    }

    method GetTail() returns (s: string)
      requires Valid()
      ensures s == Tail()
    {
      s := text[it..];
    }
  }

  lemma {:induction false} ColumnEnds(s: string, n: nat)
    requires n <= |s| && forall i :: 0 <= i < n ==> s[i] != '\t'
    requires n < |s| ==> s[n] == '\t'
    ensures NextColumn(s) == (s[..n], if n < |s| then s[n + 1..] else "")
  {
    if n > 0 {
      ColumnEnds(s[1..], n - 1);
      assert s[..n] == [s[0]] + s[1..][..n - 1];
      assert n < |s| ==> s[1..][n..] == s[n + 1..];
    }
  }

  lemma ColumnWithin(text: string, begin: nat, end: nat)
    requires begin <= end <= |text| && forall i :: begin <= i < end ==> text[i] != '\t'
    requires end < |text| ==> text[end] == '\t'
    ensures NextColumn(text[begin..]) == (text[begin..end], text[if end == |text| then end else end + 1..])
  {
    var tail, n := text[begin..], end - begin;
    ColumnEnds(tail, n);
    assert tail[..n] == text[begin..end];
    assert if end < |text| then tail[n + 1..] == text[end + 1..] else text[end..] == "";
  }

  /** Splitting off a column that holds no tab. */
  lemma ColumnOf(column: string, rest: string)
    requires '\t' !in column
    ensures NextColumn(column + ("\t" + rest)) == (column, rest)
  {
    var s := column + ("\t" + rest);
    ColumnEnds(s, |column|);
    assert s[..|column|] == column && s[|column| + 1..] == rest;
  }

  // ----- reading and writing lines -----

  /** The reasons for an exception inside ReadLogFileMessage. */
  datatype Error = BadTime | BadTimeStamp | BadPid | PidOutOfRange

  datatype Line = Line(time: real, systemTime: int, pid: nat, processName: string, message: string)

  /** The system's file time conversions, local time zone included. */
  datatype Clock = Clock(toSystem: int -> SystemTime, fromSystem: SystemTime -> int)

  datatype Result<+T> = Ok(value: T) | Throws(error: Error)

  /** boost::lexical_cast to a 64 bit number, for the oldest format. */
  function ReadTimeStamp(text: string): Result<int> {
    if text != "" && DigitRun(text) == |text| && Value(text) <= QWORD_MAX then Ok(Value(text)) else Throws(BadTimeStamp)
  }

  /** A column with a slash is a date; one that does not parse stands for the epoch. */
  function ReadFileTime(text: string, clock: Clock): Result<int> {
    if '/' in text then
      match ReadDateTime(text)
      case Some(t) => Ok(clock.fromSystem(t))
      case None => Ok(clock.fromSystem(EPOCH))
    else ReadTimeStamp(text)
  }

  /** std::stoul without a sign, on a platform where unsigned long has 32 bits. */
  function ReadPid(text: string): Result<nat> {
    match ReadNumber(SkipSpace(text))
    case None => Throws(BadPid)
    case Some((n, _)) => if n <= DWORD_MAX then Ok(n) else Throws(PidOutOfRange)
  }

  /** ReadLogFileMessage: the line with its fields replaced in turn, up to an exception, whose text
      then takes the place of the message. */
  function Parsed(data: string, line: Line, clock: Clock, what: Error -> string): Line {
    var failed := (l: Line, e: Error) =>
      l.(message := "Exception: '" + what(e) + "' occurred processing line: " + data);
    var (time, s1) := NextColumn(data);
    match ReadDecimal(time)
    case None => failed(line, BadTime)
    case Some(t) =>
      var l1 := line.(time := t);
      var (date, s2) := NextColumn(s1);
      match ReadFileTime(date, clock)
      case Throws(e) => failed(l1, e)
      case Ok(ft) =>
        var l2 := l1.(systemTime := ft);
        var (pid, s3) := NextColumn(s2);
        match ReadPid(pid)
        case Throws(e) => failed(l2, e)
        case Ok(p) =>
          var (name, s4) := NextColumn(s3);
          l2.(pid := p, processName := name, message := s4)
  }

  method ReadLogFileMessage(data: string, line: Line, clock: Clock, what: Error -> string) returns (read: Line)
    ensures read == Parsed(data, line, clock, what)
  {
    var split := new TabSplitter(data);
    read := line;
    var text := split.GetNext();
    var time := ReadDecimal(text);
    if time.None? {
      return read.(message := "Exception: '" + what(BadTime) + "' occurred processing line: " + data);
    }
    read := read.(time := time.value);
    text := split.GetNext();
    var systemTime := ReadFileTime(text, clock);
    if systemTime.Throws? {
      return read.(message := "Exception: '" + what(systemTime.error) + "' occurred processing line: " + data);
    }
    read := read.(systemTime := systemTime.value);
    text := split.GetNext();
    var pid := ReadPid(text);
    if pid.Throws? {
      return read.(message := "Exception: '" + what(pid.error) + "' occurred processing line: " + data);
    }
    text := split.GetNext();
    var tail := split.GetTail();
    read := read.(pid := pid.value, processName := text, message := tail);
  }

  predicate Trimmed(c: char) {
    c == ' ' || c == '\r' || c == '\n' || c == '\t'
  }

  /** boost::trim_right_if. */
  function TrimRight(s: string): (r: string)
    ensures r <= s && (r != "" ==> !Trimmed(r[|r| - 1]))
    ensures forall i :: |r| <= i < |s| ==> Trimmed(s[i])
  {
    if s != "" && Trimmed(s[|s| - 1]) then TrimRight(s[..|s| - 1]) else s
  }

  /** What WriteLogFileMessage appends to the file. */
  function Written(micros: int, systemTime: int, pid: nat, name: string, message: string, clock: Clock): string {
    GetOffsetText(micros) + ("\t" + (DateTimeText(clock.toSystem(systemTime)) + ("\t" + (Decimal(pid) + ("\t"
      + (name + ("\t" + (TrimRight(message) + "\n"))))))))
  }

  /** std::getline. */
  function FirstLine(s: string): (r: string)
    ensures r <= s && '\n' !in r
  {
    if s == "" || s[0] == '\n' then "" else [s[0]] + FirstLine(s[1..])
  }

  lemma {:induction false} FirstLineOf(a: string, b: string)
    requires '\n' !in a
    ensures FirstLine(a + b) == a + FirstLine(b)
  {
    if a == "" {
      assert a + b == b;
    } else {
      assert (a + b)[1..] == a[1..] + b;
      FirstLineOf(a[1..], b);
    }
  }

  method WriteLogFileMessage(file: string, micros: int, systemTime: int, pid: nat, name: string, message: string,
                             clock: Clock)
    returns (written: string)
    ensures written == file + Written(micros, systemTime, pid, name, message, clock)
  {
    var end: nat := |message|;
    assert message[..end] == message;
    while end > 0 && Trimmed(message[end - 1])
      invariant end <= |message| && TrimRight(message[..end]) == TrimRight(message)
    {
      assert message[..end][..end - 1] == message[..end - 1];
      end := end - 1;
    }
    written := file + (GetOffsetText(micros) + ("\t" + (DateTimeText(clock.toSystem(systemTime)) + ("\t"
      + (Decimal(pid) + ("\t" + (name + ("\t" + (message[..end] + "\n")))))))));
  }

  /** Neither half of a split gains a character, and the column holds no tab. */
  lemma {:induction false} ColumnsLoseOnlyTabs(s: string)
    ensures '\t' !in NextColumn(s).0
    ensures forall c :: c !in s ==> c !in NextColumn(s).0 && c !in NextColumn(s).1
  {
    if s != "" && s[0] != '\t' {
      ColumnsLoseOnlyTabs(s[1..]);
    }
  }

  /** A plain column at the front of a line. */
  lemma ColumnOfLine(column: string, rest: string)
    requires Plain(column)
    ensures NextColumn(FirstLine(column + ("\t" + rest))) == (column, FirstLine(rest))
  {
    FirstLineOf(column, "\t" + rest);
    assert "\t" + FirstLine(rest) == FirstLine("\t" + rest) by {
      FirstLineOf("\t", rest);
    }
    ColumnOf(column, FirstLine(rest));
  }

  lemma DigitsArePlain(n: nat, width: nat)
    ensures Plain(Padded(n, width))
  {
    PaddedValue(n, width);
  }

  lemma DateIsPlain(t: SystemTime)
    ensures Plain(DateTimeText(t)) && '/' in DateTimeText(t)
  {
    DigitsArePlain(t.year, 4);
    DigitsArePlain(t.month, 2);
    DigitsArePlain(t.day, 2);
    DigitsArePlain(t.hour, 2);
    DigitsArePlain(t.minute, 2);
    DigitsArePlain(t.second, 2);
    DigitsArePlain(t.ms, 3);
    assert Plain(TimeText(t));
  }

  lemma ReadPidOf(pid: nat)
    requires pid <= DWORD_MAX
    ensures ReadPid(Decimal(pid)) == Ok(pid)
  {
    ReadPadded(pid, 1, "");
    assert Decimal(pid) + "" == Decimal(pid);
  }

  /** The name and message columns as they come back from the line. */
  function NameAndMessage(name: string, message: string): (string, string) {
    NextColumn(FirstLine(name + ("\t" + (TrimRight(message) + "\n"))))
  }

  lemma NameAndMessageIff(name: string, message: string)
    ensures NameAndMessage(name, message) == (name, TrimRight(message))
      <==> Plain(name) && '\n' !in TrimRight(message)
  {
    var trimmed := TrimRight(message);
    ColumnsLoseOnlyTabs(FirstLine(name + ("\t" + (trimmed + "\n"))));
    if Plain(name) && '\n' !in trimmed {
      ColumnOfLine(name, trimmed + "\n");
      FirstLineOf(trimmed, "\n");
      assert trimmed + FirstLine("\n") == trimmed;
    }
  }

  /** The numeric columns always come back: the name and message decide the rest. */
  lemma ReadingBack(micros: int, systemTime: int, pid: nat, name: string, message: string, clock: Clock,
                    line: Line, what: Error -> string)
    requires Words(clock.toSystem(systemTime)) && clock.fromSystem(clock.toSystem(systemTime)) == systemTime
    requires pid <= DWORD_MAX
    ensures var (n, m) := NameAndMessage(name, message);
      Parsed(FirstLine(Written(micros, systemTime, pid, name, message, clock)), line, clock, what)
        == Line(Seconds(micros), systemTime, pid, n, m)
  {
    var st := clock.toSystem(systemTime);
    var s3 := name + ("\t" + (TrimRight(message) + "\n"));
    var s2 := Decimal(pid) + ("\t" + s3);
    var s1 := DateTimeText(st) + ("\t" + s2);
    OffsetRoundTrip(micros, GetOffsetText(micros));
    OffsetIsPlain(if micros < 0 then -micros else micros);
    ColumnOfLine(GetOffsetText(micros), s1);
    DateIsPlain(st);
    DateTimeRoundTrip(st);
    ColumnOfLine(DateTimeText(st), s2);
    DigitsArePlain(pid, 1);
    ReadPidOf(pid);
    ColumnOfLine(Decimal(pid), s3);
  }

  /** Reading the first line of what was written gives every field back, the message trimmed on the
      right, exactly when the name holds no tab or line end and the trimmed message no line end. */
  lemma RoundTripIff(micros: int, systemTime: int, pid: nat, name: string, message: string, clock: Clock,
                     line: Line, what: Error -> string)
    requires Words(clock.toSystem(systemTime)) && clock.fromSystem(clock.toSystem(systemTime)) == systemTime
    requires pid <= DWORD_MAX
    ensures Parsed(FirstLine(Written(micros, systemTime, pid, name, message, clock)), line, clock, what)
        == Line(Seconds(micros), systemTime, pid, name, TrimRight(message))
      <==> Plain(name) && '\n' !in TrimRight(message)
  {
    ReadingBack(micros, systemTime, pid, name, message, clock, line, what);
    NameAndMessageIff(name, message);
  }

  // ----- the format itself -----

  /** The columns of a written line, in order: offset, date and time, process id, name, message. */
  lemma WrittenColumns(micros: int, systemTime: int, pid: nat, name: string, message: string, clock: Clock)
    requires Plain(name) && '\n' !in TrimRight(message)
    ensures var (offset, rest1) := NextColumn(FirstLine(Written(micros, systemTime, pid, name, message, clock)));
      var (date, rest2) := NextColumn(rest1);
      var (id, rest3) := NextColumn(rest2);
      && offset == GetOffsetText(micros) && date == DateTimeText(clock.toSystem(systemTime)) && id == Decimal(pid)
      && NextColumn(rest3) == (name, TrimRight(message))
  {
    var st := clock.toSystem(systemTime);
    var s3 := name + ("\t" + (TrimRight(message) + "\n"));
    var s2 := Decimal(pid) + ("\t" + s3);
    var s1 := DateTimeText(st) + ("\t" + s2);
    OffsetIsPlain(if micros < 0 then -micros else micros);
    ColumnOfLine(GetOffsetText(micros), s1);
    DateIsPlain(st);
    ColumnOfLine(DateTimeText(st), s2);
    DigitsArePlain(pid, 1);
    ColumnOfLine(Decimal(pid), s3);
    NameAndMessageIff(name, message);
  }

  lemma LastDigit(n: nat, width: nat)
    requires n >= 10 || width > 1
    ensures Padded(n, width) == Padded(n / 10, if width > 0 then width - 1 else 0) + [Digit(n % 10)]
  {
  }

  lemma TwoDigits(n: nat)
    requires n < 100
    ensures Padded(n, 2) == [Digit(n / 10), Digit(n % 10)]
  {
    LastDigit(n, 2);
  }

  lemma ThreeDigits(n: nat)
    requires n < 1000
    ensures Padded(n, 3) == [Digit(n / 100), Digit(n / 10 % 10), Digit(n % 10)]
  {
    LastDigit(n, 3);
    TwoDigits(n / 10);
  }

  lemma FourDigits(n: nat)
    requires n < 10000
    ensures Padded(n, 4) == [Digit(n / 1000), Digit(n / 100 % 10), Digit(n / 10 % 10), Digit(n % 10)]
  {
    var q := n / 10;
    LastDigit(n, 4);
    ThreeDigits(q);
    assert q / 100 == n / 1000 && q / 10 == n / 100;
  }

  /** A time and a date whose fields fit have them in the order hour, minute, second and millisecond, and
      year, month and day in front. */
  lemma TimeFormat(t: SystemTime)
    requires t.hour < 100 && t.minute < 100 && t.second < 100 && t.ms < 1000
    ensures var text := TimeText(t);
      && |text| == 12
      && text[..2] == Padded(t.hour, 2) && text[2] == ':' && text[3..5] == Padded(t.minute, 2)
      && text[5] == ':' && text[6..8] == Padded(t.second, 2) && text[8] == '.' && text[9..] == Padded(t.ms, 3)
  {
    TwoDigits(t.hour);
    TwoDigits(t.minute);
    TwoDigits(t.second);
    ThreeDigits(t.ms);
  }

  lemma DateTimeFormat(t: SystemTime)
    requires t.year < 10000 && t.month < 100 && t.day < 100
    ensures var text := DateTimeText(t);
      && |text| == 11 + |TimeText(t)|
      && text[..4] == Padded(t.year, 4) && text[4] == '/' && text[5..7] == Padded(t.month, 2)
      && text[7] == '/' && text[8..10] == Padded(t.day, 2) && text[10] == ' '
      && text[11..] == TimeText(t)
  {
    FourDigits(t.year);
    TwoDigits(t.month);
    TwoDigits(t.day);
    DateJoined(Padded(t.year, 4), Padded(t.month, 2), Padded(t.day, 2), TimeText(t));
  }

  lemma DateJoined(y: string, m: string, d: string, time: string)
    requires |y| == 4 && |m| == 2 && |d| == 2
    ensures var text := y + ("/" + (m + ("/" + (d + (" " + time)))));
      && |text| == 11 + |time|
      && text[..4] == y && text[4] == '/' && text[5..7] == m && text[7] == '/' && text[8..10] == d
      && text[10] == ' ' && text[11..] == time
  {
  }

  /** A column without a slash is a time stamp: a number of 64 bits, and nothing else. */
  lemma TimeStampIff(text: string, clock: Clock)
    requires '/' !in text
    ensures ReadFileTime(text, clock).Ok?
      <==> text != "" && AllDigits(text) && Value(text) <= 0xFFFF_FFFF_FFFF_FFFF
    ensures ReadFileTime(text, clock).Ok? ==> AllDigits(text) && ReadFileTime(text, clock).value == Value(text)
  {
    assert text[..|text|] == text;
    if AllDigits(text) {
      RunOfDigits(text, "");
      assert text + "" == text;
    }
  }

  lemma TrimmedIff(c: char)
    ensures Trimmed(c) <==> c in " \r\n\t"
  {
  }

  /** Trimming takes off the longest run of such characters at the end, and nothing else. */
  lemma TrimIs(s: string, r: string)
    requires r <= s && (r != "" ==> !Trimmed(r[|r| - 1])) && forall i :: |r| <= i < |s| ==> Trimmed(s[i])
    ensures r == TrimRight(s)
  {
    var t := TrimRight(s);
    assert t != "" ==> t[|t| - 1] == s[|t| - 1];
    assert r != "" ==> r[|r| - 1] == s[|r| - 1];
  }

  /** A process id is read back exactly if it fits 32 bits. */
  lemma PidIff(pid: nat)
    ensures ReadPid(Decimal(pid)) == if pid <= 0xFFFF_FFFF then Ok(pid) else Throws(PidOutOfRange)
  {
    ReadPadded(pid, 1, "");
    assert Decimal(pid) + "" == Decimal(pid);
  }

  /** A column with a slash never fails: it is the date it says, or the epoch. */
  lemma DateNeverFails(text: string, clock: Clock)
    requires '/' in text
    ensures var date := ReadDateTime(text);
      ReadFileTime(text, clock)
        == Ok(clock.fromSystem(if date.Some? then date.value else SystemTime(1601, 1, 1, 0, 0, 0, 0)))
  {
  }

  /** Which columns decide about an exception, which fields are read before it, and what takes the place
      of the message.  Process id and name are replaced together or not at all. */
  lemma ParseOutcome(data: string, line: Line, clock: Clock, what: Error -> string)
    ensures var (time, rest1) := NextColumn(data);
      var (date, rest2) := NextColumn(rest1);
      var (pid, rest3) := NextColumn(rest2);
      var timeOk := ReadDecimal(time).Some?;
      var dateOk := timeOk && ReadFileTime(date, clock).Ok?;
      var pidOk := dateOk && ReadPid(pid).Ok?;
      var p := Parsed(data, line, clock, what);
      && p.time == (if timeOk then ReadDecimal(time).value else line.time)
      && p.systemTime == (if dateOk then ReadFileTime(date, clock).value else line.systemTime)
      && p.pid == (if pidOk then ReadPid(pid).value else line.pid)
      && p.processName == (if pidOk then NextColumn(rest3).0 else line.processName)
      && (pidOk ==> p.message == NextColumn(rest3).1)
      && (!pidOk ==>
            var e := if !timeOk then BadTime else if !dateOk then BadTimeStamp else ReadPid(pid).error;
            p.message == "Exception: '" + what(e) + "' occurred processing line: " + data)
  {
  }
}
