/**
 * Textual formats the backend accepts: UUIDs as github.com/google/uuid's
 * Parse reads them, and dates in the three Go time layouts "2006-01-02",
 * "2006-01-02 15:04:05" and RFC 3339 ("2006-01-02T15:04:05Z07:00") as
 * Go's time.Parse reads them.
 */
module Formats {
  import opened Common

  // ---------------------------------------------------------------------------
  // UUIDs

  predicate IsHex(c: char) {
    '0' <= c <= '9' || 'a' <= c <= 'f' || 'A' <= c <= 'F'
  }

  predicate IsLowerHex(c: char) {
    '0' <= c <= '9' || 'a' <= c <= 'f'
  }

  predicate IsUuidHex(h: string) {
    |h| == 32 && forall i | 0 <= i < |h| :: IsLowerHex(h[i])
  }

  /** A UUID's sixteen bytes, held as their 32 lower-case hex digits. */
  type Uuid = h: string | IsUuidHex(h) witness "00000000000000000000000000000000"

  /** The canonical form returned by UUID.String(): 8-4-4-4-12 lower-case digits. */
  function UuidString(u: Uuid): (r: string)
    ensures |r| == 36
  {
    u[..8] + "-" + u[8..12] + "-" + u[12..16] + "-" + u[16..20] + "-" + u[20..]
  }

  predicate IsAscii(s: string) {
    forall i | 0 <= i < |s| :: s[i] as int < 0x80
  }

  predicate AllHex(s: string) {
    forall i | 0 <= i < |s| :: IsHex(s[i])
  }

  /** The digits of the 36-character dashed form, without the dashes. */
  function DashedDigits(t: string): (r: string)
    requires |t| == 36
    ensures |r| == 32
  {
    t[..8] + t[9..13] + t[14..18] + t[19..23] + t[24..]
  }

  function HexValue(h: string): (r: Option<Uuid>)
    requires |h| == 32
    ensures r.Some? <==> AllHex(h)
    ensures r.Some? ==> r.value == Lower(h)
  {
    if AllHex(h) then
      var l := Lower(h);
      assert forall i | 0 <= i < |l| :: IsLowerHex(l[i]) by {
        forall i | 0 <= i < |l| ensures IsLowerHex(l[i]) {
          assert IsHex(h[i]);
        }
      }
      Some(l)
    else None
  }

  /** Reads the dashed form: dashes at offsets 8, 13, 18 and 23 and hex digits elsewhere. */
  function ParseDashed(t: string): Option<Uuid>
    requires |t| == 36
  {
    if t[8] == '-' && t[13] == '-' && t[18] == '-' && t[23] == '-'
    then HexValue(DashedDigits(t))
    else None
  }

  /**
   * uuid.Parse.  The length is the UTF-8 byte length; the four accepted
   * lengths are 36 (dashed), 45 ("urn:uuid:" in any case, then dashed),
   * 38 (one character, the dashed form, one character: the two outer
   * characters are not inspected) and 32 (bare hex).  Every accepted
   * position is an ASCII hex digit or dash, so a text holding any non-ASCII
   * character is rejected whatever its byte length.
   */
  function ParseUuid(s: string): (r: Option<Uuid>)
    ensures r.Some? ==> IsAscii(s) && |s| in {32, 36, 38, 45}
  {
    if !IsAscii(s) then None
    else if |s| == 36 then ParseDashed(s)
    else if |s| == 45 then
      (if Lower(s[..9]) == "urn:uuid:" then ParseDashed(s[9..]) else None)
    else if |s| == 38 then ParseDashed(s[1..37])
    else if |s| == 32 then HexValue(s)
    else None
  }

  lemma {:induction false} LowerOfLowerHex(u: Uuid)
    ensures Lower(u) == u
  {
    assert forall i | 0 <= i < |u| :: LowerChar(u[i]) == u[i] by {
      forall i | 0 <= i < |u| ensures LowerChar(u[i]) == u[i] {
        assert IsLowerHex(u[i]);
      }
    }
  }

  lemma DashedDigitsOfString(u: Uuid)
    ensures DashedDigits(UuidString(u)) == u
  {
    var t := UuidString(u);
    assert t[..8] == u[..8];
    assert t[9..13] == u[8..12];
    assert t[14..18] == u[12..16];
    assert t[19..23] == u[16..20];
    assert t[24..] == u[20..];
    assert u == u[..8] + u[8..12] + u[12..16] + u[16..20] + u[20..];
  }

  /** Printing a UUID and parsing the text gives the UUID back. */
  lemma {:induction false} UuidRoundTrip(u: Uuid)
    ensures ParseUuid(UuidString(u)) == Some(u)
  {
    var t := UuidString(u);
    DashedDigitsOfString(u);
    LowerOfLowerHex(u);
    assert forall i | 0 <= i < |u| :: IsHex(u[i]);
    assert t[8] == '-' && t[13] == '-' && t[18] == '-' && t[23] == '-';
    assert IsAscii(t) by {
      forall i | 0 <= i < |t| ensures t[i] as int < 0x80 {
        if i < 8 { assert t[i] == u[i]; }
        else if 8 < i < 13 { assert t[i] == u[i - 1]; }
        else if 13 < i < 18 { assert t[i] == u[i - 2]; }
        else if 18 < i < 23 { assert t[i] == u[i - 3]; }
        else if 23 < i { assert t[i] == u[i - 4]; }
      }
    }
  }

  /** The 38-character form ignores its outer characters: any pair around the canonical text parses. */
  lemma {:induction false} UuidOuterCharactersIgnored(u: Uuid, open: char, close: char)
    requires open as int < 0x80 && close as int < 0x80
    ensures ParseUuid([open] + UuidString(u) + [close]) == Some(u)
  {
    var t := UuidString(u);
    var s := [open] + t + [close];
    UuidRoundTrip(u);
    assert s[1..37] == t;
    assert IsAscii(s) by {
      forall i | 0 <= i < |s| ensures s[i] as int < 0x80 {
        if 0 < i < 37 { assert s[i] == t[i - 1]; }
      }
    }
  }

  // ---------------------------------------------------------------------------
  // Dates and times

  /** A parsed time: calendar date, wall clock, and the zone offset in minutes east of UTC. */
  datatype DateTime = DateTime(year: nat, month: nat, day: nat,
                               hour: nat, minute: nat, second: nat, offsetMinutes: int)

  predicate IsLeap(y: nat) {
    y % 4 == 0 && (y % 100 != 0 || y % 400 == 0)
  }

  function DaysIn(month: nat, year: nat): nat
    requires 1 <= month <= 12
  {
    if month == 2 then (if IsLeap(year) then 29 else 28)
    else if month in {4, 6, 9, 11} then 30
    else 31
  }

  predicate ValidDate(year: nat, month: nat, day: nat) {
    year <= 9999 && 1 <= month <= 12 && 1 <= day <= DaysIn(month, year)
  }

  /** How many characters at the front of `s` lie between `lo` and `hi`. */
  function LeadingCount(s: string, lo: char, hi: char): (n: nat)
    ensures n <= |s|
  {
    if s != [] && lo <= s[0] <= hi then 1 + LeadingCount(s[1..], lo, hi) else 0
  }

  /**
   * The elements of a Go time layout used here: a literal character, a
   * blank (which matches a run of spaces), and the fields "2006", "01",
   * "02", "15", "04", "05" and "Z07:00".
   */
  datatype Chunk =
    | Literal(c: char) | Blank
    | LongYear | ZeroMonth | ZeroDay | Hour | ZeroMinute | ZeroSecond | ColonZone

  /** The fields filled in so far. */
  datatype Fields = Fields(year: nat, month: nat, day: nat,
                           hour: nat, minute: nat, second: nat, offsetMinutes: int)

  const Unset := Fields(0, 1, 1, 0, 0, 0, 0)

  /** The two-digit number whose digits are `a` and `b`. */
  function Num2(a: char, b: char): nat
    requires IsDigit(a) && IsDigit(b)
  {
    10 * DigitValue(a) + DigitValue(b)
  }

  /** A number of one or two digits at the front, as many as are present (Go's getnum, not fixed). */
  function Flexible2(s: string): Option<(nat, string)> {
    if |s| >= 2 && IsDigit(s[0]) && IsDigit(s[1]) then Some((Num2(s[0], s[1]), s[2..]))
    else if |s| >= 1 && IsDigit(s[0]) then Some((DigitValue(s[0]), s[1..]))
    else None
  }

  /** Exactly two digits at the front (Go's getnum, fixed). */
  function Fixed2(s: string): Option<(nat, string)> {
    if |s| >= 2 && IsDigit(s[0]) && IsDigit(s[1]) then Some((Num2(s[0], s[1]), s[2..])) else None
  }

  /** Exactly four digits at the front (the year field: four characters, all of them digits). */
  function Fixed4(s: string): Option<(nat, string)> {
    if |s| >= 4 && IsDigit(s[0]) && IsDigit(s[1]) && IsDigit(s[2]) && IsDigit(s[3])
    then Some((100 * Num2(s[0], s[1]) + Num2(s[2], s[3]), s[4..]))
    else None
  }

  /**
   * A fractional second the layout does not ask for is still consumed:
   * '.' or ',' followed by one or more digits.
   */
  function SkipFraction(s: string): (r: string)
    ensures |r| <= |s|
  {
    if |s| >= 2 && (s[0] == '.' || s[0] == ',') && IsDigit(s[1])
    then s[2 + LeadingCount(s[2..], '0', '9')..]
    else s
  }

  /**
   * Consumes one layout element from the front of `s`.  Hour, minute and
   * second are range-checked here, the month as well; the day is checked
   * against its month once the whole text is read.
   */
  function Step(c: Chunk, s: string, f: Fields): Option<(string, Fields)> {
    match c
    case Literal(ch) => if s != [] && s[0] == ch then Some((s[1..], f)) else None
    case Blank =>
      if s != [] && s[0] != ' ' then None else Some((s[LeadingCount(s, ' ', ' ')..], f))
    case LongYear =>
      (match Fixed4(s)
       case Some((y, rest)) => Some((rest, f.(year := y)))
       case None => None)
    case ZeroMonth =>
      (match Fixed2(s)
       case Some((m, rest)) => if 1 <= m <= 12 then Some((rest, f.(month := m))) else None
       case None => None)
    case ZeroDay =>
      (match Fixed2(s)
       case Some((d, rest)) => Some((rest, f.(day := d)))
       case None => None)
    case Hour =>
      (match Flexible2(s)
       case Some((h, rest)) => if h < 24 then Some((rest, f.(hour := h))) else None
       case None => None)
    case ZeroMinute =>
      (match Fixed2(s)
       case Some((m, rest)) => if m < 60 then Some((rest, f.(minute := m))) else None
       case None => None)
    case ZeroSecond =>
      (match Fixed2(s)
       case Some((sec, rest)) => if sec < 60 then Some((SkipFraction(rest), f.(second := sec))) else None
       case None => None)
    case ColonZone =>
      if s != [] && s[0] == 'Z' then Some((s[1..], f.(offsetMinutes := 0)))
      else if |s| >= 6 && (s[0] == '+' || s[0] == '-') && IsDigit(s[1]) && IsDigit(s[2]) && s[3] == ':'
              && IsDigit(s[4]) && IsDigit(s[5])
      then
        var hr, mm := Num2(s[1], s[2]), Num2(s[4], s[5]);
        if hr <= 24 && mm <= 60
        then Some((s[6..], f.(offsetMinutes := if s[0] == '+' then hr * 60 + mm else -(hr * 60 + mm))))
        else None
      else None
  }

  /** Reads the layout's elements in turn, giving the text left over and the fields read. */
  function RunLayout(layout: seq<Chunk>, s: string, f: Fields): Option<(string, Fields)>
    decreases |layout|
  {
    if layout == [] then Some((s, f))
    else match Step(layout[0], s, f)
      case None => None
      case Some((rest, g)) => RunLayout(layout[1..], rest, g)
  }

  /** Reading a layout in two parts is reading it whole. */
  lemma {:induction false} RunLayoutAppend(a: seq<Chunk>, b: seq<Chunk>, s: string, f: Fields)
    ensures RunLayout(a, s, f).None? ==> RunLayout(a + b, s, f).None?
    ensures RunLayout(a, s, f).Some? ==>
      RunLayout(a + b, s, f) == RunLayout(b, RunLayout(a, s, f).value.0, RunLayout(a, s, f).value.1)
    decreases |a|
  {
    if a == [] {
      assert a + b == b;
    } else {
      assert (a + b)[0] == a[0] && (a + b)[1..] == a[1..] + b;
      match Step(a[0], s, f)
      case None =>
      case Some((rest, g)) =>
        RunLayoutAppend(a[1..], b, rest, g);
        assert RunLayout(a + b, s, f) == RunLayout(a[1..] + b, rest, g);
        assert RunLayout(a, s, f) == RunLayout(a[1..], rest, g);
    }
  }

  /** time.Parse: the layout must consume the whole text and the day must exist in its month. */
  function ParseLayout(layout: seq<Chunk>, s: string): (r: Option<DateTime>)
    ensures r.Some? ==> ValidDate(r.value.year, r.value.month, r.value.day)
  {
    match RunLayout(layout, s, Unset)
    case None => None
    case Some((rest, f)) =>
      if rest == [] && ValidDate(f.year, f.month, f.day)
      then Some(DateTime(f.year, f.month, f.day, f.hour, f.minute, f.second, f.offsetMinutes))
      else None
  }

  /** "2006-01-02" */
  const DateLayout: seq<Chunk> := [LongYear, Literal('-'), ZeroMonth, Literal('-'), ZeroDay]
  /** The part of "2006-01-02 15:04:05" after the date. */
  const ClockSuffix: seq<Chunk> := [Blank, Hour, Literal(':'), ZeroMinute, Literal(':'), ZeroSecond]
  /** The part of RFC 3339, "2006-01-02T15:04:05Z07:00", after the date. */
  const Rfc3339Suffix: seq<Chunk> :=
    [Literal('T'), Hour, Literal(':'), ZeroMinute, Literal(':'), ZeroSecond, ColonZone]

  function ParseDate(s: string): Option<DateTime> {
    ParseLayout(DateLayout, s)
  }

  function ParseDateTime(s: string): Option<DateTime> {
    ParseLayout(DateLayout + ClockSuffix, s)
  }

  function ParseRfc3339(s: string): Option<DateTime> {
    ParseLayout(DateLayout + Rfc3339Suffix, s)
  }

  /**
   * A text accepted by one of the three layouts is rejected by the other
   * two: after the date, the date layout wants the end of the text, the
   * date-and-time layout a space and RFC 3339 a 'T'.
   */
  lemma {:induction false} LayoutsDisjoint(s: string)
    ensures ParseDate(s).Some? ==> ParseDateTime(s).None? && ParseRfc3339(s).None?
    ensures ParseDateTime(s).Some? ==> ParseRfc3339(s).None?
  {
    RunLayoutAppend(DateLayout, ClockSuffix, s, Unset);
    RunLayoutAppend(DateLayout, Rfc3339Suffix, s, Unset);
    match RunLayout(DateLayout, s, Unset)
    case None =>
    case Some((rest, g)) =>
      if rest == [] {
        assert Step(Blank, rest, g) == Some(([], g));
        assert RunLayout(ClockSuffix, rest, g) == RunLayout(ClockSuffix[1..], [], g);
        assert Step(Hour, [], g).None?;
        assert RunLayout(Rfc3339Suffix, rest, g).None?;
      } else if rest[0] == ' ' {
        assert RunLayout(Rfc3339Suffix, rest, g).None?;
      } else {
        assert RunLayout(ClockSuffix, rest, g).None?;
      }
  }

  // Printing a date in the layout "2006-01-02".

  function DigitChar(n: nat): (c: char)
    requires n < 10
    ensures IsDigit(c) && DigitValue(c) == n
  {
    ('0' as int + n) as char
  }

  /** `n` below 100 written with two digits, a leading zero added. */
  function Pad2(n: nat): (r: string)
    requires n < 100
    ensures |r| == 2 && IsDigit(r[0]) && IsDigit(r[1]) && Num2(r[0], r[1]) == n
  {
    [DigitChar(n / 10), DigitChar(n % 10)]
  }

  /** `n` below 10000 written with four digits, leading zeros added. */
  function Pad4(n: nat): (r: string)
    requires n < 10000
    ensures |r| == 4 && IsDigit(r[0]) && IsDigit(r[1]) && IsDigit(r[2]) && IsDigit(r[3])
    ensures 100 * Num2(r[0], r[1]) + Num2(r[2], r[3]) == n
  {
    Pad2(n / 100) + Pad2(n % 100)
  }

  /** A valid date in the layout "2006-01-02". */
  function FormatDate(year: nat, month: nat, day: nat): (r: string)
    requires ValidDate(year, month, day)
    ensures |r| == 10 && r[4] == '-' && r[7] == '-'
    ensures forall i | 0 <= i < 10 && i != 4 && i != 7 :: IsDigit(r[i])
  {
    Pad4(year) + "-" + Pad2(month) + "-" + Pad2(day)
  }

  /** Two digits in front are read as a fixed two-digit number. */
  lemma Fixed2InFront(n: nat, rest: string)
    requires n < 100
    ensures Fixed2(Pad2(n) + rest) == Some((n, rest))
  {
    assert (Pad2(n) + rest)[2..] == rest;
  }

  /** Four digits in front are read as a fixed four-digit number. */
  lemma Fixed4InFront(n: nat, rest: string)
    requires n < 10000
    ensures Fixed4(Pad4(n) + rest) == Some((n, rest))
  {
    assert (Pad4(n) + rest)[4..] == rest;
  }

  /** "-DD" runs through the end of the date layout. */
  lemma DashDayReads(day: nat, f: Fields)
    requires day < 100
    ensures RunLayout([Literal('-'), ZeroDay], ['-'] + Pad2(day), f) == Some(([], f.(day := day)))
  {
    assert RunLayout([ZeroDay], Pad2(day), f) == Some(([], f.(day := day))) by {
      Fixed2InFront(day, []);
      assert Pad2(day) + [] == Pad2(day);
    }
    assert [Literal('-'), ZeroDay][1..] == [ZeroDay];
  }

  /** "MM-DD" runs through the date layout after the year and the first dash. */
  lemma MonthDayReads(month: nat, day: nat, f: Fields)
    requires 1 <= month <= 12 && day < 100
    ensures RunLayout([ZeroMonth, Literal('-'), ZeroDay], Pad2(month) + (['-'] + Pad2(day)), f)
         == Some(([], f.(month := month, day := day)))
  {
    DashDayReads(day, f.(month := month));
    Fixed2InFront(month, ['-'] + Pad2(day));
    assert [ZeroMonth, Literal('-'), ZeroDay][1..] == [Literal('-'), ZeroDay];
  }

  /** "-MM-DD" runs through the date layout after the year. */
  lemma DashMonthDayReads(month: nat, day: nat, f: Fields)
    requires 1 <= month <= 12 && day < 100
    ensures RunLayout([Literal('-'), ZeroMonth, Literal('-'), ZeroDay], ['-'] + (Pad2(month) + (['-'] + Pad2(day))), f)
         == Some(([], f.(month := month, day := day)))
  {
    var r := Pad2(month) + (['-'] + Pad2(day));
    MonthDayReads(month, day, f);
    assert (['-'] + r)[1..] == r;
    assert [Literal('-'), ZeroMonth, Literal('-'), ZeroDay][1..] == [ZeroMonth, Literal('-'), ZeroDay];
  }

  /** A four-digit year in front, then whatever the rest of the date layout makes of the remainder. */
  lemma YearThenRest(year: nat, r: string, g: Fields)
    requires year < 10000
    requires RunLayout([Literal('-'), ZeroMonth, Literal('-'), ZeroDay], r, Unset.(year := year)) == Some(([], g))
    ensures RunLayout(DateLayout, Pad4(year) + r, Unset) == Some(([], g))
  {
    Fixed4InFront(year, r);
    assert DateLayout[1..] == [Literal('-'), ZeroMonth, Literal('-'), ZeroDay];
  }

  /** Every valid calendar date printed as YYYY-MM-DD parses back to that date at midnight UTC. */
  lemma DateRoundTrip(year: nat, month: nat, day: nat)
    requires ValidDate(year, month, day)
    ensures ParseDate(FormatDate(year, month, day)) == Some(DateTime(year, month, day, 0, 0, 0, 0))
  {
    var r := ['-'] + (Pad2(month) + (['-'] + Pad2(day)));
    DashMonthDayReads(month, day, Unset.(year := year));
    YearThenRest(year, r, Unset.(year := year, month := month, day := day));
    assert FormatDate(year, month, day) == Pad4(year) + r;
  }

  // ---------------------------------------------------------------------------
  // Trying several layouts

  /** Tries the layouts in turn and gives the first parse that succeeds. */
  function ParseFirst(layouts: seq<seq<Chunk>>, s: string): (r: Option<DateTime>)
    ensures r.Some? ==> ValidDate(r.value.year, r.value.month, r.value.day)
    decreases |layouts|
  {
    if layouts == [] then None
    else match ParseLayout(layouts[0], s)
      case Some(t) => Some(t)
      case None => ParseFirst(layouts[1..], s)
  }

  /** Some layout is accepted exactly when one of them accepts the text, and the first that does decides the result. */
  lemma {:induction false} ParseFirstMeans(layouts: seq<seq<Chunk>>, s: string)
    ensures ParseFirst(layouts, s).Some? <==> exists i | 0 <= i < |layouts| :: ParseLayout(layouts[i], s).Some?
    ensures ParseFirst(layouts, s).Some? ==>
      exists i | 0 <= i < |layouts| :: ParseFirst(layouts, s) == ParseLayout(layouts[i], s)
        && forall j | 0 <= j < i :: ParseLayout(layouts[j], s).None?
    decreases |layouts|
  {
    if layouts != [] {
      ParseFirstMeans(layouts[1..], s);
      if ParseLayout(layouts[0], s).None? {
        if ParseFirst(layouts, s).Some? {
          var i :| 0 <= i < |layouts[1..]| && ParseFirst(layouts[1..], s) == ParseLayout(layouts[1..][i], s)
            && forall j | 0 <= j < i :: ParseLayout(layouts[1..][j], s).None?;
          assert ParseFirst(layouts, s) == ParseLayout(layouts[i + 1], s);
          forall j | 0 <= j < i + 1 ensures ParseLayout(layouts[j], s).None? {
            if j > 0 { assert layouts[j] == layouts[1..][j - 1]; }
          }
        }
        forall i | 0 <= i < |layouts| && ParseLayout(layouts[i], s).Some?
          ensures ParseFirst(layouts, s).Some?
        {
          assert layouts[i] == layouts[1..][i - 1];
        }
      }
    }
  }

  /** The layouts a visit date may follow, in the order they are tried: RFC 3339, date and time, date. */
  const VisitDateLayouts: seq<seq<Chunk>> := [DateLayout + Rfc3339Suffix, DateLayout + ClockSuffix, DateLayout]

  /** The visit date read by the first layout that accepts it. */
  function ParseVisitDate(s: string): (r: Option<DateTime>)
    ensures r.Some? ==> ValidDate(r.value.year, r.value.month, r.value.day)
  {
    ParseFirst(VisitDateLayouts, s)
  }

  /** The visit date is accepted exactly when one of the three layouts accepts it. */
  lemma VisitDateAccepted(s: string)
    ensures ParseVisitDate(s).Some? <==> ParseRfc3339(s).Some? || ParseDateTime(s).Some? || ParseDate(s).Some?
  {
    ParseFirstMeans(VisitDateLayouts, s);
    if ParseDate(s).Some? {
      assert ParseLayout(VisitDateLayouts[2], s).Some?;
    }
    if ParseDateTime(s).Some? {
      assert ParseLayout(VisitDateLayouts[1], s).Some?;
    }
  }

  /** A date written YYYY-MM-DD is accepted as a visit date, at midnight UTC. */
  lemma VisitDateOfFormattedDate(year: nat, month: nat, day: nat)
    requires ValidDate(year, month, day)
    ensures ParseVisitDate(FormatDate(year, month, day)) == Some(DateTime(year, month, day, 0, 0, 0, 0))
  {
    var s := FormatDate(year, month, day);
    DateRoundTrip(year, month, day);
    LayoutsDisjoint(s);
    assert ParseFirst(VisitDateLayouts[2..], s) == ParseDate(s);
    assert ParseFirst(VisitDateLayouts[1..], s) == ParseFirst(VisitDateLayouts[2..], s);
  }
}
