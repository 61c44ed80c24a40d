/** Printing civil times and offsets, and reading them back (RFC 3339, section 5.6). */
module Timestamps {
  import opened Options
  import opened Gregorian

  function DigitChar(n: nat): char requires n < 10 { "0123456789"[n] }

  function DigitOf(c: char): Option<nat> { if '0' <= c <= '9' then Some((c - '0') as nat) else None }

  /** padStart(2, '0'). */
  function Pad2(n: nat): string requires n < 100 { [DigitChar(n / 10), DigitChar(n % 10)] }

  function Pad4(n: nat): string requires n < 10000 { Pad2(n / 100) + Pad2(n % 100) }

  function Read2(s: string, at: nat): Option<nat>
    requires at + 2 <= |s|
  {
    var a, b := DigitOf(s[at]), DigitOf(s[at + 1]);
    if a.Some? && b.Some? then Some(10 * a.value + b.value) else None
  }

  lemma DigitReadsBack(n: nat)
    requires n < 10
    ensures DigitOf(DigitChar(n)) == Some(n)
  {
  }

  lemma Pad2ReadsBack(n: nat, s: string, at: nat)
    requires n < 100 && at + 2 <= |s| && s[at..at + 2] == Pad2(n)
    ensures Read2(s, at) == Some(n)
  {
    var tens, ones := n / 10, n % 10;
    assert s[at] == s[at..at + 2][0] == DigitChar(tens) && s[at + 1] == s[at..at + 2][1] == DigitChar(ones);
    DigitReadsBack(tens);
    DigitReadsBack(ones);
  }

  // ------------------------------------------------------------------ dates

  predicate Printable(d: Date) { Valid(d) && 0 <= d.year < 10000 }

  /** The first ten characters of toISOString. */
  function PrintDate(d: Date): (s: string)
    requires Printable(d)
    ensures |s| == 10
  {
    Pad4(d.year) + "-" + Pad2(d.month) + "-" + Pad2(d.day)
  }

  function ReadDate(s: string): Option<Date>
    requires |s| >= 10
  {
    if s[4] != '-' || s[7] != '-' then None
    else
      var c, y, m, d := Read2(s, 0), Read2(s, 2), Read2(s, 5), Read2(s, 8);
      if c.None? || y.None? || m.None? || d.None? then None
      else
        var date := Date(100 * c.value + y.value, m.value, d.value);
        if Valid(date) then Some(date) else None
  }

  lemma DateParts(s: string, p: string, c: nat, y: nat, m: nat, d: nat)
    requires c < 100 && y < 100 && m < 100 && d < 100 && |s| >= 10 && s[..10] == p
    requires p == Pad2(c) + Pad2(y) + "-" + Pad2(m) + "-" + Pad2(d)
    ensures Read2(s, 0) == Some(c) && Read2(s, 2) == Some(y) && Read2(s, 5) == Some(m) && Read2(s, 8) == Some(d)
    ensures s[4] == '-' && s[7] == '-'
  {
    assert s[0..2] == p[0..2] == Pad2(c) && s[2..4] == p[2..4] == Pad2(y);
    assert s[5..7] == p[5..7] == Pad2(m) && s[8..10] == p[8..10] == Pad2(d);
    assert s[4] == p[4] && s[7] == p[7];
    Pad2ReadsBack(c, s, 0);
    Pad2ReadsBack(y, s, 2);
    Pad2ReadsBack(m, s, 5);
    Pad2ReadsBack(d, s, 8);
  }

  lemma DateReadsBack(d: Date, s: string)
    requires Printable(d) && |s| >= 10 && s[..10] == PrintDate(d)
    ensures ReadDate(s) == Some(d)
  {
    DateParts(s, PrintDate(d), d.year / 100, d.year % 100, d.month, d.day);
  }

  /** shiftCivilDate on text. None where the original's answer is not a
      ten-character date. */
  function ShiftCivilDate(date: string, days: int): Option<string> {
    if |date| != 10 || ReadDate(date).None? then None
    else
      var d := Shift(ReadDate(date).value, days);
      if Printable(d) then Some(PrintDate(d)) else None
  }

  /** On text, shifting is the shift of dates: what is proved of Shift holds of
      the ten characters, between the years 100 and 9999. */
  lemma TextShift(d: Date, days: int, e: Date)
    requires Printable(d) && 100 <= d.year && e == Shift(d, days) && 0 <= e.year < 10000
    ensures Printable(e) && ShiftCivilDate(PrintDate(d), days) == Some(PrintDate(e))
  {
    ShiftMoves(d, days);
    var s := PrintDate(d);
    assert s[..10] == s;
    DateReadsBack(d, s);
  }

  // ------------------------------------------------------ times and offsets

  /** civilParts: YYYY-MM-DDTHH:MM, for a date and a minute of the day. */
  function CivilText(date: Date, clock: nat): (s: string)
    requires Printable(date) && clock < 1440
    ensures |s| == 16
  {
    PrintDate(date) + "T" + Pad2(clock / 60) + ":" + Pad2(clock % 60)
  }

  predicate PrintableOffset(offset: int) { -1440 < offset < 1440 }

  function Abs(n: int): nat { if n < 0 then -n else n }

  function OffsetText(offset: int): (s: string)
    requires PrintableOffset(offset)
    ensures |s| == 6
  {
    (if offset < 0 then "-" else "+") + Pad2(Abs(offset) / 60) + ":" + Pad2(Abs(offset) % 60)
  }

  /** The parts of a printed timestamp: a civil minute at an offset. */
  datatype Moment = Moment(date: Date, clock: nat, offset: int)

  predicate Showable(m: Moment) { Printable(m.date) && m.clock < 1440 && PrintableOffset(m.offset) }

  /** The instant a moment stands for, in minutes. */
  function InstantOf(m: Moment): int { 1440 * DayNumber(m.date) + m.clock - m.offset }

  /** The text of a moment. */
  function Stamp(m: Moment): (s: string)
    requires Showable(m)
    ensures |s| == 25
  {
    CivilText(m.date, m.clock) + ":00" + OffsetText(m.offset)
  }

  /** Two numbers with a colon between them, both in clock range. */
  function ReadClock(s: string, at: nat): Option<nat>
    requires at + 5 <= |s|
  {
    var h, m := Read2(s, at), Read2(s, at + 3);
    if s[at + 2] != ':' || h.None? || m.None? || h.value > 23 || m.value > 59 then None
        else Some(60 * h.value + m.value)
  }

  function ReadOffset(s: string, at: nat): Option<int>
    requires at + 6 <= |s|
  {
    var o: Option<nat> := ReadClock(s, at + 1);
    if o.None? then None
    else if s[at] == '+' then Some(o.value as int)
    else if s[at] == '-' then Some(-(o.value as int))
    else None
  }

  /** Reading a timestamp with whole minutes and a numeric offset, as an instant. */
  function ReadStamp(s: string): Option<int> {
    if |s| != 25 || s[10] != 'T' || s[16..19] != ":00" then None
    else
      var date, clock, offset := ReadDate(s), ReadClock(s, 11), ReadOffset(s, 19);
      if date.None? || clock.None? || offset.None? then None
      else Some(1440 * DayNumber(date.value) + clock.value - offset.value)
  }

  lemma ClockReadsBack(minutes: nat, s: string, at: nat)
    requires minutes < 1440 && at + 5 <= |s| && s[at..at + 5] == Pad2(minutes / 60) + ":" + Pad2(minutes % 60)
    ensures ReadClock(s, at) == Some(minutes)
  {
    var t := s[at..at + 5];
    assert s[at..at + 2] == t[0..2] == Pad2(minutes / 60);
    assert s[at + 3..at + 5] == t[3..5] == Pad2(minutes % 60);
    assert s[at + 2] == t[2];
    Pad2ReadsBack(minutes / 60, s, at);
    Pad2ReadsBack(minutes % 60, s, at + 3);
  }

  lemma OffsetReadsBack(offset: int, s: string, at: nat)
    requires PrintableOffset(offset) && at + 6 <= |s| && s[at..at + 6] == OffsetText(offset)
    ensures ReadOffset(s, at) == Some(offset)
  {
    var t := s[at..at + 6];
    assert s[at] == t[0];
    assert s[at + 1..at + 6] == t[1..6] == Pad2(Abs(offset) / 60) + ":" + Pad2(Abs(offset) % 60);
    ClockReadsBack(Abs(offset), s, at + 1);
  }

  lemma CivilReadsBack(date: Date, clock: nat, s: string)
    requires Printable(date) && clock < 1440 && |s| >= 16 && s[..16] == CivilText(date, clock)
    ensures ReadDate(s) == Some(date) && s[10] == 'T' && ReadClock(s, 11) == Some(clock)
  {
    var c := CivilText(date, clock);
    assert s[..10] == c[..10] == PrintDate(date);
    assert s[10] == c[10];
    DateReadsBack(date, s);
    assert s[11..16] == c[11..16] == Pad2(clock / 60) + ":" + Pad2(clock % 60);
    ClockReadsBack(clock, s, 11);
  }

  lemma Pieces(c: string, o: string, s: string)
    requires |c| == 16 && |o| == 6 && s == c + ":00" + o
    ensures |s| == 25 && s[..16] == c && s[16..19] == ":00" && s[19..25] == o
  {
  }

  lemma StampParts(s: string, date: Date, clock: nat, offset: int)
    requires |s| == 25 && s[10] == 'T' && s[16..19] == ":00"
    requires ReadDate(s) == Some(date) && ReadClock(s, 11) == Some(clock) && ReadOffset(s, 19) == Some(offset)
    ensures ReadStamp(s) == Some(InstantOf(Moment(date, clock, offset)))
  {
  }

  lemma PartsReadBack(m: Moment, c: string, o: string, s: string)
    requires Showable(m) && c == CivilText(m.date, m.clock) && o == OffsetText(m.offset) && s == c + ":00" + o
    ensures ReadStamp(s) == Some(InstantOf(m))
  {
    Pieces(c, o, s);
    CivilReadsBack(m.date, m.clock, s);
    OffsetReadsBack(m.offset, s, 19);
    StampParts(s, m.date, m.clock, m.offset);
  }

  /** A printed timestamp reads back as the instant it was printed for. */
  lemma StampReadsBack(m: Moment)
    requires Showable(m)
    ensures ReadStamp(Stamp(m)) == Some(InstantOf(m))
  {
    PartsReadBack(m, CivilText(m.date, m.clock), OffsetText(m.offset), Stamp(m));
  }

  // ------------------------------------------------------------ the layout

  predicate Digits(s: string) { forall i | 0 <= i < |s| :: '0' <= s[i] <= '9' }

  /** Decimal notation. */
  function Number(s: string): int {
    if s == "" then 0 else 10 * Number(s[..|s| - 1]) + (s[|s| - 1] as int - '0' as int)
  }

  /** The digits at these places of a text are this number. */
  predicate Writes(s: string, from: nat, to: nat, n: int) {
    from <= to <= |s| && Digits(s[from..to]) && Number(s[from..to]) == n
  }

  lemma Pad2Writes(n: nat)
    requires n < 100
    ensures Digits(Pad2(n)) && Number(Pad2(n)) == n
  {
    var s := Pad2(n);
    assert s[..1] == [s[0]] && s[..1][..0] == "";
    assert Number(s[..1]) == n / 10;
  }

  lemma Pad4Writes(n: nat)
    requires n < 10000
    ensures Digits(Pad4(n)) && Number(Pad4(n)) == n
  {
    var a, b, s := Pad2(n / 100), Pad2(n % 100), Pad4(n);
    Pad2Writes(n / 100);
    Pad2Writes(n % 100);
    assert s[..3][..2] == a && s[..3][2] == b[0] && s[3] == b[1] && b[..1] == [b[0]] && b[..1][..0] == "";
    assert Number(s[..3]) == 10 * Number(a) + Number(b[..1]);
  }

  lemma DateLayout(d: Date, s: string)
    requires Printable(d) && |s| >= 10 && s[..10] == PrintDate(d)
    ensures Writes(s, 0, 4, d.year) && s[4] == '-' && Writes(s, 5, 7, d.month) && s[7] == '-' && Writes(s, 8, 10, d.day)
  {
    var t := s[..10];
    Pad4Writes(d.year);
    Pad2Writes(d.month);
    Pad2Writes(d.day);
    assert s[0..4] == t[0..4] == Pad4(d.year) && s[5..7] == t[5..7] == Pad2(d.month);
    assert s[8..10] == t[8..10] == Pad2(d.day) && s[4] == t[4] && s[7] == t[7];
  }

  lemma ClockLayout(minutes: nat, s: string, at: nat)
    requires minutes < 1440 && at + 5 <= |s| && s[at..at + 5] == Pad2(minutes / 60) + ":" + Pad2(minutes % 60)
    ensures Writes(s, at, at + 2, minutes / 60) && s[at + 2] == ':' && Writes(s, at + 3, at + 5, minutes % 60)
  {
    var t := s[at..at + 5];
    Pad2Writes(minutes / 60);
    Pad2Writes(minutes % 60);
    assert s[at..at + 2] == t[0..2] == Pad2(minutes / 60);
    assert s[at + 3..at + 5] == t[3..5] == Pad2(minutes % 60);
    assert s[at + 2] == t[2];
  }

  /** A printed timestamp is YYYY-MM-DDTHH:MM:00+HH:MM or -HH:MM, each number in decimal. */
  lemma StampLayout(m: Moment)
    requires Showable(m)
    ensures var s := Stamp(m);
            && Writes(s, 0, 4, m.date.year) && s[4] == '-' && Writes(s, 5, 7, m.date.month) && s[7] == '-'
            && Writes(s, 8, 10, m.date.day) && s[10] == 'T' && Writes(s, 11, 13, m.clock / 60) && s[13] == ':'
            && Writes(s, 14, 16, m.clock % 60) && s[16..19] == ":00"
            && var away := if m.offset < 0 then -m.offset else m.offset;
               && s[19] == (if m.offset < 0 then '-' else '+')
               && Writes(s, 20, 22, away / 60) && s[22] == ':' && Writes(s, 23, 25, away % 60)
  {
    var c, o, s := CivilText(m.date, m.clock), OffsetText(m.offset), Stamp(m);
    Pieces(c, o, s);
    assert s[..10] == c[..10] == PrintDate(m.date) && s[10] == c[10];
    DateLayout(m.date, s);
    assert s[11..16] == c[11..16] == Pad2(m.clock / 60) + ":" + Pad2(m.clock % 60);
    ClockLayout(m.clock, s, 11);
    assert s[19] == s[19..25][0] == o[0];
    assert s[20..25] == s[19..25][1..6] == o[1..6] == Pad2(Abs(m.offset) / 60) + ":" + Pad2(Abs(m.offset) % 60);
    ClockLayout(Abs(m.offset), s, 20);
  }

  /** Equal civil texts are the same civil minute, so comparing the texts is
      comparing the minutes. */
  lemma CivilTextInjective(date: Date, clock: nat, date': Date, clock': nat)
    requires Printable(date) && Printable(date') && clock < 1440 && clock' < 1440
    ensures CivilText(date, clock) == CivilText(date', clock') <==> date == date' && clock == clock'
  {
    if CivilText(date, clock) == CivilText(date', clock') {
      var s := CivilText(date, clock);
      assert s[..16] == s;
      CivilReadsBack(date, clock, s);
      CivilReadsBack(date', clock', s);
    }
  }
}
