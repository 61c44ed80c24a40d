/** Turning a civil minute of a time zone into an instant, and a relative request
    into a range of instants. Instants and offsets are whole minutes. */
module CivilTime {
  import opened Options
  import opened Gregorian
  import opened Timestamps

  /** The offset in force at every instant. */
  type Zone = int -> int

  datatype Clock = Clock(hour: nat, minute: nat)

  predicate ValidClock(c: Clock) { c.hour <= 23 && c.minute <= 59 }

  function MinuteOfDay(c: Clock): nat { 60 * c.hour + c.minute }

  /** The civil minute read as if it were UTC. */
  function Naive(date: Date, c: Clock): int { 1440 * DayNumber(date) + MinuteOfDay(c) }

  /** What the zone's clock shows at an instant. */
  function Local(zone: Zone, t: int): int { t + zone(t) }

  // -------------------------------------------------------- one civil minute

  datatype Resolution = Resolved(instant: int, offset: int) | Nonexistent | Ambiguous

  /** The `i`-th sample: every six hours over two days either way. */
  function Sample(zone: Zone, naive: int, i: int): int { zone(naive + 360 * (i - 8)) }

  predicate Distinct(xs: seq<int>) { forall i, j | 0 <= i < j < |xs| :: xs[i] != xs[j] }

  /** The different offsets among the first `n` samples, as they were met. */
  function Sampled(zone: Zone, naive: int, n: nat): (r: seq<int>)
    ensures Distinct(r)
    ensures forall o :: o in r <==> exists i | 0 <= i < n :: Sample(zone, naive, i) == o
  {
    if n == 0 then []
    else
      var before, o := Sampled(zone, naive, n - 1), Sample(zone, naive, n - 1);
      if o in before then before else before + [o]
  }

  /** The offsets under which the clock really shows the minute. */
  function Shown(zone: Zone, naive: int, offsets: seq<int>): (r: seq<int>)
    ensures forall o :: o in r <==> o in offsets && Local(zone, naive - o) == naive
    ensures Distinct(offsets) ==> Distinct(r)
  {
    if offsets == [] then []
    else
      var last := |offsets| - 1;
      var rest := Shown(zone, naive, offsets[..last]);
      assert forall o :: o in offsets <==> o in offsets[..last] || o == offsets[last];
      assert Distinct(offsets) ==> Distinct(offsets[..last]) && offsets[last] !in offsets[..last];
      if Local(zone, naive - offsets[last]) == naive then rest + [offsets[last]] else rest
  }

  function Matches(zone: Zone, naive: int): seq<int> { Shown(zone, naive, Sampled(zone, naive, 17)) }

  function Answered(naive: int, matches: seq<int>): Resolution {
    if |matches| == 0 then Nonexistent
    else if |matches| > 1 then Ambiguous
    else Resolved(naive - matches[0], matches[0])
  }

  function Resolve(zone: Zone, naive: int): Resolution { Answered(naive, Matches(zone, naive)) }

  /** resolveCivilMinute, with the loop that fills the set of offsets. */
  method ResolveCivilMinute(zone: Zone, naive: int) returns (r: Resolution)
    ensures r == Resolve(zone, naive)
  {
    var offsets: seq<int> := [];
    for i := 0 to 17
      invariant offsets == Sampled(zone, naive, i)
    {
      var offset := Sample(zone, naive, i);
      if offset !in offsets { offsets := offsets + [offset]; }
    }
    r := Answered(naive, Shown(zone, naive, offsets));
  }

  ghost predicate Regime(zone: Zone, a: int, b: int) { forall u | a <= u < b :: zone(u) == zone(a) }

  /** The offset at `t` holds for six hours or more around it. */
  ghost predicate Settled(zone: Zone, t: int) {
    exists a, b :: Regime(zone, a, b) && a <= t < b && b - a >= 360
  }

  /** Offsets of at most a day, and every regime meeting the window of possible
      answers lasts six hours. */
  ghost predicate Steady(zone: Zone, naive: int) {
    && (forall t :: -1440 <= zone(t) <= 1440)
    && (forall t | naive - 1440 <= t <= naive + 1440 :: Settled(zone, t))
  }

  /** Every instant showing the minute has a sampled offset. */
  lemma InstantIsSampled(zone: Zone, naive: int, t: int)
    requires Steady(zone, naive) && Local(zone, t) == naive
    ensures zone(t) in Matches(zone, naive)
  {
    assert Settled(zone, t);
    var a, b :| Regime(zone, a, b) && a <= t < b && b - a >= 360;
    var from := if t - 359 > a then t - 359 else a;
    var k := NextSample(naive, from);
    assert Sample(zone, naive, k + 8) == zone(a) == zone(t);
    assert naive - zone(t) == t;
  }

  /** Some sample falls into any six hours that start within the window. */
  lemma NextSample(naive: int, from: int) returns (k: int)
    requires naive - 1440 - 359 <= from <= naive + 1440
    ensures -8 <= k <= 8 && from <= naive + 360 * k < from + 360
  {
    k := (from - naive + 359) / 360;
  }

  /** Offset `o` is met in six-hour steps over the two days before and after, and under it
      the clock shows the minute. */
  ghost predicate Candidate(zone: Zone, naive: int, o: int) {
    (exists k :: -8 <= k <= 8 && zone(naive + 360 * k) == o) && naive - o + zone(naive - o) == naive
  }

  /** The answer by the candidates alone, for every zone: none, several, or the only one
      with the instant it stands for. */
  lemma ResolveByCandidates(zone: Zone, naive: int)
    ensures var r := Resolve(zone, naive);
            && (r.Nonexistent? <==> forall o :: !Candidate(zone, naive, o))
            && (r.Ambiguous? <==> exists o, o' :: o != o' && Candidate(zone, naive, o) && Candidate(zone, naive, o'))
            && (r.Resolved? ==> r.instant == naive - r.offset && Candidate(zone, naive, r.offset))
  {
    var m := Matches(zone, naive);
    forall o ensures o in m <==> Candidate(zone, naive, o) { MatchIsCandidate(zone, naive, o); }
    TwoMembers(m);
    if |m| == 1 { assert m[0] in m; }
  }

  lemma MatchIsCandidate(zone: Zone, naive: int, o: int)
    ensures o in Matches(zone, naive) <==> Candidate(zone, naive, o)
  {
    if k :| -8 <= k <= 8 && zone(naive + 360 * k) == o {
      assert Sample(zone, naive, k + 8) == o;
    }
    if i :| 0 <= i < 17 && Sample(zone, naive, i) == o {
      assert zone(naive + 360 * (i - 8)) == o;
    }
  }

  /** What the answer should be, by the instants that show the minute. */
  ghost predicate Right(zone: Zone, naive: int, r: Resolution) {
    match r
    case Nonexistent => forall t :: Local(zone, t) != naive
    case Ambiguous => exists t, t' :: t != t' && Local(zone, t) == naive && Local(zone, t') == naive
    case Resolved(instant, offset) =>
      Local(zone, instant) == naive && zone(instant) == offset && forall t | Local(zone, t) == naive :: t == instant
  }

  lemma AnsweredRightIff(zone: Zone, naive: int, m: seq<int>)
    requires Distinct(m) && forall o | o in m :: Local(zone, naive - o) == naive && zone(naive - o) == o
    ensures Right(zone, naive, Answered(naive, m)) <==> |m| > 1 || forall t | Local(zone, t) == naive :: zone(t) in m
  {
    if |m| > 1 {
      assert m[0] in m && m[1] in m && naive - m[0] != naive - m[1];
    } else if |m| == 1 {
      assert m[0] in m && forall o | o in m :: o == m[0];
    }
  }

  /** The answer is right exactly when sampling missed nothing that matters: no
      instant was missed, or two were found anyway. */
  lemma ResolveRightIff(zone: Zone, naive: int)
    ensures Right(zone, naive, Resolve(zone, naive)) <==>
              || |Matches(zone, naive)| > 1
              || forall t | Local(zone, t) == naive :: zone(t) in Matches(zone, naive)
  {
    AnsweredRightIff(zone, naive, Matches(zone, naive));
  }

  /** On zones whose offsets hold for at least six hours at a time the answer is
      right: none, one or several instants show the minute, and the offset given
      is the one in force. */
  lemma ResolveExact(zone: Zone, naive: int)
    requires Steady(zone, naive)
    ensures Right(zone, naive, Resolve(zone, naive))
  {
    forall t | Local(zone, t) == naive ensures zone(t) in Matches(zone, naive) { InstantIsSampled(zone, naive, t); }
    ResolveRightIff(zone, naive);
  }

  lemma TwoMembers(m: seq<int>)
    requires Distinct(m)
    ensures |m| > 1 ==> exists o, o' :: o in m && o' in m && o != o'
  {
    if |m| > 1 { assert m[0] in m && m[1] in m && m[0] != m[1]; }
  }

  lemma AtMostOne(m: seq<int>)
    requires Distinct(m) && forall o | o in m :: o == 0
    ensures |m| <= 1
  {
    TwoMembers(m);
  }

  /** Zero until six hours less a minute before the minute itself, one until then. */
  function BriefRegime(naive: int): Zone { (t: int) => if naive - 359 <= t < naive then 1 else 0 }

  /** Six hours is what the sampling step needs: a zone that shows the minute once
      more, during a regime one minute shorter, is answered wrongly. */
  lemma ShorterRegimeMissed(naive: int)
    ensures Regime(BriefRegime(naive), naive - 359, naive)
            && !Right(BriefRegime(naive), naive, Resolve(BriefRegime(naive), naive))
  {
    var zone := BriefRegime(naive);
    var m := Matches(zone, naive);
    forall o | o in m ensures o == 0 {
      var i :| 0 <= i < 17 && Sample(zone, naive, i) == o;
    }
    AtMostOne(m);
    assert Local(zone, naive - 1) == naive && zone(naive - 1) == 1 && 1 !in m;
    ResolveRightIff(zone, naive);
  }

  // ------------------------------------------------------- relative requests

  /** A relative intent as this function hands it on to a later turn. */
  datatype Intent = Intent(dayOffset: int, localDate: Date, localTime: Clock, duration: Option<int>)

  /** What was read off the latest text: a day offset, whether it mentions a
      relative date at all, a time, a duration in minutes, an end time. */
  datatype Request = Request(
    offset: Option<int>, mentions: bool, localTime: Option<Clock>, duration: Option<int>, end: Option<Clock>)

  datatype Refusal = NonexistentTime | AmbiguousTime | BadCalendarTime

  datatype Answer =
    | NoIntent
    | Incomplete(intent: Intent)
    | Invalid(refusal: Refusal)
    | Range(intent: Intent, start: Moment, end: Moment)

  function Refused(r: Resolution): Answer
    requires !r.Resolved?
  {
    Invalid(if r.Nonexistent? then NonexistentTime else AmbiguousTime)
  }

  /** formatInstant. */
  function FormatInstant(zone: Zone, t: int): Moment {
    Moment(DateOf(Local(zone, t) / 1440), Local(zone, t) % 1440, zone(t))
  }

  predicate ValidIntent(i: Intent) {
    && Printable(i.localDate) && 1000 <= i.localDate.year < 9999 && ValidClock(i.localTime)
    && (i.duration.Some? ==> 1 <= i.duration.value <= 1440)
  }

  ghost predicate OffsetsUnderADay(zone: Zone) { forall t :: -1440 < zone(t) < 1440 }

  /** A target date between the years 1000 and 9998. */
  predicate Target(d: Date) { Printable(d) && 1000 <= d.year < 9999 }

  /** What the parsers and earlier turns guarantee: clock times on the clock and
      durations of 1 to 1440 minutes. */
  predicate Sane(today: Date, req: Request, existing: Option<Intent>) {
    && Valid(today) && (req.offset.Some? ==> Target(Shift(today, req.offset.value)))
    && (req.localTime.Some? ==> ValidClock(req.localTime.value)) && (req.end.Some? ==> ValidClock(req.end.value))
    && (req.duration.Some? ==> 1 <= req.duration.value <= 1440)
    && (existing.Some? ==> ValidIntent(existing.value))
  }

  /** The intent of this turn: what the text says, else what an earlier turn left.
      None when no local time is known. */
  function Combine(today: Date, req: Request, existing: Option<Intent>): (r: Option<Intent>)
    requires Sane(today, req, existing) && (req.offset.Some? || existing.Some?)
    ensures r.Some? ==> ValidIntent(r.value)
  {
    var localTime := if req.localTime.Some? then req.localTime
        else if existing.Some? then Some(existing.value.localTime) else None;
    if localTime.None? then None
    else
      Some(Intent(
        if req.offset.Some? then req.offset.value else existing.value.dayOffset,
        if req.offset.Some? then Shift(today, req.offset.value) else existing.value.localDate,
        localTime.value,
        if req.duration.Some? then req.duration else if existing.Some? then existing.value.duration else None))
  }

  function Starting(intent: Intent, start: Resolution): Moment requires start.Resolved? {
    Moment(intent.localDate, MinuteOfDay(intent.localTime), start.offset)
  }

  function Formatter(zone: Zone): int -> Moment { (t: int) => FormatInstant(zone, t) }

  /** The range of a combined intent, given how its start and end resolve and how
      an instant is formatted. */
  function RangeFrom(
      intent: Intent, start: Resolution, end: Option<Clock>, stop: Resolution, format: int -> Moment): Answer
    requires intent.duration.Some? || end.Some?
  {
    if !start.Resolved? then Refused(start)
    else if end.Some? then
      if !stop.Resolved? then Refused(stop)
      else
        var minutes := stop.instant - start.instant;
        if minutes <= 0 || minutes > 24 * 60 then Invalid(BadCalendarTime)
        else
          Range(intent.(duration := Some(minutes)), Starting(intent, start),
              Moment(intent.localDate, MinuteOfDay(end.value), stop.offset))
    else Range(intent, Starting(intent, start), format(start.instant + intent.duration.value))
  }

  /** The range of a combined intent, given how civil minutes resolve. */
  function RangeWith(intent: Intent, end: Option<Clock>, resolve: int -> Resolution, format: int -> Moment): Answer {
    if intent.duration.None? && end.None? then Incomplete(intent)
    else
      RangeFrom(intent, resolve(Naive(intent.localDate, intent.localTime)), end,
                resolve(Naive(intent.localDate, if end.Some? then end.value else intent.localTime)), format)
  }

  function Resolver(zone: Zone): int -> Resolution { (naive: int) => Resolve(zone, naive) }

  function RangeOf(zone: Zone, intent: Intent, end: Option<Clock>): Answer {
    RangeWith(intent, end, Resolver(zone), Formatter(zone))
  }

  /** resolveCalendarTimeIntent, after the text has been read. */
  function ResolveIntent(zone: Zone, today: Date, req: Request, existing: Option<Intent>): Answer
    requires Sane(today, req, existing)
  {
    if req.offset.None? && existing.None? then (if req.mentions then Invalid(BadCalendarTime) else NoIntent)
    else
      var intent := Combine(today, req, existing);
      if intent.None? then Invalid(BadCalendarTime) else RangeOf(zone, intent.value, req.end)
  }

  /** An answer is an instant at which the clock really shows the minute. */
  lemma ResolvedShows(zone: Zone, naive: int)
    ensures var r := Resolve(zone, naive);
            r.Resolved? ==> Local(zone, r.instant) == naive && zone(r.instant) == r.offset
  {
    var m := Matches(zone, naive);
    if |m| == 1 { assert m[0] in m; }
  }

  lemma YearNear(y: int, n: int)
    requires DayFromYear(y) - 2 <= n < DayFromYear(y + 1) + 4
    ensures y - 1 <= YearOf(n) <= y + 1
  {
    var r := YearOf(n);
    if r > y + 1 { YearsGrow(y + 1, r); }
    if r < y - 1 { YearsGrow(r + 1, y); }
  }

  lemma DayWithinYear(d: Date)
    requires Valid(d)
    ensures DayFromYear(d.year) <= DayNumber(d) < DayFromYear(d.year + 1)
  {
    YearLength(d.year);
    MonthsFit(d.year, d.month);
  }

  lemma FormatIsInstant(zone: Zone, t: int)
    ensures InstantOf(FormatInstant(zone, t)) == t
  {
  }

  lemma NearbyPrintable(d: Date, n: int)
    requires Target(d) && DayNumber(d) - 2 <= n <= DayNumber(d) + 4
    ensures Printable(DateOf(n))
  {
    DayWithinYear(d);
    YearNear(d.year, n);
    DayNumberOfDate(n);
  }

  /** The end of a range is within a few days of its start, on the clock too. */
  lemma EndPrintable(zone: Zone, date: Date, c: Clock, s: int, e: int)
    requires OffsetsUnderADay(zone) && Target(date) && ValidClock(c) && 1 <= e - s <= 1440
    requires Local(zone, s) == Naive(date, c)
    ensures Printable(DateOf(Local(zone, e) / 1440))
  {
    var local, n0 := Local(zone, e), DayNumber(date);
    assert 1440 * n0 - 2880 < local < 1440 * n0 + 5760;
    NearbyPrintable(date, local / 1440);
  }

  /** The answer for a civil minute, without how it was found. */
  ghost predicate Shows(zone: Zone, naive: int, r: Resolution) {
    r.Resolved? && Local(zone, r.instant) == naive && zone(r.instant) == r.offset
  }

  lemma ResolveShows(zone: Zone, naive: int)
    ensures Resolve(zone, naive).Resolved? ==> Shows(zone, naive, Resolve(zone, naive))
  {
    ResolvedShows(zone, naive);
  }

  /** The start shows the requested civil minute; the end is later by the intent's
      duration; both carry the offsets in force. */
  ghost predicate GoodRange(zone: Zone, a: Answer)
    requires a.Range?
  {
    var start, end := InstantOf(a.start), InstantOf(a.end);
    && a.intent.duration.Some? && end - start == a.intent.duration.value && 1 <= end - start <= 1440
    && a.start == Moment(a.intent.localDate, MinuteOfDay(a.intent.localTime), zone(start)) && a.end.offset == zone(end)
    && Local(zone, start) == Naive(a.intent.localDate, a.intent.localTime)
  }

  /** What the zone's resolver and formatter are relied on for. */
  ghost predicate Faithful(zone: Zone, resolve: int -> Resolution, format: int -> Moment) {
    && (forall naive :: resolve(naive).Resolved? ==> Shows(zone, naive, resolve(naive)))
    && (forall t :: InstantOf(format(t)) == t && format(t).offset == zone(t))
  }

  lemma ZoneFaithful(zone: Zone)
    ensures Faithful(zone, Resolver(zone), Formatter(zone))
  {
    forall naive ensures Resolver(zone)(naive).Resolved? ==> Shows(zone, naive, Resolver(zone)(naive)) {
      ResolveShows(zone, naive);
    }
    forall t ensures InstantOf(Formatter(zone)(t)) == t && Formatter(zone)(t).offset == zone(t) {
      FormatIsInstant(zone, t);
    }
  }

  /** A range and where its two ends come from. */
  lemma RangeWithGood(zone: Zone, intent: Intent, end: Option<Clock>, resolve: int -> Resolution, format: int -> Moment)
    requires Faithful(zone, resolve, format) && (intent.duration.Some? ==> 1 <= intent.duration.value <= 1440)
    ensures var a := RangeWith(intent, end, resolve, format);
            && (a.Incomplete? ==> a.intent == intent)
            && (a.Range? ==>
                  var r := resolve(Naive(intent.localDate, intent.localTime));
                  && GoodRange(zone, a) && a.intent == intent.(duration := a.intent.duration)
                  && r.Resolved? && InstantOf(a.start) == r.instant
                  && (end.Some? ==> a.end.date == intent.localDate && a.end.clock == MinuteOfDay(end.value))
                  && (end.None? ==> a.end == format(InstantOf(a.end))))
  {
  }

  /** A civil minute of the requested date prints, at the zone's offset. */
  lemma TargetShowable(zone: Zone, date: Date, c: Clock, t: int, m: Moment)
    requires OffsetsUnderADay(zone) && Target(date) && ValidClock(c) && m == Moment(date, MinuteOfDay(c), zone(t))
    ensures Showable(m)
  {
  }

  lemma FormatShowable(zone: Zone, t: int, m: Moment)
    requires OffsetsUnderADay(zone) && Printable(DateOf(Local(zone, t) / 1440)) && m == FormatInstant(zone, t)
    ensures Showable(m)
  {
  }

  /** Both ends of a range print: `date` and `c` are the requested civil minute,
      `s` and `e` the two instants. */
  lemma RangeShowable(zone: Zone, date: Date, c: Clock, s: int, e: int, stop: Option<Clock>, start: Moment, end: Moment)
    requires OffsetsUnderADay(zone) && Target(date) && ValidClock(c) && (stop.Some? ==> ValidClock(stop.value))
    requires start == Moment(date, MinuteOfDay(c), zone(s)) && end.offset == zone(e)
    requires Local(zone, s) == Naive(date, c) && 1 <= e - s <= 1440
    requires if stop.Some? then end.date == date && end.clock == MinuteOfDay(stop.value)
               else end == FormatInstant(zone, e)
    ensures Showable(start) && Showable(end)
  {
    TargetShowable(zone, date, c, s, start);
    if stop.Some? {
      TargetShowable(zone, date, stop.value, e, end);
    } else {
      EndPrintable(zone, date, c, s, e);
      FormatShowable(zone, e, end);
    }
  }

  lemma RangeOfGood(zone: Zone, intent: Intent, end: Option<Clock>)
    requires OffsetsUnderADay(zone) && (intent.duration.Some? ==> 1 <= intent.duration.value <= 1440)
    ensures var a := RangeOf(zone, intent, end);
            && (a.Incomplete? ==> a.intent == intent)
            && (a.Range? ==>
                  var r := Resolve(zone, Naive(intent.localDate, intent.localTime));
                  && GoodRange(zone, a) && a.intent == intent.(duration := a.intent.duration)
                  && r.Resolved? && InstantOf(a.start) == r.instant
                  && (end.Some? ==> a.end.date == intent.localDate && a.end.clock == MinuteOfDay(end.value))
                  && (end.None? ==> a.end == FormatInstant(zone, InstantOf(a.end))))
  {
    ZoneFaithful(zone);
    RangeWithGood(zone, intent, end, Resolver(zone), Formatter(zone));
  }

  /** On a steady zone no other instant shows the minute. */
  ghost predicate Only(zone: Zone, naive: int, instant: int) {
    Steady(zone, naive) ==> forall t | Local(zone, t) == naive :: t == instant
  }

  lemma OnlyIfSteady(zone: Zone, naive: int)
    ensures Resolve(zone, naive).Resolved? ==> Only(zone, naive, Resolve(zone, naive).instant)
  {
    if Steady(zone, naive) { ResolveExact(zone, naive); }
  }

  /** Exactly one instant shows the minute. */
  ghost predicate ShownAt(zone: Zone, naive: int, t: int) {
    Local(zone, t) == naive && forall u | Local(zone, u) == naive :: u == t
  }

  ghost predicate ShownOnce(zone: Zone, naive: int) { exists t :: ShownAt(zone, naive, t) }

  ghost predicate NeverShown(zone: Zone, naive: int) { forall t :: Local(zone, t) != naive }

  ghost predicate ShownTwice(zone: Zone, naive: int) {
    exists t, t' :: t != t' && Local(zone, t) == naive && Local(zone, t') == naive
  }

  /** The answer and the instants, for one minute. */
  ghost predicate Tells(zone: Zone, naive: int, r: Resolution) {
    && (r.Nonexistent? <==> NeverShown(zone, naive)) && (r.Ambiguous? <==> ShownTwice(zone, naive))
    && (forall t :: ShownAt(zone, naive, t) <==> r.Resolved? && r.instant == t)
  }

  lemma ResolveTells(zone: Zone, naive: int)
    requires Steady(zone, naive)
    ensures Tells(zone, naive, Resolve(zone, naive))
  {
    ResolveExact(zone, naive);
  }

  /** Both ends of a range with an end time. */
  ghost predicate EndsApart(zone: Zone, start: int, stop: int) {
    exists t, u :: ShownAt(zone, start, t) && ShownAt(zone, stop, u) && 1 <= u - t <= 1440
  }

  /** Which answer goes with which instants: a range when each minute is shown once
      and the end is 1 to 1440 minutes later, a refusal that says what is wrong with
      the first minute that is never or repeatedly shown. */
  ghost predicate AnswerFits(zone: Zone, start: int, end: Option<int>, a: Answer) {
    && (a.Range? <==> if end.Some? then EndsApart(zone, start, end.value) else ShownOnce(zone, start))
    && (a == Invalid(NonexistentTime) <==>
          NeverShown(zone, start) || (end.Some? && ShownOnce(zone, start) && NeverShown(zone, end.value)))
    && (a == Invalid(AmbiguousTime) <==>
          ShownTwice(zone, start) || (end.Some? && ShownOnce(zone, start) && ShownTwice(zone, end.value)))
    && !a.Incomplete? && a != NoIntent
  }

  /** The end time as a civil minute of the intent's date. */
  function EndMinute(intent: Intent, end: Option<Clock>): Option<int> {
    if end.Some? then Some(Naive(intent.localDate, end.value)) else None
  }

  /** On steady zones every kind of answer is given exactly when it should be. */
  lemma AnswersAreRight(zone: Zone, intent: Intent, end: Option<Clock>)
    requires intent.duration.Some? || end.Some?
    requires Steady(zone, Naive(intent.localDate, intent.localTime))
    requires end.Some? ==> Steady(zone, Naive(intent.localDate, end.value))
    ensures AnswerFits(zone, Naive(intent.localDate, intent.localTime), EndMinute(intent, end),
              RangeOf(zone, intent, end))
  {
    var start := Naive(intent.localDate, intent.localTime);
    var stop := if end.Some? then Naive(intent.localDate, end.value) else start;
    ResolveTells(zone, start);
    ResolveTells(zone, stop);
    RangeOfIs(zone, intent, end, start, stop);
    RangeTells(zone, intent, end, Resolve(zone, start), Resolve(zone, stop), RangeOf(zone, intent, end));
    FitsByTelling(zone, start, Resolve(zone, start), stop, Resolve(zone, stop), EndMinute(intent, end),
        RangeOf(zone, intent, end));
  }

  lemma FitsByTelling(
      zone: Zone, start: int, first: Resolution, stop: int, second: Resolution, end: Option<int>, a: Answer)
    requires Tells(zone, start, first) && Tells(zone, stop, second) && (end.Some? ==> end.value == stop)
    requires a.Range? <==>
               first.Resolved? && (end.Some? ==> second.Resolved? && 1 <= second.instant - first.instant <= 1440)
    requires a == Invalid(NonexistentTime) <==>
               first.Nonexistent? || (end.Some? && first.Resolved? && second.Nonexistent?)
    requires a == Invalid(AmbiguousTime) <==> first.Ambiguous? || (end.Some? && first.Resolved? && second.Ambiguous?)
    requires !a.Incomplete? && a != NoIntent
    ensures AnswerFits(zone, start, end, a)
  {
    TellApart(zone, start, first, stop, second);
    TellOnce(zone, start, first);
  }

  lemma TellOnce(zone: Zone, naive: int, r: Resolution)
    requires Tells(zone, naive, r)
    ensures ShownOnce(zone, naive) <==> r.Resolved?
  {
    if r.Resolved? { assert ShownAt(zone, naive, r.instant); }
  }

  lemma TellApart(zone: Zone, start: int, first: Resolution, stop: int, second: Resolution)
    requires Tells(zone, start, first) && Tells(zone, stop, second)
    ensures EndsApart(zone, start, stop) <==>
              first.Resolved? && second.Resolved? && 1 <= second.instant - first.instant <= 1440
  {
    if first.Resolved? && second.Resolved? {
      assert ShownAt(zone, start, first.instant) && ShownAt(zone, stop, second.instant);
    }
  }

  lemma RangeOfIs(zone: Zone, intent: Intent, end: Option<Clock>, start: int, stop: int)
    requires start == Naive(intent.localDate, intent.localTime)
             && (end.Some? ==> stop == Naive(intent.localDate, end.value))
    requires intent.duration.Some? || end.Some?
    ensures RangeOf(zone, intent, end)
              == RangeFrom(intent, Resolve(zone, start), end, Resolve(zone, stop), Formatter(zone))
  {
  }

  lemma RangeTells(zone: Zone, intent: Intent, end: Option<Clock>, first: Resolution, second: Resolution, a: Answer)
    requires intent.duration.Some? || end.Some?
    requires a == RangeFrom(intent, first, end, second, Formatter(zone))
    ensures a.Range? <==>
              first.Resolved? && (end.Some? ==> second.Resolved? && 1 <= second.instant - first.instant <= 1440)
    ensures a == Invalid(NonexistentTime) <==>
              first.Nonexistent? || (end.Some? && first.Resolved? && second.Nonexistent?)
    ensures a == Invalid(AmbiguousTime) <==> first.Ambiguous? || (end.Some? && first.Resolved? && second.Ambiguous?)
    ensures !a.Incomplete? && a != NoIntent
  {
  }

  /** A combined intent and what is asked about its range. */
  lemma RangeRight(zone: Zone, intent: Intent, end: Option<Clock>, a: Answer)
    requires OffsetsUnderADay(zone) && ValidIntent(intent) && (end.Some? ==> ValidClock(end.value))
    requires a == RangeOf(zone, intent, end)
    ensures a.Range? ==> GoodRange(zone, a) && Showable(a.start) && Showable(a.end) && ValidIntent(a.intent)
    ensures a.Incomplete? ==> ValidIntent(a.intent)
  {
    RangeOfGood(zone, intent, end);
    if a.Range? {
      RangeShowable(zone, intent.localDate, intent.localTime, InstantOf(a.start), InstantOf(a.end), end, a.start,
          a.end);
    }
  }

  lemma RangeOnly(zone: Zone, intent: Intent, end: Option<Clock>, a: Answer)
    requires OffsetsUnderADay(zone) && ValidIntent(intent) && a == RangeOf(zone, intent, end)
    ensures a.Range? ==> Only(zone, Naive(a.intent.localDate, a.intent.localTime), InstantOf(a.start))
  {
    RangeOfGood(zone, intent, end);
    OnlyIfSteady(zone, Naive(intent.localDate, intent.localTime));
  }

  /** Whatever is answered: a range starts at an instant showing the requested
      civil minute, ends 1 to 1440 minutes later as the intent says, and can be
      printed; an intent handed on is one a later turn may rely on. Where offsets
      hold for six hours at a time no other instant shows the requested minute. */
  lemma ResolvedRangesAreRight(zone: Zone, today: Date, req: Request, existing: Option<Intent>)
    requires OffsetsUnderADay(zone) && Sane(today, req, existing)
    ensures var a := ResolveIntent(zone, today, req, existing);
            && (a.Range? ==> GoodRange(zone, a) && Showable(a.start) && Showable(a.end) && ValidIntent(a.intent))
            && (a.Incomplete? ==> ValidIntent(a.intent))
            && (a.Range? ==> Only(zone, Naive(a.intent.localDate, a.intent.localTime), InstantOf(a.start)))
  {
    if req.offset.Some? || existing.Some? {
      var intent := Combine(today, req, existing);
      if intent.Some? {
        var a := RangeOf(zone, intent.value, req.end);
        RangeRight(zone, intent.value, req.end, a);
        RangeOnly(zone, intent.value, req.end, a);
      }
    }
  }

  /** The two texts of a range read back to its instants, the duration apart. */
  lemma ResolvedTextsReadBack(zone: Zone, today: Date, req: Request, existing: Option<Intent>)
    requires OffsetsUnderADay(zone) && Sane(today, req, existing)
    ensures var a := ResolveIntent(zone, today, req, existing);
            a.Range? ==>
              && Showable(a.start) && Showable(a.end) && a.intent.duration.Some?
              && var start := ReadStamp(Stamp(a.start)); var end := ReadStamp(Stamp(a.end));
                 && start.Some? && end.Some? && end.value - start.value == a.intent.duration.value
                 && Local(zone, start.value) == Naive(a.intent.localDate, a.intent.localTime)
  {
    var a := ResolveIntent(zone, today, req, existing);
    ResolvedRangesAreRight(zone, today, req, existing);
    if a.Range? { RangeTexts(zone, a); }
  }

  lemma RangeTexts(zone: Zone, a: Answer)
    requires a.Range? && GoodRange(zone, a) && Showable(a.start) && Showable(a.end)
    ensures var start := ReadStamp(Stamp(a.start)); var end := ReadStamp(Stamp(a.end));
            && start == Some(InstantOf(a.start)) && end == Some(InstantOf(a.end))
            && end.value - start.value == a.intent.duration.value
            && Local(zone, start.value) == Naive(a.intent.localDate, a.intent.localTime)
  {
    StampReadsBack(a.start);
    StampReadsBack(a.end);
  }

  // ------------------------------------------------------------ several turns

  /** A request that was incomplete for want of a duration, completed in a later
      turn by naming one, is answered as if it had been named in the first: even
      when the day has changed in between. */
  lemma TwoTurnsAreOne(
      zone: Zone, today: Date, req: Request, existing: Option<Intent>, later: Date, minutes: int, mentions: bool)
    requires Sane(today, req, existing) && Valid(later) && 1 <= minutes <= 1440
    requires ResolveIntent(zone, today, req, existing).Incomplete?
    ensures var first := ResolveIntent(zone, today, req, existing);
            var naming := Request(None, mentions, None, Some(minutes), None);
            && Sane(later, naming, Some(first.intent)) && Sane(today, req.(duration := Some(minutes)), existing)
            && ResolveIntent(zone, later, naming, Some(first.intent))
               == ResolveIntent(zone, today, req.(duration := Some(minutes)), existing)
  {
    var intent := Combine(today, req, existing).value;
    IncompleteIs(zone, intent, req.end);
  }

  lemma IncompleteIs(zone: Zone, intent: Intent, end: Option<Clock>)
    requires RangeOf(zone, intent, end).Incomplete?
    ensures RangeOf(zone, intent, end) == Incomplete(intent) && intent.duration.None? && end.None?
  {
  }

  // ---------------------------------------------------------- field by field

  /** What the text states, else what the earlier turn left. */
  ghost function Known<T>(stated: Option<T>, earlier: Option<T>): Option<T> {
    if stated.Some? then stated else earlier
  }

  /** One field is known by one of the two, whatever the others are. */
  ghost predicate Field<T(!new)>(value: T, stated: Option<T>, earlier: Option<T>) {
    && (stated.Some? ==> value == stated.value)
    && (stated.None? ==> earlier.Some? && value == earlier.value)
  }

  /** The intent of an answer with each of its fields taken by itself. */
  ghost predicate FieldsFit(today: Date, req: Request, existing: Option<Intent>, i: Intent)
    requires Valid(today)
  {
    && Field(i.localTime, req.localTime, if existing.Some? then Some(existing.value.localTime) else None)
    && Field(i.dayOffset, req.offset, if existing.Some? then Some(existing.value.dayOffset) else None)
    && Field(i.localDate, if req.offset.Some? then Some(Shift(today, req.offset.value)) else None,
             if existing.Some? then Some(existing.value.localDate) else None)
    && (req.end.None? ==> i.duration == Known(req.duration, if existing.Some? then existing.value.duration else None))
  }

  /** Time, date and duration are each the one the text states, and the earlier turn's if
      it states none, for every mixture of stated and unstated ones; a range ends at the
      end time the text states. Without a time from either there is no answer, and without
      a duration from either or an end time the answer is incomplete, and only then. */
  lemma FieldByField(zone: Zone, today: Date, req: Request, existing: Option<Intent>)
    requires Sane(today, req, existing) && (req.offset.Some? || existing.Some?)
    ensures var a := ResolveIntent(zone, today, req, existing);
            && (a.Range? || a.Incomplete? ==> FieldsFit(today, req, existing, a.intent))
            && (a.Range? && req.end.Some? ==>
                  a.end.date == a.intent.localDate && a.end.clock == 60 * req.end.value.hour + req.end.value.minute)
            && (req.localTime.None? && existing.None? ==> a == Invalid(BadCalendarTime))
            && (a.Incomplete? <==>
                  && (req.localTime.Some? || existing.Some?) && req.end.None? && req.duration.None?
                  && (existing.Some? ==> existing.value.duration.None?))
  {
    var intent := Combine(today, req, existing);
    if intent.Some? { RangeFields(zone, intent.value, req.end); }
  }

  lemma RangeFields(zone: Zone, intent: Intent, end: Option<Clock>)
    ensures var a := RangeOf(zone, intent, end);
            && (a.Incomplete? <==> intent.duration.None? && end.None?)
            && (a.Incomplete? ==> a.intent == intent)
            && (a.Range? ==> a.intent == intent.(duration := a.intent.duration))
            && (a.Range? && end.None? ==> a.intent == intent)
            && (a.Range? && end.Some? ==> a.end.date == intent.localDate && a.end.clock == MinuteOfDay(end.value))
  {
  }

  /** With a day, a time and a duration or an end known, each from either, and offsets that
      hold for six hours at a time: a range, a refused gap or a refused fold, by how often
      the two civil minutes are shown. */
  lemma KnownIsAnswered(
      zone: Zone, today: Date, req: Request, existing: Option<Intent>, start: int, end: Option<int>, i: Intent)
    requires Sane(today, req, existing) && (req.offset.Some? || existing.Some?) && FieldsFit(today, req, existing, i)
    requires req.duration.Some? || req.end.Some? || (existing.Some? && existing.value.duration.Some?)
    requires start == Naive(i.localDate, i.localTime) && Steady(zone, start)
    requires end == if req.end.Some? then Some(Naive(i.localDate, req.end.value)) else None
    requires end.Some? ==> Steady(zone, end.value)
    ensures AnswerFits(zone, start, end, ResolveIntent(zone, today, req, existing))
  {
    var intent := Combine(today, req, existing).value;
    AnswersAreRight(zone, intent, req.end);
  }

  /** A day, time and duration that are read from the text are never overridden by an
      earlier turn. */
  lemma TextWins(zone: Zone, today: Date, req: Request, existing: Option<Intent>, other: Option<Intent>)
    requires Sane(today, req, existing) && Sane(today, req, other)
    requires req.offset.Some? && req.localTime.Some? && req.duration.Some?
    ensures ResolveIntent(zone, today, req, existing) == ResolveIntent(zone, today, req, other)
    ensures var a := ResolveIntent(zone, today, req, existing);
            a.Range? ==>
              a.intent.localDate == Shift(today, req.offset.value) && a.intent.localTime == req.localTime.value
  {
    RangeIntent(zone, Combine(today, req, existing).value, req.end);
  }

  lemma RangeIntent(zone: Zone, intent: Intent, end: Option<Clock>)
    ensures var a := RangeOf(zone, intent, end); a.Range? ==> a.intent == intent.(duration := a.intent.duration)
  {
  }

  /** A relative date that the text mentions but that cannot be read is refused exactly if
      there is no earlier turn. Else the mention has no say, and the earlier turn's date
      is used in its place. */
  lemma UnreadDateGivesWay(zone: Zone, today: Date, req: Request, existing: Option<Intent>)
    requires Sane(today, req, existing) && req.offset.None?
    ensures existing.None? ==>
              ResolveIntent(zone, today, req, existing) == if req.mentions then Invalid(BadCalendarTime) else NoIntent
    ensures existing.Some? ==>
              && ResolveIntent(zone, today, req, existing)
                 == ResolveIntent(zone, today, req.(mentions := !req.mentions), existing)
              && ResolveIntent(zone, today, req, existing) != NoIntent
              && var a := ResolveIntent(zone, today, req, existing);
                 (a.Range? || a.Incomplete? ==> a.intent.localDate == existing.value.localDate)
  {
    if existing.Some? {
      var intent := Combine(today, req, existing).value;
      RangeIntent(zone, intent, req.end);
      if RangeOf(zone, intent, req.end).Incomplete? { IncompleteIs(zone, intent, req.end); }
      NeverWithoutIntent(zone, intent, req.end);
    }
  }

  lemma NeverWithoutIntent(zone: Zone, intent: Intent, end: Option<Clock>)
    ensures RangeOf(zone, intent, end) != NoIntent
  {
  }
}
