/** Whole runs of the voice gateway: what every session keeps, how much work the
    speech model is given, and in which order a client sees events. */
module GatewayRuns {
  import opened Options
  import opened Gateway

  // ------------------------------------------------- the shape of the events

  /** A start, partial hypotheses, a final. */
  predicate Utterance(es: seq<Event>) {
    |es| >= 2 && es[0].Started? && es[|es| - 1].Final? && forall i | 0 < i < |es| - 1 :: es[i].Partial?
  }

  /** Utterances one after the other. */
  ghost predicate Utterances(es: seq<Event>)
    decreases |es|
  {
    es == [] || exists n | 2 <= n <= |es| :: Utterance(es[..n]) && Utterances(es[n..])
  }

  /** What a client may have seen so far: utterances, the last one perhaps unfinished. */
  ghost predicate Proper(es: seq<Event>) { exists rest: seq<Event> :: Utterances(es + rest) }

  datatype Mode = Idle | Talking | Wrong

  function After(m: Mode, e: Event): Mode {
    if m.Idle? && e.Started? then Talking
    else if m.Talking? && e.Partial? then Talking
    else if m.Talking? && e.Final? then Idle
    else Wrong
  }

  function ModeFrom(m: Mode, es: seq<Event>): Mode
    decreases |es|
  {
    if es == [] then m else ModeFrom(After(m, es[0]), es[1..])
  }

  lemma {:induction false} ModeOfSum(m: Mode, a: seq<Event>, b: seq<Event>)
    ensures ModeFrom(m, a + b) == ModeFrom(ModeFrom(m, a), b)
    decreases |a|
  {
    if a == [] {
      assert a + b == b;
    } else {
      assert (a + b)[1..] == a[1..] + b;
      ModeOfSum(After(m, a[0]), a[1..], b);
    }
  }

  lemma {:induction false} WrongStays(es: seq<Event>)
    ensures ModeFrom(Wrong, es) == Wrong
    decreases |es|
  {
    if es != [] { WrongStays(es[1..]); }
  }

  lemma {:induction false} PartialsTalkOn(es: seq<Event>)
    requires forall i | 0 <= i < |es| :: es[i].Partial?
    ensures ModeFrom(Talking, es) == Talking
    decreases |es|
  {
    if es != [] { PartialsTalkOn(es[1..]); }
  }

  lemma UtteranceReturns(es: seq<Event>)
    requires Utterance(es)
    ensures ModeFrom(Idle, es) == Idle
  {
    var middle, last := es[1..|es| - 1], es[|es| - 1..];
    assert es[1..] == middle + last;
    PartialsTalkOn(middle);
    ModeOfSum(Talking, middle, last);
    assert last[1..] == [];
  }

  /** While talking, the mode returns to idle only through a final after partials. */
  lemma {:induction false} FirstFinal(es: seq<Event>) returns (n: nat)
    requires ModeFrom(Talking, es) == Idle
    ensures 1 <= n <= |es| && es[n - 1].Final? && (forall i | 0 <= i < n - 1 :: es[i].Partial?)
            && ModeFrom(Idle, es[n..]) == Idle
    decreases |es|
  {
    if es[0].Final? {
      n := 1;
    } else {
      if !es[0].Partial? { WrongStays(es[1..]); }
      var m := FirstFinal(es[1..]);
      n := m + 1;
      assert es[n..] == es[1..][m..];
    }
  }

  /** The mode tells utterances apart from anything else. */
  lemma {:induction false} IdleIffUtterances(es: seq<Event>)
    ensures ModeFrom(Idle, es) == Idle <==> Utterances(es)
    decreases |es|
  {
    if es != [] {
      forall n | 2 <= n <= |es| && Utterance(es[..n]) ensures ModeFrom(Idle, es) == Idle <==> Utterances(es[n..]) {
        UtteranceReturns(es[..n]);
        assert es == es[..n] + es[n..];
        ModeOfSum(Idle, es[..n], es[n..]);
        IdleIffUtterances(es[n..]);
      }
      if ModeFrom(Idle, es) == Idle {
        if !es[0].Started? { WrongStays(es[1..]); }
        var n := FirstFinal(es[1..]);
        assert es[1..][n - 1] == es[n];
        assert forall i | 1 <= i < n :: es[i] == es[1..][i - 1];
        assert Utterance(es[..n + 1]);
      }
    }
  }

  lemma ProperIffNotWrong(es: seq<Event>)
    ensures Proper(es) <==> ModeFrom(Idle, es) != Wrong
  {
    if Proper(es) {
      var rest: seq<Event> :| Utterances(es + rest);
      IdleIffUtterances(es + rest);
      ModeOfSum(Idle, es, rest);
      WrongStays(rest);
    }
    if ModeFrom(Idle, es) != Wrong {
      var rest := if ModeFrom(Idle, es).Idle? then [] else [Final("")];
      ModeOfSum(Idle, es, rest);
      assert rest != [] ==> rest[1..] == [];
      IdleIffUtterances(es + rest);
    }
  }

  // ------------------------------------------------------ one session's run

  datatype Run = Run(session: Session, sent: seq<Event>)

  function Sent(t: Turn): seq<Event> { if t.events.Some? then t.events.value else [] }

  /** A session opened at `at` and then given these frames. */
  function Played(silence: real, at: real, frames: seq<Frame>): Run
    decreases |frames|
  {
    if frames == [] then Run(NEW_SESSION.(at := at), [])
    else
      var r := Played(silence, at, frames[..|frames| - 1]);
      var t := Hear(silence, r.session, frames[|frames| - 1]);
      Run(t.session, r.sent + Sent(t))
  }

  lemma PlayedOneMore(silence: real, at: real, frames: seq<Frame>, f: Frame)
    ensures var r := Played(silence, at, frames); var t := Hear(silence, r.session, f);
            Played(silence, at, frames + [f]) == Run(t.session, r.sent + Sent(t))
  {
  }

  function Joined(frames: seq<Frame>): seq<int>
    decreases |frames|
  {
    if frames == [] then [] else Joined(frames[..|frames| - 1]) + frames[|frames| - 1].samples
  }

  predicate Suffix(xs: seq<int>, all: seq<int>) { |xs| <= |all| && xs == all[|all| - |xs|..] }

  lemma SuffixGrows(xs: seq<int>, all: seq<int>, more: seq<int>, n: nat)
    requires Suffix(xs, all)
    ensures Suffix(Last(xs + more, n), all + more)
  {
  }

  lemma SuffixShrinks(xs: seq<int>, all: seq<int>, n: nat)
    requires Suffix(xs, all)
    ensures Suffix(Last(xs, n), all)
  {
  }

  predicate Bounded(s: Session) { s.partial <= |s.audio| <= MAX_SAMPLES && (!s.speaking ==> s.partial == 0) }

  lemma ListenAudio(s: Session, done: bool, said: Option<string>)
    requires s.partial <= |s.audio| <= MAX_SAMPLES
    ensures var t := Listen(s, done, said).session;
            Bounded(t) && t.next == s.next && t.at == s.at && (t.audio == s.audio || t.audio == [])
  {
  }

  lemma PreRollAudio(s: Session)
    requires s.partial <= |s.audio| <= MAX_SAMPLES
    ensures var t := PreRoll(s); Bounded(t) && t.next == s.next && t.audio == Last(s.audio, RATE)
  {
  }

  lemma GrownAudio(s: Session, f: Frame)
    requires Bounded(s)
    ensures var g := Grown(s, f);
            s.partial == g.partial <= |g.audio| <= MAX_SAMPLES && g.next == s.next + 1 && g.speaking == s.speaking
  {
  }

  /** Every turn counts the frame and keeps the grown audio, its last second, or nothing. */
  lemma HearAudio(silence: real, s: Session, f: Frame, grown: Session, audio: seq<int>)
    requires Bounded(s) && grown == Grown(s, f) && audio == grown.audio
    ensures var t := Hear(silence, s, f).session;
            && Bounded(t) && t.next == s.next + 1
            && (t.audio == audio || t.audio == Last(audio, RATE) || t.audio == [])
  {
    GrownAudio(s, f);
    match f.heard
    case Broken =>
    case Silence => PreRollAudio(grown);
    case Speech(end) => ListenAudio(grown, IsFinal(silence, |audio|, end), f.said);
  }

  lemma HearKeepsSuffix(silence: real, s: Session, f: Frame, all: seq<int>)
    requires Bounded(s) && Suffix(s.audio, all)
    ensures Suffix(Hear(silence, s, f).session.audio, all + f.samples)
  {
    HearAudio(silence, s, f, Grown(s, f), Grown(s, f).audio);
    SuffixGrows(s.audio, all, f.samples, MAX_SAMPLES);
    SuffixShrinks(Last(s.audio + f.samples, MAX_SAMPLES), all + f.samples, RATE);
    NothingIsSuffix(all + f.samples);
  }

  lemma NothingIsSuffix(all: seq<int>)
    ensures Suffix([], all)
  {
  }

  /** At every point of a session's run the audio kept is the most recent part of
      what was accepted, without a gap, of at most fifteen seconds; the next sequence
      number is the number of frames accepted. */
  lemma {:induction false} SessionBounds(silence: real, at: real, frames: seq<Frame>)
    ensures var s := Played(silence, at, frames).session;
            Bounded(s) && Suffix(s.audio, Joined(frames)) && s.next == |frames|
    decreases |frames|
  {
    if frames != [] {
      var n := |frames| - 1;
      SessionBounds(silence, at, frames[..n]);
      var s := Played(silence, at, frames[..n]).session;
      HearAudio(silence, s, frames[n], Grown(s, frames[n]), Grown(s, frames[n]).audio);
      HearKeepsSuffix(silence, Played(silence, at, frames[..n]).session, frames[n], Joined(frames[..n]));
    }
  }

  // ------------------------------------------------ work for the speech model

  function Partials(es: seq<Event>): nat
    decreases |es|
  {
    if es == [] then 0 else Partials(es[..|es| - 1]) + if es[|es| - 1].Partial? then 1 else 0
  }

  function Finals(es: seq<Event>): nat
    decreases |es|
  {
    if es == [] then 0 else Finals(es[..|es| - 1]) + if es[|es| - 1].Final? then 1 else 0
  }

  function Silences(frames: seq<Frame>): nat
    decreases |frames|
  {
    if frames == [] then 0 else Silences(frames[..|frames| - 1]) + if frames[|frames| - 1].heard.Silence? then 1 else 0
  }

  lemma {:induction false} CountsOfSum(a: seq<Event>, b: seq<Event>)
    ensures Partials(a + b) == Partials(a) + Partials(b) && Finals(a + b) == Finals(a) + Finals(b)
    decreases |b|
  {
    if b == [] {
      assert a + b == a;
    } else {
      assert (a + b)[..|a + b| - 1] == a + b[..|b| - 1];
      CountsOfSum(a, b[..|b| - 1]);
    }
  }

  /** One event, or a start and one event. */
  lemma ShortCounts(opening: seq<Event>, e: Event)
    requires opening == [] || opening == [Started]
    ensures Partials(opening) == 0 && Finals(opening) == 0
    ensures Partials(opening + [e]) == if e.Partial? then 1 else 0
    ensures Finals(opening + [e]) == if e.Final? then 1 else 0
  {
  }

  /** What is not yet covered by a partial hypothesis. */
  function Pending(s: Session): int { |s.audio| - s.partial }

  lemma HearPays(silence: real, s: Session, f: Frame)
    requires Bounded(s)
    ensures var t := Hear(silence, s, f);
            var extra := if f.heard.Silence? then RATE else 0;
            RATE * Partials(Sent(t)) + Pending(t.session) <= Pending(s) + |f.samples| + extra
  {
    var opening := if s.speaking then [] else [Started];
    if f.said.Some? {
      ShortCounts(opening, Final(f.said.value));
      ShortCounts(opening, Partial(f.said.value));
    } else {
      ShortCounts(opening, Started);
    }
  }

  /** In any run of a session, whatever the detector hears and the models do, there
      is at most one partial hypothesis for every second of audio accepted and every
      frame without speech. */
  lemma {:induction false} PartialsAreBounded(silence: real, at: real, frames: seq<Frame>)
    ensures var r := Played(silence, at, frames);
            && RATE * Partials(r.sent) + Pending(r.session) <= |Joined(frames)| + RATE * Silences(frames)
            && RATE * Partials(r.sent) <= |Joined(frames)| + RATE * Silences(frames)
    decreases |frames|
  {
    SessionBounds(silence, at, frames);
    if frames != [] {
      var n := |frames| - 1;
      var r := Played(silence, at, frames[..n]);
      PartialsAreBounded(silence, at, frames[..n]);
      SessionBounds(silence, at, frames[..n]);
      HearPays(silence, r.session, frames[n]);
      CountsOfSum(r.sent, Sent(Hear(silence, r.session, frames[n])));
    }
  }

  /** A detector that places the end of speech within the audio. */
  predicate WithinAudio(frames: seq<Frame>)
  {
    forall i | 0 <= i < |frames| :: frames[i].heard.Speech? ==> frames[i].heard.end >= 0
  }

  /** `quantum` samples last no longer than the configured silence, nor than the buffer. */
  predicate WithinSilence(silence: real, quantum: nat) { quantum as real <= 16.0 * silence && quantum <= MAX_SAMPLES }

  lemma FinalNeedsAudio(silence: real, quantum: nat, samples: nat, end: nat)
    requires WithinSilence(silence, quantum) && IsFinal(silence, samples, end)
    ensures quantum <= samples
  {
  }

  lemma ListenFinals(s: Session, done: bool, said: Option<string>, quantum: nat, t: Turn)
    requires t == Listen(s, done, said) && (done ==> quantum <= |s.audio|)
    ensures Finals(Sent(t)) <= 1
    ensures |t.session.audio| + (if Finals(Sent(t)) == 1 then quantum else 0) <= |s.audio|
  {
    var opening := if s.speaking then [] else [Started];
    ShortCounts(opening, if said.None? then Started else if done then Final(said.value) else Partial(said.value));
  }

  lemma HearFinals(silence: real, quantum: nat, s: Session, f: Frame, t: Turn)
    requires WithinSilence(silence, quantum) && (f.heard.Speech? ==> f.heard.end >= 0) && t == Hear(silence, s, f)
    ensures Finals(Sent(t)) <= 1
    ensures |t.session.audio| + (if Finals(Sent(t)) == 1 then quantum else 0) <= |s.audio| + |f.samples|
  {
    var grown := Grown(s, f);
    assert |grown.audio| <= |s.audio| + |f.samples|;
    if f.heard.Speech? {
      var done := IsFinal(silence, |grown.audio|, f.heard.end);
      if done { FinalNeedsAudio(silence, quantum, |grown.audio|, f.heard.end); }
      ListenFinals(grown, done, f.said, quantum, t);
    }
  }

  lemma TimesOneMore(a: nat, b: nat, quantum: nat)
    requires b <= 1
    ensures (a + b) * quantum == a * quantum + if b == 1 then quantum else 0
  {
  }

  lemma FinalsSum(quantum: nat, sent: seq<Event>, more: seq<Event>, kept: nat, left: nat, joined: nat, samples: nat)
    requires Finals(more) <= 1 && left + (if Finals(more) == 1 then quantum else 0) <= kept + samples
    requires Finals(sent) * quantum + kept <= joined
    ensures Finals(sent + more) * quantum + left <= joined + samples
  {
    CountsOfSum(sent, more);
    TimesOneMore(Finals(sent), Finals(more), quantum);
  }

  lemma FinalsStep(silence: real, quantum: nat, r: Run, f: Frame, t: Turn, joined: nat)
    requires Bounded(r.session) && WithinSilence(silence, quantum) && (f.heard.Speech? ==> f.heard.end >= 0)
    requires t == Hear(silence, r.session, f) && Finals(r.sent) * quantum + |r.session.audio| <= joined
    ensures Finals(r.sent + Sent(t)) * quantum + |t.session.audio| <= joined + |f.samples|
  {
    HearFinals(silence, quantum, r.session, f, t);
    FinalsSum(quantum, r.sent, Sent(t), |r.session.audio|, |t.session.audio|, joined, |f.samples|);
  }

  /** Every final transcript uses up at least the configured silence in audio, so
      that many finals need that much audio. */
  lemma {:induction false} FinalsAreBounded(silence: real, quantum: nat, at: real, frames: seq<Frame>)
    requires WithinSilence(silence, quantum) && WithinAudio(frames)
    ensures var r := Played(silence, at, frames); Finals(r.sent) * quantum + |r.session.audio| <= |Joined(frames)|
    decreases |frames|
  {
    if frames != [] {
      var n := |frames| - 1;
      var r := Played(silence, at, frames[..n]);
      FinalsAreBounded(silence, quantum, at, frames[..n]);
      SessionBounds(silence, at, frames[..n]);
      FinalsStep(silence, quantum, r, frames[n], Hear(silence, r.session, frames[n]), |Joined(frames[..n])|);
    }
  }

  // ------------------------------------------------------- order of the events

  /** The speech model is asked about this frame: speech is heard, and it has ended or a
      second of audio is not covered yet. */
  predicate Asks(silence: real, s: Session, f: Frame) {
    var audio := Grown(s, f).audio;
    f.heard.Speech? && (IsFinal(silence, |audio|, f.heard.end) || |audio| - s.partial >= RATE)
  }

  /** Speech begins in this frame, but the speech model is asked and fails: the start is
      not sent. */
  predicate LosesStart(silence: real, s: Session, f: Frame) { !s.speaking && Asks(silence, s, f) && f.said.None? }

  /** Some frame lost a start. */
  predicate Lost(silence: real, at: real, frames: seq<Frame>)
    decreases |frames|
  {
    frames != [] &&
    var n := |frames| - 1;
    Lost(silence, at, frames[..n]) || LosesStart(silence, Played(silence, at, frames[..n]).session, frames[n])
  }

  /** After a lost start the speech model was asked again, and answered. */
  predicate AnsweredAfterLoss(silence: real, at: real, frames: seq<Frame>)
    decreases |frames|
  {
    frames != [] &&
    var n := |frames| - 1;
    || AnsweredAfterLoss(silence, at, frames[..n])
    || (Lost(silence, at, frames[..n]) && Asks(silence, Played(silence, at, frames[..n]).session, frames[n])
       && frames[n].said.Some?)
  }

  function ModeOf(s: Session): Mode { if s.speaking then Talking else Idle }

  lemma ModeOfTwo(m: Mode, a: Event, b: Event)
    ensures ModeFrom(m, [a, b]) == After(After(m, a), b)
  {
    assert [a, b][1..] == [b] && [b][1..] == [];
    assert ModeFrom(After(m, a), [b]) == After(After(m, a), b);
  }

  /** What one turn sends, by what it was asked and answered. */
  ghost predicate Shape(s: Session, speech: bool, asks: bool, said: Option<string>, sent: seq<Event>, speaking: bool) {
    var opening := if s.speaking then [] else [Started];
    if !asks then sent == (if speech then opening else []) && speaking == (s.speaking || speech)
    else if said.None? then sent == [] && speaking
    else (sent == opening + [Final(said.value)] && !speaking) || (sent == opening + [Partial(said.value)] && speaking)
  }

  lemma HearShape(silence: real, s: Session, f: Frame, t: Turn)
    requires t == Hear(silence, s, f)
    ensures Shape(s, f.heard.Speech?, Asks(silence, s, f), f.said, Sent(t), t.session.speaking)
  {
  }

  /** The modes one turn can lead to, from a session in step with its client and from
      one whose start was lost. */
  lemma ShapeMode(s: Session, speech: bool, asks: bool, said: Option<string>, sent: seq<Event>, speaking: bool)
    requires Shape(s, speech, asks, said, sent, speaking) && (asks ==> speech)
    ensures s.speaking || !asks || said.Some? ==> ModeFrom(ModeOf(s), sent) == if speaking then Talking else Idle
    ensures !s.speaking && asks && said.None? ==> sent == [] && speaking
    ensures s.speaking && !(asks && said.Some?) ==> sent == [] && speaking
    ensures s.speaking && asks && said.Some? ==> ModeFrom(Idle, sent) == Wrong
  {
    if |sent| == 1 { assert sent[1..] == []; }
    if |sent| == 2 {
      ModeOfTwo(Idle, sent[0], sent[1]);
      assert sent == [sent[0], sent[1]];
    }
  }

  lemma HearMode(silence: real, s: Session, f: Frame, t: Turn)
    requires t == Hear(silence, s, f)
    ensures !LosesStart(silence, s, f) ==> ModeFrom(ModeOf(s), Sent(t)) == ModeOf(t.session)
    ensures LosesStart(silence, s, f) ==> Sent(t) == [] && t.session.speaking
    ensures s.speaking && !(Asks(silence, s, f) && f.said.Some?) ==> Sent(t) == [] && t.session.speaking
    ensures s.speaking && Asks(silence, s, f) && f.said.Some? ==> ModeFrom(Idle, Sent(t)) == Wrong
  {
    HearShape(silence, s, f, t);
    ShapeMode(s, f.heard.Speech?, Asks(silence, s, f), f.said, Sent(t), t.session.speaking);
  }

  lemma {:induction false} ModesOfRun(silence: real, at: real, frames: seq<Frame>)
    ensures var r, mode := Played(silence, at, frames), ModeFrom(Idle, Played(silence, at, frames).sent);
            && (!Lost(silence, at, frames) ==> mode == ModeOf(r.session) && !AnsweredAfterLoss(silence, at, frames))
            && (Lost(silence, at, frames) && !AnsweredAfterLoss(silence, at, frames) ==>
               mode == Idle && r.session.speaking)
            && (AnsweredAfterLoss(silence, at, frames) ==> mode == Wrong)
    decreases |frames|
  {
    if frames != [] {
      var n := |frames| - 1;
      var r := Played(silence, at, frames[..n]);
      var sent := Sent(Hear(silence, r.session, frames[n]));
      ModesOfRun(silence, at, frames[..n]);
      HearMode(silence, r.session, frames[n], Hear(silence, r.session, frames[n]));
      ModeOfSum(Idle, r.sent, sent);
      WrongStays(sent);
    }
  }

  /** What a client of a session has been sent is the beginning of a sequence of
      utterances exactly when the speech model, once it failed on a frame that began an
      utterance, gave no later answer. */
  lemma EventGrammarIff(silence: real, at: real, frames: seq<Frame>)
    ensures Proper(Played(silence, at, frames).sent) <==> !AnsweredAfterLoss(silence, at, frames)
  {
    ModesOfRun(silence, at, frames);
    ProperIffNotWrong(Played(silence, at, frames).sent);
  }

  predicate ModelsWork(frames: seq<Frame>)
  {
    forall i | 0 <= i < |frames| :: !frames[i].heard.Broken? && frames[i].said.Some?
  }

  /** As long as no model fails, the client sees utterances, and an unfinished one
      exactly while the session says that someone is speaking. */
  lemma {:induction false} EventGrammar(silence: real, at: real, frames: seq<Frame>)
    requires ModelsWork(frames)
    ensures var r := Played(silence, at, frames);
            Proper(r.sent) && (Utterances(r.sent) <==> !r.session.speaking)
    decreases |frames|
  {
    NothingLost(silence, at, frames);
    ModesOfRun(silence, at, frames);
    ProperIffNotWrong(Played(silence, at, frames).sent);
    IdleIffUtterances(Played(silence, at, frames).sent);
  }

  lemma {:induction false} NothingLost(silence: real, at: real, frames: seq<Frame>)
    requires ModelsWork(frames)
    ensures !Lost(silence, at, frames)
    decreases |frames|
  {
    if frames != [] { NothingLost(silence, at, frames[..|frames| - 1]); }
  }

  /** A client can be sent a final without a start: one second of speech the model
      fails on, then one it hears the end of. */
  lemma FinalWithoutStart(silence: real, one: seq<int>)
    requires |one| == RATE && silence <= 700.0
    ensures var frames := [Frame(one, 0.0, Speech(0), None), Frame(one, 1.0, Speech(0), Some("Hi"))];
            Played(silence, 0.0, frames).sent == [Final("Hi")] && !Proper(Played(silence, 0.0, frames).sent)
  {
    var first, second := Frame(one, 0.0, Speech(0), None), Frame(one, 1.0, Speech(0), Some("Hi"));
    var opening := NEW_SESSION.(at := 0.0);
    assert [first] + [second] == [first, second] && [] + [first] == [first] && [] + one == one;
    PlayedOneMore(silence, 0.0, [], first);
    PlayedOneMore(silence, 0.0, [first], second);
    assert Grown(opening, first).audio == one && LosesStart(silence, opening, first);
    assert [first, second][..1] == [first] && [first][..0] == [];
    assert Lost(silence, 0.0, [first]);
    EventGrammarIff(silence, 0.0, [first, second]);
  }

  /** While the models work, a frame with speech ends the utterance exactly when the
      buffer is full or the silence after the speech is long enough, and yields a
      hypothesis exactly when a second is not yet covered by one; the buffer is never
      left full. */
  lemma EndpointIff(silence: real, s: Session, f: Frame)
    requires Bounded(s) && f.said.Some? && f.heard.Speech?
    ensures var t, audio := Hear(silence, s, f), Grown(s, f).audio;
            var done := |audio| == MAX_SAMPLES || (|audio| - f.heard.end) as real >= 16.0 * silence;
            && t.events.Some? && |t.session.audio| < MAX_SAMPLES
            && (Final(f.said.value) in Sent(t) <==> done) && (done ==> t.session.audio == [])
            && (Partial(f.said.value) in Sent(t) <==> !done && |audio| - s.partial >= RATE)
            && (!done ==> t.session.audio == audio && Pending(t.session) < RATE)
            && (Started in Sent(t) <==> !s.speaking)
  {
    var grown := Grown(s, f);
    GrownAudio(s, f);
    EndIff(silence, |grown.audio|, f.heard.end);
    ListenIff(grown, IsFinal(silence, |grown.audio|, f.heard.end), f.said, Hear(silence, s, f));
  }

  lemma EndIff(silence: real, samples: nat, end: int)
    requires samples <= MAX_SAMPLES
    ensures IsFinal(silence, samples, end) <==> samples == MAX_SAMPLES || (samples - end) as real >= 16.0 * silence
  {
  }

  lemma ListenIff(s: Session, done: bool, said: Option<string>, t: Turn)
    requires s.partial <= |s.audio| <= MAX_SAMPLES && (|s.audio| == MAX_SAMPLES ==> done) && said.Some?
    requires t == Listen(s, done, said)
    ensures t.events.Some? && |t.session.audio| < MAX_SAMPLES && (Started in Sent(t) <==> !s.speaking)
    ensures (Final(said.value) in Sent(t) <==> done) && (done ==> t.session.audio == [])
    ensures Partial(said.value) in Sent(t) <==> !done && |s.audio| - s.partial >= RATE
    ensures !done ==> t.session.audio == s.audio && Pending(t.session) < RATE
  {
  }

  /** The most recent `n` samples of `all`, or all of them. */
  ghost predicate MostRecent(kept: seq<int>, all: seq<int>, n: nat) {
    if |all| <= n then kept == all else kept == all[|all| - n..]
  }

  /** One frame. It is counted and its samples kept, fifteen seconds at most; a failing
      detector leaves it at that. Silence keeps the last second and sends nothing. Speech
      sends a start unless one is under way, and is transcribed if it has ended or a second
      is not covered yet: an end empties the buffer and sends a final, else a partial is
      sent. If that fails nothing is sent, not even the start. */
  lemma FrameOutcome(silence: real, s: Session, f: Frame, audio: seq<int>)
    requires Bounded(s) && MostRecent(audio, s.audio + f.samples, 240000)
    ensures var t := Hear(silence, s, f);
            var opening := if s.speaking then [] else [Started];
            var kept := Session(audio, f.at, s.next + 1, s.partial, s.speaking);
            match f.heard
            case Broken => t == Turn(kept, None)
            case Silence =>
              && MostRecent(t.session.audio, audio, 16000) && t == Turn(t.session, Some([]))
              && t.session == kept.(audio := t.session.audio, partial := 0)
            case Speech(end) =>
              var done := |audio| == 240000 || (|audio| - end) as real >= 16.0 * silence;
              var due := |audio| - s.partial >= 16000;
              && (!done && !due ==> t == Turn(kept.(speaking := true), Some(opening)))
              && ((done || due) && f.said.None? ==> t == Turn(kept.(speaking := true), None))
              && (done && f.said.Some? ==>
                    && t == Turn(kept.(audio := [], partial := 0, speaking := false), t.events)
                    && t.events == Some(opening + [Final(f.said.value)]))
              && (!done && due && f.said.Some? ==>
                    && t == Turn(kept.(partial := |audio|, speaking := true), t.events)
                    && t.events == Some(opening + [Partial(f.said.value)]))
  {
    GrownAudio(s, f);
    assert Grown(s, f) == Session(audio, f.at, s.next + 1, s.partial, s.speaking);
    if f.heard.Speech? { EndIff(silence, |audio|, f.heard.end); }
  }

  // ------------------------------------------------------------ whole engine

  /** What was accepted for a session since it was opened, and what its client was sent. */
  datatype Log = Log(since: real, frames: seq<Frame>, sent: seq<Event>)

  datatype World = World(sessions: Sessions, logs: map<Key, Log>)

  type Exchange = (Request, Outside)

  /** A frame was accepted: events were sent, or a model failed on it. */
  predicate Accepted(reply: Reply) { reply.Heard? || reply.ModelFailed? }

  function Noted(logs: map<Key, Log>, x: Exchange, reply: Reply): map<Key, Log> {
    if reply.Opened? then logs[reply.key := Log(x.1.now, [], [])]
    else if Accepted(reply) && x.0.About? && x.0.session.Some? && x.0.session.value in logs && x.0.pcm.Some? then
      var log := logs[x.0.session.value];
      var sent := if reply.Heard? then reply.events else [];
      logs[x.0.session.value := Log(log.since, log.frames + [FrameOf(x.0.pcm.value, x.1)], log.sent + sent)]
    else logs
  }

  function Kept(logs: map<Key, Log>, sessions: Sessions): map<Key, Log>
  {
    map k | k in logs && k in sessions :: logs[k]
  }

  function Step(silence: real, w: World, x: Exchange): World {
    var served := Serve(silence, w.sessions, x.0, x.1);
    World(served.sessions, Kept(Noted(w.logs, x, served.reply), served.sessions))
  }

  function Exec(silence: real, w: World, run: seq<Exchange>): World
    decreases |run|
  {
    if run == [] then w else Exec(silence, Step(silence, w, run[0]), run[1..])
  }

  predicate GoodFrame(f: Frame) {
    160 <= |f.samples| <= 16000 && forall i | 0 <= i < |f.samples| :: -32768 <= f.samples[i] < 32768
  }

  predicate GoodFrames(frames: seq<Frame>) { forall i | 0 <= i < |frames| :: GoodFrame(frames[i]) }

  /** A session is what its accepted frames make it, and its log what was sent. */
  predicate Follows(silence: real, s: Session, log: Log) {
    Played(silence, log.since, log.frames) == Run(s, log.sent) && GoodFrames(log.frames)
  }

  predicate Inv(silence: real, w: World) {
    && |w.sessions| <= MAX_SESSIONS && w.sessions.Keys == w.logs.Keys
    && forall k | k in w.sessions :: Follows(silence, w.sessions[k], w.logs[k])
  }

  lemma SubmapSize(a: Sessions, b: Sessions)
    requires a.Keys <= b.Keys
    ensures |a| <= |b|
  {
    SubsetSize(a.Keys, b.Keys);
    assert |a.Keys| == |a| && |b.Keys| == |b|;
  }

  lemma {:induction false} SubsetSize(a: set<Key>, b: set<Key>)
    requires a <= b
    ensures |a| <= |b|
    decreases |a|
  {
    if a != {} {
      var k :| k in a;
      SubsetSize(a - {k}, b - {k});
    }
  }

  lemma FrameFollows(silence: real, s: Session, log: Log, f: Frame, t: Turn)
    requires Follows(silence, s, log) && GoodFrame(f) && t == Hear(silence, s, f)
    ensures Follows(silence, t.session, Log(log.since, log.frames + [f], log.sent + Sent(t)))
  {
  }

  /** A request opens a session only while there are fewer than four. */
  lemma ServeKeys(silence: real, sessions: Sessions, q: Request, o: Outside, live: Sessions, r: Served)
    requires live == Alive(sessions, o.now) && r == Serve(silence, sessions, q, o)
    ensures r.sessions.Keys <= live.Keys
            || (|live| < MAX_SESSIONS && r.sessions == live[o.key := NEW_SESSION.(at := o.now)])
  {
  }

  lemma ServeSize(silence: real, sessions: Sessions, q: Request, o: Outside)
    requires |sessions| <= MAX_SESSIONS
    ensures |Serve(silence, sessions, q, o).sessions| <= MAX_SESSIONS
  {
    var live, r := Alive(sessions, o.now), Serve(silence, sessions, q, o);
    ServeKeys(silence, sessions, q, o, live, r);
    SubmapSize(live, sessions);
    if r.sessions.Keys <= live.Keys { SubmapSize(r.sessions, live); }
  }

  predicate About(q: Request, k: Key) { q.About? && q.session == Some(k) }

  /** What a request does to the session `k`: opens it, plays it a frame, or nothing. */
  lemma ServeChanges(silence: real, sessions: Sessions, q: Request, o: Outside, k: Key, r: Served)
    requires r == Serve(silence, sessions, q, o) && k in r.sessions
    ensures r.reply == Opened(k) ==> r.sessions[k] == NEW_SESSION.(at := o.now)
    ensures Accepted(r.reply) && About(q, k) ==>
              && GoodBytes(q.pcm) && k in sessions
              && var t := Hear(silence, sessions[k], FrameOf(q.pcm.value, o));
                 r.sessions[k] == t.session && Sent(t) == if r.reply.Heard? then r.reply.events else []
    ensures r.reply != Opened(k) && !(Accepted(r.reply) && About(q, k)) ==>
              k in sessions && r.sessions[k] == sessions[k]
  {
  }

  /** Bytes of a frame: mono PCM16 at 16 kHz, ten milliseconds to a second. */
  ghost predicate FrameBytes(pcm: Option<seq<Byte>>) {
    pcm.Some? && 320 <= |pcm.value| && |pcm.value| <= 32000 && exists n :: |pcm.value| == 2 * n
  }

  /** Which reply a request gets: a session is opened while fewer than four were heard of
      within a minute, and a frame is played exactly if its session is one of those, the
      request is exact, the number is the session's next and the bytes are a frame. Every
      other request is refused with the status of its first fault. */
  lemma ReplyIff(silence: real, sessions: Sessions, q: Request, o: Outside)
    ensures var reply := Serve(silence, sessions, q, o).reply;
            var live := set k | k in sessions && o.now < sessions[k].at + 60.0;
            match q
            case Open(empty) => reply == if empty && |live| < 4 then Opened(o.key) else Refused(429)
            case About(path, session, exact, number, pcm) =>
              var known := session.Some? && session.value in live;
              var next := known && number == Some(sessions[session.value].next);
              && (reply == Refused(404) <==> !known)
              && (reply == Closed <==> known && path == Close && exact)
              && (Accepted(reply) <==> known && path == Audio && exact && next && FrameBytes(pcm))
              && (reply == Refused(409) <==> known && path == Audio && exact && !next)
              && (reply == Refused(400) <==>
                    known && (!exact || path == Elsewhere || (path == Audio && next && !FrameBytes(pcm))))
  {
    var live := set k | k in sessions && o.now < sessions[k].at + 60.0;
    assert Alive(sessions, o.now).Keys == live;
    assert |Alive(sessions, o.now).Keys| == |Alive(sessions, o.now)|;
    if q.About? { EvenBytes(q.pcm); }
  }

  lemma EvenBytes(pcm: Option<seq<Byte>>)
    ensures FrameBytes(pcm) <==> GoodBytes(pcm)
  {
    if pcm.Some? && |pcm.value| % 2 == 0 { assert |pcm.value| == 2 * (|pcm.value| / 2); }
  }

  /** A session is there afterwards exactly when it was opened now, or was there,
      heard of within a minute, and was not closed now. */
  lemma ServeKeepsIff(silence: real, sessions: Sessions, q: Request, o: Outside, k: Key)
    ensures var r := Serve(silence, sessions, q, o);
            k in r.sessions <==>
                r.reply == Opened(k)
                || (k in sessions && o.now - sessions[k].at < 60.0 && !(r.reply.Closed? && About(q, k)))
  {
  }

  lemma HearCounts(silence: real, s: Session, f: Frame)
    ensures Hear(silence, s, f).session.next == s.next + 1 && Hear(silence, s, f).session.at == f.at
  {
  }

  /** An accepted frame was the next one of a live session. */
  lemma AcceptedInOrder(silence: real, sessions: Sessions, q: Request, o: Outside, r: Served)
    requires r == Serve(silence, sessions, q, o) && Accepted(r.reply)
    ensures q.About? && q.path.Audio? && q.exact && q.session.Some? && q.session.value in r.sessions
    ensures var s := r.sessions[q.session.value]; s.at == o.now && s.next > 0 && q.number == Some(s.next - 1)
  {
    HearCounts(silence, Alive(sessions, o.now)[q.session.value], FrameOf(q.pcm.value, o));
  }

  lemma OutOfOrderRefused(silence: real, sessions: Sessions, q: Request, o: Outside)
    requires q.About? && q.path.Audio? && q.exact && q.session.Some? && q.session.value in sessions
    requires o.now - sessions[q.session.value].at < 60.0 && q.number != Some(sessions[q.session.value].next)
    ensures Serve(silence, sessions, q, o) == Served(Alive(sessions, o.now), Refused(409))
  {
  }

  /** A refusal changes nothing but to drop expired sessions, a failed model is none,
      and an accepted frame is refused when it is sent again. */
  lemma ReplaysAreRefused(silence: real, sessions: Sessions, q: Request, o: Outside, o': Outside)
    requires o'.now - o.now < 60.0
    ensures var r := Serve(silence, sessions, q, o);
            && (r.reply.Refused? ==> r.sessions == Alive(sessions, o.now))
            && (Accepted(r.reply) ==>
               Serve(silence, r.sessions, q, o') == Served(Alive(r.sessions, o'.now), Refused(409)))
  {
    var r := Serve(silence, sessions, q, o);
    if Accepted(r.reply) {
      AcceptedInOrder(silence, sessions, q, o, r);
      OutOfOrderRefused(silence, r.sessions, q, o');
    }
  }

  lemma BytesMakeFrame(pcm: seq<Byte>, o: Outside)
    requires GoodBytes(Some(pcm))
    ensures GoodFrame(FrameOf(pcm, o))
  {
  }

  lemma StepFollows(silence: real, w: World, x: Exchange, k: Key, r: Served, logs: map<Key, Log>)
    requires Inv(silence, w) && r == Serve(silence, w.sessions, x.0, x.1) && k in r.sessions
             && logs == Noted(w.logs, x, r.reply)
    ensures k in logs && Follows(silence, r.sessions[k], logs[k])
  {
    ServeChanges(silence, w.sessions, x.0, x.1, k, r);
    if r.reply != Opened(k) && Accepted(r.reply) && About(x.0, k) {
      var f := FrameOf(x.0.pcm.value, x.1);
      BytesMakeFrame(x.0.pcm.value, x.1);
      FrameFollows(silence, w.sessions[k], w.logs[k], f, Hear(silence, w.sessions[k], f));
    }
  }

  lemma StepKeepsInv(silence: real, w: World, x: Exchange)
    requires Inv(silence, w)
    ensures Inv(silence, Step(silence, w, x))
  {
    ServeSize(silence, w.sessions, x.0, x.1);
    var r := Serve(silence, w.sessions, x.0, x.1);
    forall k | k in r.sessions ensures k in Noted(w.logs, x, r.reply)
        && Follows(silence, r.sessions[k], Noted(w.logs, x, r.reply)[k]) {
      StepFollows(silence, w, x, k, r, Noted(w.logs, x, r.reply));
    }
  }

  lemma {:induction false} ExecKeepsInv(silence: real, w: World, run: seq<Exchange>)
    requires Inv(silence, w)
    ensures Inv(silence, Exec(silence, w, run))
    decreases |run|
  {
    if run != [] {
      StepKeepsInv(silence, w, run[0]);
      ExecKeepsInv(silence, Step(silence, w, run[0]), run[1..]);
    }
  }

  /** Over every run of the engine, with sessions opened, closed, expired and reused
      in any order: at most four sessions, each within its bounds, its audio the most
      recent part of what was accepted for it and its sequence number their count. */
  lemma {:induction false} EngineBounds(silence: real, run: seq<Exchange>)
    ensures var w := Exec(silence, World(map[], map[]), run);
            && |w.sessions| <= 4 && w.sessions.Keys == w.logs.Keys
            && forall k | k in w.sessions ::
                 var s, log := w.sessions[k], w.logs[k];
                 && s.partial <= |s.audio| <= 240000 && s.next == |log.frames|
                    && Suffix(s.audio, Joined(log.frames))
                 && 16000 * Partials(log.sent) <= |Joined(log.frames)| + 16000 * Silences(log.frames)
                 && (Proper(log.sent) <==> !AnsweredAfterLoss(silence, log.since, log.frames))
  {
    ExecKeepsInv(silence, World(map[], map[]), run);
    var w := Exec(silence, World(map[], map[]), run);
    forall k | k in w.sessions ensures
        var s, log := w.sessions[k], w.logs[k];
        && s.partial <= |s.audio| <= 240000 && s.next == |log.frames| && Suffix(s.audio, Joined(log.frames))
        && 16000 * Partials(log.sent) <= |Joined(log.frames)| + 16000 * Silences(log.frames)
        && (Proper(log.sent) <==> !AnsweredAfterLoss(silence, log.since, log.frames))
    {
      var log := w.logs[k];
      SessionBounds(silence, log.since, log.frames);
      PartialsAreBounded(silence, log.since, log.frames);
      EventGrammarIff(silence, log.since, log.frames);
    }
  }
}
