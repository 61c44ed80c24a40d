/** The voice gateway's sessions: bounded audio, an endpoint detector and a speech
    model that may answer anything or fail, and the events a client is sent. */
module Gateway {
  import opened Options

  const RATE: nat := 16000
  const MAX_SAMPLES: nat := 15 * RATE
  const MAX_SESSIONS: nat := 4

  type Key = string

  datatype Event = Started | Partial(text: string) | Final(text: string)

  datatype Session = Session(audio: seq<int>, at: real, next: nat, partial: nat, speaking: bool)

  /** What the endpoint detector makes of the audio: it fails, hears no speech, or
      hears speech whose last stretch ends at sample `end`. */
  datatype Hearing = Broken | Silence | Speech(end: int)

  /** An accepted frame: its samples, the time, what the detector answers about the
      audio so far, and what the speech model would answer (None: it fails). */
  datatype Frame = Frame(samples: seq<int>, at: real, heard: Hearing, said: Option<string>)

  function Last(xs: seq<int>, n: nat): (r: seq<int>)
    ensures |r| <= n && |r| <= |xs| && r == xs[|xs| - |r|..]
    ensures |xs| <= n ==> r == xs
    ensures |xs| > n ==> |r| == n
  {
    if |xs| <= n then xs else xs[|xs| - n..]
  }

  const NEW_SESSION := Session([], 0.0, 0, 0, false)

  function Grown(s: Session, f: Frame): Session {
    s.(audio := Last(s.audio + f.samples, MAX_SAMPLES), at := f.at, next := s.next + 1)
  }

  /** Silence after the last speech for at least `silence` ms, or a full buffer. */
  predicate IsFinal(silence: real, samples: nat, end: int) {
    (samples - end) as real / 16000.0 * 1000.0 >= silence || samples >= MAX_SAMPLES
  }

  /** The session after a frame and the events sent, None when a model failed. */
  datatype Turn = Turn(session: Session, events: Option<seq<Event>>)

  /** With the grown session and speech heard; `done` if that speech has ended. */
  function Listen(s: Session, done: bool, said: Option<string>): Turn {
    var opening := if s.speaking then [] else [Started];
    var heard := s.(speaking := true);
    if !done && |s.audio| - s.partial < RATE then Turn(heard, Some(opening))
    else if said.None? then Turn(heard, None)
    else if done then Turn(s.(audio := [], partial := 0, speaking := false), Some(opening + [Final(said.value)]))
    else Turn(heard.(partial := |s.audio|), Some(opening + [Partial(said.value)]))
  }

  function PreRoll(s: Session): Session { s.(audio := Last(s.audio, RATE), partial := 0) }

  function Hear(silence: real, s: Session, f: Frame): Turn {
    var grown := Grown(s, f);
    match f.heard
    case Broken => Turn(grown, None)
    case Silence => Turn(PreRoll(grown), Some([]))
    case Speech(end) => Listen(grown, IsFinal(silence, |grown.audio|, end), f.said)
  }

  // ---------------------------------------------------------------- requests

  type Byte = n: nat | n < 256

  function Word(low: int, high: int): int { low + 256 * high }

  /** The two bytes as a signed number. */
  function Signed(low: Byte, high: Byte): (v: int)
    ensures -32768 <= v < 32768 && (v == Word(low, high) || v == Word(low, high) - 65536)
  {
    if Word(low, high) >= 32768 then Word(low, high) - 65536 else Word(low, high)
  }

  /** Little-endian signed 16-bit samples. */
  function Samples(bytes: seq<Byte>): (r: seq<int>)
    ensures |r| == |bytes| / 2
    ensures forall i | 0 <= i < |r| ::
              && 0 <= 2 * i < |bytes| - 1 && r[i] == Signed(bytes[2 * i], bytes[2 * i + 1]) && -32768 <= r[i] < 32768
    decreases |bytes|
  {
    if |bytes| < 2 then []
    else
      var n := |bytes| / 2 - 1;
      Samples(bytes[..2 * n]) + [Signed(bytes[2 * n], bytes[2 * n + 1])]
  }

  /** A client's sample as two bytes, the low one first. */
  function Low(x: int): Byte
    requires -32768 <= x < 32768
  {
    if x >= 0 then x % 256 else (x + 65536) % 256
  }

  function High(x: int): Byte
    requires -32768 <= x < 32768
  {
    if x >= 0 then x / 256 else (x + 65536) / 256
  }

  predicate Sample16(x: int) { -32768 <= x < 32768 }

  /** Signed 16-bit little-endian PCM. */
  function Pcm(xs: seq<int>): seq<Byte>
    requires forall x | x in xs :: Sample16(x)
  {
    if xs == [] then []
    else
      assert Sample16(xs[0]);
      [Low(xs[0]), High(xs[0])] + Pcm(xs[1..])
  }

  /** Sample `i` is the number its two bytes write, the low byte first, less 65536 exactly
      if the top bit is set; an odd last byte is no sample. */
  lemma SampleBytes(bytes: seq<Byte>, i: nat)
    requires 2 * i + 1 < |bytes|
    ensures |Samples(bytes)| == |bytes| / 2
    ensures Samples(bytes)[i] ==
            (bytes[2 * i] as int) + 256 * (bytes[2 * i + 1] as int) - (if bytes[2 * i + 1] >= 128 then 65536 else 0)
  {
  }

  lemma {:induction false} PcmBytes(xs: seq<int>, i: nat)
    requires (forall x | x in xs :: Sample16(x)) && i < |xs|
    ensures |Pcm(xs)| == 2 * |xs| && xs[i] in xs
    ensures Pcm(xs)[2 * i] == Low(xs[i]) && Pcm(xs)[2 * i + 1] == High(xs[i])
  {
    if |xs| > 1 { PcmBytes(xs[1..], if i == 0 then 0 else i - 1); }
  }

  /** What a client encodes is what the models hear. */
  lemma SamplesOfPcm(xs: seq<int>)
    requires forall x | x in xs :: Sample16(x)
    ensures Samples(Pcm(xs)) == xs
  {
    if xs != [] { PcmBytes(xs, 0); }
    forall i | 0 <= i < |xs| ensures i < |Samples(Pcm(xs))| && Samples(Pcm(xs))[i] == xs[i] {
      PcmBytes(xs, i);
      SampleBytes(Pcm(xs), i);
      assert Sample16(xs[i]);
    }
  }

  datatype Path = Close | Audio | Elsewhere

  /** A request to open a session, or one about a session: its key, whether the body
      has the fields of the path and no others, and for audio the sequence number and
      the bytes (None: no integer; no text, too long or not base64). */
  datatype Request =
    | Open(empty: bool)
    | About(path: Path, session: Option<Key>, exact: bool, number: Option<int>, pcm: Option<seq<Byte>>)

  /** Everything a request takes from outside: the clock, a fresh key, the models. */
  datatype Outside = Outside(now: real, key: Key, heard: Hearing, said: Option<string>)

  /** A failed model is answered by the dispatcher, by the kind of its exception. */
  datatype Reply = Opened(key: Key) | Closed | Heard(events: seq<Event>) | Refused(status: nat) | ModelFailed

  type Sessions = map<Key, Session>

  function Alive(sessions: Sessions, now: real): Sessions {
    map k | k in sessions && now - sessions[k].at < 60.0 :: sessions[k]
  }

  predicate GoodBytes(pcm: Option<seq<Byte>>) { pcm.Some? && 320 <= |pcm.value| <= 32000 && |pcm.value| % 2 == 0 }

  function FrameOf(pcm: seq<Byte>, o: Outside): Frame { Frame(Samples(pcm), o.now, o.heard, o.said) }

  datatype Served = Served(sessions: Sessions, reply: Reply)

  /** Engine.request with the lock taken, over the sessions that have not expired. */
  function Serve(silence: real, sessions: Sessions, q: Request, o: Outside): Served {
    var live := Alive(sessions, o.now);
    match q
    case Open(empty) =>
      if !empty || |live| >= MAX_SESSIONS then Served(live, Refused(429))
      else Served(live[o.key := NEW_SESSION.(at := o.now)], Opened(o.key))
    case About(path, session, exact, number, pcm) =>
      if session.None? || session.value !in live then Served(live, Refused(404))
      else if path.Close? then (if exact then Served(live - {session.value}, Closed) else Served(live, Refused(400)))
      else if !path.Audio? || !exact then Served(live, Refused(400))
      else if number != Some(live[session.value].next) then Served(live, Refused(409))
      else if !GoodBytes(pcm) then Served(live, Refused(400))
      else
        var t := Hear(silence, live[session.value], FrameOf(pcm.value, o));
        Served(live[session.value := t.session], if t.events.Some? then Heard(t.events.value) else ModelFailed)
  }

  // --------------------------------------------------------------- the engine

  class Engine {
    const silence: real
    var sessions: Sessions
    var locked: bool

    constructor (silence: real)
      ensures this.silence == silence && sessions == map[] && !locked
    {
      this.silence, sessions, locked := silence, map[], false;
    }

    /** Speech was heard in the audio kept for `key`. */
    method HearSpeech(key: Key, end: int, said: Option<string>) returns (reply: Reply)
      requires key in sessions
      modifies this`sessions
      ensures var s := old(sessions)[key]; var t := Listen(s, IsFinal(silence, |s.audio|, end), said);
              && sessions == old(sessions)[key := t.session]
              && reply == if t.events.Some? then Heard(t.events.value) else ModelFailed
    {
      var s, events := sessions[key], [];
      if !s.speaking {
        events := events + [Started];
        s := s.(speaking := true);
        sessions := sessions[key := s];
      }
      var done := IsFinal(silence, |s.audio|, end);
      if done || |s.audio| - s.partial >= RATE {
        if said.None? { return ModelFailed; }
        events := events + [if done then Final(said.value) else Partial(said.value)];
        s := s.(partial := |s.audio|);
      }
      if done { s := s.(audio := [], partial := 0, speaking := false); }
      sessions := sessions[key := s];
      reply := Heard(events);
    }

    /** The frame is appended to a bounded buffer and counted. */
    method KeepFrame(key: Key, f: Frame)
      requires key in sessions
      modifies this`sessions
      ensures sessions == old(sessions)[key := Grown(old(sessions)[key], f)]
    {
      var s := sessions[key];
      s := s.(next := s.next + 1, at := f.at, audio := Last(s.audio + f.samples, MAX_SAMPLES));
      sessions := sessions[key := s];
    }

    /** In silence just the last second is kept. */
    method KeepPreRoll(key: Key)
      requires key in sessions
      modifies this`sessions
      ensures sessions == old(sessions)[key := PreRoll(old(sessions)[key])]
    {
      var s := sessions[key];
      sessions := sessions[key := s.(audio := Last(s.audio, RATE), partial := 0)];
    }

    /** The audio branch: the frame is kept whatever the models do afterwards. */
    method HearFrame(key: Key, f: Frame) returns (reply: Reply)
      requires key in sessions
      modifies this`sessions
      ensures var t := Hear(silence, old(sessions)[key], f);
              && sessions == old(sessions)[key := t.session]
              && reply == if t.events.Some? then Heard(t.events.value) else ModelFailed
    {
      KeepFrame(key, f);
      match f.heard {
        case Broken => reply := ModelFailed;
        case Speech(end) => reply := HearSpeech(key, end, f.said);
        case Silence =>
          KeepPreRoll(key);
          reply := Heard([]);
      }
    }

    /** request. A request that finds the lock taken is turned away. */
    method HandleRequest(q: Request, o: Outside) returns (reply: Reply)
      modifies this
      ensures locked == old(locked)
      ensures if old(locked) then sessions == old(sessions) && reply == Refused(429)
              else Served(sessions, reply) == Serve(silence, old(sessions), q, o)
    {
      if locked { return Refused(429); }
      locked := true;
      sessions := Alive(sessions, o.now);
      match q {
        case Open(empty) =>
          if !empty || |sessions| >= MAX_SESSIONS {
            reply := Refused(429);
          } else {
            sessions := sessions[o.key := Session([], o.now, 0, 0, false)];
            reply := Opened(o.key);
          }
        case About(path, session, exact, number, pcm) =>
          if session.None? || session.value !in sessions {
            reply := Refused(404);
          } else if path.Close? && exact {
            sessions := sessions - {session.value};
            reply := Closed;
          } else if !path.Audio? || !exact {
            reply := Refused(400);
          } else if number != Some(sessions[session.value].next) {
            reply := Refused(409);
          } else if !GoodBytes(pcm) {
            reply := Refused(400);
          } else {
            reply := HearFrame(session.value, FrameOf(pcm.value, o));
          }
      }
      locked := false;
    }
  }
}
