/** Resampling a microphone to 16 kHz, fed in chunks of any size. Samples are exact
    numbers here. */
module VoiceCapture {
  import opened Options

  const HZ: nat := 16000
  const FRAME_SIZE: nat := 8000

  function Clamp(x: real): real { if x < -1.0 then -1.0 else if x > 1.0 then 1.0 else x }

  /** Math.round: halves go up. */
  function Round(x: real): int { (x + 0.5).Floor }

  /** A 16-bit level for the mean of some samples. */
  function Level(mean: real): int { Round(Clamp(mean) * 32767.0) }

  function Mean(sum: real, count: nat): real requires count > 0 { sum / count as real }

  /** The accumulators and the levels put out so far. */
  datatype State = State(phase: int, sum: real, count: nat, out: seq<int>)

  function Push(rate: nat, s: State, x: real): State {
    var sum, count, phase := s.sum + x, s.count + 1, s.phase + HZ;
    if phase >= rate then State(phase - rate, 0.0, 0, s.out + [Level(Mean(sum, count))])
        else State(phase, sum, count, s.out)
  }

  /** After all of these samples, however they were cut into chunks. */
  function Fed(rate: nat, xs: seq<real>): State
    decreases |xs|
  {
    if xs == [] then State(0, 0.0, 0, []) else Push(rate, Fed(rate, xs[..|xs| - 1]), xs[|xs| - 1])
  }

  lemma FedOneMore(rate: nat, xs: seq<real>, x: real)
    ensures Fed(rate, xs + [x]) == Push(rate, Fed(rate, xs), x)
  {
  }

  /** The samples `xs` after the state `s`. */
  function FedFrom(rate: nat, s: State, xs: seq<real>): State
    decreases |xs|
  {
    if xs == [] then s else Push(rate, FedFrom(rate, s, xs[..|xs| - 1]), xs[|xs| - 1])
  }

  lemma {:induction false} FedInChunks(rate: nat, heard: seq<real>, xs: seq<real>)
    ensures Fed(rate, heard + xs) == FedFrom(rate, Fed(rate, heard), xs)
    decreases |xs|
  {
    if xs == [] {
      assert heard + xs == heard;
    } else {
      var before := xs[..|xs| - 1];
      FedInChunks(rate, heard, before);
      FedOneMore(rate, heard + before, xs[|xs| - 1]);
      assert heard + xs == heard + before + [xs[|xs| - 1]];
    }
  }

  lemma FedFromNext(rate: nat, s: State, xs: seq<real>, i: nat)
    requires i < |xs|
    ensures FedFrom(rate, s, xs[..i + 1]) == Push(rate, FedFrom(rate, s, xs[..i]), xs[i])
  {
    assert xs[..i + 1][..i] == xs[..i];
  }

  function Concat(frames: seq<seq<int>>): seq<int>
    decreases |frames|
  {
    if frames == [] then [] else Concat(frames[..|frames| - 1]) + frames[|frames| - 1]
  }

  lemma ConcatOneMore(frames: seq<seq<int>>, frame: seq<int>)
    ensures Concat(frames + [frame]) == Concat(frames) + frame
  {
  }

  class Capture {
    const rate: nat
    var frame: array<int>
    var offset: nat
    var phase: int
    var sum: real
    var count: nat
    /** The frames handed to the port. */
    var posted: seq<seq<int>>
    /** All samples so far. */
    ghost var heard: seq<real>

    /** The levels put out: whole frames posted and the part of the next one. */
    function Out(): seq<int>
      reads this, frame
      requires offset <= frame.Length
    {
      Concat(posted) + frame[..offset]
    }

    /** The frame is being filled, and only whole frames were posted. */
    predicate Framed()
      reads this, frame
    {
      frame.Length == FRAME_SIZE && offset < FRAME_SIZE && forall i | 0 <= i < |posted| :: |posted[i]| == FRAME_SIZE
    }

    function Now(): State
      reads this, frame
      requires offset <= frame.Length
    {
      State(phase, sum, count, Out())
    }

    ghost predicate Valid()
      reads this, frame
    {
      Framed() && Now() == Fed(rate, heard)
    }

    constructor (rate: nat)
      ensures Valid() && fresh(frame) && this.rate == rate && heard == [] && posted == []
    {
      this.rate := rate;
      frame := new int[FRAME_SIZE];
      offset, phase, sum, count, posted, heard := 0, 0, 0.0, 0, [], [];
    }

    /** Writes a level; a full frame is posted and replaced. */
    method Emit(level: int)
      requires Framed()
      modifies this`frame, this`offset, this`posted, frame
      ensures Framed() && Out() == old(Out()) + [level] && (frame == old(frame) || fresh(frame))
      ensures posted == if old(offset) == FRAME_SIZE - 1 then old(posted) + [old(frame[..offset]) + [level]]
                else old(posted)
    {
      frame[offset] := level;
      offset := offset + 1;
      assert frame[..offset] == old(frame[..offset]) + [level];
      if offset == frame.Length {
        ConcatOneMore(posted, frame[..]);
        assert frame[..] == frame[..offset];
        posted := posted + [frame[..]];
        frame := new int[FRAME_SIZE];
        offset := 0;
        assert frame[..offset] == [];
      }
    }

    /** One sample of the loop. */
    method Take(value: real)
      requires Framed()
      modifies this`frame, this`offset, this`phase, this`sum, this`count, this`posted, frame
      ensures Framed() && Now() == Push(rate, old(Now()), value) && (frame == old(frame) || fresh(frame))
    {
      sum := sum + value;
      count := count + 1;
      phase := phase + HZ;
      if phase >= rate {
        phase := phase - rate;
        Emit(Level(Mean(sum, count)));
        sum, count := 0.0, 0;
      }
    }

    /** The loop over one chunk. */
    method TakeAll(xs: seq<real>)
      requires Framed()
      modifies this`frame, this`offset, this`phase, this`sum, this`count, this`posted, frame
      ensures Framed() && Now() == FedFrom(rate, old(Now()), xs) && (frame == old(frame) || fresh(frame))
    {
      for i := 0 to |xs|
        invariant Framed() && Now() == FedFrom(rate, old(Now()), xs[..i]) && (frame == old(frame) || fresh(frame))
      {
        FedFromNext(rate, old(Now()), xs, i);
        Take(xs[i]);
      }
      assert xs[..|xs|] == xs;
    }

    /** process: one chunk, or none. */
    method Process(input: Option<seq<real>>) returns (goOn: bool)
      requires Valid()
      modifies this, frame
      ensures Valid() && goOn && (frame == old(frame) || fresh(frame))
      ensures heard == if input.Some? then old(heard) + input.value else old(heard)
      ensures offset < 8000 && forall i | 0 <= i < |posted| :: |posted[i]| == 8000
    {
      if input.None? { return true; }
      TakeAll(input.value);
      FedInChunks(rate, heard, input.value);
      heard := heard + input.value;
      return true;
    }
  }

  // ------------------------------------------------------------- no drift

  /** Inputs used up by the first `k` outputs: the least number lasting as long. */
  function Boundary(rate: nat, k: nat): nat { (k * rate + HZ - 1) / HZ }

  function Sum(xs: seq<real>): real
    decreases |xs|
  {
    if xs == [] then 0.0 else Sum(xs[..|xs| - 1]) + xs[|xs| - 1]
  }

  function Boundaries(rate: nat): nat -> nat { (k: nat) => Boundary(rate, k) }

  lemma BoundaryIs(rate: nat, k: nat, n: int)
    requires HZ * (n - 1) < k * rate <= HZ * n
    ensures Boundary(rate, k) == n
  {
  }

  lemma NextMultiple(rate: nat, k: nat)
    ensures (k + 1) * rate == k * rate + rate
  {
  }

  /** Every window holds the rate's number of samples per output, rounded down or up. */
  lemma WindowSizes(rate: nat, k: nat)
    ensures rate / HZ <= Boundary(rate, k + 1) - Boundary(rate, k) <= (rate + HZ - 1) / HZ
  {
  }

  /** After `n` inputs: how far the accumulators are. */
  predicate OnTime(rate: nat, n: nat, s: State) {
    0 <= s.phase < rate && HZ * n == |s.out| * rate + s.phase && Aligned(Boundaries(rate), n, s)
  }

  /** What no output has used starts at a boundary. */
  predicate Aligned(bounds: nat -> nat, n: nat, s: State) { s.count <= n && n - s.count == bounds(|s.out|) }

  lemma {:induction false} StaysOnTime(rate: nat, xs: seq<real>)
    requires rate >= HZ
    ensures OnTime(rate, |xs|, Fed(rate, xs))
    decreases |xs|
  {
    if xs != [] {
      var n := |xs| - 1;
      var before := Fed(rate, xs[..n]);
      StaysOnTime(rate, xs[..n]);
      NextMultiple(rate, |before.out|);
      if before.phase + HZ >= rate { BoundaryIs(rate, |before.out| + 1, n + 1); }
    }
  }

  /** The level of the mean of one window. */
  predicate IsMean(xs: seq<real>, from: nat, to: nat, level: int) {
    from < to <= |xs| && level == Level(Mean(Sum(xs[from..to]), to - from))
  }

  /** Each output is the level of the mean of its window. */
  ghost predicate AllMeans(bounds: nat -> nat, xs: seq<real>, out: seq<int>) {
    forall k | 0 <= k < |out| :: IsMean(xs, bounds(k), bounds(k + 1), out[k])
  }

  /** The accumulators hold what no window has used. */
  ghost predicate Averages(bounds: nat -> nat, xs: seq<real>, s: State) {
    s.count <= |xs| && s.sum == Sum(xs[|xs| - s.count..]) && AllMeans(bounds, xs, s.out)
  }

  lemma SumOneMore(xs: seq<real>, x: real)
    ensures Sum(xs + [x]) == Sum(xs) + x
  {
  }

  lemma MeanKept(xs: seq<real>, x: real, from: nat, to: nat, level: int)
    requires IsMean(xs, from, to, level)
    ensures IsMean(xs + [x], from, to, level)
  {
    assert (xs + [x])[from..to] == xs[from..to];
  }

  lemma EarlierMeans(bounds: nat -> nat, xs: seq<real>, x: real, out: seq<int>)
    requires AllMeans(bounds, xs, out)
    ensures AllMeans(bounds, xs + [x], out)
  {
    forall k | 0 <= k < |out| ensures IsMean(xs + [x], bounds(k), bounds(k + 1), out[k]) {
      MeanKept(xs, x, bounds(k), bounds(k + 1), out[k]);
    }
  }

  /** The window that ends with the last input. */
  lemma LastMean(bounds: nat -> nat, xs: seq<real>, out: seq<int>, level: int)
    requires AllMeans(bounds, xs, out) && IsMean(xs, bounds(|out|), bounds(|out| + 1), level)
    ensures AllMeans(bounds, xs, out + [level])
  {
  }

  /** The sum of what no window has used grows with the input. */
  lemma RestGrows(xs: seq<real>, x: real, start: nat, sum: real)
    requires start <= |xs| && sum == Sum(xs[start..])
    ensures sum + x == Sum((xs + [x])[start..])
  {
    SumOneMore(xs[start..], x);
    assert (xs + [x])[start..] == xs[start..] + [x];
  }

  lemma PushQuietly(rate: nat, bounds: nat -> nat, xs: seq<real>, s: State, x: real)
    requires Averages(bounds, xs, s) && s.phase + HZ < rate
    ensures Averages(bounds, xs + [x], Push(rate, s, x))
  {
    EarlierMeans(bounds, xs, x, s.out);
    RestGrows(xs, x, |xs| - s.count, s.sum);
  }

  lemma PushLoudly(rate: nat, bounds: nat -> nat, xs: seq<real>, s: State, x: real, level: int)
    requires Averages(bounds, xs, s) && s.phase + HZ >= rate && level == Level(Mean(s.sum + x, s.count + 1))
    requires |xs| - s.count == bounds(|s.out|) && bounds(|s.out| + 1) == |xs| + 1
    ensures AllMeans(bounds, xs + [x], s.out + [level])
  {
    EarlierMeans(bounds, xs, x, s.out);
    RestGrows(xs, x, |xs| - s.count, s.sum);
    WholeRest(xs + [x], |xs| - s.count, s.sum + x, level);
    LastMean(bounds, xs + [x], s.out, level);
  }

  /** The level of everything from `start` on. */
  lemma WholeRest(ys: seq<real>, start: nat, sum: real, level: int)
    requires start < |ys| && sum == Sum(ys[start..]) && level == Level(Mean(sum, |ys| - start))
    ensures IsMean(ys, start, |ys|, level)
  {
    assert ys[start..|ys|] == ys[start..];
  }

  lemma PushAverages(rate: nat, bounds: nat -> nat, xs: seq<real>, s: State, x: real, t: State)
    requires Aligned(bounds, |xs|, s) && Averages(bounds, xs, s)
    requires t == Push(rate, s, x) && Aligned(bounds, |xs| + 1, t)
    ensures Averages(bounds, xs + [x], t)
  {
    if s.phase + HZ < rate {
      PushQuietly(rate, bounds, xs, s, x);
    } else {
      PushLoudly(rate, bounds, xs, s, x, Level(Mean(s.sum + x, s.count + 1)));
    }
  }

  lemma {:induction false} KeepsAverages(rate: nat, xs: seq<real>)
    requires rate >= HZ
    ensures Averages(Boundaries(rate), xs, Fed(rate, xs))
    decreases |xs|
  {
    if xs != [] {
      var n := |xs| - 1;
      KeepsAverages(rate, xs[..n]);
      StaysOnTime(rate, xs[..n]);
      StaysOnTime(rate, xs);
      assert xs == xs[..n] + [xs[n]];
      PushAverages(rate, Boundaries(rate), xs[..n], Fed(rate, xs[..n]), xs[n], Fed(rate, xs));
    }
  }

  lemma Products(a: int, b: int, rate: nat)
    requires a <= b
    ensures a * rate <= b * rate
  {
  }

  lemma Quotient(rate: nat, a: nat, k: nat, phase: nat)
    requires a == k * rate + phase && phase < rate
    ensures k == a / rate
  {
    var q := a / rate;
    assert q * rate <= a < (q + 1) * rate;
    if k < q { Products(k + 1, q, rate); }
    if k > q { Products(q + 1, k, rate); }
  }

  /** At any rate of at least 16 kHz, for any input in any chunks: the number of
      outputs is exactly the time elapsed at 16 kHz, rounded down, and the k-th output
      is the level of the mean of the k-th of consecutive windows, which use every
      input up to the last output once; the accumulators hold the rest. */
  lemma NeverDrifts(rate: nat, xs: seq<real>)
    requires rate >= HZ
    ensures var s := Fed(rate, xs);
            && |s.out| == 16000 * |xs| / rate && 0 <= s.phase < rate && 16000 * |xs| == |s.out| * rate + s.phase
            && Boundary(rate, 0) == 0 && Boundary(rate, |s.out|) + s.count == |xs|
            && s.sum == Sum(xs[Boundary(rate, |s.out|)..])
            && AllMeans(Boundaries(rate), xs, s.out)
  {
    StaysOnTime(rate, xs);
    KeepsAverages(rate, xs);
    var s := Fed(rate, xs);
    Quotient(rate, HZ * |xs|, |s.out|, s.phase);
  }

  lemma {:induction false} OneOutputEach(rate: nat, xs: seq<real>)
    requires 0 < rate < HZ
    ensures Fed(rate, xs).phase == |xs| * (HZ - rate) && |Fed(rate, xs).out| == |xs|
    decreases |xs|
  {
    if xs != [] {
      var n := |xs| - 1;
      OneOutputEach(rate, xs[..n]);
      assert |xs| * (HZ - rate) == n * (HZ - rate) + (HZ - rate);
    }
  }

  /** The phase stays below the rate for all inputs exactly at rates of 16 kHz or
      more; below, at most one output is made for an input and time is lost. */
  lemma DriftsIff(rate: nat)
    requires rate > 0
    ensures (forall xs: seq<real> :: Fed(rate, xs).phase < rate) <==> rate >= 16000
  {
    if rate >= HZ {
      forall xs: seq<real> ensures Fed(rate, xs).phase < rate { StaysOnTime(rate, xs); }
    } else {
      var xs := seq(rate, i => 0.0);
      OneOutputEach(rate, xs);
      Products(1, HZ - rate, rate);
    }
  }

  // --------------------------------------------------------------- levels

  lemma LevelOrder(x: real, y: real)
    requires x <= y
    ensures -32767 <= Level(x) <= Level(y) <= 32767
  {
  }

  /** A level is the nearest to 32767 times the mean, the greater of two as near; beyond
      full scale it is the greatest or least. */
  lemma LevelIsNearest(mean: real)
    ensures mean > 1.0 ==> Level(mean) == 32767
    ensures mean < -1.0 ==> Level(mean) == -32767
    ensures -1.0 <= mean <= 1.0 ==> Level(mean) as real - 0.5 <= mean * 32767.0 < Level(mean) as real + 0.5
  {
  }

  /** Each output in numbers: the nearest level to the plain mean of its window. */
  lemma OutputIsNearestMean(rate: nat, xs: seq<real>, k: nat)
    requires rate >= HZ && k < |Fed(rate, xs).out|
    ensures var from, to, level := Boundary(rate, k), Boundary(rate, k + 1), Fed(rate, xs).out[k];
            && from < to <= |xs|
            && var mean := Sum(xs[from..to]) / (to - from) as real;
               && (-1.0 <= mean <= 1.0 ==> level as real - 0.5 <= mean * 32767.0 < level as real + 0.5)
               && (mean > 1.0 ==> level == 32767) && (mean < -1.0 ==> level == -32767)
  {
    KeepsAverages(rate, xs);
    var from, to := Boundary(rate, k), Boundary(rate, k + 1);
    assert IsMean(xs, Boundaries(rate)(k), Boundaries(rate)(k + 1), Fed(rate, xs).out[k]);
    LevelIsNearest(Mean(Sum(xs[from..to]), to - from));
  }

  /** Output `k` is made of what was heard between the times k and k + 1 at 16 kHz. */
  lemma BoundaryIsTime(rate: nat, k: nat)
    ensures 16000 * Boundary(rate, k) - 16000 < k * rate <= 16000 * Boundary(rate, k)
  {
  }

  lemma {:induction false} SumWithin(xs: seq<real>, low: real, high: real)
    requires forall i | 0 <= i < |xs| :: low <= xs[i] <= high
    ensures |xs| as real * low <= Sum(xs) <= |xs| as real * high
    decreases |xs|
  {
    if xs != [] {
      var n := |xs| - 1;
      SumWithin(xs[..n], low, high);
      assert |xs| as real * low == n as real * low + low && |xs| as real * high == n as real * high + high;
    }
  }

  lemma MeanWithin(sum: real, count: nat, low: real, high: real)
    requires count > 0 && count as real * low <= sum <= count as real * high
    ensures low <= Mean(sum, count) <= high
  {
  }

  lemma LevelWithin(w: seq<real>, low: real, high: real)
    requires |w| > 0 && forall i | 0 <= i < |w| :: low <= w[i] <= high
    ensures -32767 <= Level(low) <= Level(Mean(Sum(w), |w|)) <= Level(high) <= 32767
  {
    SumWithin(w, low, high);
    MeanWithin(Sum(w), |w|, low, high);
    LevelOrder(low, Mean(Sum(w), |w|));
    LevelOrder(Mean(Sum(w), |w|), high);
  }

  /** No output overshoots: it lies within 16 bits, between the levels of the least
      and the greatest input of its window. */
  lemma OutputWithinWindow(rate: nat, xs: seq<real>, k: nat, low: real, high: real)
    requires rate >= HZ && k < |Fed(rate, xs).out|
    requires forall i | Boundary(rate, k) <= i < Boundary(rate, k + 1) && i < |xs| :: low <= xs[i] <= high
    ensures -32767 <= Level(low) <= Fed(rate, xs).out[k] <= Level(high) <= 32767
  {
    KeepsAverages(rate, xs);
    var from, to := Boundary(rate, k), Boundary(rate, k + 1);
    assert IsMean(xs, Boundaries(rate)(k), Boundaries(rate)(k + 1), Fed(rate, xs).out[k]);
    LevelWithin(xs[from..to], low, high);
  }
}
