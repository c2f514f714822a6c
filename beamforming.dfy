/**
 * `BeamformingProcessor`: delay-and-sum over six interleaved 16-bit
 * channels. Each channel keeps a FIFO delay line that persists between
 * calls; a frame's output is the truncated average of the samples the
 * lines released in that frame.
 *
 * The pure functions below (`Push`, `MixChannels`, `FrameOutput`, `Run`)
 * are the specification the class is proved against; the ghost `history`
 * of each channel is the independent reference for the FIFO law.
 */
module Beamforming {
  import opened Pcm
  import opened Wrappers

  const NumChannels: nat := 6

  /** Bytes per interleaved frame: six channels of two bytes. */
  const FrameBytes: nat := 12

  /** Six empty delay lines: the state of a fresh or reset processor. */
  const NoLines: seq<seq<Short>> := [[], [], [], [], [], []]

  /** Byte offset of (frame `f`, channel `ch`) in the interleaved input. */
  function SampleOffset(f: nat, ch: nat): (offset: nat)
  {
    (f * 6 + ch) * 2
  }

  /** The sample of channel `ch` in frame `f`, read little-endian. */
  function SampleAt(data: seq<Byte>, f: nat, ch: nat): (s: Short)
    requires ch < 6 && 12 * (f + 1) <= |data|
  {
    DecodeSample(data[SampleOffset(f, ch)], data[SampleOffset(f, ch) + 1])
  }

  /** The six samples of frame `f`. */
  function FrameSamples(data: seq<Byte>, f: nat): (xs: seq<Short>)
    requires 12 * (f + 1) <= |data|
    ensures |xs| == 6
  {
    seq(6, ch requires 0 <= ch < 6 => SampleAt(data, f, ch))
  }

  /** The first `frames` samples of channel `ch`, deinterleaved. */
  function Column(data: seq<Byte>, ch: nat, frames: nat): (c: seq<Short>)
    requires ch < 6 && 12 * frames <= |data|
    ensures |c| == frames
  {
    seq(frames, f requires 0 <= f < frames => SampleAt(data, f, ch))
  }

  /** What one push onto a delay line leaves: the new line and the sample it released, if any. */
  datatype Tap = Tap(line: seq<Short>, delayed: Option<Short>)

  /**
   * Append `x`; when the line then holds more than `delay` samples, remove
   * and release its oldest one.
   */
  function Push(line: seq<Short>, delay: nat, x: Short): (t: Tap)
    ensures t.delayed.Some? <==> |line| + 1 > delay
    ensures |line| <= delay ==> |t.line| <= delay
  {
    var l := line + [x];
    if |l| > delay then Tap(l[1..], Some(l[0])) else Tap(l, None)
  }

  /** What channels `0 .. n-1` release when each is pushed onto its own line. */
  function Released(lines: seq<seq<Short>>, delays: seq<nat>, xs: seq<Short>, n: nat): (r: seq<Option<Short>>)
    requires |delays| == |lines| == |xs| && n <= |lines|
    ensures |r| == n
    ensures forall ch :: 0 <= ch < n ==> r[ch] == Push(lines[ch], delays[ch], xs[ch]).delayed
  {
    seq(n, ch requires 0 <= ch < n => Push(lines[ch], delays[ch], xs[ch]).delayed)
  }

  /** How many of the taps released a sample. */
  function CountOf(taps: seq<Option<Short>>): (c: nat)
    ensures c <= |taps|
    ensures (forall i :: 0 <= i < |taps| ==> taps[i].None?) ==> c == 0
  {
    if |taps| == 0 then 0
    else CountOf(taps[..|taps| - 1]) + (if taps[|taps| - 1].Some? then 1 else 0)
  }

  /** The sum of the released samples; it lies within `CountOf` shorts. */
  function SumOf(taps: seq<Option<Short>>): (s: int)
    ensures -32768 * CountOf(taps) <= s <= 32767 * CountOf(taps)
  {
    if |taps| == 0 then 0
    else SumOf(taps[..|taps| - 1]) + (match taps[|taps| - 1] case None => 0 case Some(x) => x)
  }

  /** The delay lines after pushing channels `0 .. n-1` of a frame, with the sum and count of releases. */
  datatype Mix = Mix(lines: seq<seq<Short>>, sum: int, count: nat)

  /**
   * Channels `0 .. n-1` of one frame pushed in order: every channel below
   * `n` has been pushed, the others are untouched, and `sum` is the sum of
   * the `count` released samples.
   */
  function MixChannels(lines: seq<seq<Short>>, delays: seq<nat>, xs: seq<Short>, n: nat): (m: Mix)
    requires |delays| == |lines| == |xs| && n <= |lines|
    ensures |m.lines| == |lines| && m.count <= n
    ensures -32768 * m.count <= m.sum <= 32767 * m.count
    ensures forall ch :: n <= ch < |lines| ==> m.lines[ch] == lines[ch]
    ensures forall ch :: 0 <= ch < n ==> m.lines[ch] == Push(lines[ch], delays[ch], xs[ch]).line
  {
    if n == 0 then Mix(lines, 0, 0)
    else
      var m := MixChannels(lines, delays, xs, n - 1);
      var t := Push(lines[n - 1], delays[n - 1], xs[n - 1]);
      Mix(m.lines[n - 1 := t.line],
          m.sum + (if t.delayed.Some? then t.delayed.value else 0),
          m.count + (if t.delayed.Some? then 1 else 0))
  }

  /** The mix's `sum` and `count` are the sum and number of the samples the channels release. */
  lemma {:induction false} MixReleases(lines: seq<seq<Short>>, delays: seq<nat>, xs: seq<Short>, n: nat)
    requires |delays| == |lines| == |xs| && n <= |lines|
    ensures MixChannels(lines, delays, xs, n).sum == SumOf(Released(lines, delays, xs, n))
    ensures MixChannels(lines, delays, xs, n).count == CountOf(Released(lines, delays, xs, n))
  {
    if n > 0 {
      MixReleases(lines, delays, xs, n - 1);
      ReleasedStep(lines, delays, xs, n);
    }
  }

  /** One more channel adds its released sample, if any, to the sum and the count. */
  lemma ReleasedStep(lines: seq<seq<Short>>, delays: seq<nat>, xs: seq<Short>, n: nat)
    requires |delays| == |lines| == |xs| && 0 < n <= |lines|
    ensures var t := Push(lines[n - 1], delays[n - 1], xs[n - 1]).delayed;
            SumOf(Released(lines, delays, xs, n))
              == SumOf(Released(lines, delays, xs, n - 1)) + (if t.Some? then t.value else 0) &&
            CountOf(Released(lines, delays, xs, n))
              == CountOf(Released(lines, delays, xs, n - 1)) + (if t.Some? then 1 else 0)
  {
    assert Released(lines, delays, xs, n)[..n - 1] == Released(lines, delays, xs, n - 1);
  }

  /**
   * `(sum / count).toInt().coerceIn(...).toShort()` when some channel
   * released a sample, and 0 otherwise: there is no division by zero, and
   * for a sum of `count` shorts the result is exactly the truncated average.
   */
  function FrameOutput(sum: int, count: nat): (o: Short)
    ensures count == 0 ==> o == 0
    ensures count > 0 && -32768 * count <= sum <= 32767 * count ==> o == TruncDiv(sum, count)
  {
    if count > 0 then
      AverageInRange(sum, count);
      Clip16(TruncDiv(sum, count))
    else 0
  }

  /** The truncated average of `count` shorts is itself a short. */
  lemma AverageInRange(sum: int, count: nat)
    requires count > 0
    ensures -32768 * count <= sum <= 32767 * count ==> ShortMin <= TruncDiv(sum, count) <= ShortMax
  {
    if -32768 * count <= sum <= 32767 * count {
      var q := TruncDiv(sum, count);
      if sum >= 0 {
        assert q == sum / count;
        assert q * count <= 32767 * count;
        FactorLeq(q, 32767, count);
      } else {
        assert -q == (-sum) / count;
        assert -q * count <= 32768 * count;
        FactorLeq(-q, 32768, count);
      }
    }
  }

  lemma FactorLeq(a: int, b: int, c: nat)
    requires c > 0 && a * c <= b * c
    ensures a <= b
  {
    if b < a {
      NegativeTimesPositive(b - a, c);
    }
  }

  lemma {:induction false} NegativeTimesPositive(x: int, c: nat)
    requires x < 0 && c > 0
    ensures x * c < 0
  {
    if c > 1 {
      NegativeTimesPositive(x, c - 1);
      assert x * c == x * (c - 1) + x;
    }
  }

  /** The delay lines and the mono samples after a number of frames. */
  datatype Beamformed = Beamformed(lines: seq<seq<Short>>, outs: seq<Short>)

  /** The first `frames` frames of `data` processed from delay lines `lines`, one output sample per frame. */
  function Run(lines: seq<seq<Short>>, delays: seq<nat>, data: seq<Byte>, frames: nat): (r: Beamformed)
    requires |lines| == |delays| == 6 && 12 * frames <= |data|
    ensures |r.lines| == 6 && |r.outs| == frames
  {
    if frames == 0 then Beamformed(lines, [])
    else
      var p := Run(lines, delays, data, frames - 1);
      var m := MixChannels(p.lines, delays, FrameSamples(data, frames - 1), 6);
      Beamformed(m.lines, p.outs + [FrameOutput(m.sum, m.count)])
  }

  /** One more frame: the lines after the frame's mix, and its output appended. */
  lemma RunStep(lines: seq<seq<Short>>, delays: seq<nat>, data: seq<Byte>, frames: nat, m: Mix)
    requires |lines| == |delays| == 6 && 12 * (frames + 1) <= |data|
    requires m == MixChannels(Run(lines, delays, data, frames).lines, delays, FrameSamples(data, frames), 6)
    ensures Run(lines, delays, data, frames + 1)
            == Beamformed(m.lines, Run(lines, delays, data, frames).outs + [FrameOutput(m.sum, m.count)])
  {
  }

  /** The last `min(|h|, d)` samples of `h`: what a delay line of length `d` holds after pushing `h`. */
  function Window(h: seq<Short>, d: nat): (w: seq<Short>)
    ensures |w| <= d && |w| <= |h|
  {
    if |h| <= d then h else h[|h| - d..]
  }

  /** The delay line of every channel, given everything pushed onto it. */
  function Windows(hs: seq<seq<Short>>, delays: seq<nat>): (ws: seq<seq<Short>>)
    requires |hs| == |delays| == 6
    ensures |ws| == 6
  {
    seq(6, ch requires 0 <= ch < 6 => Window(hs[ch], delays[ch]))
  }

  /** Each channel's history extended with the first `frames` frames of `data`. */
  function Extend(hs: seq<seq<Short>>, data: seq<Byte>, frames: nat): (hs': seq<seq<Short>>)
    requires |hs| == 6 && 12 * frames <= |data|
    ensures |hs'| == 6
  {
    seq(6, ch requires 0 <= ch < 6 => hs[ch] + Column(data, ch, frames))
  }

  /**
   * The FIFO law: pushing onto the window of `h` gives the window of
   * `h + [x]`, and the released sample is the one pushed `d` samples before
   * `x` (`x` itself when `d` is 0).
   */
  lemma PushWindow(h: seq<Short>, d: nat, x: Short)
    ensures Push(Window(h, d), d, x).line == Window(h + [x], d)
    ensures Push(Window(h, d), d, x).delayed == if |h| >= d then Some((h + [x])[|h| - d]) else None
  {
    var w := Window(h, d);
    if |h| >= d {
      assert w == h[|h| - d..];
      assert (w + [x])[1..] == (h + [x])[|h| + 1 - d..];
      assert (w + [x])[0] == (h + [x])[|h| - d];
    }
  }

  /** A zero-delay channel holds nothing and releases its current sample at once. */
  lemma ZeroDelay(h: seq<Short>, x: Short)
    ensures Window(h, 0) == []
    ensures Push(Window(h, 0), 0, x) == Tap([], Some(x))
  {
    PushWindow(h, 0, x);
  }

  lemma ColumnStep(data: seq<Byte>, ch: nat, frames: nat)
    requires ch < 6 && 12 * (frames + 1) <= |data|
    ensures Column(data, ch, frames + 1) == Column(data, ch, frames) + [FrameSamples(data, frames)[ch]]
  {
  }

  /** One frame pushed onto the windows of some histories leaves the windows of the extended histories. */
  lemma WindowStep(hs: seq<seq<Short>>, delays: seq<nat>, data: seq<Byte>, f: nat)
    requires |hs| == |delays| == 6 && 12 * (f + 1) <= |data|
    ensures MixChannels(Windows(Extend(hs, data, f), delays), delays, FrameSamples(data, f), 6).lines
            == Windows(Extend(hs, data, f + 1), delays)
  {
    var before := Extend(hs, data, f);
    var after := Extend(hs, data, f + 1);
    var xs := FrameSamples(data, f);
    var m := MixChannels(Windows(before, delays), delays, xs, 6);
    forall ch | 0 <= ch < 6
      ensures m.lines[ch] == Windows(after, delays)[ch]
    {
      PushWindow(before[ch], delays[ch], xs[ch]);
      ExtendStep(hs, data, f, ch);
    }
  }

  lemma ExtendStep(hs: seq<seq<Short>>, data: seq<Byte>, f: nat, ch: nat)
    requires |hs| == 6 && ch < 6 && 12 * (f + 1) <= |data|
    ensures Extend(hs, data, f + 1)[ch] == Extend(hs, data, f)[ch] + [FrameSamples(data, f)[ch]]
  {
    ColumnStep(data, ch, f);
  }

  lemma ExtendNone(hs: seq<seq<Short>>, data: seq<Byte>)
    requires |hs| == 6
    ensures Extend(hs, data, 0) == hs
  {
    forall ch | 0 <= ch < 6
      ensures Extend(hs, data, 0)[ch] == hs[ch]
    {
      assert Column(data, ch, 0) == [];
    }
  }

  /**
   * Delay lines that are the windows of some histories stay the windows of
   * those histories extended with every processed frame.
   */
  lemma {:induction false} RunWindow(hs: seq<seq<Short>>, delays: seq<nat>, data: seq<Byte>, frames: nat)
    requires |hs| == |delays| == 6 && 12 * frames <= |data|
    ensures Run(Windows(hs, delays), delays, data, frames).lines == Windows(Extend(hs, data, frames), delays)
  {
    if frames > 0 {
      RunWindow(hs, delays, data, frames - 1);
      WindowStep(hs, delays, data, frames - 1);
    } else {
      ExtendNone(hs, data);
    }
  }

  /** Every delay line is at most as long as its channel's delay. */
  lemma WindowsBounded(hs: seq<seq<Short>>, delays: seq<nat>)
    requires |hs| == |delays| == 6
    ensures forall ch :: 0 <= ch < 6 ==> |Windows(hs, delays)[ch]| <= delays[ch]
  {
  }

  /** The lines of a fresh processor are the windows of empty histories. */
  lemma NoLinesWindows(delays: seq<nat>)
    requires |delays| == 6
    ensures Windows(NoLines, delays) == NoLines
  {
  }

  /**
   * What each channel releases in frame `f` when the run began with empty
   * lines: its own sample from `delays[ch]` frames earlier, once that many
   * frames have gone by, and nothing before.
   */
  function Ready(data: seq<Byte>, delays: seq<nat>, f: nat): (r: seq<Option<Short>>)
    requires |delays| == 6 && 12 * (f + 1) <= |data|
    ensures |r| == 6
  {
    seq(6, ch requires 0 <= ch < 6 => if f >= delays[ch] then Some(SampleAt(data, f - delays[ch], ch)) else None)
  }

  /** Later frames do not change an output already produced. */
  lemma {:induction false} RunPrefix(lines: seq<seq<Short>>, delays: seq<nat>, data: seq<Byte>, frames: nat, f: nat)
    requires |lines| == |delays| == 6 && 12 * frames <= |data| && f < frames
    ensures Run(lines, delays, data, frames).outs[f] == Run(lines, delays, data, f + 1).outs[f]
    decreases frames
  {
    if frames > f + 1 {
      var p := Run(lines, delays, data, frames - 1);
      var q := Run(lines, delays, data, frames);
      var m := MixChannels(p.lines, delays, FrameSamples(data, frames - 1), 6);
      RunStep(lines, delays, data, frames - 1, m);
      assert q.outs == p.outs + [FrameOutput(m.sum, m.count)];
      assert q.outs[f] == p.outs[f];
      RunPrefix(lines, delays, data, frames - 1, f);
      assert q.outs[f] == Run(lines, delays, data, f + 1).outs[f];
    } else {
      assert frames == f + 1;
    }
  }

  /** A channel whose history is its first `f` samples releases, in frame `f`, the sample from `d` frames earlier. */
  lemma ReadyChannel(data: seq<Byte>, ch: nat, f: nat, d: nat)
    requires ch < 6 && 12 * (f + 1) <= |data|
    ensures Push(Window(Column(data, ch, f), d), d, SampleAt(data, f, ch)).delayed
            == if f >= d then Some(SampleAt(data, f - d, ch)) else None
  {
    var h := Column(data, ch, f);
    var x := SampleAt(data, f, ch);
    PushWindow(h, d, x);
    if f >= d && d > 0 {
      assert (h + [x])[f - d] == h[f - d];
    }
  }

  /** Started from empty histories, a channel's history is its column. */
  lemma ExtendEmpty(data: seq<Byte>, f: nat, ch: nat)
    requires ch < 6 && 12 * f <= |data|
    ensures Extend(NoLines, data, f)[ch] == Column(data, ch, f)
  {
    assert NoLines[ch] == [];
    assert [] + Column(data, ch, f) == Column(data, ch, f);
  }

  /** From empty lines, frame `f` releases exactly `Ready(data, delays, f)`. */
  lemma FreshReleases(delays: seq<nat>, data: seq<Byte>, f: nat)
    requires |delays| == 6 && 12 * (f + 1) <= |data|
    ensures Released(Run(NoLines, delays, data, f).lines, delays, FrameSamples(data, f), 6) == Ready(data, delays, f)
  {
    NoLinesWindows(delays);
    RunWindow(NoLines, delays, data, f);
    var lines := Run(NoLines, delays, data, f).lines;
    var hs := Extend(NoLines, data, f);
    assert lines == Windows(hs, delays);
    var xs := FrameSamples(data, f);
    var rel := Released(lines, delays, xs, 6);
    forall ch | 0 <= ch < 6
      ensures rel[ch] == Ready(data, delays, f)[ch]
    {
      ExtendEmpty(data, f, ch);
      assert lines[ch] == Window(Column(data, ch, f), delays[ch]);
      ReadyChannel(data, ch, f, delays[ch]);
    }
  }

  /**
   * The beamformer's output in closed form: from empty delay lines, output
   * sample `f` is 0 while no channel's delay has elapsed, and otherwise the
   * truncated average of the samples those channels took `delays[ch]`
   * frames earlier.
   */
  lemma FreshRunOutput(delays: seq<nat>, data: seq<Byte>, frames: nat, f: nat)
    requires |delays| == 6 && 12 * frames <= |data| && f < frames
    ensures var r := Ready(data, delays, f);
            Run(NoLines, delays, data, frames).outs[f] == if CountOf(r) == 0 then 0 else TruncDiv(SumOf(r), CountOf(r))
  {
    RunPrefix(NoLines, delays, data, frames, f);
    var p := Run(NoLines, delays, data, f);
    var xs := FrameSamples(data, f);
    MixReleases(p.lines, delays, xs, 6);
    FreshReleases(delays, data, f);
    var m := MixChannels(p.lines, delays, xs, 6);
    assert Run(NoLines, delays, data, f + 1).outs[f] == FrameOutput(m.sum, m.count);
  }

  predicate Zeros(s: seq<Short>)
  {
    forall i :: 0 <= i < |s| ==> s[i] == 0
  }

  /** Silent channels pushed onto silent lines release nothing but silence. */
  lemma {:induction false} MixSilence(lines: seq<seq<Short>>, delays: seq<nat>, xs: seq<Short>, n: nat)
    requires |delays| == |lines| == |xs| && n <= |lines|
    requires Silent(lines) && Zeros(xs)
    ensures MixChannels(lines, delays, xs, n).sum == 0
    ensures Silent(MixChannels(lines, delays, xs, n).lines)
  {
    if n > 0 {
      MixSilence(lines, delays, xs, n - 1);
      var t := Push(lines[n - 1], delays[n - 1], xs[n - 1]);
      assert Zeros(lines[n - 1] + [xs[n - 1]]);
    }
  }

  lemma FrameSilence(data: seq<Byte>, f: nat)
    requires 12 * (f + 1) <= |data|
    requires forall i :: 0 <= i < |data| ==> data[i] == 0
    ensures Zeros(FrameSamples(data, f))
  {
    forall c | 0 <= c < 6
      ensures FrameSamples(data, f)[c] == 0
    {
      var o := SampleOffset(f, c);
      assert data[o] == 0 && data[o + 1] == 0;
    }
  }

  /** Every delay line holds only zeros. */
  predicate Silent(lines: seq<seq<Short>>)
  {
    forall ch :: 0 <= ch < |lines| ==> Zeros(lines[ch])
  }

  /** A silent frame pushed onto silent lines outputs 0 and leaves the lines silent. */
  lemma SilenceStep(lines: seq<seq<Short>>, delays: seq<nat>, data: seq<Byte>, f: nat)
    requires |lines| == |delays| == 6 && 12 * (f + 1) <= |data|
    requires Silent(lines)
    requires forall i :: 0 <= i < |data| ==> data[i] == 0
    ensures Silent(MixChannels(lines, delays, FrameSamples(data, f), 6).lines)
    ensures FrameOutput(MixChannels(lines, delays, FrameSamples(data, f), 6).sum,
                        MixChannels(lines, delays, FrameSamples(data, f), 6).count) == 0
  {
    FrameSilence(data, f);
    MixSilence(lines, delays, FrameSamples(data, f), 6);
  }

  /** All-zero input processed from silent (for instance empty) lines gives all-zero output. */
  lemma {:induction false} RunSilence(lines: seq<seq<Short>>, delays: seq<nat>, data: seq<Byte>, frames: nat)
    requires |lines| == |delays| == 6 && 12 * frames <= |data|
    requires Silent(lines)
    requires forall i :: 0 <= i < |data| ==> data[i] == 0
    ensures Zeros(Run(lines, delays, data, frames).outs)
    ensures Silent(Run(lines, delays, data, frames).lines)
  {
    if frames > 0 {
      RunSilence(lines, delays, data, frames - 1);
      var p := Run(lines, delays, data, frames - 1);
      SilenceStep(p.lines, delays, data, frames - 1);
      assert Run(lines, delays, data, frames).outs == p.outs + [0];
    }
  }

  class BeamformingProcessor {
    /** Per-channel delay in samples; the source derives it from the microphone geometry. */
    const delaySamples: seq<nat>
    /** The six FIFO delay lines. */
    var delayBuffers: seq<seq<Short>>
    /** Everything pushed onto each channel since construction or the last reset. */
    ghost var history: seq<seq<Short>>

    ghost predicate Valid()
      reads this
    {
      |delaySamples| == 6 && |history| == 6 && delayBuffers == Windows(history, delaySamples)
    }

    constructor (delays: seq<nat>)
      requires |delays| == NumChannels
      ensures Valid() && delaySamples == delays
      ensures delayBuffers == NoLines && history == NoLines
    {
      delaySamples := delays;
      delayBuffers := NoLines;
      history := NoLines;
      NoLinesWindows(delays);
    }

    /** `reset`: clear every delay line; the delay table is a constant. */
    method Reset()
      requires Valid()
      modifies this
      ensures Valid() && delayBuffers == NoLines && history == NoLines
    {
      for ch := 0 to NumChannels
        invariant |delayBuffers| == 6
        invariant forall c :: 0 <= c < ch ==> delayBuffers[c] == []
      {
        delayBuffers := delayBuffers[ch := []];
      }
      history := NoLines;
      NoLinesWindows(delaySamples);
    }

    /**
     * `processMultiChannel`: an input that is not a whole number of frames
     * comes back unchanged with the lines untouched; otherwise the output is
     * one little-endian mono sample per frame, as `Run` computes it, and the
     * lines advance with it.
     */
    method ProcessMultiChannel(data: seq<Byte>) returns (out: seq<Byte>)
      requires Valid()
      modifies this
      ensures Valid()
      ensures |data| % FrameBytes != 0 ==> out == data && delayBuffers == old(delayBuffers) && history == old(history)
      ensures |data| % FrameBytes == 0 ==>
                var r := Run(old(delayBuffers), delaySamples, data, |data| / FrameBytes);
                out == EncodeSamples(r.outs) && delayBuffers == r.lines &&
                history == Extend(old(history), data, |data| / FrameBytes)
      ensures |data| % FrameBytes == 0 ==> |out| == |data| / 6
      ensures forall ch :: 0 <= ch < NumChannels ==> |delayBuffers[ch]| <= delaySamples[ch]
    {
      if |data| % (NumChannels * 2) != 0 {
        WindowsBounded(history, delaySamples);
        return data;
      }
      var numFrames := |data| / (NumChannels * 2);
      assert 12 * numFrames <= |data|;
      var channels := Deinterleave(data, numFrames);
      var outputData := DelayAndSumFrames(channels, data, numFrames);
      out := outputData[..];
      RunWindow(old(history), delaySamples, data, numFrames);
      history := Extend(old(history), data, numFrames);
      WindowsBounded(history, delaySamples);
    }

    /**
     * The frame loop of `processMultiChannel`: one mono sample per frame,
     * written little-endian, with the lines advancing frame by frame.
     */
    method DelayAndSumFrames(channels: array2<Short>, ghost data: seq<Byte>, numFrames: nat) returns (outputData: array<Byte>)
      requires |delayBuffers| == |delaySamples| == 6 && 12 * numFrames <= |data|
      requires Deinterleaved(channels, data) && channels.Length1 == numFrames
      modifies this`delayBuffers
      ensures fresh(outputData)
      ensures var r := Run(old(delayBuffers), delaySamples, data, numFrames);
              outputData[..] == EncodeSamples(r.outs) && delayBuffers == r.lines
    {
      outputData := new Byte[numFrames * 2];
      ghost var start := delayBuffers;
      ghost var outs: seq<Short> := [];
      for frame := 0 to numFrames
        modifies this`delayBuffers, outputData
        invariant |outs| == frame && |delayBuffers| == 6
        invariant Run(start, delaySamples, data, frame) == Beamformed(delayBuffers, outs)
        invariant outputData[..2 * frame] == EncodeSamples(outs)
      {
        var output := ProcessFrame(channels, frame, data, outputData, start, outs);
        outs := outs + [output];
      }
      assert outputData[..] == outputData[..2 * numFrames];
    }

    /**
     * One iteration of the frame loop: delay and sum, average, and write the
     * sample little-endian at `2 frame`; after it, the lines and the bytes
     * written are those of `Run` over one more frame.
     */
    method ProcessFrame(channels: array2<Short>, frame: nat, ghost data: seq<Byte>, outputData: array<Byte>,
                        ghost start: seq<seq<Short>>, ghost outs: seq<Short>) returns (output: Short)
      requires Deinterleaved(channels, data) && frame < channels.Length1 && 2 * frame + 1 < outputData.Length
      requires |start| == |delaySamples| == 6 && Run(start, delaySamples, data, frame) == Beamformed(delayBuffers, outs)
      requires outputData[..2 * frame] == EncodeSamples(outs)
      modifies this`delayBuffers, outputData
      ensures Run(start, delaySamples, data, frame + 1) == Beamformed(delayBuffers, outs + [output])
      ensures outputData[..2 * frame + 2] == EncodeSamples(outs + [output])
    {
      ghost var before := outputData[..];
      ghost var lines := delayBuffers;
      var sum, count := DelayAndSum(channels, frame, FrameSamples(data, frame));
      output := if count > 0 then Clip16(TruncDiv(sum, count)) else 0;
      outputData[frame * 2] := EncodeLo(output);
      outputData[frame * 2 + 1] := EncodeHi(output);
      FrameStep(start, delaySamples, data, frame, lines, outs, before, outputData[..], output);
    }

    /**
     * The inner channel loop of `processMultiChannel` for one frame: push
     * each channel's sample onto its line, and sum and count the samples
     * the lines release.
     */
    method DelayAndSum(channels: array2<Short>, frame: nat, ghost xs: seq<Short>) returns (sum: int, count: nat)
      requires |delayBuffers| == |delaySamples| == |xs| == 6
      requires channels.Length0 == 6 && frame < channels.Length1
      requires forall c :: 0 <= c < 6 ==> channels[c, frame] == xs[c]
      modifies this`delayBuffers
      ensures Mix(delayBuffers, sum, count) == MixChannels(old(delayBuffers), delaySamples, xs, 6)
    {
      sum := 0;
      count := 0;
      for ch := 0 to NumChannels
        invariant |delayBuffers| == 6
        invariant MixChannels(old(delayBuffers), delaySamples, xs, ch) == Mix(delayBuffers, sum, count)
      {
        delayBuffers := delayBuffers[ch := delayBuffers[ch] + [channels[ch, frame]]];
        if |delayBuffers[ch]| > delaySamples[ch] {
          var delayedSample := delayBuffers[ch][0];
          delayBuffers := delayBuffers[ch := delayBuffers[ch][1..]];
          sum := sum + delayedSample;
          count := count + 1;
        }
      }
    }
  }

  /** One turn of the frame loop: the lines and outputs are `Run`'s for one more frame, and the bytes written encode them. */
  lemma FrameStep(start: seq<seq<Short>>, delays: seq<nat>, data: seq<Byte>, frame: nat, lines: seq<seq<Short>>,
                  outs: seq<Short>, before: seq<Byte>, after: seq<Byte>, output: Short)
    requires |start| == |delays| == 6 && 12 * (frame + 1) <= |data|
    requires Run(start, delays, data, frame) == Beamformed(lines, outs)
    requires 2 * frame + 1 < |before| && before[..2 * frame] == EncodeSamples(outs)
    requires var m := MixChannels(lines, delays, FrameSamples(data, frame), 6);
             output == FrameOutput(m.sum, m.count)
    requires after == before[2 * frame := EncodeLo(output)][2 * frame + 1 := EncodeHi(output)]
    ensures Run(start, delays, data, frame + 1)
            == Beamformed(MixChannels(lines, delays, FrameSamples(data, frame), 6).lines, outs + [output])
    ensures after[..2 * frame + 2] == EncodeSamples(outs + [output])
  {
    RunStep(start, delays, data, frame, MixChannels(lines, delays, FrameSamples(data, frame), 6));
    WriteSample(before, after, frame, outs, output);
  }

  /** Writing the next sample's two bytes after the encoded prefix extends the prefix with its encoding. */
  lemma WriteSample(before: seq<Byte>, after: seq<Byte>, frame: nat, outs: seq<Short>, output: Short)
    requires 2 * frame + 1 < |before| && before[..2 * frame] == EncodeSamples(outs)
    requires after == before[2 * frame := EncodeLo(output)][2 * frame + 1 := EncodeHi(output)]
    ensures after[..2 * frame + 2] == EncodeSamples(outs + [output])
  {
    EncodeSnoc(outs, output);
    assert after[..2 * frame + 2] == before[..2 * frame] + [EncodeLo(output), EncodeHi(output)];
  }

  /** Encoding one more sample appends its two bytes. */
  lemma EncodeSnoc(ss: seq<Short>, s: Short)
    ensures EncodeSamples(ss + [s]) == EncodeSamples(ss) + [EncodeLo(s), EncodeHi(s)]
  {
    var l := EncodeSamples(ss + [s]);
    var r := EncodeSamples(ss) + [EncodeLo(s), EncodeHi(s)];
    forall j | 0 <= j < |l|
      ensures l[j] == r[j]
    {
      if j < 2 * |ss| {
        assert (ss + [s])[j / 2] == ss[j / 2];
      }
    }
  }

  /** Row `c` of `channels` holds channel `c` of every frame of `data`. */
  ghost predicate Deinterleaved(channels: array2<Short>, data: seq<Byte>)
    reads channels
  {
    channels.Length0 == 6 && 12 * channels.Length1 <= |data| &&
    forall f, c :: 0 <= f < channels.Length1 && 0 <= c < 6 ==> channels[c, f] == SampleAt(data, f, c)
  }

  /** The deinterleaving loop of `processMultiChannel`: channel `c` of frame `f` lands at `[c, f]`. */
  method Deinterleave(data: seq<Byte>, numFrames: nat) returns (channels: array2<Short>)
    requires 12 * numFrames <= |data|
    ensures fresh(channels) && channels.Length1 == numFrames && Deinterleaved(channels, data)
  {
    channels := new Short[NumChannels, numFrames];
    for frame := 0 to numFrames
      invariant forall f, c :: 0 <= f < frame && 0 <= c < 6 ==> channels[c, f] == SampleAt(data, f, c)
    {
      for ch := 0 to NumChannels
        invariant forall f, c :: 0 <= f < frame && 0 <= c < 6 ==> channels[c, f] == SampleAt(data, f, c)
        invariant forall c :: 0 <= c < ch ==> channels[c, frame] == SampleAt(data, frame, c)
      {
        var idx := (frame * NumChannels + ch) * 2;
        channels[ch, frame] := DecodeSample(data[idx], data[idx + 1]);
      }
    }
  }

  /** Processing after `reset` is processing on a fresh processor with the same delay table. */
  method ResetMatchesFresh(p: BeamformingProcessor, data: seq<Byte>) returns (reused: seq<Byte>, renewed: seq<Byte>)
    requires p.Valid()
    modifies p
    ensures reused == renewed
  {
    p.Reset();
    reused := p.ProcessMultiChannel(data);
    var q := new BeamformingProcessor(p.delaySamples);
    renewed := q.ProcessMultiChannel(data);
  }
}
