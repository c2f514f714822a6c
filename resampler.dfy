/**
 * `AudioResampler`: 16-bit little-endian mono PCM, resampled by decimation
 * (48 kHz to 16 kHz) or by linear interpolation. The interpolating
 * resampler is modelled for integer ratios `sourceRate / targetRate`, where
 * every source position is a whole sample; its arithmetic uses exact reals.
 */
module AudioResampler {
  import opened Pcm
  import opened Wrappers

  /** `IllegalArgumentException`, the only failure either function reports. */
  datatype ResampleError = IllegalArgument(message: string)

  const OddLengthMessage := "Input size must be even for 16-bit PCM"

  /** `bytesToShort(bytes, offset)`: the little-endian sample at `offset`. */
  function BytesToShort(bytes: seq<Byte>, offset: nat): (s: Short)
    requires offset + 1 < |bytes|
  {
    DecodeSample(bytes[offset], bytes[offset + 1])
  }

  /** `Double.roundToInt()` on a non-negative value: round half up. */
  function RoundToInt(x: real): (n: int)
  {
    (x + 0.5).Floor
  }

  /**
   * `downsample48to16`: keep every third sample. The output holds
   * `(n / 3)` samples for `n` input samples (a floor, not a rounding), and
   * output sample `i` is input sample `3 i`, byte for byte.
   */
  method Downsample48to16(input: seq<Byte>) returns (r: Result<seq<Byte>, ResampleError>)
    ensures r.Failure? <==> |input| % 2 != 0
    ensures r.Failure? ==> r.error == IllegalArgument(OddLengthMessage)
    ensures r.Success? ==> |r.value| == 2 * ((|input| / 2) / 3)
    ensures r.Success? ==> forall i :: 0 <= i < |r.value| / 2 ==>
              r.value[2 * i] == input[6 * i] && r.value[2 * i + 1] == input[6 * i + 1]
  {
    if |input| % 2 != 0 {
      return Failure(IllegalArgument(OddLengthMessage));
    }
    var inputSamples := |input| / 2;
    var outputSamples := inputSamples / 3;
    var output := new Byte[outputSamples * 2];
    for i := 0 to outputSamples
      invariant forall j :: 0 <= j < i ==> output[2 * j] == input[6 * j] && output[2 * j + 1] == input[6 * j + 1]
    {
      var inputIdx := i * 3;
      if inputIdx < inputSamples {
        var byteIdx := inputIdx * 2;
        output[i * 2] := input[byteIdx];
        output[i * 2 + 1] := input[byteIdx + 1];
      }
    }
    return Success(output[..]);
  }

  /**
   * `downsample(input, sourceRate, targetRate)` for an integer ratio
   * `k = sourceRate / targetRate`: the output holds `n / k` samples rounded
   * half up, output sample `i` is input sample `k i` byte for byte (the
   * interpolation fraction is always zero), and equal rates give the input back.
   */
  method Downsample(input: seq<Byte>, sourceRate: int, targetRate: int) returns (r: Result<seq<Byte>, ResampleError>)
    requires 0 < targetRate <= sourceRate && sourceRate % targetRate == 0
    ensures r.Failure? <==> |input| % 2 != 0
    ensures r.Failure? ==> r.error == IllegalArgument(OddLengthMessage)
    ensures r.Success? ==> |r.value| == 2 * ((|input| + sourceRate / targetRate) / (2 * (sourceRate / targetRate)))
    ensures r.Success? ==> forall i :: 0 <= i < |r.value| / 2 ==>
              (sourceRate / targetRate) * i < |input| / 2 &&
              r.value[2 * i] == input[2 * ((sourceRate / targetRate) * i)] &&
              r.value[2 * i + 1] == input[2 * ((sourceRate / targetRate) * i) + 1]
    ensures r.Success? && sourceRate == targetRate ==> r.value == input
  {
    if |input| % 2 != 0 {
      return Failure(IllegalArgument(OddLengthMessage));
    }
    ghost var k := sourceRate / targetRate;
    var ratio: real := sourceRate as real / targetRate as real;
    RatioIsWhole(sourceRate, targetRate);
    var inputSamples := |input| / 2;
    var outputSamples := RoundToInt(inputSamples as real / ratio);
    OutputCount(inputSamples, k);
    assert outputSamples == (|input| + k) / (2 * k) >= 0;
    var output := Interpolate(input, inputSamples, outputSamples, ratio, k);
    r := Success(output);
    assert |r.value| / 2 == outputSamples;
    if sourceRate == targetRate {
      UnitRatio(input, r.value, k);
    }
  }

  /** The output loop of `downsample`: `outputSamples` samples, sample `i` taken from input sample `k i`. */
  method Interpolate(input: seq<Byte>, inputSamples: nat, outputSamples: nat, ratio: real, ghost k: int)
    returns (output: seq<Byte>)
    requires |input| == 2 * inputSamples
    requires k >= 1 && ratio == k as real && outputSamples == (2 * inputSamples + k) / (2 * k)
    ensures |output| == 2 * outputSamples
    ensures forall j :: 0 <= j < outputSamples ==>
              k * j < inputSamples && output[2 * j] == input[2 * (k * j)] && output[2 * j + 1] == input[2 * (k * j) + 1]
  {
    var buffer := new Byte[outputSamples * 2];
    for i := 0 to outputSamples
      invariant forall j :: 0 <= j < i ==>
                  k * j < inputSamples && buffer[2 * j] == input[2 * (k * j)] && buffer[2 * j + 1] == input[2 * (k * j) + 1]
    {
      SourceInRange(i, k, inputSamples);
      var written, lo, hi := OutputSample(input, inputSamples, i, ratio, k);
      if written {
        buffer[i * 2] := lo;
        buffer[i * 2 + 1] := hi;
      }
    }
    output := buffer[..];
  }

  /**
   * One iteration of the `downsample` loop: source position `i * ratio`,
   * then either the interpolated sample (when a next sample exists) or the
   * last sample verbatim. For a whole ratio `k` both give input sample `k i`.
   */
  method OutputSample(input: seq<Byte>, inputSamples: nat, i: nat, ratio: real, ghost k: int)
    returns (written: bool, lo: Byte, hi: Byte)
    requires |input| == 2 * inputSamples
    requires k >= 1 && ratio == k as real && k * i < inputSamples
    ensures written && lo == input[2 * (k * i)] && hi == input[2 * (k * i) + 1]
  {
    var srcPos: real := i as real * ratio;
    var srcIdx := srcPos.Floor;
    WholePosition(i, k, ratio);
    if srcIdx < inputSamples - 1 {
      var fraction := srcPos - srcIdx as real;
      var sample1 := BytesToShort(input, srcIdx * 2);
      var sample2 := BytesToShort(input, (srcIdx + 1) * 2);
      var interpolated := RoundToInt(sample1 as real * (1.0 - fraction) + sample2 as real * fraction);
      WholeInterpolation(sample1, sample2, fraction);
      var clipped := Clip16(interpolated);
      EncodeDecode(input[srcIdx * 2], input[srcIdx * 2 + 1]);
      return true, EncodeLo(clipped), EncodeHi(clipped);
    } else if srcIdx < inputSamples {
      return true, input[srcIdx * 2], input[srcIdx * 2 + 1];
    } else {
      assert false;
      written := false;
    }
  }

  /** With ratio 1, output sample `i` being input sample `i` makes the output the input. */
  lemma UnitRatio(input: seq<Byte>, output: seq<Byte>, k: int)
    requires k == 1 && |output| == 2 * ((|input| + k) / (2 * k)) && |input| % 2 == 0
    requires forall i :: 0 <= i < |output| / 2 ==>
               k * i < |input| / 2 && output[2 * i] == input[2 * (k * i)] && output[2 * i + 1] == input[2 * (k * i) + 1]
    ensures output == input
  {
    assert |output| == |input|;
    forall j | 0 <= j < |input|
      ensures output[j] == input[j]
    {
      var h := j / 2;
      assert k * h == h;
      assert j == 2 * h || j == 2 * h + 1;
    }
  }

  /** At a whole source position the interpolation returns the first sample unchanged. */
  lemma WholeInterpolation(sample1: Short, sample2: Short, fraction: real)
    requires fraction == 0.0
    ensures RoundToInt(sample1 as real * (1.0 - fraction) + sample2 as real * fraction) == sample1
  {
    assert sample1 as real * (1.0 - fraction) + sample2 as real * fraction == sample1 as real;
    assert (sample1 as real + 0.5).Floor == sample1;
  }

  /** An integer ratio of rates is exact as a real. */
  lemma RatioIsWhole(sourceRate: int, targetRate: int)
    requires 0 < targetRate <= sourceRate && sourceRate % targetRate == 0
    ensures sourceRate / targetRate >= 1
    ensures sourceRate as real / targetRate as real == (sourceRate / targetRate) as real
  {
    var k := sourceRate / targetRate;
    assert sourceRate == k * targetRate;
    assert sourceRate as real == k as real * targetRate as real;
  }

  /** `(n / k).roundToInt()` for whole `n` and `k` is `(2 n + k) / (2 k)`. */
  lemma OutputCount(n: nat, k: int)
    requires k >= 1
    ensures RoundToInt(n as real / k as real) == (2 * n + k) / (2 * k)
  {
    var x := n as real / k as real;
    var y := (2 * n + k) as real / (2 * k) as real;
    assert x * k as real == n as real;
    assert y * (2 * k) as real == (2 * n + k) as real;
    assert (x + 0.5) * (2 * k) as real == (2 * n + k) as real;
    MulCancel(y, x + 0.5, (2 * k) as real);
    FloorOfQuotient(2 * n + k, 2 * k);
  }

  /** Real division of whole numbers, rounded down, is integer division. */
  lemma FloorOfQuotient(a: int, b: int)
    requires b > 0
    ensures (a as real / b as real).Floor == a / b
  {
    var x := a as real / b as real;
    var q := a / b;
    assert x * b as real == a as real;
    assert q * b <= a < (q + 1) * b;
    assert (q * b) as real == q as real * b as real;
    assert ((q + 1) * b) as real == (q + 1) as real * b as real;
    MulLeq(q as real, x, b as real);
    MulLt(x, (q + 1) as real, b as real);
  }

  lemma MulLeq(u: real, v: real, c: real)
    requires c > 0.0 && u * c <= v * c
    ensures u <= v
  {
  }

  lemma MulLt(u: real, v: real, c: real)
    requires c > 0.0 && u * c < v * c
    ensures u < v
  {
  }

  lemma MulCancel(u: real, v: real, c: real)
    requires c > 0.0 && u * c == v * c
    ensures u == v
  {
  }

  /** Output position `i` of an integer ratio `k` falls on source sample `k i`. */
  lemma WholePosition(i: nat, k: int, ratio: real)
    requires k >= 1 && ratio == k as real
    ensures (i as real * ratio).Floor == k * i
    ensures i as real * ratio - (k * i) as real == 0.0
  {
    assert i as real * k as real == (i * k) as real;
  }

  /** Every output position lies inside the input: the verbatim branch never falls off the end. */
  lemma SourceInRange(i: nat, k: int, n: nat)
    requires k >= 1 && i < (2 * n + k) / (2 * k)
    ensures k * i < n
  {
    var d := 2 * k;
    var q := (2 * n + k) / d;
    assert q * d + (2 * n + k) % d == 2 * n + k;
    MulMonotone(i + 1, q, d);
    var p := k * i;
    assert (i + 1) * d == 2 * p + d;
  }

  lemma MulMonotone(a: int, b: int, c: nat)
    requires a <= b
    ensures a * c <= b * c
  {
    assert b * c - a * c == (b - a) * c;
  }
}
