/** Resampler.py: the common window all loggers are resampled onto
    (`get_range`) and the linear resampler that maps one logger's channels
    onto a window (`resample`). Times are seconds as reals; `resample` turns
    them into whole nanoseconds with `int()` and writes the result as
    channel-major doubles. */
module Resampler {
  import opened Py
  import opened Packing
  import opened BinData
  import opened Arith

  /** The safety margin taken off the end of the window, in seconds. */
  const MARGIN: real := 0.25
  /** Nanoseconds per second. */
  const NS: real := 1000000000.0
  /** The progress message is printed every `tSamples // 25` samples. */
  const PROGRESS_STEPS: int := 25

  /** The channels of one logger, resampled together: `data[c]` holds
      channel `c`'s `numSamples` values between `startTime` and `stopTime`. */
  datatype DataSet = DataSet(startTime: real, stopTime: real, numSamples: int, numChannels: int,
                             data: seq<seq<real>>)

  // ---------------------------------------------------------------------
  // get_range
  // ---------------------------------------------------------------------

  /** The resample window: start, stop and the number of samples. */
  datatype Window = Window(start: real, stop: real, numSamples: int)

  /** `get_range`: the window starts at the latest logger start plus the
      start trim and ends 0.25 s before the earliest logger stop minus the
      end trim; negative trims count as 0. The sample count is
      `int(duration * freq) + 1`, and the stop is moved to half a sample
      after that many samples. A window of no length is only reported, not
      refused. */
  function GetRange(maxStart: real, minStop: real, freq: real, trimStart: real, trimEnd: real): (r: Result<Window>)
    ensures r.Err? <==> freq == 0.0
    ensures r.Err? ==> r.error == ZeroDivisionError
    ensures r.Ok? ==> r.value.start == maxStart + MaxR(trimStart, 0.0)
    ensures r.Ok? ==> r.value.stop - r.value.start == (r.value.numSamples as real + 0.5) / freq
  {
    var realStart := maxStart + MaxR(trimStart, 0.0);
    var realStop := minStop - MARGIN - MaxR(trimEnd, 0.0);
    var duration := realStop - realStart;
    var numSamples := Trunc(duration * freq) + 1;
    if freq == 0.0 then Err(ZeroDivisionError)
    else Ok(Window(realStart, realStart + (1.0 / freq) * numSamples as real + (1.0 / freq) * 0.5, numSamples))
  }

  /** Negative trims have no effect. */
  lemma GetRangeIgnoresNegativeTrim(maxStart: real, minStop: real, freq: real, trimStart: real, trimEnd: real)
    requires trimStart <= 0.0 && trimEnd <= 0.0
    ensures GetRange(maxStart, minStop, freq, trimStart, trimEnd) == GetRange(maxStart, minStop, freq, 0.0, 0.0)
  {
  }

  /** A window of non-negative length at a positive rate has at least one
      sample, and as many as whole sample periods fit into it, plus one. */
  lemma GetRangeSampleCount(maxStart: real, minStop: real, freq: real, trimStart: real, trimEnd: real)
    requires freq > 0.0
    requires minStop - MARGIN - MaxR(trimEnd, 0.0) - (maxStart + MaxR(trimStart, 0.0)) >= 0.0
    ensures var r := GetRange(maxStart, minStop, freq, trimStart, trimEnd);
      var duration := minStop - MARGIN - MaxR(trimEnd, 0.0) - r.value.start;
      && r.Ok? && r.value.numSamples >= 1
      && (r.value.numSamples - 1) as real <= duration * freq < r.value.numSamples as real
  {
    var duration := minStop - MARGIN - MaxR(trimEnd, 0.0) - (maxStart + MaxR(trimStart, 0.0));
    ProductSign(duration, freq);
  }

  // ---------------------------------------------------------------------
  // resample: the set-up
  // ---------------------------------------------------------------------

  /** The integer-nanosecond quantities `resample` works with. */
  datatype Plan = Plan(oStart: int, oDt: int, tStart: int, tSamples: int, tDt: int)

  /** `int(t * 1e9)`: a time in whole nanoseconds. */
  function Nanos(t: real): (r: int)
    ensures t * NS - 1.0 < r as real < t * NS + 1.0
    ensures t >= 0.0 ==> 0 <= r && r as real <= t * NS
    ensures t <= 0.0 ==> r <= 0 && t * NS <= r as real
  {
    Trunc(t * NS)
  }

  /** `int((1.0 / freq) * 1e9)`: a sample period in whole nanoseconds. */
  function Period(freq: real): (r: int)
    requires freq != 0.0
    ensures freq > 0.0 ==> 0 <= r && r as real <= NS / freq < r as real + 1.0
    ensures freq > NS ==> r == 0
  {
    assert (1.0 / freq) * NS == NS / freq;
    Trunc((1.0 / freq) * NS)
  }

  /** `int((tStopTime - tStartTime) * tFreq / 1e9)`: the target sample count. */
  function TargetSamples(tStartTime: int, tStopTime: int, freq: real): (r: int)
    ensures tStartTime <= tStopTime && freq >= 0.0 ==>
      && 0 <= r
      && r as real <= (tStopTime - tStartTime) as real * freq / NS < r as real + 1.0
    ensures tStartTime == tStopTime ==> r == 0
  {
    Trunc((tStopTime - tStartTime) as real * freq / NS)
  }

  /** The set-up of `resample` (lines 27-42): the source start and sample
      period, the target start, sample count and period, all in whole
      nanoseconds, or the error the set-up raises: ZeroDivisionError for a
      source of no duration or no samples or a target rate of 0,
      ValueError for a negative buffer size. */
  function ResamplePlan(targetStart: real, targetStop: real, targetFreq: real, ds: DataSet): (r: Result<Plan>)
    ensures r.Err? ==> r.error == ZeroDivisionError || r.error == ValueError
    ensures ds.stopTime == ds.startTime || targetFreq == 0.0 ==> r == Err(ZeroDivisionError)
    ensures r.Ok? ==> && r.value.tStart == Nanos(targetStart) && r.value.oStart == Nanos(ds.startTime)
                      && r.value.tSamples == TargetSamples(Nanos(targetStart), Nanos(targetStop), targetFreq)
                      && r.value.tDt == Period(targetFreq)
                      && ds.numChannels * 8 * r.value.tSamples >= 0
  {
    var oStartTime := Nanos(ds.startTime);
    if ds.stopTime - ds.startTime == 0.0 then Err(ZeroDivisionError)
    else
      var oFreq := ds.numSamples as real / (ds.stopTime - ds.startTime);
      if oFreq == 0.0 then Err(ZeroDivisionError)
      else
        var oDt := Period(oFreq);
        var tSamples := TargetSamples(Nanos(targetStart), Nanos(targetStop), targetFreq);
        if targetFreq == 0.0 then Err(ZeroDivisionError)
        else
          var tDt := Period(targetFreq);
          if ds.numChannels * 8 * tSamples < 0 then Err(ValueError)
          else Ok(Plan(oStartTime, oDt, Nanos(targetStart), tSamples, tDt))
  }

  // ---------------------------------------------------------------------
  // resample: one output sample
  // ---------------------------------------------------------------------

  /** `oldSampleNumber`: where target sample `k` falls among the source
      samples, as a fractional index. */
  function SourcePosition(p: Plan, k: int): real
    requires p.oDt != 0
  {
    ((p.tStart + k * p.tDt) - p.oStart) as real / p.oDt as real
  }

  /** `lower`: the source sample at or before the target time (truncated
      toward zero). */
  function Lower(p: Plan, k: int): int
    requires p.oDt != 0
  {
    Trunc(SourcePosition(p, k))
  }

  /** `alpha`: the fraction of the way from `lower` to `lower + 1`. */
  function Alpha(p: Plan, k: int): real
    requires p.oDt != 0
  {
    SourcePosition(p, k) - Lower(p, k) as real
  }

  /** Channel `c` exists and both neighbours of target sample `k` can be
      read from it (Python indexing: negative indices count from the end). */
  predicate Readable(ds: DataSet, p: Plan, k: int, c: int)
  {
    && p.oDt != 0 && 0 <= c < |ds.data|
    && PyIndex(ds.data[c], Lower(p, k)).Ok?
    && PyIndex(ds.data[c], Lower(p, k) + 1).Ok?
  }

  /** `newV = lowerV + alpha * (upperV - lowerV)`. */
  function Interpolated(ds: DataSet, p: Plan, k: int, c: int): (r: real)
    requires Readable(ds, p, k, c)
    ensures var lowerV := PyIndex(ds.data[c], Lower(p, k)).value;
      var upperV := PyIndex(ds.data[c], Lower(p, k) + 1).value;
      && (Alpha(p, k) == 0.0 ==> r == lowerV)
      && (SourcePosition(p, k) >= 0.0 ==> (lowerV <= r <= upperV) || (upperV <= r <= lowerV))
  {
    var lowerV := PyIndex(ds.data[c], Lower(p, k)).value;
    var upperV := PyIndex(ds.data[c], Lower(p, k) + 1).value;
    var v := lowerV + Alpha(p, k) * (upperV - lowerV);
    if SourcePosition(p, k) >= 0.0 then
      AlphaInUnit(p, k);
      ConvexBetween(lowerV, upperV, Alpha(p, k), v);
      v
    else v
  }

  /** Every channel can be read at every target sample. */
  predicate AllReadable(ds: DataSet, p: Plan)
  {
    forall k, c | 0 <= k < p.tSamples && 0 <= c < ds.numChannels :: Readable(ds, p, k, c)
  }

  /** A non-negative position lies between `lower` and `lower + 1`. */
  lemma AlphaInUnit(p: Plan, k: int)
    requires p.oDt != 0 && SourcePosition(p, k) >= 0.0
    ensures Lower(p, k) >= 0 && 0.0 <= Alpha(p, k) < 1.0
  {
  }

  /** A target time that falls exactly on source sample `m` reproduces that
      sample: `lower` is `m` and `alpha` is 0. */
  lemma OnGridExact(ds: DataSet, p: Plan, k: int, c: int, m: nat)
    requires p.oDt != 0 && (p.tStart + k * p.tDt) - p.oStart == m * p.oDt
    requires Readable(ds, p, k, c)
    ensures Lower(p, k) == m && Alpha(p, k) == 0.0
    ensures Interpolated(ds, p, k, c) == ds.data[c][m]
  {
    assert SourcePosition(p, k) == (m * p.oDt) as real / p.oDt as real;
    RealCancel(m, p.oDt);
  }

  lemma RealCancel(m: int, n: int)
    requires n != 0
    ensures (m * n) as real / n as real == m as real
  {
    assert (m * n) as real == m as real * n as real;
  }

  // ---------------------------------------------------------------------
  // resample: the output
  // ---------------------------------------------------------------------

  /** Byte `q` of the output once target samples below `k`, and channels
      below `c` of sample `k`, are written: byte `q % 8` of the double for
      channel `q // 8 // tSamples` at sample `q // 8 % tSamples`, or 0. */
  function OutByte(ds: DataSet, p: Plan, f64: real -> F64Bytes, q: nat, k: int, c: int): byte
  {
    if p.tSamples <= 0 then 0
    else
      var kk := q / 8 % p.tSamples;
      var cc := q / 8 / p.tSamples;
      if (kk < k || (kk == k && cc < c)) && Readable(ds, p, kk, cc)
      then f64(Interpolated(ds, p, kk, cc))[q % 8]
      else 0
  }

  ghost predicate Written(ds: DataSet, p: Plan, f64: real -> F64Bytes, buf: seq<byte>, k: int, c: int)
  {
    forall q | 0 <= q < |buf| :: buf[q] == OutByte(ds, p, f64, q, k, c)
  }

  /** The bytes `resample` returns after a successful set-up: every target
      sample of every channel, channel-major. */
  function Resampled(ds: DataSet, p: Plan, f64: real -> F64Bytes): (r: seq<byte>)
    requires ds.numChannels * 8 * p.tSamples >= 0
    ensures |r| == ds.numChannels * 8 * p.tSamples
  {
    seq(ds.numChannels * 8 * p.tSamples, q requires 0 <= q => OutByte(ds, p, f64, q, p.tSamples, 0))
  }

  /** What `resample` returns: the set-up error, ZeroDivisionError when the
      source period is 0 or when there are 1 to 24 target samples (the
      progress check), IndexError when a channel or a neighbour is missing,
      else the resampled bytes. */
  function ResampleSpec(targetStart: real, targetStop: real, targetFreq: real, ds: DataSet,
                        f64: real -> F64Bytes): (r: Result<seq<byte>>)
    ensures var plan := ResamplePlan(targetStart, targetStop, targetFreq, ds);
      && (plan.Err? ==> r == Err(plan.error))
      && (r.Err? ==> r.error == ZeroDivisionError || r.error == ValueError || r.error == IndexError)
      && (r.Ok? ==> && plan.Ok? && |r.value| == ds.numChannels * 8 * plan.value.tSamples
                    && (plan.value.tSamples > 0 ==> && plan.value.oDt != 0
                                                    && plan.value.tSamples >= PROGRESS_STEPS
                                                    && AllReadable(ds, plan.value)))
  {
    match ResamplePlan(targetStart, targetStop, targetFreq, ds)
    case Err(e) => Err(e)
    case Ok(p) =>
      if p.tSamples > 0 && (p.oDt == 0 || p.tSamples < PROGRESS_STEPS) then Err(ZeroDivisionError)
      else if p.tSamples > 0 && !AllReadable(ds, p) then Err(IndexError)
      else Ok(Resampled(ds, p, f64))
  }

  // ---------------------------------------------------------------------
  // resample: the method
  // ---------------------------------------------------------------------

  /** Writing the double for channel `c` at sample `k` moves the fill on by
      one channel. */
  lemma WriteStep(ds: DataSet, p: Plan, f64: real -> F64Bytes, before: seq<byte>, after: seq<byte>, k: nat, c: nat)
    requires k < p.tSamples && Readable(ds, p, k, c)
    requires |after| == |before| && Written(ds, p, f64, before, k, c)
    requires var start := 8 * (p.tSamples * c + k);
      && start + 8 <= |after|
      && (forall d | 0 <= d < 8 :: after[start + d] == f64(Interpolated(ds, p, k, c))[d])
      && (forall q | 0 <= q < |after| && !(start <= q < start + 8) :: after[q] == before[q])
    ensures Written(ds, p, f64, after, k, c + 1)
  {
    var start := 8 * (p.tSamples * c + k);
    forall q | 0 <= q < |after|
      ensures after[q] == OutByte(ds, p, f64, q, k, c + 1)
    {
      InSlot(p.tSamples, q, c, k);
      if start <= q < start + 8 {
        assert after[start + (q - start)] == f64(Interpolated(ds, p, k, c))[q - start];
      }
    }
  }

  /** After the last channel of sample `k`, sample `k + 1` begins. */
  lemma SampleStep(ds: DataSet, p: Plan, f64: real -> F64Bytes, buf: seq<byte>, k: nat, c: int)
    requires |buf| == ds.numChannels * 8 * p.tSamples && c >= ds.numChannels
    requires Written(ds, p, f64, buf, k, c)
    ensures Written(ds, p, f64, buf, k + 1, 0)
  {
    if p.tSamples > 0 {
      forall q | 0 <= q < |buf|
        ensures buf[q] == OutByte(ds, p, f64, q, k + 1, 0)
      {
        ChannelBelow(p.tSamples, ds.numChannels, q);
      }
    }
  }

  /** `pack('d', newV)` into the slot of channel `c` at sample `k`. */
  method StoreSample(ds: DataSet, p: Plan, f64: real -> F64Bytes, out: array<byte>, k: nat, c: nat,
                     chanOffset: int, start: nat, newV: real)
    requires k < p.tSamples && c < ds.numChannels && out.Length == ds.numChannels * 8 * p.tSamples
    requires Readable(ds, p, k, c) && newV == Interpolated(ds, p, k, c)
    requires chanOffset == p.tSamples * 8 && start == c * chanOffset + k * 8
    requires Written(ds, p, f64, out[..], k, c)
    modifies out
    ensures Written(ds, p, f64, out[..], k, c + 1)
  {
    SlotInBuffer(p.tSamples, ds.numChannels, c, k);
    ChannelOffsetIdentity(p.tSamples, chanOffset, c, k);
    ghost var before := out[..];
    StoreDouble(out, start, f64(newV));
    WriteStep(ds, p, f64, before, out[..], k, c);
  }

  /** `channel * chanOffset + newSample * 8` is the slot of sample
      `newSample` of channel `channel`. */
  lemma ChannelOffsetIdentity(n: int, chanOffset: int, c: int, k: int)
    requires chanOffset == n * 8
    ensures c * chanOffset + k * 8 == 8 * (n * c + k)
  {
  }

  /** One round of the inner loop of `resample`: channel `channel` at
      target sample `k`, or false when the channel or a neighbouring source
      sample is missing (IndexError). */
  method ResampleChannel(ds: DataSet, p: Plan, f64: real -> F64Bytes, out: array<byte>, k: nat,
                         channel: nat, chanOffset: int, lower: int, alpha: real) returns (ok: bool)
    requires k < p.tSamples && p.oDt != 0 && lower == Lower(p, k) && alpha == Alpha(p, k)
    requires channel < ds.numChannels && chanOffset == p.tSamples * 8
    requires out.Length == ds.numChannels * 8 * p.tSamples
    requires Written(ds, p, f64, out[..], k, channel)
    modifies out
    ensures ok <==> Readable(ds, p, k, channel)
    ensures ok ==> Written(ds, p, f64, out[..], k, channel + 1)
  {
    var row := PyIndex(ds.data, channel);
    if row.Err? {
      return false;
    }
    var lowerV := PyIndex(row.value, lower);
    if lowerV.Err? {
      return false;
    }
    var upperV := PyIndex(row.value, lower + 1);
    if upperV.Err? {
      return false;
    }
    var deltaV := upperV.value - lowerV.value;
    var newV := lowerV.value + alpha * deltaV;
    assert row.value == ds.data[channel];
    assert lowerV.value == PyIndex(ds.data[channel], Lower(p, k)).value;
    assert deltaV == PyIndex(ds.data[channel], Lower(p, k) + 1).value - lowerV.value;
    assert newV == Interpolated(ds, p, k, channel);
    StoreSample(ds, p, f64, out, k, channel, chanOffset, channel * chanOffset + k * 8, newV);
    return true;
  }

  /** The inner loop of `resample` for target sample `k`: false when a
      channel or a neighbouring source sample is missing (IndexError). */
  method ResampleOne(ds: DataSet, p: Plan, f64: real -> F64Bytes, out: array<byte>, k: nat,
                     lower: int, alpha: real) returns (ok: bool)
    requires k < p.tSamples && p.oDt != 0 && lower == Lower(p, k) && alpha == Alpha(p, k)
    requires out.Length == ds.numChannels * 8 * p.tSamples
    requires Written(ds, p, f64, out[..], k, 0)
    modifies out
    ensures ok <==> forall c | 0 <= c < ds.numChannels :: Readable(ds, p, k, c)
    ensures ok ==> Written(ds, p, f64, out[..], k + 1, 0)
  {
    var chanOffset := p.tSamples * 8;
    var channel := 0;
    while channel < ds.numChannels
      invariant 0 <= channel && (channel > 0 ==> channel <= ds.numChannels)
      invariant forall c | 0 <= c < channel :: Readable(ds, p, k, c)
      invariant Written(ds, p, f64, out[..], k, channel)
      decreases ds.numChannels - channel
    {
      ok := ResampleChannel(ds, p, f64, out, k, channel, chanOffset, lower, alpha);
      if !ok {
        return false;
      }
      channel := channel + 1;
    }
    SampleStep(ds, p, f64, out[..], k, channel);
    return true;
  }

  /** `resample`: the target samples of every channel of `ds`, as
      channel-major doubles, or the error it raises. */
  method Resample(targetStart: real, targetStop: real, targetFreq: real, ds: DataSet, f64: real -> F64Bytes)
    returns (r: Result<array<byte>>)
    ensures r.Ok? ==> (fresh(r.value)
                       && ResampleSpec(targetStart, targetStop, targetFreq, ds, f64) == Ok(r.value[..]))
    ensures r.Err? ==> ResampleSpec(targetStart, targetStop, targetFreq, ds, f64) == Err(r.error)
  {
    var plan := ResamplePlan(targetStart, targetStop, targetFreq, ds);
    if plan.Err? {
      return Err(plan.error);
    }
    var p := plan.value;
    var resampledLogger := new byte[ds.numChannels * 8 * p.tSamples](_ => 0);
    assert Written(ds, p, f64, resampledLogger[..], 0, 0);
    var newSample := 0;
    while newSample < p.tSamples
      invariant 0 <= newSample && (newSample > 0 ==> newSample <= p.tSamples)
      invariant newSample > 0 ==> p.oDt != 0 && p.tSamples >= PROGRESS_STEPS
      invariant forall k, c | 0 <= k < newSample && 0 <= c < ds.numChannels :: Readable(ds, p, k, c)
      invariant Written(ds, p, f64, resampledLogger[..], newSample, 0)
      decreases p.tSamples - newSample
    {
      var newSampleTime := p.tStart + newSample * p.tDt;
      if p.oDt == 0 {
        return Err(ZeroDivisionError);
      }
      var oldSampleNumber := (newSampleTime - p.oStart) as real / p.oDt as real;
      var lower := Trunc(oldSampleNumber);
      var alpha := oldSampleNumber - lower as real;
      if p.tSamples / PROGRESS_STEPS == 0 {
        return Err(ZeroDivisionError);
      }
      var ok := ResampleOne(ds, p, f64, resampledLogger, newSample, lower, alpha);
      if !ok {
        return Err(IndexError);
      }
      newSample := newSample + 1;
    }
    if p.tSamples > 0 {
      assert newSample == p.tSamples;
    }
    assert resampledLogger[..] == Resampled(ds, p, f64);
    return Ok(resampledLogger);
  }

  // ---------------------------------------------------------------------
  // Properties
  // ---------------------------------------------------------------------

  /** Slot (c, k) of the resampled bytes holds the double for channel `c`
      at target sample `k`. */
  lemma ResampledAt(ds: DataSet, p: Plan, f64: real -> F64Bytes, k: nat, c: nat, d: nat)
    requires ds.numChannels * 8 * p.tSamples >= 0 && k < p.tSamples && c < ds.numChannels && d < 8
    requires Readable(ds, p, k, c)
    ensures c * p.tSamples * 8 + k * 8 + d < |Resampled(ds, p, f64)|
    ensures Resampled(ds, p, f64)[c * p.tSamples * 8 + k * 8 + d] == f64(Interpolated(ds, p, k, c))[d]
  {
    var q := 8 * (p.tSamples * c + k) + d;
    SlotInBuffer(p.tSamples, ds.numChannels, c, k);
    InSlot(p.tSamples, q, c, k);
    assert c * p.tSamples * 8 + k * 8 + d == q;
  }

  /** The output layout: channel `c` at target sample `k` is the double of
      the interpolated value, at bytes `c * tSamples * 8 + k * 8` to `+ 8`. */
  lemma ResampleLayout(targetStart: real, targetStop: real, targetFreq: real, ds: DataSet,
                       f64: real -> F64Bytes, k: nat, c: nat, d: nat)
    requires ResampleSpec(targetStart, targetStop, targetFreq, ds, f64).Ok?
    requires var p := ResamplePlan(targetStart, targetStop, targetFreq, ds).value;
      k < p.tSamples && c < ds.numChannels && d < 8
    ensures var p := ResamplePlan(targetStart, targetStop, targetFreq, ds).value;
      var out := ResampleSpec(targetStart, targetStop, targetFreq, ds, f64).value;
      && |out| == ds.numChannels * 8 * p.tSamples
      && Readable(ds, p, k, c)
      && c * p.tSamples * 8 + k * 8 + d < |out|
      && out[c * p.tSamples * 8 + k * 8 + d] == f64(Interpolated(ds, p, k, c))[d]
  {
    var p := ResamplePlan(targetStart, targetStop, targetFreq, ds).value;
    assert AllReadable(ds, p);
    ResampledAt(ds, p, f64, k, c, d);
  }

  /** `int()` moves a value by less than 1. */
  lemma TruncNear(x: real)
    ensures x - 1.0 < Trunc(x) as real < x + 1.0
  {
  }

  /** A window whose stop lies `(numSamples + 0.5) / freq` after its start
      yields exactly `numSamples` target samples once both ends are cut to
      whole nanoseconds, for any rate up to 250 MHz: the half sample absorbs
      the two truncations. */
  lemma WindowSampleCount(w: Window, freq: real)
    requires 0.0 < freq <= 250000000.0 && w.numSamples >= 0
    requires w.stop - w.start == (w.numSamples as real + 0.5) / freq
    ensures TargetSamples(Nanos(w.start), Nanos(w.stop), freq) == w.numSamples
  {
    TruncNear(w.start * NS);
    TruncNear(w.stop * NS);
    SpanInSamples(w.start, w.stop, w.numSamples as real, freq);
    CountFromSpan(Nanos(w.start), Nanos(w.stop), w.start * NS, w.stop * NS, w.numSamples, freq);
  }

  /** Nanosecond ends within 1 of the exact ends of a span of `n + 0.5`
      samples give `n` samples. */
  lemma CountFromSpan(ta: int, tb: int, a: real, b: real, n: int, freq: real)
    requires 0.0 < freq <= 250000000.0 && n >= 0
    requires a - 1.0 < ta as real < a + 1.0 && b - 1.0 < tb as real < b + 1.0
    requires (b - a) * freq / NS == n as real + 0.5
    ensures TargetSamples(ta, tb, freq) == n
  {
    var e := (tb - ta) as real - (b - a);
    Distribute(b - a, e, freq);
    ErrorBound(e, freq);
    assert n as real < (tb - ta) as real * freq / NS < n as real + 1.0;
  }

  /** A span of `(n + 0.5) / freq` seconds is `n + 0.5` samples. */
  lemma SpanInSamples(start: real, stop: real, n: real, freq: real)
    requires freq != 0.0 && stop - start == (n + 0.5) / freq
    ensures (stop * NS - start * NS) * freq / NS == n + 0.5
  {
    assert stop * NS - start * NS == (stop - start) * NS;
    assert (stop - start) * NS * freq / NS == (stop - start) * freq;
  }

  lemma Distribute(x: real, e: real, freq: real)
    ensures (x + e) * freq / NS == x * freq / NS + e * freq / NS
  {
  }

  /** Two truncations move the sample count by less than half a sample. */
  lemma ErrorBound(e: real, freq: real)
    requires -2.0 < e < 2.0 && 0.0 < freq <= 250000000.0
    ensures -0.5 < e * freq / NS < 0.5
  {
    ProductPositive(e + 2.0, freq);
    ProductPositive(2.0 - e, freq);
    assert -2.0 * freq < e * freq < 2.0 * freq;
  }

  /** Passing `get_range`'s window to `resample` at the same rate gives as
      many target samples as `get_range` counted. */
  lemma GetRangeFeedsResample(maxStart: real, minStop: real, freq: real, trimStart: real, trimEnd: real, ds: DataSet)
    requires 0.0 < freq <= 250000000.0
    requires var w := GetRange(maxStart, minStop, freq, trimStart, trimEnd).value;
      w.numSamples >= 0 && ResamplePlan(w.start, w.stop, freq, ds).Ok?
    ensures var w := GetRange(maxStart, minStop, freq, trimStart, trimEnd).value;
      ResamplePlan(w.start, w.stop, freq, ds).value.tSamples == w.numSamples
  {
    WindowSampleCount(GetRange(maxStart, minStop, freq, trimStart, trimEnd).value, freq);
  }
}
