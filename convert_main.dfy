/** The multi-logger bookkeeping of ConvertMain.py: the running statistics
    kept across loggers (`update_dictionary`), the out-of-range test on them
    (`logger_out_of_range`), and the planning loop of
    `compute_multi_channel` that names the output channels and lays the
    loggers' data blocks out one after another in the output file. */
module ConvertMain {
  import opened Py
  import opened BinData
  import Arith
  import Packing
  import BinWriter

  /** The sum of the stats seen so far. */
  function Sum(s: seq<real>): real
  {
    if s == [] then 0.0 else Sum(s[..|s| - 1]) + s[|s| - 1]
  }

  /** Whether `x` replaces the current record `y`: strictly larger for a
      maximum, strictly smaller for a minimum. */
  predicate Beats(up: bool, x: real, y: real)
  {
    if up then x > y else x < y
  }

  /** The index of the stat that holds the record after the stats `s`, for
      a record that starts at `init` and is replaced only when beaten
      strictly; None while `init` is unbeaten. */
  function Holder(s: seq<real>, init: real, up: bool): (r: Option<nat>)
    ensures r.Some? ==> r.value < |s|
  {
    if s == [] then None
    else
      var h := Holder(s[..|s| - 1], init, up);
      var cur := if h.Some? then s[h.value] else init;
      if Beats(up, s[|s| - 1], cur) then Some(|s| - 1) else h
  }

  /** The record value: the holder's stat, or `init`. */
  function Record(s: seq<real>, init: real, up: bool): real
  {
    var h := Holder(s, init, up);
    if h.Some? then s[h.value] else init
  }

  /** The record name: the holder's logger, or "" while nothing beat `init`. */
  function RecordName(s: seq<real>, names: seq<string>, init: real, up: bool): string
    requires |names| == |s|
  {
    var h := Holder(s, init, up);
    if h.Some? then names[h.value] else ""
  }

  /** The record is no worse than `init` and than every stat; it is the
      first stat that reaches that value (a later tie does not replace it);
      and it stays `init` exactly when no stat beats `init`. */
  lemma {:induction false} HolderIsFirstBest(s: seq<real>, init: real, up: bool)
    ensures var r := Record(s, init, up);
      && !Beats(up, init, r)
      && (forall i :: 0 <= i < |s| ==> !Beats(up, s[i], r))
      && (Holder(s, init, up) == None <==> forall i :: 0 <= i < |s| ==> !Beats(up, s[i], init))
      && (Holder(s, init, up).Some? ==>
            var k := Holder(s, init, up).value;
            Beats(up, s[k], init) && forall j :: 0 <= j < k ==> Beats(up, s[k], s[j]))
  {
    if s != [] {
      var front := s[..|s| - 1];
      HolderIsFirstBest(front, init, up);
      assert forall i :: 0 <= i < |front| ==> front[i] == s[i];
    }
  }

  /** The mean of stats that all lie in [lo, hi] lies in [lo, hi]. */
  lemma {:induction false} SumBounds(s: seq<real>, lo: real, hi: real)
    requires forall i :: 0 <= i < |s| ==> lo <= s[i] <= hi
    ensures |s| as real * lo <= Sum(s) <= |s| as real * hi
  {
    if s != [] {
      var front := s[..|s| - 1];
      assert forall i :: 0 <= i < |front| ==> front[i] == s[i];
      SumBounds(front, lo, hi);
      assert Sum(s) == Sum(front) + s[|s| - 1];
      AddBounds(Sum(front), s[|s| - 1], lo, hi, |front| as real, |s| as real);
    }
  }

  /** One more term in `[lo, hi]` keeps a sum of `n` such terms between
      `m lo` and `m hi` for `m = n + 1`. */
  lemma AddBounds(a: real, x: real, lo: real, hi: real, n: real, m: real)
    requires n * lo <= a <= n * hi && lo <= x <= hi && m == n + 1.0
    ensures m * lo <= a + x <= m * hi
  {
    DistributeOne(n, lo);
    DistributeOne(n, hi);
  }

  lemma DistributeOne(n: real, x: real)
    ensures (n + 1.0) * x == n * x + x
  {
  }

  /** Dividing both sides of `x * n <= y * n` by a positive `n`. */
  lemma ScaleLe(x: real, y: real, n: real)
    requires n > 0.0 && x * n <= y * n
    ensures x <= y
  {
  }

  /** The mean of the stats seen, 0 before the first. */
  function Mean(s: seq<real>): real
  {
    if s == [] then 0.0 else Sum(s) / |s| as real
  }

  /** `update_dictionary`'s new mean: the old mean times the old count,
      plus the new stat, over the new count. */
  function RunningMean(average: real, n: nat, stat: real): (r: real)
    ensures n == 0 ==> r == stat
    ensures average <= stat ==> average <= r <= stat
    ensures stat <= average ==> stat <= r <= average
  {
    var count := average * n as real + stat;
    var r := count / (n as real + 1.0);
    assert r * (n as real + 1.0) == count;
    WeightedBetween(average, stat, n as real, r);
    r
  }

  /** `r` with `r (n + 1) = a n + s` is a weighted mean of `a` and `s`, so
      it lies between them. */
  lemma WeightedBetween(a: real, s: real, n: real, r: real)
    requires n >= 0.0 && r * (n + 1.0) == a * n + s
    ensures a <= s ==> a <= r <= s
    ensures s <= a ==> s <= r <= a
  {
    assert (r - a) * (n + 1.0) == s - a;
    assert (s - r) * (n + 1.0) == (s - a) * n;
    if a <= s {
      Arith.ProductSign(s - a, n);
      Arith.FactorSign(r - a, n + 1.0);
      Arith.FactorSign(s - r, n + 1.0);
    } else {
      Arith.ProductSign(a - s, n);
      assert (r - s) * (n + 1.0) == (a - s) * n;
      Arith.FactorSign(a - r, n + 1.0);
      Arith.FactorSign(r - s, n + 1.0);
    }
  }

  /** The running mean: the old mean times the old count, plus the new
      stat, over the new count, is the mean of all stats. */
  lemma MeanUpdate(average: real, n: nat, stat: real, s: seq<real>)
    requires |s| == n && average == Mean(s)
    ensures RunningMean(average, n, stat) == Mean(s + [stat])
  {
    assert (s + [stat])[..|s|] == s;
    if n > 0 {
      assert average * n as real == Sum(s);
    }
  }

  /** The record after one more stat: replaced exactly when beaten. */
  lemma RecordSnoc(s: seq<real>, names: seq<string>, x: real, name: string, init: real, up: bool)
    requires |names| == |s|
    ensures Record(s + [x], init, up) == if Beats(up, x, Record(s, init, up)) then x else Record(s, init, up)
    ensures RecordName(s + [x], names + [name], init, up)
         == if Beats(up, x, Record(s, init, up)) then name else RecordName(s, names, init, up)
  {
    assert (s + [x])[..|s|] == s;
  }

  /** One of the five dictionaries of `compute_multi_channel`: the largest
      and smallest stat with the logger that reported it first, the mean,
      and the number of loggers seen. */
  class Stats {
    var max: real
    var maxLogger: string
    var min: real
    var minLogger: string
    var average: real
    var numLoggers: nat
    /** The stats passed to Update so far, and the loggers they came from. */
    ghost var seen: seq<real>
    ghost var loggers: seq<string>

    ghost predicate Valid()
      reads this
    {
      && numLoggers == |seen| == |loggers|
      && average == Mean(seen)
      && max == Record(seen, 0.0, true) && maxLogger == RecordName(seen, loggers, 0.0, true)
      && min == Record(seen, 1e100, false) && minLogger == RecordName(seen, loggers, 1e100, false)
    }

    /** The initial dictionary: max 0, min 1e100, mean 0, no loggers. */
    constructor()
      ensures Valid() && seen == [] && loggers == []
      ensures max == 0.0 && min == 1e100 && average == 0.0 && numLoggers == 0
      ensures maxLogger == "" && minLogger == ""
    {
      max, maxLogger, min, minLogger := 0.0, "", 1e100, "";
      average, numLoggers := 0.0, 0;
      seen, loggers := [], [];
    }

    /** `update_dictionary`: fold one logger's stat into the mean, and take
        the maximum and the minimum only when it beats them strictly. */
    method Update(logger: string, stat: real)
      requires Valid()
      modifies this
      ensures Valid()
      ensures seen == old(seen) + [stat] && loggers == old(loggers) + [logger]
      ensures numLoggers == old(numLoggers) + 1
      ensures average == Mean(seen)
      ensures max == (if stat > old(max) then stat else old(max))
      ensures maxLogger == (if stat > old(max) then logger else old(maxLogger))
      ensures min == (if stat < old(min) then stat else old(min))
      ensures minLogger == (if stat < old(min) then logger else old(minLogger))
    {
      var mean := RunningMean(average, numLoggers, stat);
      var n := numLoggers + 1;
      MeanUpdate(average, numLoggers, stat, seen);
      RecordSnoc(seen, loggers, stat, logger, 0.0, true);
      RecordSnoc(seen, loggers, stat, logger, 1e100, false);
      average, numLoggers := mean, n;
      if stat > max {
        max, maxLogger := stat, logger;
      }
      if stat < min {
        min, minLogger := stat, logger;
      }
      seen, loggers := seen + [stat], loggers + [logger];
    }

    /** `logger_out_of_range`: whether the maximum or the minimum lies more
        than `absDiffLimit` from the mean. */
    function OutOfRange(absDiffLimit: real): (r: bool)
      reads this
      ensures r <==> max - average > absDiffLimit || average - min > absDiffLimit
    {
      MaxR(max - average, average - min) > absDiffLimit
    }
  }

  /** The mean of stats that all lie in [lo, hi] lies in [lo, hi]. */
  lemma MeanBetween(s: seq<real>, lo: real, hi: real)
    requires |s| > 0 && forall i :: 0 <= i < |s| ==> lo <= s[i] <= hi
    ensures lo <= Mean(s) <= hi
  {
    var n := |s| as real;
    SumBounds(s, lo, hi);
    var m := Sum(s) / n;
    assert m * n == Sum(s);
    ScaleLe(lo, m, n);
    ScaleLe(m, hi, n);
  }

  /** After at least one update the mean lies between the minimum and the
      maximum, whatever the stats (the initial 0 and 1e100 only widen the
      range). */
  lemma AverageWithinRange(st: Stats)
    requires st.Valid() && st.numLoggers > 0
    ensures st.min <= st.average <= st.max
  {
    HolderIsFirstBest(st.seen, 0.0, true);
    HolderIsFirstBest(st.seen, 1e100, false);
    MeanBetween(st.seen, st.min, st.max);
  }

  /** Loggers whose stats all lie within `limit` of one another, inside
      [0, 1e100), are never flagged: the maximum and minimum are then the
      largest and smallest stat. */
  lemma AgreeingLoggersInRange(st: Stats, lo: real, limit: real)
    requires st.Valid() && st.numLoggers > 0 && 0.0 <= lo && lo + limit < 1e100
    requires forall i :: 0 <= i < |st.seen| ==> lo <= st.seen[i] <= lo + limit
    ensures !st.OutOfRange(limit)
  {
    var s := st.seen;
    HolderIsFirstBest(s, 0.0, true);
    HolderIsFirstBest(s, 1e100, false);
    AverageWithinRange(st);
    assert lo <= st.min by {
      assert Holder(s, 1e100, false).Some?;
    }
    assert st.max <= lo + limit by {
      if Holder(s, 0.0, true).None? {
        assert st.max == 0.0;
      }
    }
  }

  /** A flagged set of stats in [0, 1e100) holds two that differ by more
      than the limit. */
  lemma FlaggedLoggersDiffer(st: Stats, limit: real)
    requires st.Valid() && st.numLoggers > 0 && st.OutOfRange(limit)
    requires forall i :: 0 <= i < |st.seen| ==> 0.0 <= st.seen[i] < 1e100
    ensures exists i, j :: 0 <= i < |st.seen| && 0 <= j < |st.seen| && st.seen[i] - st.seen[j] > limit
  {
    var s := st.seen;
    HolderIsFirstBest(s, 0.0, true);
    HolderIsFirstBest(s, 1e100, false);
    AverageWithinRange(st);
    assert Holder(s, 1e100, false).Some?;
    var j := Holder(s, 1e100, false).value;
    if Holder(s, 0.0, true).Some? {
      var i := Holder(s, 0.0, true).value;
      assert s[i] - s[j] > limit;
    } else {
      assert s[0] - s[j] > limit;
    }
  }

  /** What `cwa_info` reports about one logger file, with the file's path;
      the device and session ids are kept in their `str()` form. */
  datatype LoggerInfo = LoggerInfo(
    filePath: string,
    deviceId: string,
    sessionId: string,
    numSamples: int,
    meanRate: real,
    firstTimestamp: real,
    lastTimestamp: real,
    channels: int)

  /** The five statistics `compute_multi_channel` keeps. */
  datatype Field = NumSamples | MeanRate | StartTime | StopTime | Channels

  function FieldOf(l: LoggerInfo, f: Field): real
  {
    match f
    case NumSamples => l.numSamples as real
    case MeanRate => l.meanRate
    case StartTime => l.firstTimestamp
    case StopTime => l.lastTimestamp
    case Channels => l.channels as real
  }

  /** One statistic of every logger, in logger order. */
  function Column(ls: seq<LoggerInfo>, f: Field): (r: seq<real>)
    ensures |r| == |ls| && forall i :: 0 <= i < |ls| ==> r[i] == FieldOf(ls[i], f)
  {
    seq(|ls|, i requires 0 <= i < |ls| => FieldOf(ls[i], f))
  }

  function Paths(ls: seq<LoggerInfo>): (r: seq<string>)
    ensures |r| == |ls| && forall i :: 0 <= i < |ls| ==> r[i] == ls[i].filePath
  {
    seq(|ls|, i requires 0 <= i < |ls| => ls[i].filePath)
  }

  /** One more logger adds its stats and its path at the end of each column. */
  lemma ColumnSnoc(ls: seq<LoggerInfo>, k: nat)
    requires k < |ls|
    ensures forall f :: Column(ls[..k + 1], f) == Column(ls[..k], f) + [FieldOf(ls[k], f)]
    ensures Paths(ls[..k + 1]) == Paths(ls[..k]) + [ls[k].filePath]
  {
    forall f
      ensures Column(ls[..k + 1], f) == Column(ls[..k], f) + [FieldOf(ls[k], f)]
    {
      assert Column(ls[..k + 1], f)[..k] == Column(ls[..k], f);
    }
    assert Paths(ls[..k + 1])[..k] == Paths(ls[..k]);
  }

  /** `st` is the dictionary of statistic `f` over the first `k` loggers. */
  ghost predicate Tracks(st: Stats, ls: seq<LoggerInfo>, k: nat, f: Field)
    requires k <= |ls|
    reads st
  {
    st.Valid() && st.seen == Column(ls[..k], f) && st.loggers == Paths(ls[..k])
  }

  /** `update_dictionary(loggerPath, <stat f of logger k>, st)`. */
  method UpdateField(st: Stats, ls: seq<LoggerInfo>, k: nat, f: Field)
    requires k < |ls| && Tracks(st, ls, k, f)
    modifies st
    ensures Tracks(st, ls, k + 1, f)
  {
    ColumnSnoc(ls, k);
    st.Update(ls[k].filePath, FieldOf(ls[k], f));
  }

  /** The five dictionaries over the first `k` loggers. */
  ghost predicate TracksAll(samples: Stats, rate: Stats, startTime: Stats, stopTime: Stats,
                            channels: Stats, ls: seq<LoggerInfo>, k: nat)
    requires k <= |ls|
    reads samples, rate, startTime, stopTime, channels
  {
    && Tracks(samples, ls, k, NumSamples) && Tracks(rate, ls, k, MeanRate)
    && Tracks(startTime, ls, k, StartTime) && Tracks(stopTime, ls, k, StopTime)
    && Tracks(channels, ls, k, Channels)
  }

  /** One round of the first loop: logger `k`'s five statistics. */
  method CollectOne(samples: Stats, rate: Stats, startTime: Stats, stopTime: Stats,
                    channels: Stats, ls: seq<LoggerInfo>, k: nat)
    requires k < |ls| && TracksAll(samples, rate, startTime, stopTime, channels, ls, k)
    requires samples != rate && samples != startTime && samples != stopTime && samples != channels
    requires rate != startTime && rate != stopTime && rate != channels
    requires startTime != stopTime && startTime != channels && stopTime != channels
    modifies samples, rate, startTime, stopTime, channels
    ensures TracksAll(samples, rate, startTime, stopTime, channels, ls, k + 1)
  {
    UpdateField(samples, ls, k, NumSamples);
    UpdateField(rate, ls, k, MeanRate);
    UpdateField(startTime, ls, k, StartTime);
    UpdateField(stopTime, ls, k, StopTime);
    UpdateField(channels, ls, k, Channels);
  }

  /** The first loop of `compute_multi_channel`: fold every logger's sample
      count, mean rate, first and last timestamp and channel count into its
      own dictionary, in logger order. */
  method CollectStats(ls: seq<LoggerInfo>)
    returns (samples: Stats, rate: Stats, startTime: Stats, stopTime: Stats, channels: Stats)
    ensures fresh(samples) && fresh(rate) && fresh(startTime) && fresh(stopTime) && fresh(channels)
    ensures samples.Valid() && samples.seen == Column(ls, NumSamples) && samples.loggers == Paths(ls)
    ensures rate.Valid() && rate.seen == Column(ls, MeanRate) && rate.loggers == Paths(ls)
    ensures startTime.Valid() && startTime.seen == Column(ls, StartTime) && startTime.loggers == Paths(ls)
    ensures stopTime.Valid() && stopTime.seen == Column(ls, StopTime) && stopTime.loggers == Paths(ls)
    ensures channels.Valid() && channels.seen == Column(ls, Channels) && channels.loggers == Paths(ls)
  {
    samples := new Stats();
    rate := new Stats();
    startTime := new Stats();
    stopTime := new Stats();
    channels := new Stats();
    assert TracksAll(samples, rate, startTime, stopTime, channels, ls, 0);
    for k := 0 to |ls|
      invariant TracksAll(samples, rate, startTime, stopTime, channels, ls, k)
    {
      CollectOne(samples, rate, startTime, stopTime, channels, ls, k);
    }
    assert ls[..|ls|] == ls;
  }

  /** The resample window `get_range` computed, when resampling is on. */
  datatype Resampling = Off | On(freq: real, start: real, stop: real, numSamples: int)

  /** The axis labels for the per-logger channel count: Ax..Mz for 9,
      Ax..Gz for 6, and X, Y, Z otherwise. */
  function AxisLabels(channelsMax: nat): (r: seq<string>)
    ensures channelsMax in {3, 6, 9} ==> |r| == channelsMax
    ensures channelsMax !in {6, 9} ==> r == ["X", "Y", "Z"]
  {
    if channelsMax == 9 then ["Ax", "Ay", "Az", "Gx", "Gy", "Gz", "Mx", "My", "Mz"]
    else if channelsMax == 6 then ["Ax", "Ay", "Az", "Gx", "Gy", "Gz"]
    else ["X", "Y", "Z"]
  }

  /** deviceId_sessionId_axis. */
  function ChannelName(l: LoggerInfo, axis: string): (r: string)
    ensures |r| == |l.deviceId| + |l.sessionId| + |axis| + 2
    ensures r[..|l.deviceId|] == l.deviceId && r[|l.deviceId|] == '_'
    ensures r[|l.deviceId| + 1..|l.deviceId| + 1 + |l.sessionId|] == l.sessionId
    ensures r[|r| - |axis| - 1] == '_' && r[|r| - |axis|..] == axis
  {
    l.deviceId + "_" + l.sessionId + "_" + axis
  }

  /** The sample count of a logger's channels: the window's when resampling. */
  function SamplesOf(l: LoggerInfo, w: Resampling): int
  {
    if w.On? then w.numSamples else l.numSamples
  }

  /** The Channel record made for one axis of one logger, as the loop builds
      it: the path is that of the last logger file (the loop variable left
      over from the first loop), and the stop time is the logger's last
      timestamp even when resampling. */
  function LoggerChannel(l: LoggerInfo, lastPath: string, axis: string, w: Resampling): (c: Channel)
    ensures c.name == ChannelName(l, axis) && c.logger == lastPath && c.comment == "comment"
    ensures c.deviceId == l.deviceId && c.sessionId == l.sessionId
    ensures c.numSamples == SamplesOf(l, w)
    ensures c.sampleRate == (if w.On? then w.freq else l.meanRate)
    ensures c.startTime == (if w.On? then w.start else l.firstTimestamp)
    ensures c.stopTime == l.lastTimestamp
  {
    Channel(lastPath, ChannelName(l, axis), "comment", l.deviceId, l.sessionId, SamplesOf(l, w),
            if w.On? then w.freq else l.meanRate,
            if w.On? then w.start else l.firstTimestamp,
            l.lastTimestamp)
  }

  /** The channels of one logger, one per axis label. */
  function LoggerChannels(l: LoggerInfo, lastPath: string, labels: seq<string>, w: Resampling): (r: seq<Channel>)
    ensures |r| == |labels|
    ensures forall i :: 0 <= i < |labels| ==> r[i] == LoggerChannel(l, lastPath, labels[i], w)
  {
    seq(|labels|, i requires 0 <= i < |labels| => LoggerChannel(l, lastPath, labels[i], w))
  }

  /** The channel list after the loggers `ls`: each logger's channels in
      axis order, the loggers one after another. */
  function ChannelList(ls: seq<LoggerInfo>, lastPath: string, labels: seq<string>, w: Resampling): (r: seq<Channel>)
    ensures |r| == |ls| * |labels|
  {
    if ls == [] then []
    else ChannelList(ls[..|ls| - 1], lastPath, labels, w) + LoggerChannels(ls[|ls| - 1], lastPath, labels, w)
  }

  /** Channel `i` of logger `k` is entry `k * |labels| + i`: the channel
      count is (number of loggers) * (channels per logger), and the loggers'
      channels do not interleave. */
  lemma {:induction false} ChannelListAt(ls: seq<LoggerInfo>, lastPath: string, labels: seq<string>, w: Resampling, k: nat, i: nat)
    requires k < |ls| && i < |labels|
    ensures k * |labels| + i < |ChannelList(ls, lastPath, labels, w)|
    ensures ChannelList(ls, lastPath, labels, w)[k * |labels| + i] == LoggerChannel(ls[k], lastPath, labels[i], w)
  {
    var n, width := |ls|, |labels|;
    var front := ls[..n - 1];
    var a := ChannelList(front, lastPath, labels, w);
    var b := LoggerChannels(ls[n - 1], lastPath, labels, w);
    assert ChannelList(ls, lastPath, labels, w) == a + b;
    assert |a| == (n - 1) * width;
    RowMajorBelow(n, width, k, i);
    if k < n - 1 {
      ChannelListAt(front, lastPath, labels, w, k, i);
      assert front[k] == ls[k];
      RowMajorBelow(n - 1, width, k, i);
      assert (a + b)[k * width + i] == a[k * width + i];
    } else {
      assert k * width == |a|;
      assert (a + b)[k * width + i] == b[i];
    }
  }

  /** Entry `i` of row `k` lies inside `rows` rows of `width` entries. */
  lemma RowMajorBelow(rows: int, width: int, k: nat, i: nat)
    requires k < rows && i < width
    ensures k * width + i < rows * width
  {
    assert rows * width - k * width == (rows - k) * width;
    Arith.ProductNonNegative(rows - k - 1, width);
    assert (rows - k) * width == (rows - k - 1) * width + width;
  }

  /** With resampling on, two loggers whose last timestamps differ get
      channels with the same window start, rate and sample count but
      different stop times: the stop time set from the window is never
      used, so the channel headers disagree with the common window. */
  lemma AsWrittenResampledStopsDiffer(ls: seq<LoggerInfo>, lastPath: string, labels: seq<string>, w: Resampling)
    requires w.On? && |ls| >= 2 && |labels| > 0
    requires ls[0].lastTimestamp != ls[1].lastTimestamp
    ensures var cl := ChannelList(ls, lastPath, labels, w);
      && |labels| < |cl|
      && cl[0].startTime == cl[|labels|].startTime == w.start
      && cl[0].sampleRate == cl[|labels|].sampleRate == w.freq
      && cl[0].numSamples == cl[|labels|].numSamples == w.numSamples
      && cl[0].stopTime != cl[|labels|].stopTime
  {
    ChannelListAt(ls, lastPath, labels, w, 0, 0);
    ChannelListAt(ls, lastPath, labels, w, 1, 0);
  }

  /** The Channel record with the stop time the resampling branch computes:
      the window's stop when resampling, the logger's last timestamp
      otherwise. */
  function LoggerChannelCorrected(l: LoggerInfo, lastPath: string, axis: string, w: Resampling): (c: Channel)
    ensures c.stopTime == (if w.On? then w.stop else l.lastTimestamp)
    ensures c.(stopTime := l.lastTimestamp) == LoggerChannel(l, lastPath, axis, w)
  {
    LoggerChannel(l, lastPath, axis, w).(stopTime := if w.On? then w.stop else l.lastTimestamp)
  }

  /** With the correction, every channel of a resampled conversion carries
      the same window: start, stop, rate and sample count are the window's,
      whichever logger and axis it belongs to. */
  lemma CorrectedChannelsShareWindow(l1: LoggerInfo, l2: LoggerInfo, lastPath: string, a1: string, a2: string, w: Resampling)
    requires w.On?
    ensures var c1 := LoggerChannelCorrected(l1, lastPath, a1, w);
      var c2 := LoggerChannelCorrected(l2, lastPath, a2, w);
      && c1.startTime == c2.startTime == w.start
      && c1.stopTime == c2.stopTime == w.stop
      && c1.sampleRate == c2.sampleRate == w.freq
      && c1.numSamples == c2.numSamples == w.numSamples
  {
  }

  /** The bytes logger `l`'s data block takes in the output file. */
  function BlockBytes(l: LoggerInfo, w: Resampling, channelsMax: nat, byteWidth: int): (r: int)
    ensures SamplesOf(l, w) >= 0 && byteWidth >= 0 ==> r >= 0
    ensures channelsMax == 0 || byteWidth == 0 ==> r == 0
  {
    var b := SamplesOf(l, w) * channelsMax * byteWidth;
    if SamplesOf(l, w) >= 0 && byteWidth >= 0 then
      Arith.TripleProductNonNegative(SamplesOf(l, w), channelsMax, byteWidth);
      b
    else b
  }

  /** `loggerOffsets` after the loggers `ls`: 0, then each offset the
      previous one plus the previous logger's block. */
  function Offsets(ls: seq<LoggerInfo>, w: Resampling, channelsMax: nat, byteWidth: int): (r: seq<int>)
    ensures |r| == |ls| + 1 && r[0] == 0
  {
    if ls == [] then [0]
    else
      var o := Offsets(ls[..|ls| - 1], w, channelsMax, byteWidth);
      o + [o[|o| - 1] + BlockBytes(ls[|ls| - 1], w, channelsMax, byteWidth)]
  }

  /** Each offset is the previous one plus the previous logger's block. */
  lemma {:induction false} OffsetsStep(ls: seq<LoggerInfo>, w: Resampling, channelsMax: nat, byteWidth: int, k: nat)
    requires k < |ls|
    ensures Offsets(ls, w, channelsMax, byteWidth)[k + 1]
         == Offsets(ls, w, channelsMax, byteWidth)[k] + BlockBytes(ls[k], w, channelsMax, byteWidth)
  {
    var front := ls[..|ls| - 1];
    if k < |ls| - 1 {
      OffsetsStep(front, w, channelsMax, byteWidth, k);
      assert front[k] == ls[k];
    }
  }

  /** With sample counts and the byte width not negative, the loggers'
      blocks follow one another without overlapping: the block of logger
      `i` ends at or before the start of any later logger `j`. */
  lemma OffsetsDisjoint(ls: seq<LoggerInfo>, w: Resampling, channelsMax: nat, byteWidth: int, i: nat, j: nat)
    requires i < j < |ls| + 1 && byteWidth >= 0
    requires forall k :: 0 <= k < |ls| ==> SamplesOf(ls[k], w) >= 0
    ensures var o := Offsets(ls, w, channelsMax, byteWidth);
      o[i] + BlockBytes(ls[i], w, channelsMax, byteWidth) <= o[j]
    decreases j - i
  {
    var o := Offsets(ls, w, channelsMax, byteWidth);
    OffsetsStep(ls, w, channelsMax, byteWidth, i);
    if i + 1 < j {
      OffsetsDisjoint(ls, w, channelsMax, byteWidth, i + 1, j);
    }
  }

  /** One more logger appends its channels and its block's offset. */
  lemma PlanSnoc(ls: seq<LoggerInfo>, k: nat, lastPath: string, axes: seq<string>, w: Resampling,
                 channelsMax: nat, byteWidth: int)
    requires k < |ls|
    ensures ChannelList(ls[..k + 1], lastPath, axes, w)
         == ChannelList(ls[..k], lastPath, axes, w) + LoggerChannels(ls[k], lastPath, axes, w)
    ensures var o := Offsets(ls[..k], w, channelsMax, byteWidth);
      Offsets(ls[..k + 1], w, channelsMax, byteWidth) == o + [o[k] + BlockBytes(ls[k], w, channelsMax, byteWidth)]
  {
    assert ls[..k + 1][..k] == ls[..k];
  }

  /** The channel list and the offsets `compute_multi_channel` builds, or
      the IndexError of an axis label past the end of the list. */
  function PlanSpec(ls: seq<LoggerInfo>, channelsMax: nat, w: Resampling, byteWidth: int)
    : (r: Result<(seq<Channel>, seq<int>)>)
    ensures r.Err? <==> |ls| > 0 && channelsMax > |AxisLabels(channelsMax)|
    ensures r.Err? ==> r.error == IndexError
    ensures r.Ok? ==> |r.value.0| == |ls| * channelsMax && |r.value.1| == |ls| + 1
  {
    var labels := AxisLabels(channelsMax);
    if |ls| == 0 then Ok(([], [0]))
    else if channelsMax > |labels| then Err(IndexError)
    else
      Ok((ChannelList(ls, ls[|ls| - 1].filePath, labels[..channelsMax], w), Offsets(ls, w, channelsMax, byteWidth)))
  }

  /** One round of the second loop: the logger's figures (the window's when
      resampling), one Channel per axis label, and the next offset. */
  method PlanLogger(channelList: seq<Channel>, loggerOffsets: seq<int>, l: LoggerInfo, loggerPath: string,
                    labels: seq<string>, channelsMax: nat, w: Resampling, byteWidth: int)
    returns (r: Result<(seq<Channel>, seq<int>)>)
    requires |loggerOffsets| > 0
    ensures r.Err? <==> channelsMax > |labels|
    ensures r.Err? ==> r.error == IndexError
    ensures r.Ok? ==> r.value.0 == channelList + LoggerChannels(l, loggerPath, labels[..channelsMax], w)
    ensures r.Ok? ==> r.value.1 == loggerOffsets + [loggerOffsets[|loggerOffsets| - 1] + BlockBytes(l, w, channelsMax, byteWidth)]
  {
    var numSamples := l.numSamples;
    var sampleRate := l.meanRate;
    var startTime := l.firstTimestamp;
    var endTime := l.lastTimestamp;
    if w.On? {
      sampleRate := w.freq;
      numSamples := w.numSamples;
      startTime := w.start;
    }
    var channels := channelList;
    for i := 0 to channelsMax
      invariant i <= |labels|
      invariant channels == channelList + LoggerChannels(l, loggerPath, labels[..i], w)
    {
      if i >= |labels| {
        return Err(IndexError);
      }
      var channelName := l.deviceId + "_" + l.sessionId + "_" + labels[i];
      channels := channels + [Channel(loggerPath, channelName, "comment", l.deviceId, l.sessionId,
                                      numSamples, sampleRate, startTime, endTime)];
      assert labels[..i + 1] == labels[..i] + [labels[i]];
    }
    var offsets := loggerOffsets + [loggerOffsets[|loggerOffsets| - 1] + numSamples * channelsMax * byteWidth];
    return Ok((channels, offsets));
  }

  /** The second loop of `compute_multi_channel`: one Channel per axis of
      each logger, and the running byte offset of each logger's block. */
  method PlanChannels(ls: seq<LoggerInfo>, channelsMax: nat, w: Resampling, byteWidth: int)
    returns (r: Result<(seq<Channel>, seq<int>)>)
    ensures r == PlanSpec(ls, channelsMax, w, byteWidth)
  {
    var labels := AxisLabels(channelsMax);
    var channelList: seq<Channel> := [];
    var loggerOffsets: seq<int> := [0];
    if |ls| == 0 {
      return Ok((channelList, loggerOffsets));
    }
    var loggerPath := ls[|ls| - 1].filePath;
    for k := 0 to |ls|
      invariant k == 0 ==> channelList == []
      invariant k > 0 ==> channelsMax <= |labels| && channelList == ChannelList(ls[..k], loggerPath, labels[..channelsMax], w)
      invariant loggerOffsets == Offsets(ls[..k], w, channelsMax, byteWidth)
    {
      var step := PlanLogger(channelList, loggerOffsets, ls[k], loggerPath, labels, channelsMax, w, byteWidth);
      if step.Err? {
        return Err(step.error);
      }
      PlanSnoc(ls, k, loggerPath, labels[..channelsMax], w, channelsMax, byteWidth);
      channelList, loggerOffsets := step.value.0, step.value.1;
    }
    assert ls[..|ls|] == ls;
    return Ok((channelList, loggerOffsets));
  }

  /** The header and channel records `generate_BIN` returns are written
      first, and the position after them is `lastFilePos`; logger `i`'s
      block is then written at `lastFilePos + loggerOffsets[i]`. The first
      block starts exactly at the data offset patched into the preamble, and
      each block ends at or before the start of every later one. */
  lemma LoggerBlocksFollowHeader(comment: string, f64: real -> F64Bytes, ls: seq<LoggerInfo>, channelsMax: nat,
                                 w: Resampling, byteWidth: int, i: nat, j: nat)
    requires PlanSpec(ls, channelsMax, w, byteWidth).Ok?
    requires BinWriter.GenerateBinSpec(comment, PlanSpec(ls, channelsMax, w, byteWidth).value.0, f64).Ok?
    requires i < j < |ls| + 1 && byteWidth >= 0
    requires forall k :: 0 <= k < |ls| ==> SamplesOf(ls[k], w) >= 0
    ensures var (chans, o) := PlanSpec(ls, channelsMax, w, byteWidth).value;
      var (hdr, recs) := BinWriter.GenerateBinSpec(comment, chans, f64).value;
      var lastFilePos := |hdr| + |recs|;
      && Packing.U32At(hdr, 2) == lastFilePos + o[0]
      && lastFilePos + o[i] + BlockBytes(ls[i], w, channelsMax, byteWidth) <= lastFilePos + o[j]
  {
    OffsetsDisjoint(ls, w, channelsMax, byteWidth, i, j);
  }
}
