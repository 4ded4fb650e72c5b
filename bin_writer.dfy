/** `generate_BIN` of src/bin_data.py, which turns a list of Channel records
    into a preamble and a block of channel header records, and
    `seconds_to_BIN_time`, the date conversion it and `bin_write_header`
    (module BinWriteHeader) use. */
module BinWriter {
  import opened Py
  import opened Packing
  import opened BinData

  // ---------------------------------------------------------------------
  // seconds_to_BIN_time

  /** Days from the OLE Automation epoch (1899-12-30) to the Unix epoch:
      70 years of 365 days plus 19 leap days. */
  const UNIX_EPOCH_IN_OLE: real := 70.0 * 365.0 + 19.0

  const SECONDS_PER_DAY: real := 24.0 * 60.0 * 60.0

  /** The sensor description every record carries. Like the units "g", it is
      ASCII, so its UTF-8 encoding is `Ascii` of it (Packing.Utf8Ascii). */
  const DESCRIPTION: string := "[description]"

  /** Unix seconds to the day count catman stores: whole days since the OLE
      epoch, the time of day as the fraction. */
  function SecondsToBinTime(seconds: real): (r: real)
    ensures (r - 25569.0) * 86400.0 == seconds
  {
    seconds / SECONDS_PER_DAY + UNIX_EPOCH_IN_OLE
  }

  /** The Unix epoch is day 25569. */
  lemma BinTimeOfEpoch()
    ensures SecondsToBinTime(0.0) == 25569.0
  {
  }

  /** One day later in seconds is exactly one more in the day count. */
  lemma BinTimeOneDay(seconds: real)
    ensures SecondsToBinTime(seconds + 86400.0) == SecondsToBinTime(seconds) + 1.0
  {
  }

  /** The conversion keeps the order of instants. */
  lemma BinTimeIncreasing(a: real, b: real)
    requires a < b
    ensures SecondsToBinTime(a) < SecondsToBinTime(b)
  {
  }

  // ---------------------------------------------------------------------
  // generate_BIN

  /** The exception building channel `ch`'s record raises, if any, in the
      order the writer meets them: the sample count does not fit "L", the
      name or the comment is too long for its "H" length prefix, or the
      sample rate is zero (1000.0 / rate). */
  function ChannelError(ch: Channel): (r: Option<PyError>)
    ensures r == None <==> (&& FitsU32(ch.numSamples) && StringFits(ch.name) && StringFits(ch.comment)
                            && ch.sampleRate != 0.0)
    ensures r == Some(ZeroDivisionError) <==> (&& FitsU32(ch.numSamples) && StringFits(ch.name)
                                               && StringFits(ch.comment) && ch.sampleRate == 0.0)
    ensures r.Some? ==> r.value == StructError || r.value == ZeroDivisionError
  {
    if !FitsU32(ch.numSamples) then Some(StructError)
    else if !StringFits(ch.name) then Some(StructError)
    else if !StringFits(ch.comment) then Some(StructError)
    else if ch.sampleRate == 0.0 then Some(ZeroDivisionError)
    else None
  }

  /** The exception the channel loop stops at: that of the first channel
      whose record cannot be built. */
  function FirstChannelError(infos: seq<Channel>): (r: Option<PyError>)
    ensures r == None <==> forall i :: 0 <= i < |infos| ==> ChannelError(infos[i]) == None
  {
    if infos == [] then None
    else if ChannelError(infos[0]).Some? then ChannelError(infos[0])
    else
      var r := FirstChannelError(infos[1..]);
      assert forall i :: 1 <= i < |infos| ==> infos[i] == infos[1..][i - 1];
      r
  }

  /** When channels before `i` are fine and channel `i` is not, the loop
      raises channel `i`'s exception. */
  lemma {:induction false} FirstChannelErrorAt(infos: seq<Channel>, i: nat)
    requires i < |infos| && ChannelError(infos[i]).Some?
    requires forall j :: 0 <= j < i ==> ChannelError(infos[j]) == None
    ensures FirstChannelError(infos) == ChannelError(infos[i])
  {
    if i > 0 {
      FirstChannelErrorAt(infos[1..], i - 1);
    }
  }

  /** The values `generate_BIN` writes into the record of channel `i`: index
      and SubSlot `i`, units "g", the start time in the date field and in T0,
      dt = 1000 / sampleRate milliseconds, the description placeholder and
      the device id as TID. */
  function GenHeader(i: nat, ch: Channel, f64: real -> F64Bytes): (h: ChannelHeader)
    requires ch.sampleRate != 0.0
    ensures h.index == i && h.subSlot == i && h.samples == ch.numSamples
    ensures h.name == Utf8(ch.name) && h.comment == Utf8(ch.comment) && h.units == Ascii(UNITS)
    ensures h.time == h.t0 && |h.description| == 50 && |h.tid| == 16
  {
    var startTime := f64(SecondsToBinTime(ch.startTime));
    ChannelHeader(
      index := i,
      samples := ch.numSamples,
      name := Utf8(ch.name),
      units := Ascii(UNITS),
      comment := Utf8(ch.comment),
      time := startTime,
      t0 := startTime,
      dt := f64(1000.0 / ch.sampleRate),
      subSlot := i,
      description := PadTo(Ascii(DESCRIPTION), 50),
      tid := PadTo(Utf8(ch.deviceId), 16))
  }

  /** A channel that raises nothing gets a record whose every field fits
      its width. */
  lemma GenHeaderWellFormed(i: nat, ch: Channel, f64: real -> F64Bytes)
    requires FitsU16(i) && ChannelError(ch) == None
    ensures WellFormed(GenHeader(i, ch, f64))
  {
  }

  predicate NoChannelErrors(infos: seq<Channel>)
  {
    forall i :: 0 <= i < |infos| ==> ChannelError(infos[i]) == None
  }

  /** The channels before `i` raise nothing, and neither does channel `i`. */
  lemma NoChannelErrorsStep(infos: seq<Channel>, i: nat)
    requires i < |infos| && NoChannelErrors(infos[..i]) && ChannelError(infos[i]) == None
    ensures NoChannelErrors(infos[..i + 1])
    ensures infos[..i + 1][..i] == infos[..i] && infos[..i + 1][i] == infos[i]
  {
    var p := infos[..i + 1];
    forall j | 0 <= j < i + 1
      ensures ChannelError(p[j]) == None
    {
      if j < i {
        assert p[j] == infos[..i][j];
      }
    }
  }

  /** The first failing channel after an error-free prefix decides. */
  lemma FirstErrorAfterPrefix(infos: seq<Channel>, i: nat)
    requires i < |infos| && NoChannelErrors(infos[..i]) && ChannelError(infos[i]).Some?
    ensures FirstChannelError(infos) == ChannelError(infos[i])
  {
    forall j | 0 <= j < i
      ensures ChannelError(infos[j]) == None
    {
      assert infos[j] == infos[..i][j];
    }
    FirstChannelErrorAt(infos, i);
  }

  /** Each channel's record, in channel order: channel `i` with index `i`. */
  function RecordList(infos: seq<Channel>, f64: real -> F64Bytes): (r: seq<seq<byte>>)
    requires FitsU16(|infos|) && NoChannelErrors(infos)
    ensures |r| == |infos|
  {
    seq(|infos|, i requires 0 <= i < |infos| => ChannelRecord(i, infos[i], f64))
  }

  /** The channel header block generate_BIN builds: the records of the list
      one after another. */
  function RecordsOf(infos: seq<Channel>, f64: real -> F64Bytes): seq<byte>
    requires FitsU16(|infos|) && NoChannelErrors(infos)
  {
    Concat(RecordList(infos, f64))
  }

  /** The length of the record generate_BIN writes for a channel. */
  function RecordSize(ch: Channel): nat
  {
    258 + |Utf8(ch.name)| + |Utf8(ch.comment)|
  }

  /** The record lengths generate_BIN collects in chanOffset. */
  function LengthsOf(infos: seq<Channel>): (r: seq<nat>)
    ensures |r| == |infos|
  {
    seq(|infos|, i requires 0 <= i < |infos| => RecordSize(infos[i]))
  }

  /** The record generate_BIN writes for channel `i`: 29 fixed bytes, the
      name, the one-byte units "g" and the comment, each behind a 2-byte
      length, the 148-byte extended block and the 81-byte trailer, so 258
      bytes besides the name and the comment. */
  function ChannelRecord(i: nat, ch: Channel, f64: real -> F64Bytes): (r: seq<byte>)
    requires FitsU16(i) && ChannelError(ch) == None
    ensures |r| == RecordSize(ch)
  {
    GenHeaderWellFormed(i, ch, f64);
    EncodeChannelHeader(GenHeader(i, ch, f64))
  }

  /** Entry `i` of the list is the record of channel `i`, and its length
      is the one generate_BIN notes in chanOffset. */
  lemma RecordListAt(infos: seq<Channel>, f64: real -> F64Bytes, i: nat)
    requires FitsU16(|infos|) && NoChannelErrors(infos) && i < |infos|
    ensures RecordList(infos, f64)[i] == ChannelRecord(i, infos[i], f64)
    ensures |RecordList(infos, f64)[i]| == LengthsOf(infos)[i]
  {
  }

  /** The list for one more channel is the list before it and its record. */
  lemma RecordListSnoc(infos: seq<Channel>, f64: real -> F64Bytes, i: nat)
    requires FitsU16(|infos|) && i < |infos| && NoChannelErrors(infos[..i + 1])
    ensures NoChannelErrors(infos[..i])
    ensures RecordList(infos[..i + 1], f64) == RecordList(infos[..i], f64) + [RecordList(infos[..i + 1], f64)[i]]
  {
    var p := infos[..i + 1];
    assert p[..i] == infos[..i];
    RecordListPrefix(p, f64, i);
    FrontLast(RecordList(p, f64));
  }

  /** The list for the first `k` channels is the first `k` entries of the list. */
  lemma RecordListPrefix(infos: seq<Channel>, f64: real -> F64Bytes, k: nat)
    requires FitsU16(|infos|) && NoChannelErrors(infos) && k <= |infos|
    ensures NoChannelErrors(infos[..k])
    ensures RecordList(infos, f64)[..k] == RecordList(infos[..k], f64)
  {
    assert forall j :: 0 <= j < k ==> infos[..k][j] == infos[j];
  }

  /** The lengths for one more channel are the lengths before it and its
      record's length. */
  lemma LengthsOfSnoc(infos: seq<Channel>, i: nat)
    requires i < |infos|
    ensures LengthsOf(infos[..i + 1]) == LengthsOf(infos[..i]) + [RecordSize(infos[i])]
  {
    var a := LengthsOf(infos[..i + 1]);
    var b := LengthsOf(infos[..i]) + [RecordSize(infos[i])];
    forall j | 0 <= j < i + 1
      ensures a[j] == b[j]
    {
      if j < i {
        assert infos[..i + 1][j] == infos[..i][j];
      }
    }
  }

  /** No record is longer than the block it is part of. */
  lemma LengthsOfWithin(infos: seq<Channel>, f64: real -> F64Bytes)
    requires FitsU16(|infos|) && NoChannelErrors(infos)
    ensures forall i :: 0 <= i < |infos| ==> LengthsOf(infos)[i] <= |RecordsOf(infos, f64)|
  {
    forall i | 0 <= i < |infos|
      ensures LengthsOf(infos)[i] <= |RecordsOf(infos, f64)|
    {
      RecordListAt(infos, f64, i);
      ConcatAt(RecordList(infos, f64), i);
    }
  }

  /** The offset table generate_BIN writes: entry 0 and entry 1 both `hlen`,
      entry `i > 1` the preamble length plus the length of record `i - 1`. */
  function AsWrittenOffsets(hlen: nat, lens: seq<nat>): (r: seq<int>)
    ensures |r| == |lens|
    ensures forall i :: 0 <= i <= 1 && i < |lens| ==> r[i] == hlen
    ensures forall i :: 1 < i < |lens| ==> r[i] == hlen + lens[i - 1]
  {
    seq(|lens|, i requires 0 <= i < |lens| => if i > 1 then hlen + lens[i - 1] else hlen)
  }

  /** The preamble length for comment bytes `c` and `n` channels. */
  function PreambleLength(c: seq<byte>, n: nat): nat
  {
    114 + |c| + 4 * n
  }

  /** The full header length: the preamble and every channel's record. */
  function FullLength(c: seq<byte>, infos: seq<Channel>, f64: real -> F64Bytes): nat
    requires FitsU16(|infos|) && NoChannelErrors(infos)
  {
    PreambleLength(c, |infos|) + |RecordsOf(infos, f64)|
  }

  /** What `generate_BIN(testName, testComment, channelInfos)` returns or
      raises, with the channel offset table it actually writes. */
  function GenerateBinSpec(testComment: string, infos: seq<Channel>, f64: real -> F64Bytes)
    : (r: Result<(seq<byte>, seq<byte>)>)
    ensures r.Ok? ==> |r.value.0| == PreambleLength(Utf8(testComment), |infos|)
    ensures r.Ok? ==> U32At(r.value.0, 2) == |r.value.0| + |r.value.1|
  {
    var c := Utf8(testComment);
    if !FitsU16(|c|) || !FitsU16(|infos|) then Err(StructError)
    else if FirstChannelError(infos).Some? then Err(FirstChannelError(infos).value)
    else
      var records := RecordsOf(infos, f64);
      var hlen := PreambleLength(c, |infos|);
      var full := FullLength(c, infos, f64);
      if !FitsU32(full) then Err(StructError)
      else
        var table := AsWrittenOffsets(hlen, LengthsOf(infos));
        AsWrittenOffsetsFit(hlen, infos, f64);
        PreambleDataOffset(c, full, table);
        Ok((Preamble(c, full, table), records))
  }

  /** When no check fails, generate_BIN returns the preamble carrying the
      full header length and the as-written table, and the record block. */
  lemma GenerateBinSpecOk(testComment: string, infos: seq<Channel>, f64: real -> F64Bytes)
    requires FitsU16(|Utf8(testComment)|) && FitsU16(|infos|) && NoChannelErrors(infos)
    requires FitsU32(FullLength(Utf8(testComment), infos, f64))
    ensures AllFitU32(AsWrittenOffsets(PreambleLength(Utf8(testComment), |infos|), LengthsOf(infos)))
    ensures var c := Utf8(testComment);
      var hlen := PreambleLength(c, |infos|);
      GenerateBinSpec(testComment, infos, f64)
        == Ok((Preamble(c, FullLength(c, infos, f64), AsWrittenOffsets(hlen, LengthsOf(infos))),
               RecordsOf(infos, f64)))
  {
    AsWrittenOffsetsFit(PreambleLength(Utf8(testComment), |infos|), infos, f64);
    assert FirstChannelError(infos) == None;
  }

  /** Every entry of the table `generate_BIN` writes is at most the full
      header length, so it fits "L" whenever that does. */
  lemma AsWrittenOffsetsFit(hlen: nat, infos: seq<Channel>, f64: real -> F64Bytes)
    requires FitsU16(|infos|) && NoChannelErrors(infos)
    requires FitsU32(hlen + |RecordsOf(infos, f64)|)
    ensures AllFitU32(AsWrittenOffsets(hlen, LengthsOf(infos)))
  {
    LengthsOfWithin(infos, f64);
  }

  /** Bytes 2 to 6 of a preamble hold its data offset. */
  lemma PreambleDataOffset(c: seq<byte>, d: int, t: seq<int>)
    requires FitsU16(|c|) && FitsU32(d) && FitsU16(|t|) && AllFitU32(t)
    ensures U32At(Preamble(c, d, t), 2) == d
  {
    U32RoundTrip(PackU16(FILE_ID), d, Strings(c) + TableSection(t));
  }

  // ---------------------------------------------------------------------
  // Reading a generate_BIN header back

  /** A successful generate_BIN: its header reads back as the comment, the
      data offset equal to the length of header and records together, and
      the as-written offset table over the header length; the records
      follow it. */
  lemma GenerateBinReadsBack(testComment: string, infos: seq<Channel>, f64: real -> F64Bytes, rest: seq<byte>)
    requires GenerateBinSpec(testComment, infos, f64).Ok?
    ensures FitsU16(|infos|) && NoChannelErrors(infos)
    ensures var r := GenerateBinSpec(testComment, infos, f64).value;
      var c := Utf8(testComment);
      && |r.0| == PreambleLength(c, |infos|)
      && |r.0| + |r.1| == FullLength(c, infos, f64)
      && r.1 == RecordsOf(infos, f64)
      && DecodePreamble(r.0 + rest)
         == Some((PreambleFields(FullLength(c, infos, f64), c,
                                 AsWrittenOffsets(PreambleLength(c, |infos|), LengthsOf(infos))), rest))
  {
    var c := Utf8(testComment);
    assert FirstChannelError(infos) == None;
    GenerateBinSpecOk(testComment, infos, f64);
    PreambleRoundTrip(c, FullLength(c, infos, f64), AsWrittenOffsets(PreambleLength(c, |infos|), LengthsOf(infos)), rest);
  }

  /** The first bad channel decides what generate_BIN raises, once the
      comment and the channel count fit. */
  lemma GenerateBinFailsAtFirstBadChannel(testComment: string, infos: seq<Channel>, f64: real -> F64Bytes, i: nat)
    requires FitsU16(|Utf8(testComment)|) && FitsU16(|infos|)
    requires i < |infos| && NoChannelErrors(infos[..i]) && ChannelError(infos[i]).Some?
    ensures GenerateBinSpec(testComment, infos, f64) == Err(ChannelError(infos[i]).value)
  {
    FirstErrorAfterPrefix(infos, i);
  }

  /** The as-written table sends channel 1 to where the records start, which
      is where channel 0's record is (RecordAt decodes channel `i` at start
      `i`); channel 1's record starts further on. */
  lemma AsWrittenTableMisplacesChannelOne(testComment: string, infos: seq<Channel>, f64: real -> F64Bytes)
    requires GenerateBinSpec(testComment, infos, f64).Ok? && |infos| >= 2
    ensures FitsU16(|infos|) && NoChannelErrors(infos)
    ensures var p := GenerateBinSpec(testComment, infos, f64).value.0;
      var t := AsWrittenOffsets(|p|, LengthsOf(infos));
      var s := Starts(|p|, RecordList(infos, f64));
      && t[0] == s[0] && t[1] == s[0]
      && t[1] < s[1]
  {
    assert FirstChannelError(infos) == None;
    var p := GenerateBinSpec(testComment, infos, f64).value.0;
    SecondRecordStart(|p|, infos, f64);
  }

  /** Decoding the header bytes at start `i` of the records gives channel
      `i`'s values, whatever comes before and after them. */
  lemma RecordAt(pre: seq<byte>, infos: seq<Channel>, f64: real -> F64Bytes, post: seq<byte>, base: nat, i: nat)
    requires FitsU16(|infos|) && NoChannelErrors(infos) && base == |pre| && i < |infos|
    ensures Starts(base, RecordList(infos, f64))[i] <= |pre + RecordsOf(infos, f64) + post|
    ensures DecodeChannelHeader((pre + RecordsOf(infos, f64) + post)[Starts(base, RecordList(infos, f64))[i]..])
         == Some((GenHeader(i, infos[i], f64), Concat(RecordList(infos, f64)[i + 1..]) + post))
    ensures GenHeader(i, infos[i], f64).index == i
  {
    var bs := RecordList(infos, f64);
    RecordListAt(infos, f64, i);
    GenHeaderWellFormed(i, infos[i], f64);
    StartsLocate(pre, bs, post, base, i);
    ChannelHeaderRoundTrip(GenHeader(i, infos[i], f64), Concat(bs[i + 1..]) + post);
  }

  /** The records start at `base`, and channel 1's starts further on. */
  lemma SecondRecordStart(base: nat, infos: seq<Channel>, f64: real -> F64Bytes)
    requires FitsU16(|infos|) && NoChannelErrors(infos) && |infos| >= 2
    ensures Starts(base, RecordList(infos, f64))[0] == base
    ensures base < Starts(base, RecordList(infos, f64))[1]
  {
    var bs := RecordList(infos, f64);
    assert bs[..0] == [];
    assert bs[..1] == [bs[0]];
    assert Concat([bs[0]]) == Concat([]) + bs[0];
    RecordListAt(infos, f64, 0);
  }

  /** generate_BIN with the offset table a reader needs: entry `i` is the
      position of channel `i`'s record, the preamble length plus the
      lengths of the records before it. The checks, the data offset and the
      records are as written. */
  function GenerateBinCorrected(testComment: string, infos: seq<Channel>, f64: real -> F64Bytes)
    : (r: Result<(seq<byte>, seq<byte>)>)
    ensures r.Err? <==> GenerateBinSpec(testComment, infos, f64).Err?
    ensures r.Err? ==> r == GenerateBinSpec(testComment, infos, f64)
    ensures r.Ok? ==> r.value.1 == GenerateBinSpec(testComment, infos, f64).value.1
  {
    match GenerateBinSpec(testComment, infos, f64)
    case Err(e) => Err(e)
    case Ok((_, recs)) =>
      GenerateBinReadsBack(testComment, infos, f64, []);
      var c := Utf8(testComment);
      var t := Starts(PreambleLength(c, |infos|), RecordList(infos, f64));
      Ok((Preamble(c, FullLength(c, infos, f64), t), recs))
  }

  /** When no check fails, the corrected generate_BIN returns the preamble
      carrying the full header length and the table of record starts, and
      the record block. */
  lemma GenerateBinCorrectedOk(testComment: string, infos: seq<Channel>, f64: real -> F64Bytes)
    requires GenerateBinCorrected(testComment, infos, f64).Ok?
    ensures FitsU16(|Utf8(testComment)|) && FitsU16(|infos|) && NoChannelErrors(infos)
    ensures FitsU32(FullLength(Utf8(testComment), infos, f64))
    ensures AllFitU32(Starts(PreambleLength(Utf8(testComment), |infos|), RecordList(infos, f64)))
    ensures var c := Utf8(testComment);
      GenerateBinCorrected(testComment, infos, f64).value
        == (Preamble(c, FullLength(c, infos, f64), Starts(PreambleLength(c, |infos|), RecordList(infos, f64))),
            RecordsOf(infos, f64))
  {
    GenerateBinReadsBack(testComment, infos, f64, []);
    assert FirstChannelError(infos) == None;
  }

  /** The corrected header reads back as the comment, the full header length
      and the table of record starts. */
  lemma CorrectedHeaderReadsBack(testComment: string, infos: seq<Channel>, f64: real -> F64Bytes, rest: seq<byte>)
    requires GenerateBinCorrected(testComment, infos, f64).Ok?
    ensures FitsU16(|infos|) && NoChannelErrors(infos)
    ensures var (p, recs) := GenerateBinCorrected(testComment, infos, f64).value;
      var c := Utf8(testComment);
      && |p| == PreambleLength(c, |infos|)
      && |p| + |recs| == FullLength(c, infos, f64)
      && DecodePreamble(p + rest)
         == Some((PreambleFields(FullLength(c, infos, f64), c,
                                 Starts(PreambleLength(c, |infos|), RecordList(infos, f64))), rest))
  {
    GenerateBinCorrectedOk(testComment, infos, f64);
    var c := Utf8(testComment);
    PreambleRoundTrip(c, FullLength(c, infos, f64), Starts(PreambleLength(c, |infos|), RecordList(infos, f64)), rest);
  }

  /** With the corrected table, a reader that takes entry `i` of the table
      and decodes the record there gets channel `i`'s values, index `i`
      included. */
  lemma CorrectedTableLocatesRecords(testComment: string, infos: seq<Channel>, f64: real -> F64Bytes,
                                     i: nat, rest: seq<byte>)
    requires GenerateBinCorrected(testComment, infos, f64).Ok? && i < |infos|
    ensures FitsU16(|infos|) && NoChannelErrors(infos)
    ensures var (p, recs) := GenerateBinCorrected(testComment, infos, f64).value;
      var t := Starts(PreambleLength(Utf8(testComment), |infos|), RecordList(infos, f64));
      && t[i] <= |p + recs + rest|
      && DecodeChannelHeader((p + recs + rest)[t[i]..])
         == Some((GenHeader(i, infos[i], f64), Concat(RecordList(infos, f64)[i + 1..]) + rest))
      && GenHeader(i, infos[i], f64).index == i
  {
    GenerateBinCorrectedOk(testComment, infos, f64);
    var (p, recs) := GenerateBinCorrected(testComment, infos, f64).value;
    var c := Utf8(testComment);
    assert |p| == PreambleLength(c, |infos|);
    RecordAt(p, infos, f64, rest, PreambleLength(c, |infos|), i);
  }

  /** The header a writer puts down before any record exists: format id,
      the placeholder data offset 934, the comment, 32 single-space reserved
      strings, the channel count, a zero channel limit, `n` zero table
      entries and a zero word; and the position of the first table entry. */
  method BuildPreamble(c: seq<byte>, n: nat) returns (header: seq<byte>, startChannelHeader: nat)
    requires FitsU16(|c|) && FitsU16(n)
    ensures header == Preamble(c, PLACEHOLDER_DATA_OFFSET, ZeroTable(n))
    ensures startChannelHeader == 110 + |c|
  {
    header := PackU16(FILE_ID) + PackU32(PLACEHOLDER_DATA_OFFSET);
    header := header + PackBytes(c);
    ghost var lead := header;
    for i := 0 to RESERVED_STRINGS
      invariant header == lead + Reserved(i)
    {
      ReservedSnoc(i);
      Assoc(lead, Reserved(i), Space());
      header := header + Space();
    }
    header := header + PackU16(n) + PackU32(0);
    startChannelHeader := |header|;
    ghost var mid := header;
    for i := 0 to n
      invariant header == mid + PackTable(ZeroTable(i))
    {
      assert ZeroTable(i + 1)[..i] == ZeroTable(i);
      Assoc(mid, PackTable(ZeroTable(i)), PackU32(0));
      header := header + PackU32(0);
    }
    header := header + PackU32(0);
    PreambleLayout(c, PLACEHOLDER_DATA_OFFSET, ZeroTable(n));
  }

  /** generate_BIN as written: build the preamble with placeholders, build
      each channel's record and note its length, then patch the data offset
      and the channel offset table. `testName` is not used by the source. */
  method GenerateBin(testName: string, testComment: string, channelInfos: seq<Channel>,
                     f64: real -> F64Bytes)
    returns (r: Result<(seq<byte>, seq<byte>)>)
    ensures r == GenerateBinSpec(testComment, channelInfos, f64)
  {
    var numChannels := |channelInfos|;
    var c := Utf8(testComment);
    if !FitsU16(|c|) || !FitsU16(numChannels) {
      return Err(StructError);
    }
    var header, startChannelHeader := BuildPreamble(c, numChannels);
    var err, channelHeaders, chanOffset := BuildRecords(channelInfos, f64);
    if err.Some? {
      return Err(err.value);
    }
    var fullheaderLength := |header| + |channelHeaders|;
    assert |header| == PreambleLength(c, numChannels);
    assert fullheaderLength == FullLength(c, channelInfos, f64);
    if !FitsU32(fullheaderLength) {
      return Err(StructError);
    }
    AsWrittenOffsetsFit(|header|, channelInfos, f64);
    header := PatchHeader(c, header, startChannelHeader, fullheaderLength, chanOffset);
    GenerateBinSpecOk(testComment, channelInfos, f64);
    return Ok((header, channelHeaders));
  }

  /** The two patches generate_BIN makes once every record is built: the
      full header length over the placeholder data offset, then the
      channel offset table. */
  method PatchHeader(c: seq<byte>, header: seq<byte>, startChannelHeader: nat, full: int,
                     chanOffset: seq<nat>)
    returns (patched: seq<byte>)
    requires FitsU16(|c|) && FitsU32(full) && FitsU16(|chanOffset|)
    requires header == Preamble(c, PLACEHOLDER_DATA_OFFSET, ZeroTable(|chanOffset|))
    requires startChannelHeader == 110 + |c|
    requires AllFitU32(AsWrittenOffsets(|header|, chanOffset))
    ensures patched == Preamble(c, full, AsWrittenOffsets(|header|, chanOffset))
  {
    var n := |chanOffset|;
    PatchDataOffset(c, PLACEHOLDER_DATA_OFFSET, full, ZeroTable(n));
    patched := header[..2] + PackU32(full) + header[6..];
    assert patched == Preamble(c, full, ZeroTable(n));
    assert |patched| == |header|;
    ghost var table := AsWrittenOffsets(|header|, chanOffset);
    PreambleTableSwap(c, full, ZeroTable(n), table, startChannelHeader);
    patched := PatchAsWrittenTable(patched, startChannelHeader, chanOffset);
  }

  /** The channel loop of generate_BIN: each channel's record appended to
      the block and its length to `chanOffset`, stopping at the first channel
      whose record cannot be built. */
  method BuildRecords(channelInfos: seq<Channel>, f64: real -> F64Bytes)
    returns (err: Option<PyError>, channelHeaders: seq<byte>, chanOffset: seq<nat>)
    requires FitsU16(|channelInfos|)
    ensures err == FirstChannelError(channelInfos)
    ensures err == None ==> channelHeaders == RecordsOf(channelInfos, f64)
    ensures err == None ==> chanOffset == LengthsOf(channelInfos)
  {
    channelHeaders := [];
    chanOffset := [];
    for i := 0 to |channelInfos|
      invariant NoChannelErrors(channelInfos[..i])
      invariant channelHeaders == RecordsOf(channelInfos[..i], f64)
      invariant chanOffset == LengthsOf(channelInfos[..i])
    {
      var e := ChannelError(channelInfos[i]);
      if e.Some? {
        FirstErrorAfterPrefix(channelInfos, i);
        return e, channelHeaders, chanOffset;
      }
      BuildRecordsStep(channelInfos, f64, i, channelHeaders, chanOffset);
      var ch := ChannelRecord(i, channelInfos[i], f64);
      var len: nat := |ch|;
      chanOffset := chanOffset + [len];
      channelHeaders := channelHeaders + ch;
    }
    assert channelInfos[..|channelInfos|] == channelInfos;
    err := None;
  }

  /** One turn of the channel loop keeps the block and the lengths those
      of the channels so far. */
  lemma BuildRecordsStep(infos: seq<Channel>, f64: real -> F64Bytes, i: nat, headers: seq<byte>, offsets: seq<nat>)
    requires FitsU16(|infos|) && i < |infos| && NoChannelErrors(infos[..i]) && ChannelError(infos[i]) == None
    requires headers == RecordsOf(infos[..i], f64) && offsets == LengthsOf(infos[..i])
    ensures NoChannelErrors(infos[..i + 1])
    ensures headers + ChannelRecord(i, infos[i], f64) == RecordsOf(infos[..i + 1], f64)
    ensures offsets + [|ChannelRecord(i, infos[i], f64)|] == LengthsOf(infos[..i + 1])
  {
    NoChannelErrorsStep(infos, i);
    RecordListSnoc(infos, f64, i);
    RecordListAt(infos[..i + 1], f64, i);
    ConcatSnoc(RecordList(infos[..i], f64), ChannelRecord(i, infos[i], f64));
    LengthsOfSnoc(infos, i);
  }

  /** The table patch loop of generate_BIN: entries 0 and 1 get the
      preamble length, entry `i > 1` the preamble length plus the length of
      record `i - 1`, each written as "L" over the four bytes of entry `i`
      of the table that starts at `startChannelHeader`. */
  method PatchAsWrittenTable(header: seq<byte>, startChannelHeader: nat, chanOffset: seq<nat>)
    returns (patched: seq<byte>)
    requires startChannelHeader + 4 * |chanOffset| <= |header|
    requires AllFitU32(AsWrittenOffsets(|header|, chanOffset))
    ensures patched == header[..startChannelHeader] + PackTable(AsWrittenOffsets(|header|, chanOffset))
                       + header[startChannelHeader + 4 * |chanOffset|..]
  {
    var hlen := |header|;
    ghost var table := AsWrittenOffsets(hlen, chanOffset);
    patched := header;
    PatchTableStart(header, startChannelHeader, table);
    for i := 0 to |chanOffset|
      invariant patched == header[..startChannelHeader] + PackTable(table[..i])
                           + header[startChannelHeader + 4 * i..]
    {
      var v;
      if i > 1 {
        v := hlen + chanOffset[i - 1];
      } else {
        v := hlen;
      }
      assert v == table[i];
      var at := startChannelHeader + 4 * i;
      PatchTableStep(header, startChannelHeader, table, i, patched, at);
      patched := patched[..at] + PackU32(v) + patched[at + 4..];
    }
    assert table[..|chanOffset|] == table;
  }

  /** Before any entry is written, the header is its part before the table,
      no entries and the rest. */
  lemma PatchTableStart(h: seq<byte>, start: nat, t: seq<int>)
    requires start <= |h|
    ensures AllFitU32(t[..0])
    ensures h == h[..start] + PackTable(t[..0]) + h[start..]
  {
    assert t[..0] == [];
  }

  /** Writing entry `i` of `t` behind the first `i` entries, already written
      over the table region of `h` that starts at `start`. */
  lemma PatchTableStep(h: seq<byte>, start: nat, t: seq<int>, i: nat, p: seq<byte>, at: nat)
    requires AllFitU32(t) && i < |t| && start + 4 * |t| <= |h| && at == start + 4 * i
    requires AllFitU32(t[..i]) && p == h[..start] + PackTable(t[..i]) + h[at..]
    ensures AllFitU32(t[..i + 1])
    ensures at + 4 <= |p| && p[..at] + PackU32(t[i]) + p[at + 4..]
      == h[..start] + PackTable(t[..i + 1]) + h[start + 4 * (i + 1)..]
  {
    assert t[..i + 1][..i] == t[..i];
    var lead := h[..start] + PackTable(t[..i]);
    assert p[..at] == lead;
    assert p[at + 4..] == h[start + 4 * (i + 1)..];
    Assoc(h[..start], PackTable(t[..i]), PackU32(t[i]));
  }
}
