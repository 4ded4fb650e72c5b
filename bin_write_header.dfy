/** `bin_write_header` of src/bin_data.py: the BIN header for the three
    accelerometer axes of one logger, taken from the logger's data
    dictionary. Its records all have one length, so its offset table,
    written as the preamble length plus `i` record lengths, lands on each
    record. */
module BinWriteHeader {
  import opened Py
  import opened Packing
  import opened BinData
  import opened BinWriter
  import Arith

  /** The entries of the data dictionary the writer reads:
      data['file']['name'], int(data['first']['channels']),
      int(data['file']['numSamples']), float(data['first']['timestamp']) and
      float(data['header']['sampleRate']). */
  datatype LoggerData = LoggerData(
    fileName: string,
    channels: int,
    numSamples: int,
    timestamp: real,
    sampleRate: real)

  /** The axis tag each channel name ends with. */
  const CHAN_TAGS: seq<string> := ["x", "y", "z"]

  /** The TID placeholder of the sensor-info block. */
  const TID: string := "[TID]"

  /** `name[:-4]`: the file name without its four-character extension;
      empty when the name is shorter than that. */
  function InputName(fileName: string): (r: string)
    ensures |fileName| >= 4 ==> |r| == |fileName| - 4
    ensures |fileName| < 4 ==> r == []
    ensures r <= fileName
  {
    fileName[..if |fileName| >= 4 then |fileName| - 4 else 0]
  }

  /** The header comment: "Comment: " and the cleaned name, as UTF-8. */
  function CommentBytes(data: LoggerData): seq<byte>
  {
    Utf8("Comment: " + InputName(data.fileName))
  }

  /** The name of channel `i`: the cleaned name, "_" and the axis tag. */
  function ChannelName(inputName: string, i: nat): string
    requires i < |CHAN_TAGS|
  {
    inputName + "_" + CHAN_TAGS[i]
  }

  /** Every channel name encodes to two bytes more than the cleaned name. */
  lemma ChannelNameLength(inputName: string, i: nat)
    requires i < |CHAN_TAGS|
    ensures |Utf8(ChannelName(inputName, i))| == |Utf8(inputName)| + 2
  {
    assert IsAscii(CHAN_TAGS[i]) && |CHAN_TAGS[i]| == 1 by {
      assert i == 0 || i == 1 || i == 2;
    }
    Utf8Concat(inputName + "_", CHAN_TAGS[i]);
    Utf8Concat(inputName, "_");
  }

  /** The exception building the record of channel `i` raises, if any, in
      the order the loop meets them: no axis tag for `i` (IndexError), the
      sample count does not fit "L", the channel name is too long for its
      "H" length prefix, or the sample rate is zero (1000.0 / rate). */
  function AxisError(data: LoggerData, i: nat): (r: Option<PyError>)
    ensures i >= |CHAN_TAGS| ==> r == Some(IndexError)
    ensures r == None <==> (&& i < |CHAN_TAGS| && FitsU32(data.numSamples)
                            && StringFits(ChannelName(InputName(data.fileName), i)) && data.sampleRate != 0.0)
    ensures r.Some? ==> r.value == IndexError || r.value == StructError || r.value == ZeroDivisionError
  {
    if i >= |CHAN_TAGS| then Some(IndexError)
    else if !FitsU32(data.numSamples) then Some(StructError)
    else if !StringFits(ChannelName(InputName(data.fileName), i)) then Some(StructError)
    else if data.sampleRate == 0.0 then Some(ZeroDivisionError)
    else None
  }

  /** The three axes fail or succeed alike. */
  lemma AxisErrorUniform(data: LoggerData, i: nat)
    requires i < |CHAN_TAGS|
    ensures AxisError(data, i) == AxisError(data, 0)
  {
    ChannelNameLength(InputName(data.fileName), i);
    ChannelNameLength(InputName(data.fileName), 0);
  }

  /** The exception the channel loop over `n` channels stops at: that of
      the first channel whose record cannot be built. */
  function FirstAxisError(data: LoggerData, n: nat): (r: Option<PyError>)
    ensures r == None <==> forall i :: 0 <= i < n ==> AxisError(data, i) == None
    ensures r == None ==> n <= |CHAN_TAGS|
    ensures r.Some? ==> exists i :: 0 <= i < n && r == AxisError(data, i)
                                    && forall j :: 0 <= j < i ==> AxisError(data, j) == None
  {
    if n == 0 then None
    else
      var r := FirstAxisError(data, n - 1);
      if r.Some? then r
      else
        assert AxisError(data, |CHAN_TAGS|).Some?;
        AxisError(data, n - 1)
  }

  /** When channels before `i` raise nothing and channel `i` raises, a loop
      over more than `i` channels raises channel `i`'s exception. */
  lemma {:induction false} FirstAxisErrorAt(data: LoggerData, i: nat, n: nat)
    requires i < n && FirstAxisError(data, i) == None && AxisError(data, i).Some?
    ensures FirstAxisError(data, n) == AxisError(data, i)
  {
    if n > i + 1 {
      FirstAxisErrorAt(data, i, n - 1);
    }
  }

  /** Which exception the loop raises: channel 0's, as every axis fails
      alike, or else IndexError at a fourth channel, which has no tag. */
  lemma FirstAxisErrorCases(data: LoggerData, n: nat)
    requires n >= 1
    ensures FirstAxisError(data, n)
         == if AxisError(data, 0).Some? then AxisError(data, 0)
            else if n > |CHAN_TAGS| then Some(IndexError)
            else None
  {
    if AxisError(data, 0).Some? {
      FirstAxisErrorAt(data, 0, n);
    } else {
      AxisErrorUniform(data, 1);
      AxisErrorUniform(data, 2);
      if n > |CHAN_TAGS| {
        FirstAxisErrorAt(data, |CHAN_TAGS|, n);
      } else {
        assert forall i :: 0 <= i < n ==> AxisError(data, i) == None by {
          forall i | 0 <= i < n
            ensures AxisError(data, i) == None
          {
            assert i == 0 || i == 1 || i == 2;
          }
        }
      }
    }
  }

  /** The values `bin_write_header` writes into the record of channel `i`:
      index `i + 10` but SubSlot `i`, the channel name as name and as
      comment, units "g", the logger's start time in the date field and in
      T0, dt = 1000 / sampleRate milliseconds, and the description and TID
      placeholders. */
  function AxisHeader(data: LoggerData, i: nat, f64: real -> F64Bytes): (h: ChannelHeader)
    requires i < |CHAN_TAGS| && data.sampleRate != 0.0
    ensures h.index == i + 10 && h.subSlot == i && h.samples == data.numSamples
    ensures h.name == h.comment == Utf8(ChannelName(InputName(data.fileName), i))
    ensures h.units == Ascii(UNITS) && h.time == h.t0
  {
    var name := Utf8(ChannelName(InputName(data.fileName), i));
    var startTime := f64(SecondsToBinTime(data.timestamp));
    ChannelHeader(
      index := i + 10,
      samples := data.numSamples,
      name := name,
      units := Ascii(UNITS),
      comment := name,
      time := startTime,
      t0 := startTime,
      dt := f64(1000.0 / data.sampleRate),
      subSlot := i,
      description := PadTo(Ascii(DESCRIPTION), 50),
      tid := PadTo(Ascii(TID), 16))
  }

  /** The length every record of this logger has: 258 bytes and the channel
      name twice, the name being the cleaned name and two bytes. */
  function RecordLength(data: LoggerData): (r: nat)
    ensures forall i | 0 <= i < |CHAN_TAGS| :: r == 258 + 2 * |Utf8(ChannelName(InputName(data.fileName), i))|
  {
    var inputName := InputName(data.fileName);
    forall i | 0 <= i < |CHAN_TAGS|
      ensures |Utf8(ChannelName(inputName, i))| == |Utf8(inputName)| + 2
    {
      ChannelNameLength(inputName, i);
    }
    262 + 2 * |Utf8(inputName)|
  }

  /** The record of channel `i`, when building it raises nothing. */
  function AxisRecord(data: LoggerData, i: nat, f64: real -> F64Bytes): (r: seq<byte>)
    requires i < |CHAN_TAGS| && AxisError(data, i) == None
    ensures |r| == RecordLength(data)
    ensures |r| == 258 + 2 * |Utf8(ChannelName(InputName(data.fileName), i))|
  {
    ChannelNameLength(InputName(data.fileName), i);
    EncodeChannelHeader(AxisHeader(data, i, f64))
  }

  /** The records of channels 0 to `n - 1`, in channel order. */
  function AxisRecords(data: LoggerData, n: nat, f64: real -> F64Bytes): (r: seq<seq<byte>>)
    requires FirstAxisError(data, n) == None
    ensures |r| == n
  {
    if n == 0 then [] else AxisRecords(data, n - 1, f64) + [AxisRecord(data, n - 1, f64)]
  }

  /** Record `i` of the list is channel `i`'s record. */
  lemma {:induction false} AxisRecordsAt(data: LoggerData, n: nat, f64: real -> F64Bytes, i: nat)
    requires FirstAxisError(data, n) == None && i < n
    ensures AxisRecords(data, n, f64)[i] == AxisRecord(data, i, f64)
  {
    SnocAt(AxisRecords(data, n - 1, f64), AxisRecord(data, n - 1, f64), i);
    if i < n - 1 {
      AxisRecordsAt(data, n - 1, f64, i);
    }
  }

  /** The block of records the channel loop builds. */
  function AxisRecordsOf(data: LoggerData, n: nat, f64: real -> F64Bytes): seq<byte>
    requires FirstAxisError(data, n) == None
  {
    Concat(AxisRecords(data, n, f64))
  }

  /** A channel that builds without error appends its record. */
  lemma AxisRecordsStep(data: LoggerData, i: nat, f64: real -> F64Bytes)
    requires FirstAxisError(data, i) == None && AxisError(data, i) == None
    ensures i < |CHAN_TAGS| && FirstAxisError(data, i + 1) == None
    ensures AxisRecordsOf(data, i + 1, f64) == AxisRecordsOf(data, i, f64) + AxisRecord(data, i, f64)
  {
    ConcatSnoc(AxisRecords(data, i, f64), AxisRecord(data, i, f64));
  }

  /** Every record in the list has the one record length. */
  lemma {:induction false} AxisRecordsUniform(data: LoggerData, n: nat, f64: real -> F64Bytes)
    requires FirstAxisError(data, n) == None
    ensures forall i :: 0 <= i < n ==> |AxisRecords(data, n, f64)[i]| == RecordLength(data)
    ensures |AxisRecordsOf(data, n, f64)| == n * RecordLength(data)
  {
    var rs := AxisRecords(data, n, f64);
    forall i | 0 <= i < n
      ensures |rs[i]| == RecordLength(data)
    {
      AxisRecordsAt(data, n, f64, i);
    }
    ConcatUniform(rs, RecordLength(data));
  }

  /** The offset table `bin_write_header` writes: entry `i` is `base + i * step`. */
  function EvenOffsets(base: nat, n: nat, step: nat): (r: seq<nat>)
    ensures |r| == n
  {
    seq(n, i requires 0 <= i < n => base + i * step)
  }

  /** With a positive step, the entries are evenly spaced and strictly
      increasing. */
  lemma EvenOffsetsIncreasing(base: nat, n: nat, step: nat)
    requires step > 0
    ensures var t := EvenOffsets(base, n, step);
      && (forall i :: 0 <= i < n - 1 ==> t[i + 1] - t[i] == step)
      && (forall i, j :: 0 <= i < j < n ==> t[i] < t[j])
  {
    var t := EvenOffsets(base, n, step);
    forall i, j | 0 <= i < j < n
      ensures t[i] < t[j]
    {
      var d := j - i;
      assert j * step == i * step + d * step;
      Arith.IntProductPositive(d, step);
    }
  }

  /** Every entry is below `base + n * step`, so all fit "L" when that does. */
  lemma EvenOffsetsFit(base: nat, n: nat, step: nat)
    requires FitsU32(base + n * step)
    ensures AllFitU32(EvenOffsets(base, n, step))
  {
    var t := EvenOffsets(base, n, step);
    forall i | 0 <= i < n
      ensures FitsU32(t[i])
    {
      assert n * step - i * step == (n - i) * step;
    }
  }

  /** The entries are where the records start when they follow a preamble
      of length `base`. */
  lemma EvenOffsetsAreStarts(base: nat, data: LoggerData, n: nat, f64: real -> F64Bytes)
    requires FirstAxisError(data, n) == None
    ensures EvenOffsets(base, n, RecordLength(data)) == Starts(base, AxisRecords(data, n, f64))
  {
    var rs := AxisRecords(data, n, f64);
    var t := EvenOffsets(base, n, RecordLength(data));
    var s := Starts(base, rs);
    AxisRecordsUniform(data, n, f64);
    forall i | 0 <= i < n
      ensures t[i] == s[i]
    {
      ConcatUniform(rs[..i], RecordLength(data));
    }
  }

  /** The full header length: the preamble and every record. */
  function WriteHeaderLength(data: LoggerData, f64: real -> F64Bytes): nat
    requires 0 <= data.channels && FirstAxisError(data, data.channels) == None
  {
    PreambleLength(CommentBytes(data), data.channels) + |AxisRecordsOf(data, data.channels, f64)|
  }

  /** What `bin_write_header(data)` returns or raises: the comment or the
      channel count does not fit its field, a channel's record cannot be
      built, or the full length does not fit "L"; otherwise the preamble
      with the full length as data offset and the evenly spaced table, and
      the block of records. */
  function WriteHeaderSpec(data: LoggerData, f64: real -> F64Bytes): (r: Result<(seq<byte>, seq<byte>)>)
    ensures r.Ok? ==> FitsU16(data.channels) && |r.value.0| == PreambleLength(CommentBytes(data), data.channels)
    ensures r.Ok? ==> U32At(r.value.0, 2) == |r.value.0| + |r.value.1|
    ensures r.Ok? ==> |r.value.1| == data.channels * RecordLength(data)
  {
    var c := CommentBytes(data);
    if !FitsU16(|c|) || !FitsU16(data.channels) then Err(StructError)
    else if FirstAxisError(data, data.channels).Some? then Err(FirstAxisError(data, data.channels).value)
    else
      var n := data.channels;
      var records := AxisRecordsOf(data, n, f64);
      var hlen := PreambleLength(c, n);
      var full := WriteHeaderLength(data, f64);
      if !FitsU32(full) then Err(StructError)
      else
        AxisRecordsUniform(data, n, f64);
        var table := EvenOffsets(hlen, n, RecordLength(data));
        EvenOffsetsFit(hlen, n, RecordLength(data));
        PreambleDataOffset(c, full, table);
        Ok((Preamble(c, full, table), records))
  }

  /** The exceptions `bin_write_header` raises: struct.error for a comment
      or a channel count that does not fit, channel 0's exception for any
      channel count from 1, IndexError beyond three channels, and
      struct.error for a header longer than "L" can say. */
  lemma WriteHeaderErrors(data: LoggerData, f64: real -> F64Bytes)
    ensures !FitsU16(|CommentBytes(data)|) || !FitsU16(data.channels)
            ==> WriteHeaderSpec(data, f64) == Err(StructError)
    ensures FitsU16(|CommentBytes(data)|) && FitsU16(data.channels) && data.channels >= 1
            && AxisError(data, 0).Some?
            ==> WriteHeaderSpec(data, f64) == Err(AxisError(data, 0).value)
    ensures FitsU16(|CommentBytes(data)|) && FitsU16(data.channels) && data.channels > |CHAN_TAGS|
            && AxisError(data, 0) == None
            ==> WriteHeaderSpec(data, f64) == Err(IndexError)
    ensures WriteHeaderSpec(data, f64).Ok? ==> 0 <= data.channels <= |CHAN_TAGS|
  {
    if FitsU16(|CommentBytes(data)|) && FitsU16(data.channels) && data.channels >= 1 {
      FirstAxisErrorCases(data, data.channels);
    }
  }

  /** When nothing raises, the result is the preamble carrying the full
      length and the evenly spaced table, and the block of records. */
  lemma WriteHeaderSpecOk(data: LoggerData, f64: real -> F64Bytes)
    requires FitsU16(|CommentBytes(data)|) && FitsU16(data.channels)
    requires FirstAxisError(data, data.channels) == None
    requires FitsU32(WriteHeaderLength(data, f64))
    ensures var hlen := PreambleLength(CommentBytes(data), data.channels);
      AllFitU32(EvenOffsets(hlen, data.channels, RecordLength(data)))
    ensures var c := CommentBytes(data);
      var hlen := PreambleLength(c, data.channels);
      WriteHeaderSpec(data, f64)
        == Ok((Preamble(c, WriteHeaderLength(data, f64), EvenOffsets(hlen, data.channels, RecordLength(data))),
               AxisRecordsOf(data, data.channels, f64)))
  {
    var hlen := PreambleLength(CommentBytes(data), data.channels);
    AxisRecordsUniform(data, data.channels, f64);
    EvenOffsetsFit(hlen, data.channels, RecordLength(data));
  }

  /** A successful `bin_write_header`: its header reads back as the
      comment, the data offset equal to the length of header and records
      together, and the evenly spaced table; the records follow it. */
  lemma WriteHeaderReadsBack(data: LoggerData, f64: real -> F64Bytes, rest: seq<byte>)
    requires WriteHeaderSpec(data, f64).Ok?
    ensures 0 <= data.channels && FirstAxisError(data, data.channels) == None
    ensures var r := WriteHeaderSpec(data, f64).value;
      var c := CommentBytes(data);
      var hlen := PreambleLength(c, data.channels);
      && |r.0| == hlen && |r.0| + |r.1| == WriteHeaderLength(data, f64)
      && DecodePreamble(r.0 + rest)
         == Some((PreambleFields(WriteHeaderLength(data, f64), c,
                                 EvenOffsets(hlen, data.channels, RecordLength(data))), rest))
  {
    var c := CommentBytes(data);
    var hlen := PreambleLength(c, data.channels);
    assert FirstAxisError(data, data.channels) == None;
    WriteHeaderSpecOk(data, f64);
    PreambleRoundTrip(c, WriteHeaderLength(data, f64), EvenOffsets(hlen, data.channels, RecordLength(data)), rest);
  }

  /** Following entry `i` of the table of a successful `bin_write_header`
      through header, records and whatever comes after reads channel `i`'s
      record back: index `i + 10`, SubSlot `i`, the logger's sample count,
      and the channel name as name and comment. */
  lemma WriteHeaderLocatesRecords(data: LoggerData, f64: real -> F64Bytes, i: nat, rest: seq<byte>)
    requires WriteHeaderSpec(data, f64).Ok? && i < data.channels
    ensures i < |CHAN_TAGS| && data.sampleRate != 0.0
    ensures var r := WriteHeaderSpec(data, f64).value;
      var t := EvenOffsets(|r.0|, data.channels, RecordLength(data));
      && t[i] <= |r.0 + r.1 + rest|
      && DecodeChannelHeader((r.0 + r.1 + rest)[t[i]..]).Some?
      && DecodeChannelHeader((r.0 + r.1 + rest)[t[i]..]).value.0 == AxisHeader(data, i, f64)
    ensures var h := AxisHeader(data, i, f64);
      && h.index == i + 10 && h.subSlot == i && h.samples == data.numSamples
      && h.name == h.comment == Utf8(ChannelName(InputName(data.fileName), i))
  {
    assert FirstAxisError(data, data.channels) == None;
    var n := data.channels;
    var r := WriteHeaderSpec(data, f64).value;
    var rs := AxisRecords(data, n, f64);
    assert AxisError(data, i) == None;
    WriteHeaderSpecOk(data, f64);
    assert r.1 == Concat(rs);
    EvenOffsetsAreStarts(|r.0|, data, n, f64);
    StartsLocate(r.0, rs, rest, |r.0|, i);
    AxisRecordsAt(data, n, f64, i);
    ChannelNameLength(InputName(data.fileName), i);
    ChannelHeaderRoundTrip(AxisHeader(data, i, f64), Concat(rs[i + 1..]) + rest);
  }

  // ---------------------------------------------------------------------
  // The writer

  /** bin_write_header as written: build the preamble with placeholders,
      build each axis's record, then patch the data offset and the channel
      offset table, entry `i` being the preamble length plus `i` times the
      length of the last record built. */
  method BinWriteHeader(data: LoggerData, f64: real -> F64Bytes) returns (r: Result<(seq<byte>, seq<byte>)>)
    ensures r == WriteHeaderSpec(data, f64)
  {
    var inputName := InputName(data.fileName);
    var c := Utf8("Comment: " + inputName);
    if !FitsU16(|c|) || !FitsU16(data.channels) {
      return Err(StructError);
    }
    var numChannels: nat := data.channels;
    var header, startChannelHeader := BuildPreamble(c, numChannels);
    var err, channelHeaders, ch := BuildAxisRecords(data, numChannels, f64);
    if err.Some? {
      return Err(err.value);
    }
    var hlen := |header|;
    var fullheaderLength := hlen + |channelHeaders|;
    WriteHeaderLengthIs(data, f64, hlen, channelHeaders);
    if !FitsU32(fullheaderLength) {
      return Err(StructError);
    }
    WriteHeaderResult(data, f64, hlen, channelHeaders, fullheaderLength, |ch|);
    header := PatchEvenHeader(c, header, startChannelHeader, fullheaderLength, numChannels, |ch|);
    return Ok((header, channelHeaders));
  }

  /** After the channel loop, the preamble and the record block together
      are as long as the spec's full length; a too long one is the spec's
      error. */
  lemma WriteHeaderLengthIs(data: LoggerData, f64: real -> F64Bytes, hlen: nat, recs: seq<byte>)
    requires FitsU16(|CommentBytes(data)|) && FitsU16(data.channels)
    requires FirstAxisError(data, data.channels) == None
    requires hlen == PreambleLength(CommentBytes(data), data.channels)
    requires recs == AxisRecordsOf(data, data.channels, f64)
    ensures hlen + |recs| == WriteHeaderLength(data, f64)
    ensures !FitsU32(hlen + |recs|) ==> WriteHeaderSpec(data, f64) == Err(StructError)
  {
  }

  /** After the channel loop, with the full length fitting "L", the spec's
      result is the preamble with that length and the table spaced by the
      last record's length, and the record block. */
  lemma WriteHeaderResult(data: LoggerData, f64: real -> F64Bytes, hlen: nat, recs: seq<byte>, full: nat, chLen: nat)
    requires FitsU16(|CommentBytes(data)|) && FitsU16(data.channels)
    requires FirstAxisError(data, data.channels) == None
    requires hlen == PreambleLength(CommentBytes(data), data.channels)
    requires recs == AxisRecordsOf(data, data.channels, f64)
    requires full == hlen + |recs| && FitsU32(full)
    requires data.channels > 0 ==> chLen == RecordLength(data)
    ensures AllFitU32(EvenOffsets(hlen, data.channels, chLen))
    ensures WriteHeaderSpec(data, f64)
         == Ok((Preamble(CommentBytes(data), full, EvenOffsets(hlen, data.channels, chLen)), recs))
  {
    EvenOffsetsSameStep(hlen, data.channels, chLen, RecordLength(data));
    assert full == WriteHeaderLength(data, f64);
    WriteHeaderSpecOk(data, f64);
  }

  lemma EvenOffsetsSameStep(base: nat, n: nat, step: nat, step': nat)
    requires n > 0 ==> step == step'
    ensures EvenOffsets(base, n, step) == EvenOffsets(base, n, step')
  {
  }

  /** The channel loop of bin_write_header: each axis's record appended to
      the block, stopping at the first channel whose record cannot be
      built; `ch` is the last record built. */
  method BuildAxisRecords(data: LoggerData, n: nat, f64: real -> F64Bytes)
    returns (err: Option<PyError>, channelHeaders: seq<byte>, ch: seq<byte>)
    ensures err == FirstAxisError(data, n)
    ensures err == None ==> channelHeaders == AxisRecordsOf(data, n, f64)
    ensures err == None && n > 0 ==> |ch| == RecordLength(data)
  {
    channelHeaders := [];
    ch := [];
    for i := 0 to n
      invariant FirstAxisError(data, i) == None
      invariant channelHeaders == AxisRecordsOf(data, i, f64)
      invariant i > 0 ==> |ch| == RecordLength(data)
    {
      var e := AxisError(data, i);
      if e.Some? {
        FirstAxisErrorAt(data, i, n);
        return e, channelHeaders, ch;
      }
      AxisRecordsStep(data, i, f64);
      ch := AxisRecord(data, i, f64);
      channelHeaders := channelHeaders + ch;
    }
    err := None;
  }

  /** The two patches bin_write_header makes once every record is built:
      the full header length over the placeholder data offset, then the
      evenly spaced channel offset table. */
  method PatchEvenHeader(c: seq<byte>, header: seq<byte>, startChannelHeader: nat, full: int,
                         n: nat, recordLength: nat)
    returns (patched: seq<byte>)
    requires FitsU16(|c|) && FitsU32(full) && FitsU16(n)
    requires header == Preamble(c, PLACEHOLDER_DATA_OFFSET, ZeroTable(n))
    requires startChannelHeader == 110 + |c|
    requires AllFitU32(EvenOffsets(|header|, n, recordLength))
    ensures patched == Preamble(c, full, EvenOffsets(|header|, n, recordLength))
  {
    PatchDataOffset(c, PLACEHOLDER_DATA_OFFSET, full, ZeroTable(n));
    patched := header[..2] + PackU32(full) + header[6..];
    assert patched == Preamble(c, full, ZeroTable(n));
    PreambleTableSwap(c, full, ZeroTable(n), EvenOffsets(|header|, n, recordLength), startChannelHeader);
    patched := PatchEvenTable(patched, startChannelHeader, n, recordLength);
  }

  /** The table patch loop of bin_write_header: entry `i` gets the header
      length plus `i` record lengths, written as "L" over the four bytes of
      entry `i` of the table that starts at `startChannelHeader`. */
  method PatchEvenTable(header: seq<byte>, startChannelHeader: nat, n: nat, recordLength: nat)
    returns (patched: seq<byte>)
    requires startChannelHeader + 4 * n <= |header|
    requires AllFitU32(EvenOffsets(|header|, n, recordLength))
    ensures patched == header[..startChannelHeader] + PackTable(EvenOffsets(|header|, n, recordLength))
                       + header[startChannelHeader + 4 * n..]
  {
    ghost var table := EvenOffsets(|header|, n, recordLength);
    patched := header;
    PatchTableStart(header, startChannelHeader, table);
    for i := 0 to n
      invariant patched == header[..startChannelHeader] + PackTable(table[..i])
                           + header[startChannelHeader + 4 * i..]
    {
      var v := |header| + i * recordLength;
      var at := startChannelHeader + 4 * i;
      PatchTableStep(header, startChannelHeader, table, i, patched, at);
      patched := patched[..at] + PackU32(v) + patched[at + 4..];
    }
    assert table[..n] == table;
  }
}
