/** The catman BIN container header: the file preamble (format id, data
    offset, comment, 32 reserved strings, channel count, channel offset
    table) and one fixed-layout header record per channel, built the way
    `generate_BIN` and `bin_write_header` build them, and the readers that
    take them apart again. */
module BinData {
  import opened Py
  import opened Packing

  /** The Channel record: what the converter knows about one output channel. */
  datatype Channel = Channel(
    logger: string,
    name: string,
    comment: string,
    deviceId: string,
    sessionId: string,
    numSamples: int,
    sampleRate: real,
    startTime: real,
    stopTime: real)

  const FILE_ID: int := 5012
  const PLACEHOLDER_DATA_OFFSET: int := 934
  const RESERVED_STRINGS: nat := 32
  const EXT_HEADER_SIZE: nat := 148
  const SENSOR_INFO_SIZE: nat := 70
  const UNITS: string := "g"

  /** pack("f", 0): the IEEE-754 single 0.0 is four zero bytes. */
  function F32Zero(): (r: seq<byte>)
  {
    Zeros(4)
  }

  /** The eight bytes of a packed double. pack("d", x) is not modelled bit
      for bit: the writers take an encoder `real -> F64Bytes` for it. */
  type F64Bytes = s: seq<byte> | |s| == 8 witness [0, 0, 0, 0, 0, 0, 0, 0]

  /** `buf[start : start + 8] = pack('d', x)`: the eight bytes go in, every
      other byte stays. */
  method StoreDouble(buf: array<byte>, start: nat, bytes: F64Bytes)
    requires start + 8 <= buf.Length
    modifies buf
    ensures forall q | 0 <= q < buf.Length ::
      buf[q] == if start <= q < start + 8 then bytes[q - start] else old(buf[q])
  {
    forall d | 0 <= d < 8 {
      buf[start + d] := bytes[d];
    }
  }

  /** The fields of VB_DB_CHANHEADER between dt and SubSlot, all zero:
      SensorType, SupplyVoltage, FiltChar, FiltFreq, TareVal, ZeroVal,
      MeasRange, InChar, SerNo (32s), PhysUnit (8s), NativeUnit (8s), Slot. */
  function FieldsBeforeSubSlot(): (r: seq<byte>)
    ensures r == Zeros(84)
  {
    var r := PackU32(0) + PackU32(0) + PackU32(0) + PackU32(0)
      + F32Zero() + F32Zero() + F32Zero() + F32Zero()
      + PadTo(Utf8(""), 32) + PadTo(Utf8(""), 8) + PadTo(Utf8(""), 8)
      + PackU32(0);
    assert forall i | 0 <= i < 84 :: r[i] == 0;
    r
  }

  /** The fields of VB_DB_CHANHEADER after SubSlot, all zero: AmpType,
      APType, kFactor, bFactor, MeasSig, AmpInput, HPFilt, OLImportInfo,
      ScaleType, SoftwareTareVal, WriteProtected, NominalRange, CLCFactor,
      ExportFormat. The 10-byte Reserve string is not written. */
  function FieldsAfterSubSlot(): (r: seq<byte>)
    ensures r == Zeros(44)
  {
    var r := PackU32(0) + PackU32(0)
      + F32Zero() + F32Zero()
      + PackU32(0) + PackU32(0) + PackU32(0)
      + PackU8(0) + PackU8(0) + F32Zero() + PackU8(0)
      + F32Zero() + F32Zero() + PackU8(0);
    assert forall i | 0 <= i < 44 :: r[i] == 0;
    r
  }

  /** The fields of VB_DB_CHANHEADER after dt: all zero except SubSlot. */
  function Settings(subSlot: int): (r: seq<byte>)
    requires FitsU32(subSlot)
    ensures |r| == 132
  {
    FieldsBeforeSubSlot() + PackU32(subSlot) + FieldsAfterSubSlot()
  }

  /** The VB_DB_CHANHEADER block: T0 and dt as doubles, the SubSlot field,
      every other field zero; its fields add up to exactly the 148 bytes the
      record announces in front of it. */
  function ExtendedBlock(t0: seq<byte>, dt: seq<byte>, subSlot: int): (r: seq<byte>)
    requires |t0| == 8 && |dt| == 8 && FitsU32(subSlot)
    ensures |r| == EXT_HEADER_SIZE
  {
    t0 + dt + Settings(subSlot)
  }

  /** The 70-byte DBSensorInfo block: InUse, then the description and the
      TID, each already cut or padded to its width. */
  function SensorInfo(description: seq<byte>, tid: seq<byte>): (r: seq<byte>)
    requires |description| == 50 && |tid| == 16
    ensures |r| == SENSOR_INFO_SIZE
  {
    PackU32(0) + description + tid
  }

  /** The linearisation fields (LIN_MODE, user scale type, NUM_LINS, no
      table entries), Thermo-Type, an empty formula, and the size of the
      sensor-info block that follows (11 bytes). */
  function Linearisation(): (r: seq<byte>)
    ensures |r| == 11
  {
    PackU8(0) + PackU8(0) + PackU8(0) + PackU16(0) + PackU16(0) + PackU32(SENSOR_INFO_SIZE)
  }

  /** Everything after the extended block (81 bytes). */
  function Trailer(description: seq<byte>, tid: seq<byte>): (r: seq<byte>)
    requires |description| == 50 && |tid| == 16
    ensures |r| == 81
  {
    Linearisation() + SensorInfo(description, tid)
  }

  /** The values a channel header record carries. `time`, `t0` and `dt` are
      the 8-byte encodings of doubles. */
  datatype ChannelHeader = ChannelHeader(
    index: int,
    samples: int,
    name: seq<byte>,
    units: seq<byte>,
    comment: seq<byte>,
    time: seq<byte>,
    t0: seq<byte>,
    dt: seq<byte>,
    subSlot: int,
    description: seq<byte>,
    tid: seq<byte>)

  /** Every field fits the width the record gives it. */
  predicate WellFormed(h: ChannelHeader)
  {
    && FitsU16(h.index) && FitsU32(h.samples)
    && FitsU16(|h.name|) && FitsU16(|h.units|) && FitsU16(|h.comment|)
    && |h.time| == 8 && |h.t0| == 8 && |h.dt| == 8
    && FitsU32(h.subSlot)
    && |h.description| == 50 && |h.tid| == 16
  }

  /** The variable-size part of a record: index, sample count, then the
      name, units and comment strings. */
  function RecordHead(h: ChannelHeader): (r: seq<byte>)
    requires WellFormed(h)
    ensures |r| == 12 + |h.name| + |h.units| + |h.comment|
  {
    PackU16(h.index) + PackU32(h.samples)
    + PackBytes(h.name) + PackBytes(h.units) + PackBytes(h.comment)
  }

  /** The extended-header size, the extended block and the trailer. */
  function Blocks(h: ChannelHeader): (r: seq<byte>)
    requires WellFormed(h)
    ensures |r| == 233
  {
    PackU32(EXT_HEADER_SIZE) + ExtendedBlock(h.t0, h.dt, h.subSlot) + Trailer(h.description, h.tid)
  }

  /** The fixed-size part of a record after its comment string: format 0
      (numeric), data width 8, the time, then the blocks. */
  function RecordTail(h: ChannelHeader): (r: seq<byte>)
    requires WellFormed(h)
    ensures |r| == 245
  {
    PackU16(0) + PackU16(8) + h.time + Blocks(h)
  }

  /** One channel header record as the writer lays it out. */
  function EncodeChannelHeader(h: ChannelHeader): (r: seq<byte>)
    requires WellFormed(h)
    ensures |r| == 257 + |h.name| + |h.units| + |h.comment|
  {
    RecordHead(h) + RecordTail(h)
  }

  /** The values the head of a record carries. */
  datatype Head = Head(index: nat, samples: nat, name: seq<byte>, units: seq<byte>, comment: seq<byte>)

  /** Reads the head of a record off the front of `s`. */
  function DecodeHead(s: seq<byte>): Option<(Head, seq<byte>)>
  {
    match ReadU16(s)
    case None => None
    case Some((index, s1)) =>
      match ReadU32(s1)
      case None => None
      case Some((samples, s2)) =>
        match DecodeNames(s2)
        case None => None
        case Some(((name, units, comment), s5)) =>
          Some((Head(index, samples, name, units, comment), s5))
  }

  /** Reads the name, units and comment strings of a record. */
  function DecodeNames(s: seq<byte>): Option<((seq<byte>, seq<byte>, seq<byte>), seq<byte>)>
  {
    match ReadString(s)
    case None => None
    case Some((name, s3)) =>
      match ReadString(s3)
      case None => None
      case Some((units, s4)) =>
        match ReadString(s4)
        case None => None
        case Some((comment, s5)) => Some(((name, units, comment), s5))
  }

  /** The values the fixed-size tail of a record carries. */
  datatype Tail = Tail(time: seq<byte>, t0: seq<byte>, dt: seq<byte>, subSlot: nat,
                       description: seq<byte>, tid: seq<byte>)

  /** Reads the extended block and the trailer; None if a size field does
      not announce the block after it. */
  function DecodeBlocks(s: seq<byte>, time: seq<byte>): Option<(Tail, seq<byte>)>
  {
    match ReadU32(s)
    case None => None
    case Some((extSize, s1)) =>
      if extSize != EXT_HEADER_SIZE then None
      else
        match ReadN(s1, EXT_HEADER_SIZE)
        case None => None
        case Some((ext, s2)) =>
          match ReadN(s2, 11)
          case None => None
          case Some((lin, s3)) =>
            if U32At(lin, 7) != SENSOR_INFO_SIZE then None
            else
              match ReadN(s3, SENSOR_INFO_SIZE)
              case None => None
              case Some((info, s4)) =>
                Some((Tail(time, ext[..8], ext[8..16], U32At(ext, 100), info[4..54], info[54..]), s4))
  }

  /** Reads the tail of a record off the front of `s`; None if the format is
      not numeric or the data width not 8. */
  function DecodeTail(s: seq<byte>): Option<(Tail, seq<byte>)>
  {
    match ReadU16(s)
    case None => None
    case Some((format, s1)) =>
      match ReadU16(s1)
      case None => None
      case Some((width, s2)) =>
        if format != 0 || width != 8 then None
        else
          match ReadN(s2, 8)
          case None => None
          case Some((time, s3)) => DecodeBlocks(s3, time)
  }

  /** Reads one channel header record off the front of `s`: its values and
      the bytes after it. */
  function DecodeChannelHeader(s: seq<byte>): Option<(ChannelHeader, seq<byte>)>
  {
    match DecodeHead(s)
    case None => None
    case Some((hd, s1)) =>
      match DecodeTail(s1)
      case None => None
      case Some((tl, s2)) =>
        Some((ChannelHeader(hd.index, hd.samples, hd.name, hd.units, hd.comment,
                            tl.time, tl.t0, tl.dt, tl.subSlot, tl.description, tl.tid), s2))
  }

  /** The head reads back as the values it was packed from. */
  lemma HeadRoundTrip(h: ChannelHeader, rest: seq<byte>)
    requires WellFormed(h)
    ensures DecodeHead(RecordHead(h) + rest)
         == Some((Head(h.index, h.samples, h.name, h.units, h.comment), rest))
  {
    var r2 := PackBytes(h.name) + (PackBytes(h.units) + (PackBytes(h.comment) + rest));
    Reassoc6(PackU16(h.index), PackU32(h.samples), PackBytes(h.name), PackBytes(h.units),
             PackBytes(h.comment), rest);
    ReadU16Pack(h.index, PackU32(h.samples) + r2);
    ReadU32Pack(h.samples, r2);
    NamesRoundTrip(h.name, h.units, h.comment, rest);
  }

  lemma NamesRoundTrip(name: seq<byte>, units: seq<byte>, comment: seq<byte>, rest: seq<byte>)
    requires FitsU16(|name|) && FitsU16(|units|) && FitsU16(|comment|)
    ensures DecodeNames(PackBytes(name) + (PackBytes(units) + (PackBytes(comment) + rest)))
         == Some(((name, units, comment), rest))
  {
    ReadStringPack(name, PackBytes(units) + (PackBytes(comment) + rest));
    ReadStringPack(units, PackBytes(comment) + rest);
    ReadStringPack(comment, rest);
  }

  /** Where T0, dt and SubSlot sit in the extended block. */
  lemma ExtendedBlockFields(t0: seq<byte>, dt: seq<byte>, subSlot: int)
    requires |t0| == 8 && |dt| == 8 && FitsU32(subSlot)
    ensures var ext := ExtendedBlock(t0, dt, subSlot);
      ext[..8] == t0 && ext[8..16] == dt && U32At(ext, 100) == subSlot
  {
    var ext := ExtendedBlock(t0, dt, subSlot);
    Parts(t0, dt, Settings(subSlot));
    U32RoundTrip(FieldsBeforeSubSlot(), subSlot, FieldsAfterSubSlot());
    U32AtShift(ext, Settings(subSlot), 16, 84);
  }

  /** The linearisation fields end with the size of the sensor-info block. */
  lemma LinearisationAnnounces()
    ensures U32At(Linearisation(), 7) == SENSOR_INFO_SIZE
  {
    var pre := PackU8(0) + PackU8(0) + PackU8(0) + PackU16(0) + PackU16(0);
    assert Linearisation() == pre + PackU32(SENSOR_INFO_SIZE) + [];
    U32RoundTrip(pre, SENSOR_INFO_SIZE, []);
  }

  /** The extended block and the trailer read back as T0, dt, SubSlot, the
      description and the TID. */
  lemma BlocksRoundTrip(h: ChannelHeader, rest: seq<byte>)
    requires WellFormed(h)
    ensures DecodeBlocks(Blocks(h) + rest, h.time)
         == Some((Tail(h.time, h.t0, h.dt, h.subSlot, h.description, h.tid), rest))
  {
    var ext := ExtendedBlock(h.t0, h.dt, h.subSlot);
    var info := SensorInfo(h.description, h.tid);
    var r3 := info + rest;
    var r2 := Linearisation() + r3;
    var r1 := ext + r2;
    Assoc(Linearisation(), info, rest);
    Reassoc4(PackU32(EXT_HEADER_SIZE), ext, Trailer(h.description, h.tid), rest);
    ReadU32Pack(EXT_HEADER_SIZE, r1);
    ReadNConcat(ext, r2);
    ReadNConcat(Linearisation(), r3);
    ReadNConcat(info, rest);
    ExtendedBlockFields(h.t0, h.dt, h.subSlot);
    LinearisationAnnounces();
    Parts(PackU32(0), h.description, h.tid);
  }

  /** The tail reads back as the values it was packed from. */
  lemma TailRoundTrip(h: ChannelHeader, rest: seq<byte>)
    requires WellFormed(h)
    ensures DecodeTail(RecordTail(h) + rest)
         == Some((Tail(h.time, h.t0, h.dt, h.subSlot, h.description, h.tid), rest))
  {
    var r2 := Blocks(h) + rest;
    var r1 := h.time + r2;
    var r0 := PackU16(8) + r1;
    Reassoc5(PackU16(0), PackU16(8), h.time, Blocks(h), rest);
    ReadU16Pack(0, r0);
    ReadU16Pack(8, r1);
    ReadNConcat(h.time, r2);
    BlocksRoundTrip(h, rest);
  }

  /** A record, followed by anything, reads back as exactly the values it
      was encoded from, and the reader stops at its end. */
  lemma ChannelHeaderRoundTrip(h: ChannelHeader, rest: seq<byte>)
    requires WellFormed(h)
    ensures DecodeChannelHeader(EncodeChannelHeader(h) + rest) == Some((h, rest))
  {
    Assoc(RecordHead(h), RecordTail(h), rest);
    HeadRoundTrip(h, RecordTail(h) + rest);
    TailRoundTrip(h, rest);
  }

  // ---------------------------------------------------------------------
  // The file preamble

  /** pack_string(" "): one reserved string. */
  function Space(): (r: seq<byte>)
    ensures r == [1, 0, 32]
  {
    PackString(" ")
  }

  /** The 32 reserved strings, here `k` of them, each a single space. */
  function Reserved(k: nat): (r: seq<byte>)
    ensures |r| == 3 * k
  {
    if k == 0 then [] else Space() + Reserved(k - 1)
  }

  /** Appending one more reserved string to `k` of them gives `k + 1`. */
  lemma {:induction false} ReservedSnoc(k: nat)
    ensures Reserved(k) + Space() == Reserved(k + 1)
  {
    if k > 0 {
      ReservedSnoc(k - 1);
      assert Reserved(k) + Space() == Space() + (Reserved(k - 1) + Space());
    }
  }

  predicate AllFitU32(t: seq<int>)
  {
    forall i :: 0 <= i < |t| ==> FitsU32(t[i])
  }

  /** The channel offset table: one "L" entry per channel, in order. */
  function PackTable(t: seq<int>): (r: seq<byte>)
    requires AllFitU32(t)
    ensures |r| == 4 * |t|
  {
    if t == [] then [] else PackTable(t[..|t| - 1]) + PackU32(t[|t| - 1])
  }

  /** Entry `i` of a packed table reads back at byte `4 * i`. */
  lemma {:induction false} PackTableEntry(t: seq<int>, i: nat)
    requires AllFitU32(t) && i < |t|
    ensures U32At(PackTable(t), 4 * i) == t[i]
  {
    var init := t[..|t| - 1];
    if i == |t| - 1 {
      U32RoundTrip(PackTable(init), t[i], []);
      assert PackTable(t) == PackTable(init) + PackU32(t[i]) + [];
    } else {
      PackTableEntry(init, i);
      U32AtShift(PackTable(t), PackTable(init), 0, 4 * i);
    }
  }

  /** The table a writer puts down first: `n` zero entries. */
  function ZeroTable(n: nat): (t: seq<int>)
    ensures |t| == n && AllFitU32(t)
  {
    seq(n, _ => 0)
  }

  /** The comment and the reserved strings. */
  function Strings(c: seq<byte>): (r: seq<byte>)
    requires FitsU16(|c|)
    ensures |r| == 98 + |c|
  {
    PackBytes(c) + Reserved(RESERVED_STRINGS)
  }

  /** The channel count, the unused channel limit, the channel offset table
      and the unused word after it. */
  function TableSection(t: seq<int>): (r: seq<byte>)
    requires FitsU16(|t|) && AllFitU32(t)
    ensures |r| == 10 + 4 * |t|
  {
    PackU16(|t|) + PackU32(0) + PackTable(t) + PackU32(0)
  }

  /** The preamble of a BIN file with comment bytes `c`, data offset
      `dataOffset` and channel offset table `t`. */
  function Preamble(c: seq<byte>, dataOffset: int, t: seq<int>): (r: seq<byte>)
    requires FitsU16(|c|) && FitsU32(dataOffset) && FitsU16(|t|) && AllFitU32(t)
    ensures |r| == 114 + |c| + 4 * |t|
  {
    PackU16(FILE_ID) + PackU32(dataOffset) + (Strings(c) + TableSection(t))
  }

  /** The preamble is its fields written one after another. */
  lemma PreambleLayout(c: seq<byte>, d: int, t: seq<int>)
    requires FitsU16(|c|) && FitsU32(d) && FitsU16(|t|) && AllFitU32(t)
    ensures Preamble(c, d, t)
         == PackU16(FILE_ID) + PackU32(d) + PackBytes(c) + Reserved(RESERVED_STRINGS)
            + PackU16(|t|) + PackU32(0) + PackTable(t) + PackU32(0)
  {
    var ab := PackU16(FILE_ID) + PackU32(d);
    var sr := Strings(c);
    var u := PackU16(|t|);
    var z := PackU32(0);
    var tb := PackTable(t);
    Assoc(ab, sr, u + z + tb + z);
    Assoc(ab, PackBytes(c), Reserved(RESERVED_STRINGS));
    var l := ab + sr;
    Assoc(l, u + z + tb, z);
    Assoc(l, u + z, tb);
    Assoc(l, u, z);
  }

  /** The preamble with table `t` is everything up to the table, the packed
      table, and the closing zero word. */
  lemma PreambleAroundTable(c: seq<byte>, d: int, t: seq<int>)
    requires FitsU16(|c|) && FitsU32(d) && FitsU16(|t|) && AllFitU32(t)
    ensures Preamble(c, d, t)
         == PackU16(FILE_ID) + PackU32(d) + Strings(c) + (PackU16(|t|) + PackU32(0)) + PackTable(t) + PackU32(0)
  {
    var ab := PackU16(FILE_ID) + PackU32(d);
    var uz := PackU16(|t|) + PackU32(0);
    Assoc(ab, Strings(c), uz + PackTable(t) + PackU32(0));
    Assoc(ab + Strings(c), uz + PackTable(t), PackU32(0));
    Assoc(ab + Strings(c), uz, PackTable(t));
  }

  /** Replacing the table region of a preamble by another table of the same
      size gives the preamble with that table. */
  lemma PreambleTableSwap(c: seq<byte>, d: int, t: seq<int>, t': seq<int>, start: nat)
    requires FitsU16(|c|) && FitsU32(d) && FitsU16(|t|) && AllFitU32(t)
    requires |t'| == |t| && AllFitU32(t') && start == 110 + |c|
    ensures var p := Preamble(c, d, t);
      Preamble(c, d, t') == p[..start] + PackTable(t') + p[start + 4 * |t'|..]
  {
    PreambleAroundTable(c, d, t);
    PreambleAroundTable(c, d, t');
    var lead := PackU16(FILE_ID) + PackU32(d) + Strings(c) + (PackU16(|t|) + PackU32(0));
    assert |lead| == start;
    Overwrite(lead, PackTable(t), PackU32(0), PackTable(t'));
  }

  /** Overwriting bytes 2 to 6 (`header[2:6] = pack("L", d)`) sets the data
      offset and changes nothing else. */
  lemma PatchDataOffset(c: seq<byte>, d: int, d': int, t: seq<int>)
    requires FitsU16(|c|) && FitsU32(d) && FitsU32(d') && FitsU16(|t|) && AllFitU32(t)
    ensures Preamble(c, d', t) == Preamble(c, d, t)[..2] + PackU32(d') + Preamble(c, d, t)[6..]
  {
    Overwrite(PackU16(FILE_ID), PackU32(d), Strings(c) + TableSection(t), PackU32(d'));
  }

  /** The values a preamble carries. */
  datatype PreambleFields = PreambleFields(dataOffset: nat, comment: seq<byte>, table: seq<nat>)

  /** Reads `k` length-prefixed strings off the front of `s`. */
  function ReadStrings(s: seq<byte>, k: nat): Option<(seq<seq<byte>>, seq<byte>)>
  {
    if k == 0 then Some(([], s))
    else
      match ReadString(s)
      case None => None
      case Some((str, s1)) =>
        match ReadStrings(s1, k - 1)
        case None => None
        case Some((strs, s2)) => Some(([str] + strs, s2))
  }

  /** `k` copies of the one-space string. */
  function Spaces(k: nat): (r: seq<seq<byte>>)
    ensures |r| == k && forall i :: 0 <= i < k ==> r[i] == [32]
  {
    seq(k, _ => [32])
  }

  /** The reserved strings read back as `k` single spaces. */
  lemma {:induction false} ReservedRoundTrip(k: nat, rest: seq<byte>)
    ensures ReadStrings(Reserved(k) + rest, k) == Some((Spaces(k), rest))
  {
    if k == 0 {
      assert Reserved(k) + rest == rest;
    } else {
      var r1 := Reserved(k - 1) + rest;
      Assoc(Space(), Reserved(k - 1), rest);
      SpaceReads(r1);
      ReservedRoundTrip(k - 1, rest);
      assert [[32 as byte]] + Spaces(k - 1) == Spaces(k);
    }
  }

  /** One reserved string reads back as a single space. */
  lemma SpaceReads(rest: seq<byte>)
    ensures ReadString(Space() + rest) == Some(([32], rest))
  {
    assert Utf8(" ") == [32 as byte];
    ReadStringPack(Utf8(" "), rest);
  }

  /** Reads an offset table of `n` entries off the front of `s`. */
  function ReadTable(s: seq<byte>, n: nat): Option<(seq<nat>, seq<byte>)>
  {
    match ReadN(s, 4 * n)
    case None => None
    case Some((tbl, s1)) => Some((Entries(tbl, n), s1))
  }

  /** The `n` "L" entries of a table's bytes. */
  function Entries(tbl: seq<byte>, n: nat): (r: seq<nat>)
    requires 4 * n <= |tbl|
    ensures |r| == n && forall i :: 0 <= i < n ==> r[i] == U32At(tbl, 4 * i)
  {
    seq(n, i requires 0 <= i < n => U32At(tbl, 4 * i))
  }

  /** Reads the channel count, the unused limit, the offset table and the
      unused word after it. */
  function DecodeTableSection(s: seq<byte>): Option<(seq<nat>, seq<byte>)>
  {
    match ReadU16(s)
    case None => None
    case Some((n, s1)) =>
      match ReadU32(s1)
      case None => None
      case Some((_, s2)) =>
        match ReadTable(s2, n)
        case None => None
        case Some((table, s3)) =>
          match ReadU32(s3)
          case None => None
          case Some((_, s4)) => Some((table, s4))
  }

  /** Reads the preamble off the front of `s`; None unless it opens with the
      format id 5012 and holds all 32 reserved strings. */
  function DecodePreamble(s: seq<byte>): Option<(PreambleFields, seq<byte>)>
  {
    match ReadU16(s)
    case None => None
    case Some((id, s1)) =>
      if id != FILE_ID then None
      else
        match ReadU32(s1)
        case None => None
        case Some((dataOffset, s2)) =>
          match ReadString(s2)
          case None => None
          case Some((comment, s3)) =>
            match ReadStrings(s3, RESERVED_STRINGS)
            case None => None
            case Some((_, s4)) =>
              match DecodeTableSection(s4)
              case None => None
              case Some((table, s5)) => Some((PreambleFields(dataOffset, comment, table), s5))
  }

  /** The table reads back entry by entry. */
  lemma TableRoundTrip(t: seq<int>, rest: seq<byte>)
    requires AllFitU32(t)
    ensures forall i :: 0 <= i < |t| ==> t[i] >= 0
    ensures ReadTable(PackTable(t) + rest, |t|) == Some((t, rest))
  {
    var tbl := PackTable(t);
    ReadNConcat(tbl, rest);
    forall i | 0 <= i < |t|
      ensures U32At(tbl, 4 * i) == t[i]
    {
      PackTableEntry(t, i);
    }
    assert Entries(tbl, |t|) == t;
  }

  lemma TableSectionRoundTrip(t: seq<int>, rest: seq<byte>)
    requires FitsU16(|t|) && AllFitU32(t)
    ensures DecodeTableSection(TableSection(t) + rest) == Some((t, rest))
  {
    var r3 := PackU32(0) + rest;
    var r2 := PackTable(t) + r3;
    var r1 := PackU32(0) + r2;
    Reassoc5(PackU16(|t|), PackU32(0), PackTable(t), PackU32(0), rest);
    ReadU16Pack(|t|, r1);
    ReadU32Pack(0, r2);
    TableRoundTrip(t, r3);
    ReadU32Pack(0, rest);
  }

  /** A preamble, followed by anything, reads back as the comment, data
      offset and table it was written with. */
  lemma PreambleRoundTrip(c: seq<byte>, d: int, t: seq<int>, rest: seq<byte>)
    requires FitsU16(|c|) && FitsU32(d) && FitsU16(|t|) && AllFitU32(t)
    ensures DecodePreamble(Preamble(c, d, t) + rest) == Some((PreambleFields(d, c, t), rest))
  {
    var r4 := TableSection(t) + rest;
    var r3 := Reserved(RESERVED_STRINGS) + r4;
    var r2 := PackBytes(c) + r3;
    var r1 := PackU32(d) + r2;
    var ts := TableSection(t);
    Assoc(PackU16(FILE_ID) + PackU32(d), Strings(c) + ts, rest);
    Assoc(Strings(c), ts, rest);
    Assoc(PackBytes(c), Reserved(RESERVED_STRINGS), r4);
    Assoc(PackU16(FILE_ID), PackU32(d), r2);
    ReadU16Pack(FILE_ID, r1);
    ReadU32Pack(d, r2);
    ReadStringPack(c, r3);
    ReservedRoundTrip(RESERVED_STRINGS, r4);
    TableSectionRoundTrip(t, rest);
  }
}
