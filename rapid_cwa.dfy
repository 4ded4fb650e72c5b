/** `method1` of rapidCWA.py: the fast CWA sector decoder. The file is a
    1024-byte header followed by 512-byte sectors; bytes 30 to 509 of each
    sector hold 80 samples of three little-endian int16 values (x, y, z).
    The samples are collected in one array in sector order, then written out
    channel by channel, x, y and z, each value divided by 2048. The variant
    of src/rapidCWA.py (module SrcRapidCwa) repeats every sector `op` times;
    the fill loop here takes `op` as a parameter, and this file's `method1`
    uses 1. */
module RapidCwa {
  import opened Py
  import opened Packing
  import opened BinData
  import opened Arith

  const HEADER_OFFSET: nat := 1024
  const SECTOR_SIZE: nat := 512
  const SAMPLES_PER_SECTOR: nat := 80
  /** Where the samples start inside a sector (np.frombuffer's offset). */
  const PAYLOAD_OFFSET: nat := 30
  /** One sample: three int16 values. */
  const RECORD_SIZE: nat := 6
  const NUM_CHANNELS: nat := 3

  /** One entry of the structured array: the x, y and z counts. */
  datatype Sample = Sample(x: int, y: int, z: int)

  /** The zero entry np.zeros fills the array with. */
  const ZERO: Sample := Sample(0, 0, 0)

  /** The number of whole sectors after the header: floor division, so a
      trailing partial sector is dropped and a file shorter than the header
      gives a negative count. */
  function Sectors(fileSize: nat): (r: int)
    ensures fileSize >= HEADER_OFFSET ==> r >= 0 && HEADER_OFFSET + SECTOR_SIZE * r <= fileSize
                                          < HEADER_OFFSET + SECTOR_SIZE * (r + 1)
    ensures fileSize < HEADER_OFFSET ==> r < 0
  {
    (fileSize - HEADER_OFFSET) / SECTOR_SIZE
  }

  /** A little-endian int16 ('i2' on the little-endian machines the tool
      runs on): the two bytes as an unsigned value, less 65536 when the sign
      bit is set. */
  function I16(lo: byte, hi: byte): (r: int)
    ensures -0x8000 <= r < 0x8000
    ensures r % 0x1_0000 == (lo as int + 256 * hi as int) % 0x1_0000
  {
    var u := lo as int + 256 * hi as int;
    if u >= 0x8000 then u - 0x1_0000 else u
  }

  /** Where sample `j` of sector `s` starts in the file. */
  function SamplePos(s: nat, j: nat): nat
  {
    HEADER_OFFSET + SECTOR_SIZE * s + PAYLOAD_OFFSET + RECORD_SIZE * j
  }

  /** Byte `b` of sector `s` of the file. */
  function SectorByte(s: nat, b: nat): nat
  {
    HEADER_OFFSET + SECTOR_SIZE * s + b
  }

  /** Sample `j` of sector `s` of the file, as np.frombuffer reads it. */
  function SectorSample(file: seq<byte>, s: nat, j: nat): (r: Sample)
    requires j < SAMPLES_PER_SECTOR && HEADER_OFFSET + SECTOR_SIZE * (s + 1) <= |file|
  {
    var p := SamplePos(s, j);
    Sample(I16(file[p], file[p + 1]), I16(file[p + 2], file[p + 3]), I16(file[p + 4], file[p + 5]))
  }

  /** np.frombuffer(sector[:-2], offset=30): the 480 bytes after the first
      30 of the first 510 of a sector, as 80 samples. */
  function FromBuffer(file: seq<byte>, s: nat): (r: seq<Sample>)
    requires HEADER_OFFSET + SECTOR_SIZE * (s + 1) <= |file|
    ensures |r| == SAMPLES_PER_SECTOR
    ensures forall j :: 0 <= j < SAMPLES_PER_SECTOR ==> r[j] == SectorSample(file, s, j)
  {
    seq(SAMPLES_PER_SECTOR, j requires 0 <= j < SAMPLES_PER_SECTOR => SectorSample(file, s, j))
  }

  /** The sample the fill loop puts at index `k` of the array: block
      `k / 80` is copied from sector `(k / 80) / op`. */
  function MasterAt(file: seq<byte>, op: nat, k: nat): Sample
    requires op >= 1 && HEADER_OFFSET + SECTOR_SIZE * (k / SAMPLES_PER_SECTOR / op + 1) <= |file|
  {
    SectorSample(file, k / SAMPLES_PER_SECTOR / op, k % SAMPLES_PER_SECTOR)
  }

  /** The whole array after the fill loop: `sectors * op` blocks of 80. */
  function Master(file: seq<byte>, op: nat): (r: seq<Sample>)
    requires op >= 1 && |file| >= HEADER_OFFSET
    ensures |r| == Sectors(|file|) * op * SAMPLES_PER_SECTOR
  {
    var n := Sectors(|file|) * op * SAMPLES_PER_SECTOR;
    seq(n, k requires 0 <= k < n => MasterBound(file, op, k); MasterAt(file, op, k))
  }

  lemma MasterBound(file: seq<byte>, op: nat, k: nat)
    requires op >= 1 && |file| >= HEADER_OFFSET && k < Sectors(|file|) * op * SAMPLES_PER_SECTOR
    ensures HEADER_OFFSET + SECTOR_SIZE * (k / SAMPLES_PER_SECTOR / op + 1) <= |file|
  {
    var b := k / SAMPLES_PER_SECTOR;
    var q := b / op;
    assert q * op <= b < Sectors(|file|) * op;
    PositiveFactor(Sectors(|file|) - q, op);
  }

  lemma PositiveFactor(a: int, b: int)
    requires b > 0 && a * b > 0
    ensures a > 0
  {
  }

  /** Sample `j` of sector `i` lands at index `80 * i + j` of the array
      filled with `op` = 1: sector order, then order within the sector. */
  lemma MasterInSectorOrder(file: seq<byte>, i: nat, j: nat)
    requires |file| >= HEADER_OFFSET && i < Sectors(|file|) && j < SAMPLES_PER_SECTOR
    ensures SAMPLES_PER_SECTOR * i + j < |Master(file, 1)|
    ensures Master(file, 1)[SAMPLES_PER_SECTOR * i + j] == SectorSample(file, i, j)
  {
    var k := SAMPLES_PER_SECTOR * i + j;
    DivModOf(k, SAMPLES_PER_SECTOR, i, j);
    assert Master(file, 1)[k] == MasterAt(file, 1, k);
  }

  /** Only bytes 30 to 509 of each whole sector are read: two files of one
      length that agree there give the same array, whatever their headers,
      the first 30 and last 2 bytes of each sector, or a trailing partial
      sector hold. */
  lemma MasterReadsOnlyPayload(f: seq<byte>, g: seq<byte>, op: nat)
    requires op >= 1 && |f| == |g| >= HEADER_OFFSET
    requires forall s, b :: 0 <= s < Sectors(|f|) && PAYLOAD_OFFSET <= b < SECTOR_SIZE - 2 ==>
               f[SectorByte(s, b)] == g[SectorByte(s, b)]
    ensures Master(f, op) == Master(g, op)
  {
    var n := Sectors(|f|) * op * SAMPLES_PER_SECTOR;
    forall k | 0 <= k < n
      ensures Master(f, op)[k] == Master(g, op)[k]
    {
      MasterBound(f, op, k);
      var s := k / SAMPLES_PER_SECTOR / op;
      var p := SamplePos(s, k % SAMPLES_PER_SECTOR);
      forall q | p <= q < p + RECORD_SIZE
        ensures f[q] == g[q]
      {
        assert q == SectorByte(s, q - HEADER_OFFSET - SECTOR_SIZE * s);
      }
    }
  }

  /** The fill loop: for each of the `sectors * op` blocks, copy the 80
      samples of sector `i / op` into block `i` of a zeroed array. */
  method FillMaster(file: seq<byte>, op: nat) returns (r: Result<array<Sample>>)
    requires op >= 1
    ensures |file| < HEADER_OFFSET <==> r.Err?
    ensures r.Err? ==> r.error == ValueError
    ensures r.Ok? ==> fresh(r.value) && r.value[..] == Master(file, op)
  {
    var sectors := Sectors(|file|);
    if sectors < 0 {
      // np.zeros with a negative dimension
      return Err(ValueError);
    }
    var blocks := sectors * op;
    var masterArray := new Sample[blocks * SAMPLES_PER_SECTOR](_ => ZERO);
    ghost var spec := Master(file, op);
    for i := 0 to blocks
      invariant forall k :: 0 <= k < SAMPLES_PER_SECTOR * i ==> masterArray[k] == spec[k]
    {
      var base := SAMPLES_PER_SECTOR * i;
      MasterBound(file, op, base);
      assert base / SAMPLES_PER_SECTOR == i;
      var imp := FromBuffer(file, i / op);
      forall j | 0 <= j < SAMPLES_PER_SECTOR {
        masterArray[base + j] := imp[j];
      }
      forall k | base <= k < base + SAMPLES_PER_SECTOR
        ensures masterArray[k] == spec[k]
      {
        assert k / SAMPLES_PER_SECTOR == i && k % SAMPLES_PER_SECTOR == k - base;
      }
    }
    assert masterArray[..] == spec;
    return Ok(masterArray);
  }
  /** Field `c` of a sample: x, y, z for 0, 1, 2. */
  function Axis(s: Sample, c: nat): int
    requires c < NUM_CHANNELS
  {
    if c == 0 then s.x else if c == 1 then s.y else s.z
  }

  /** A count in units of g: the raw value over 2048. */
  function Scaled(s: Sample, c: nat): real
    requires c < NUM_CHANNELS
  {
    Axis(s, c) as real / 2048.0
  }

  /** `(masterArray[cols[c]] / 2048.0).tobytes()`: the scaled values of
      channel `c`, eight bytes each, in array order. */
  function ChannelBytes(m: seq<Sample>, c: nat, f64: real -> F64Bytes): (r: seq<byte>)
    requires c < NUM_CHANNELS
    ensures |r| == 8 * |m|
  {
    if m == [] then [] else ChannelBytes(m[..|m| - 1], c, f64) + f64(Scaled(m[|m| - 1], c))
  }

  /** Bytes `8k` to `8k + 8` of a channel are the scaled value of sample `k`. */
  lemma {:induction false} ChannelBytesAt(m: seq<Sample>, c: nat, f64: real -> F64Bytes, k: nat)
    requires c < NUM_CHANNELS && k < |m|
    ensures ChannelBytes(m, c, f64)[8 * k .. 8 * k + 8] == f64(Scaled(m[k], c))
  {
    var front := m[..|m| - 1];
    assert ChannelBytes(m, c, f64) == ChannelBytes(front, c, f64) + f64(Scaled(m[|m| - 1], c));
    if k < |m| - 1 {
      ChannelBytesAt(front, c, f64, k);
      assert front[k] == m[k];
    }
  }

  /** What the write loop has written after its first `n` rounds: the
      channels 0 to n - 1, one after another. */
  function ChannelsOut(m: seq<Sample>, n: nat, f64: real -> F64Bytes): (r: seq<byte>)
    requires n <= NUM_CHANNELS
    ensures |r| == 8 * |m| * n
  {
    if n == 0 then [] else ChannelsOut(m, n - 1, f64) + ChannelBytes(m, n - 1, f64)
  }

  /** Channel `c` occupies bytes `L * c` to `L * (c + 1)` of the first `n`
      channels written, for channels `L` bytes long. */
  lemma {:induction false} ChannelsOutSlot(m: seq<Sample>, f64: real -> F64Bytes, n: nat, c: nat, len: nat)
    requires c < n <= NUM_CHANNELS && len == 8 * |m|
    ensures len * c + len <= |ChannelsOut(m, n, f64)|
    ensures ChannelsOut(m, n, f64)[len * c .. len * c + len] == ChannelBytes(m, c, f64)
  {
    var front := ChannelsOut(m, n - 1, f64);
    assert |front| == len * (n - 1);
    assert ChannelsOut(m, n, f64) == front + ChannelBytes(m, n - 1, f64);
    if c < n - 1 {
      ChannelsOutSlot(m, f64, n - 1, c, len);
      assert len * c + len <= len * (n - 1) by {
        assert len * (n - 1) - (len * c + len) == len * (n - 1 - c - 1);
      }
    }
  }

  /** In the whole output, channel `c` starts at `8 * |m| * c`, and its
      sample `k` is eight bytes further on per sample. */
  lemma ChannelsOutAt(m: seq<Sample>, f64: real -> F64Bytes, c: nat, k: nat, n: nat, at: int)
    requires c < NUM_CHANNELS && k < |m| && n == |m| && at == 8 * n * c + 8 * k
    ensures |ChannelsOut(m, NUM_CHANNELS, f64)| == NUM_CHANNELS * 8 * n
    ensures 0 <= at && at + 8 <= |ChannelsOut(m, NUM_CHANNELS, f64)|
    ensures ChannelsOut(m, NUM_CHANNELS, f64)[at .. at + 8] == f64(Scaled(m[k], c))
  {
    var len := 8 * n;
    var all := ChannelsOut(m, NUM_CHANNELS, f64);
    ChannelsOutSlot(m, f64, NUM_CHANNELS, c, len);
    ChannelBytesAt(m, c, f64, k);
    SliceOfSlice(all, len * c, len * c + len, 8 * k, 8 * k + 8);
  }

  /** The file `method1` writes, or the error it stops with, for a
      replication factor `op`. */
  function Method1Spec(file: seq<byte>, op: nat, f64: real -> F64Bytes): (r: Result<seq<byte>>)
    requires op >= 1
    ensures r.Err? <==> |file| < HEADER_OFFSET
    ensures r.Err? ==> r.error == ValueError
    ensures r.Ok? ==> |r.value| == NUM_CHANNELS * 8 * (Sectors(|file|) * op * SAMPLES_PER_SECTOR)
  {
    if |file| < HEADER_OFFSET then Err(ValueError)
    else Ok(ChannelsOut(Master(file, op), NUM_CHANNELS, f64))
  }

  /** The write loop: channel x, then y, then z. */
  method WriteChannels(masterArray: array<Sample>, f64: real -> F64Bytes) returns (out: seq<byte>)
    ensures out == ChannelsOut(masterArray[..], NUM_CHANNELS, f64)
  {
    out := [];
    for c := 0 to NUM_CHANNELS
      invariant out == ChannelsOut(masterArray[..], c, f64)
    {
      out := out + ChannelBytes(masterArray[..], c, f64);
    }
  }

  /** `method1` with one copy of each sector: the bytes it writes to the
      ".bin" file, or the error. */
  method Method1(file: seq<byte>, f64: real -> F64Bytes) returns (r: Result<seq<byte>>)
    ensures r == Method1Spec(file, 1, f64)
  {
    var filled := FillMaster(file, 1);
    if filled.Err? {
      return Err(filled.error);
    }
    var out := WriteChannels(filled.value, f64);
    return Ok(out);
  }

  /** The output of `method1`: 3 * samples doubles; the x values of all
      samples, then the y values, then the z values, where sample `80 * i + j`
      is sample `j` of sector `i`. */
  lemma Method1Layout(file: seq<byte>, f64: real -> F64Bytes, c: nat, i: nat, j: nat)
    requires |file| >= HEADER_OFFSET && c < NUM_CHANNELS && i < Sectors(|file|) && j < SAMPLES_PER_SECTOR
    ensures var samples := Sectors(|file|) * SAMPLES_PER_SECTOR;
      var out := Method1Spec(file, 1, f64).value;
      var at := 8 * samples * c + 8 * (SAMPLES_PER_SECTOR * i + j);
      && |out| == NUM_CHANNELS * 8 * samples
      && out[at .. at + 8] == f64(Scaled(SectorSample(file, i, j), c))
  {
    var samples := Sectors(|file|) * SAMPLES_PER_SECTOR;
    var m := Master(file, 1);
    var k := SAMPLES_PER_SECTOR * i + j;
    assert |m| == samples;
    assert Method1Spec(file, 1, f64) == Ok(ChannelsOut(m, NUM_CHANNELS, f64));
    MasterInSectorOrder(file, i, j);
    ChannelsOutAt(m, f64, c, k, samples, 8 * samples * c + 8 * k);
  }
}
