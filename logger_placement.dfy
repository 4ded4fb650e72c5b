/** `get_logger_data` of ConvertMain.py: one logger's ".cwa" sectors are
    decoded and every sample of every channel is stored, as an 8-byte double,
    in a zero-filled buffer of `numSamples * 8 * numChannels` bytes laid out
    channel-major: sample `idx` of channel `c` occupies bytes
    `8 * (numSamples * c + idx)` to `+ 8`. The file is read in chunks of 100
    sectors of 512 bytes after a 1024-byte header. */
module LoggerPlacement {
  import opened Py
  import opened Packing
  import opened BinData
  import opened Arith

  const SECTOR_SIZE: nat := 512
  const HEADER_SIZE: nat := 1024
  const CHUNK_SECTORS: nat := 100
  /** The progress message is printed every `numSectors // 25` sectors. */
  const PROGRESS_STEPS: nat := 25

  /** The three sensors a sector can carry samples of. */
  datatype Sensor = Accel | Gyro | Mag

  /** One call of `get_logger_data`. `decode(sector, sensor, sample, axis)`
      is the value the sector decoder reports for that axis of that sensor
      in that sample of a 512-byte sector; `f64` is `pack('d', ·)`. */
  datatype LoggerJob = LoggerJob(
    file: seq<byte>,
    numSamples: int,
    samplesPerSector: nat,
    numChannels: int,
    decode: (seq<byte>, Sensor, nat, nat) -> real,
    f64: real -> F64Bytes)

  // ---------------------------------------------------------------------
  // Channels and sensors
  // ---------------------------------------------------------------------

  /** The first output channel of a sensor's three axes. */
  function FirstChannel(s: Sensor): nat
  {
    match s
    case Accel => 0
    case Gyro => 3
    case Mag => 6
  }

  /** Which sensor axis channel `chan` of a logger with `numChannels`
      channels is filled from; None when nothing is written for it. */
  function ChannelSource(numChannels: int, chan: nat): (r: Option<(Sensor, nat)>)
    ensures r.Some? ==> r.value.1 < 3 && FirstChannel(r.value.0) + r.value.1 == chan
    ensures r.Some? <==> (numChannels == 3 && chan < 3) || (numChannels > 3 && chan < 9)
  {
    if numChannels == 3 then
      if chan < 3 then Some((Accel, chan)) else None
    else if numChannels > 3 then
      if chan < 3 then Some((Accel, chan))
      else if chan < 6 then Some((Gyro, chan - 3))
      else if chan < 9 then Some((Mag, chan - 6))
      else None
    else None
  }

  /** An axis of a sensor reaches the output exactly when the logger has a
      channel for it: accelerometer axes on every logger with three or more
      channels, gyroscope and magnetometer axes only on loggers with more
      than three channels and enough of them. */
  lemma SensorAxisStored(numChannels: int, s: Sensor, axis: nat)
    requires axis < 3
    ensures (FirstChannel(s) + axis < numChannels
             && ChannelSource(numChannels, FirstChannel(s) + axis) == Some((s, axis)))
        <==> (numChannels >= 3 && (s == Accel || numChannels > FirstChannel(s) + axis))
  {
  }

  // ---------------------------------------------------------------------
  // Reading the file
  // ---------------------------------------------------------------------

  /** The number of whole sectors after the header; 0 for a file shorter
      than the header. */
  function NumSectors(fileSize: nat): (r: nat)
    ensures HEADER_SIZE + SECTOR_SIZE * r <= fileSize || r == 0
    ensures fileSize >= HEADER_SIZE ==> fileSize < HEADER_SIZE + SECTOR_SIZE * (r + 1)
  {
    if fileSize >= HEADER_SIZE then (fileSize - HEADER_SIZE) / SECTOR_SIZE else 0
  }

  /** `read(n)` at position `pos`: at most `n` bytes, fewer at the end. */
  function ReadAt(file: seq<byte>, pos: nat, n: nat): (r: seq<byte>)
    ensures |r| <= n
    ensures pos + n <= |file| ==> r == file[pos .. pos + n]
  {
    file[Min(pos, |file|) .. Min(pos + n, |file|)]
  }

  /** `s[lo:hi]` with Python's clamping at the end. */
  function PySlice(s: seq<byte>, lo: nat, hi: nat): (r: seq<byte>)
    requires lo <= hi
    ensures hi <= |s| ==> r == s[lo .. hi]
  {
    s[Min(lo, |s|) .. Min(hi, |s|)]
  }

  /** The `i`-th chunk of 100 sectors. */
  function Chunk(file: seq<byte>, i: nat): seq<byte>
  {
    ReadAt(file, HEADER_SIZE + SECTOR_SIZE * CHUNK_SECTORS * i, SECTOR_SIZE * CHUNK_SECTORS)
  }

  /** The 512 bytes of sector `k`. */
  function SectorBytes(file: seq<byte>, k: nat): (r: seq<byte>)
    ensures k < NumSectors(|file|) ==> |r| == SECTOR_SIZE
  {
    ReadAt(file, HEADER_SIZE + SECTOR_SIZE * k, SECTOR_SIZE)
  }

  /** Sector `k` is the slice at `512 * (k % 100)` of chunk `k // 100`. */
  lemma ChunkHoldsSector(file: seq<byte>, k: nat)
    requires k < NumSectors(|file|)
    ensures var off := SECTOR_SIZE * (k % CHUNK_SECTORS);
      PySlice(Chunk(file, k / CHUNK_SECTORS), off, off + SECTOR_SIZE) == SectorBytes(file, k)
  {
    var off := SECTOR_SIZE * (k % CHUNK_SECTORS);
    var a := HEADER_SIZE + SECTOR_SIZE * CHUNK_SECTORS * (k / CHUNK_SECTORS);
    var hi := Min(a + SECTOR_SIZE * CHUNK_SECTORS, |file|);
    assert a + off == HEADER_SIZE + SECTOR_SIZE * k;
    assert a + off + SECTOR_SIZE <= hi;
    assert Chunk(file, k / CHUNK_SECTORS) == file[a .. hi];
    SliceOfSlice(file, a, hi, off, off + SECTOR_SIZE);
  }

  // ---------------------------------------------------------------------
  // The buffer
  // ---------------------------------------------------------------------

  /** `numSamples * 8 * numChannels`: the size of the buffer. */
  function BufferSize(job: LoggerJob): int
  {
    job.numSamples * 8 * job.numChannels
  }

  /** The samples the sectors hold. */
  function Total(job: LoggerJob): nat
  {
    NumSectors(|job.file|) * job.samplesPerSector
  }

  /** The sectors hold no more samples than the header announces, so every
      sample lands inside its own channel's part of the buffer. */
  predicate Consistent(job: LoggerJob)
  {
    Total(job) <= job.numSamples
  }

  /** The eight bytes stored for sample `idx` of channel `chan`. */
  function SlotValue(job: LoggerJob, chan: nat, idx: nat): (r: F64Bytes)
    requires job.samplesPerSector > 0 && ChannelSource(job.numChannels, chan).Some?
    ensures var src := ChannelSource(job.numChannels, chan).value;
      forall k: nat, s | 0 <= s < job.samplesPerSector && idx == job.samplesPerSector * k + s ::
        r == job.f64(job.decode(SectorBytes(job.file, k), src.0, s, src.1))
  {
    var src := ChannelSource(job.numChannels, chan).value;
    var v := job.f64(job.decode(SectorBytes(job.file, idx / job.samplesPerSector),
                                src.0, idx % job.samplesPerSector, src.1));
    forall k: nat, s | 0 <= s < job.samplesPerSector && idx == job.samplesPerSector * k + s
      ensures v == job.f64(job.decode(SectorBytes(job.file, k), src.0, s, src.1))
    {
      DivModOf(idx, job.samplesPerSector, k, s);
    }
    v
  }

  /** Byte `d` of the slot of sample `idx` of channel `c` once the samples
      below `base` are stored for every channel, and those below `cut` for
      channel `chan`: channels before `chan` hold `base + samplesPerSector`
      samples, channel `chan` holds `cut`, later channels hold `base`. */
  function WantAt(job: LoggerJob, c: nat, idx: nat, d: nat, base: nat, chan: nat, cut: nat): byte
  {
    var upto := if c < chan then base + job.samplesPerSector else if c == chan then cut else base;
    if job.samplesPerSector > 0 && ChannelSource(job.numChannels, c).Some? && idx < upto && d < 8
    then SlotValue(job, c, idx)[d]
    else 0
  }

  /** Byte `p` of the buffer: byte `p % 8` of slot `p // 8`, which is sample
      `p // 8 % numSamples` of channel `p // 8 // numSamples`. */
  function WantByte(job: LoggerJob, p: nat, base: nat, chan: nat, cut: nat): byte
  {
    if job.numSamples <= 0 then 0
    else WantAt(job, p / 8 / job.numSamples, p / 8 % job.numSamples, p % 8, base, chan, cut)
  }

  ghost predicate Filled(job: LoggerJob, buf: seq<byte>, base: nat, chan: nat, cut: nat)
  {
    forall p | 0 <= p < |buf| :: buf[p] == WantByte(job, p, base, chan, cut)
  }

  /** The buffer `get_logger_data` writes out when nothing goes wrong. */
  function Placement(job: LoggerJob): (r: seq<byte>)
    requires BufferSize(job) >= 0
    ensures |r| == BufferSize(job)
  {
    seq(BufferSize(job), p requires 0 <= p => WantByte(job, p, Total(job), 0, Total(job)))
  }

  // ---------------------------------------------------------------------
  // Steps of the fill
  // ---------------------------------------------------------------------

  /** Nothing is stored yet in a zero buffer. */
  lemma FilledZero(job: LoggerJob, buf: seq<byte>)
    requires forall p | 0 <= p < |buf| :: buf[p] == 0
    ensures Filled(job, buf, 0, 0, 0)
  {
  }

  /** Storing the slot of sample `cut` of channel `chan` and leaving the rest
      alone stores one more sample of that channel. */
  lemma WriteStep(job: LoggerJob, before: seq<byte>, after: seq<byte>, base: nat, chan: nat, cut: nat)
    requires 0 <= cut < job.numSamples && job.samplesPerSector > 0
    requires ChannelSource(job.numChannels, chan).Some?
    requires |after| == |before| && Filled(job, before, base, chan, cut)
    requires var start := 8 * (job.numSamples * chan + cut);
      && start + 8 <= |after|
      && (forall d | 0 <= d < 8 :: after[start + d] == SlotValue(job, chan, cut)[d])
      && (forall p | 0 <= p < |after| && !(start <= p < start + 8) :: after[p] == before[p])
    ensures Filled(job, after, base, chan, cut + 1)
  {
    var n := job.numSamples;
    var start := 8 * (n * chan + cut);
    forall p | 0 <= p < |after|
      ensures after[p] == WantByte(job, p, base, chan, cut + 1)
    {
      InSlot(n, p, chan, cut);
      if start <= p < start + 8 {
        assert after[start + (p - start)] == SlotValue(job, chan, cut)[p - start];
      }
    }
  }

  /** A channel with no source stays zero: its sample counter moves on. */
  lemma SkipStep(job: LoggerJob, buf: seq<byte>, base: nat, chan: nat, cut: nat)
    requires ChannelSource(job.numChannels, chan).None?
    requires Filled(job, buf, base, chan, cut)
    ensures Filled(job, buf, base, chan, cut + 1)
  {
  }

  /** After all samples of a sector for channel `chan`, the next channel
      begins. */
  lemma ChannelStep(job: LoggerJob, buf: seq<byte>, base: nat, chan: nat)
    requires Filled(job, buf, base, chan, base + job.samplesPerSector)
    ensures Filled(job, buf, base, chan + 1, base)
  {
  }

  /** After all channels of a sector, the next sector begins. */
  lemma SectorStep(job: LoggerJob, buf: seq<byte>, base: nat, chans: nat)
    requires |buf| == BufferSize(job) && chans >= job.numChannels
    requires Filled(job, buf, base, chans, base)
    ensures Filled(job, buf, base + job.samplesPerSector, 0, base + job.samplesPerSector)
  {
    var n := job.numSamples;
    if n > 0 {
      forall p | 0 <= p < |buf|
        ensures buf[p] == WantByte(job, p, base + job.samplesPerSector, 0, base + job.samplesPerSector)
      {
        ChannelBelow(n, job.numChannels, p);
      }
    }
  }

  // ---------------------------------------------------------------------
  // The conversion
  // ---------------------------------------------------------------------

  /** Sample `sample` of sector `k` on channel `chan` goes to slot
      `k * samplesPerSector + sample` of that channel, which lies inside the
      buffer, and holds the value decoded from sector `k`. */
  lemma SlotOfSample(job: LoggerJob, k: nat, chan: nat, sample: nat)
    requires sample < job.samplesPerSector && chan < job.numChannels
    requires k * job.samplesPerSector + job.samplesPerSector <= job.numSamples
    requires ChannelSource(job.numChannels, chan).Some?
    ensures var n := job.numSamples;
      var idx := k * job.samplesPerSector + sample;
      var src := ChannelSource(job.numChannels, chan).value;
      && idx < n
      && k * job.samplesPerSector * 8 + chan * 8 * n + sample * 8 == 8 * (n * chan + idx)
      && 8 * (n * chan + idx) + 8 <= BufferSize(job)
      && SlotValue(job, chan, idx) == job.f64(job.decode(SectorBytes(job.file, k), src.0, sample, src.1))
  {
    var n, spp := job.numSamples, job.samplesPerSector;
    var idx := k * spp + sample;
    assert idx < n;
    SectorOffsetIdentity(n, spp, k, chan, sample);
    SlotInBuffer(n, job.numChannels, chan, idx);
    assert idx == spp * k + sample;
    DivModOf(idx, spp, k, sample);
  }

  /** `sectorOffset + chan * 8 * numSamples + sample * 8` is the slot of
      sample `k * samplesPerSector + sample` of channel `chan`. */
  lemma SectorOffsetIdentity(n: int, spp: int, k: int, chan: int, sample: int)
    ensures k * spp * 8 + chan * 8 * n + sample * 8 == 8 * (n * chan + (k * spp + sample))
  {
    assert chan * 8 * n == 8 * (n * chan);
  }

  /** A buffer of `numChannels > 0` channels has room for a sample count
      that is not negative. */
  lemma SamplesNonNegative(job: LoggerJob, chan: nat)
    requires BufferSize(job) >= 0 && chan < job.numChannels
    ensures job.numSamples >= 0
  {
    assert BufferSize(job) == (8 * job.numChannels) * job.numSamples;
    MulAwayFromZero(8 * job.numChannels, job.numSamples);
  }

  /** The offsets the inner loop computes are not negative. */
  lemma OffsetNonNegative(n: nat, spp: nat, k: nat, chan: nat, sample: nat)
    ensures k * spp * 8 + chan * 8 * n + sample * 8 >= 0
  {
    ProductNonNegative(k * spp, 8);
    ProductNonNegative(chan * 8, n);
  }

  /** The byte at offset `d` of the slot of sample `idx` of channel `c` is
      the byte `WantAt` gives for that channel, sample and offset. */
  lemma WantByteAt(job: LoggerJob, c: nat, idx: nat, d: nat, base: nat, chan: nat, cut: nat)
    requires 0 <= idx < job.numSamples && d < 8
    ensures WantByte(job, 8 * (job.numSamples * c + idx) + d, base, chan, cut) == WantAt(job, c, idx, d, base, chan, cut)
  {
    var n := job.numSamples;
    var at := 8 * (n * c + idx) + d;
    InSlot(n, at, c, idx);
  }

  /** `v2mem[start : start + 8] = bytes`: the slot of sample `idx` of
      channel `chan` receives its value. */
  method StoreSlot(job: LoggerJob, values: array<byte>, start: nat, bytes: F64Bytes,
                   ghost base: nat, ghost chan: nat, ghost idx: nat, ghost good: bool)
    requires start + 8 <= values.Length
    requires good ==> && idx < job.numSamples && job.samplesPerSector > 0
                      && ChannelSource(job.numChannels, chan).Some?
                      && start == 8 * (job.numSamples * chan + idx)
                      && bytes == SlotValue(job, chan, idx)
                      && Filled(job, values[..], base, chan, idx)
    modifies values
    ensures forall p | 0 <= p < values.Length ::
      values[p] == if start <= p < start + 8 then bytes[p - start] else old(values[p])
    ensures good ==> Filled(job, values[..], base, chan, idx + 1)
  {
    ghost var before := values[..];
    StoreDouble(values, start, bytes);
    if good {
      WriteStep(job, before, values[..], base, chan, idx);
    }
  }

  /** The inner loop over one channel's samples of sector `k`. False when a
      slot falls outside the buffer (the memoryview raises ValueError). */
  method PlaceChannel(job: LoggerJob, values: array<byte>, k: nat, chan: nat, dataSector: seq<byte>)
    returns (ok: bool)
    requires values.Length == BufferSize(job) && chan < job.numChannels
    requires dataSector == SectorBytes(job.file, k)
    modifies values
    ensures var base := k * job.samplesPerSector;
      base + job.samplesPerSector <= job.numSamples && Filled(job, old(values[..]), base, chan, base)
      ==> ok && Filled(job, values[..], base, chan, base + job.samplesPerSector)
  {
    ghost var base := k * job.samplesPerSector;
    ghost var good := base + job.samplesPerSector <= job.numSamples
      && Filled(job, values[..], base, chan, base);
    var n := job.numSamples;
    SamplesNonNegative(job, chan);
    var sectorOffset := k * job.samplesPerSector * 8;
    for sample := 0 to job.samplesPerSector
      invariant good ==> Filled(job, values[..], base, chan, base + sample)
    {
      var src := ChannelSource(job.numChannels, chan);
      if src.Some? {
        var startOffset := sectorOffset + chan * 8 * n + sample * 8;
        OffsetNonNegative(n, job.samplesPerSector, k, chan, sample);
        if good {
          SlotOfSample(job, k, chan, sample);
        }
        if startOffset + 8 > values.Length {
          if good {
            assert false;
          }
          return false;
        }
        var bytes := job.f64(job.decode(dataSector, src.value.0, sample, src.value.1));
        StoreSlot(job, values, startOffset, bytes, base, chan, base + sample, good);
      } else {
        if good {
          SkipStep(job, values[..], base, chan, base + sample);
        }
      }
    }
    return true;
  }

  /** The loop over the channels of sector `k`. */
  method PlaceSector(job: LoggerJob, values: array<byte>, k: nat, dataSector: seq<byte>)
    returns (ok: bool)
    requires values.Length == BufferSize(job)
    requires dataSector == SectorBytes(job.file, k)
    modifies values
    ensures var base := k * job.samplesPerSector;
      base + job.samplesPerSector <= job.numSamples && Filled(job, old(values[..]), base, 0, base)
      ==> ok && Filled(job, values[..], base + job.samplesPerSector, 0, base + job.samplesPerSector)
  {
    ghost var base := k * job.samplesPerSector;
    ghost var good := base + job.samplesPerSector <= job.numSamples
      && Filled(job, values[..], base, 0, base);
    var chan := 0;
    while chan < job.numChannels
      invariant 0 <= chan && (good ==> Filled(job, values[..], base, chan, base))
      decreases job.numChannels - chan
    {
      ok := PlaceChannel(job, values, k, chan, dataSector);
      if !ok {
        return false;
      }
      if good {
        ChannelStep(job, values[..], base, chan);
      }
      chan := chan + 1;
    }
    if good {
      SectorStep(job, values[..], base, chan);
    }
    return true;
  }

  /** Where the reader stands before sector `sector`: the file position
      after the chunks read so far, and the current chunk unless a new one
      is due. */
  predicate ReaderAt(file: seq<byte>, sector: nat, pos: nat, chunk: seq<byte>)
  {
    && (sector == 0 ==> pos == HEADER_SIZE)
    && (sector > 0 ==> pos == Min(HEADER_SIZE + SECTOR_SIZE * CHUNK_SECTORS * ((sector + 99) / CHUNK_SECTORS), |file|))
    && (sector % CHUNK_SECTORS != 0 ==> chunk == Chunk(file, sector / CHUNK_SECTORS))
  }

  /** How the chunk counters move from one sector to the next. */
  lemma ChunkCounters(sector: nat)
    ensures sector % CHUNK_SECTORS == 0 ==>
      && (sector + 99) / CHUNK_SECTORS == sector / CHUNK_SECTORS
      && (sector + 100) / CHUNK_SECTORS == sector / CHUNK_SECTORS + 1
      && CHUNK_SECTORS * (sector / CHUNK_SECTORS) == sector
    ensures sector % CHUNK_SECTORS != 0 ==>
      && (sector + 99) / CHUNK_SECTORS == sector / CHUNK_SECTORS + 1
      && (sector + 100) / CHUNK_SECTORS == sector / CHUNK_SECTORS + 1
    ensures (sector + 1) % CHUNK_SECTORS != 0 ==> (sector + 1) / CHUNK_SECTORS == sector / CHUNK_SECTORS
  {
    var a, b := sector / CHUNK_SECTORS, sector % CHUNK_SECTORS;
    DivModOf(sector + 100, CHUNK_SECTORS, a + 1, b);
    if b == 0 {
      DivModOf(sector + 99, CHUNK_SECTORS, a, 99);
    } else {
      DivModOf(sector + 99, CHUNK_SECTORS, a + 1, b - 1);
    }
    if b < 99 {
      DivModOf(sector + 1, CHUNK_SECTORS, a, b + 1);
    }
  }

  /** One step of the reader: a new chunk every 100 sectors, then the
      sector's 512 bytes cut out of the chunk. */
  method NextSector(file: seq<byte>, sector: nat, pos: nat, chunk: seq<byte>)
    returns (pos': nat, chunk': seq<byte>, dataSector: seq<byte>)
    requires sector < NumSectors(|file|) && ReaderAt(file, sector, pos, chunk)
    ensures ReaderAt(file, sector + 1, pos', chunk')
    ensures dataSector == SectorBytes(file, sector)
  {
    ChunkCounters(sector);
    ghost var i := sector / CHUNK_SECTORS;
    pos', chunk' := pos, chunk;
    if sector % CHUNK_SECTORS == 0 {
      assert HEADER_SIZE + SECTOR_SIZE * CHUNK_SECTORS * i == HEADER_SIZE + SECTOR_SIZE * sector;
      assert pos == HEADER_SIZE + SECTOR_SIZE * CHUNK_SECTORS * i;
      chunk' := ReadAt(file, pos, SECTOR_SIZE * CHUNK_SECTORS);
      assert chunk' == Chunk(file, i);
      pos' := pos + |chunk'|;
      assert pos' == Min(HEADER_SIZE + SECTOR_SIZE * CHUNK_SECTORS * (i + 1), |file|);
    }
    var chunkOffset := SECTOR_SIZE * (sector % CHUNK_SECTORS);
    dataSector := PySlice(chunk', chunkOffset, chunkOffset + SECTOR_SIZE);
    ChunkHoldsSector(file, sector);
  }

  /** The samples of the sectors before and including `sector` are among
      those the sectors hold. */
  lemma SectorWithin(numSectors: nat, sector: nat, spp: nat)
    requires sector < numSectors
    ensures sector * spp + spp <= numSectors * spp
  {
    ProductNonNegative(numSectors - sector - 1, spp);
    assert numSectors * spp - (sector * spp + spp) == (numSectors - sector - 1) * spp;
  }

  /** `get_logger_data` up to the write-out: the buffer, or the error.
      A negative buffer size raises ValueError; a file of 1 to 24 sectors
      raises ZeroDivisionError at the progress check; a slot outside the
      buffer raises ValueError. */
  method GetLoggerData(job: LoggerJob) returns (r: Result<array<byte>>)
    ensures BufferSize(job) < 0 ==> r == Err(ValueError)
    ensures BufferSize(job) >= 0 && 0 < NumSectors(|job.file|) < PROGRESS_STEPS
      ==> r == Err(ZeroDivisionError)
    ensures r.Err? ==> r.error == ValueError || r.error == ZeroDivisionError
    ensures r.Ok? ==> fresh(r.value) && r.value.Length == BufferSize(job)
    ensures BufferSize(job) >= 0 && !(0 < NumSectors(|job.file|) < PROGRESS_STEPS) && Consistent(job)
      ==> r.Ok? && r.value[..] == Placement(job)
  {
    var fileSize := |job.file|;
    var pos := HEADER_SIZE;
    var numSectors := 0;
    if fileSize >= HEADER_SIZE {
      numSectors := (fileSize - HEADER_SIZE) / SECTOR_SIZE;
    }
    var size := job.numSamples * 8 * job.numChannels;
    if size < 0 {
      return Err(ValueError);
    }
    var values := new byte[size](_ => 0);
    FilledZero(job, values[..]);
    var chunk: seq<byte> := [];
    for sector := 0 to numSectors
      invariant values.Length == size && fresh(values)
      invariant ReaderAt(job.file, sector, pos, chunk)
      invariant sector > 0 ==> numSectors / PROGRESS_STEPS != 0
      invariant Consistent(job) ==> Filled(job, values[..], sector * job.samplesPerSector, 0, sector * job.samplesPerSector)
    {
      var dataSector;
      pos, chunk, dataSector := NextSector(job.file, sector, pos, chunk);
      if numSectors / PROGRESS_STEPS == 0 {
        return Err(ZeroDivisionError);
      }
      SectorWithin(numSectors, sector, job.samplesPerSector);
      var ok := PlaceSector(job, values, sector, dataSector);
      if !ok {
        return Err(ValueError);
      }
      assert sector * job.samplesPerSector + job.samplesPerSector == (sector + 1) * job.samplesPerSector;
    }
    return Ok(values);
  }

  // ---------------------------------------------------------------------
  // The layout
  // ---------------------------------------------------------------------

  /** Sample `s` of sector `k` for channel `c` is the double of the value
      the decoder reports for that channel's sensor axis, stored at
      `8 * (numSamples * c + samplesPerSector * k + s)`. */
  lemma PlacementSlot(job: LoggerJob, c: nat, k: nat, s: nat, d: nat)
    requires BufferSize(job) >= 0 && Consistent(job)
    requires c < job.numChannels && k < NumSectors(|job.file|) && s < job.samplesPerSector && d < 8
    requires ChannelSource(job.numChannels, c).Some?
    ensures var src := ChannelSource(job.numChannels, c).value;
      var at := 8 * (job.numSamples * c + k * job.samplesPerSector + s) + d;
      && 0 <= at < |Placement(job)|
      && Placement(job)[at] == job.f64(job.decode(SectorBytes(job.file, k), src.0, s, src.1))[d]
  {
    var idx := k * job.samplesPerSector + s;
    SectorWithin(NumSectors(|job.file|), k, job.samplesPerSector);
    SlotOfSample(job, k, c, s);
    PlacedByte(job, c, idx, d);
  }

  /** Byte `d` of the slot of sample `idx < Total` of a channel with a
      source holds byte `d` of that sample's double. */
  lemma PlacedByte(job: LoggerJob, c: nat, idx: nat, d: nat)
    requires BufferSize(job) >= 0 && Consistent(job) && job.samplesPerSector > 0
    requires c < job.numChannels && idx < Total(job) && d < 8
    requires ChannelSource(job.numChannels, c).Some?
    ensures var at := 8 * (job.numSamples * c + idx) + d;
      && 0 <= at < |Placement(job)|
      && Placement(job)[at] == SlotValue(job, c, idx)[d]
  {
    var n, total := job.numSamples, Total(job);
    SamplesNonNegative(job, c);
    ProductNonNegative(n, c);
    SlotInBuffer(n, job.numChannels, c, idx);
    var at := 8 * (n * c + idx) + d;
    PlacementAt(job, at);
    WantByteAt(job, c, idx, d, total, 0, total);
    assert WantAt(job, c, idx, d, total, 0, total) == SlotValue(job, c, idx)[d];
  }

  /** Byte `at` of the placed buffer is the wanted byte there. */
  lemma PlacementAt(job: LoggerJob, at: int)
    requires BufferSize(job) >= 0 && 0 <= at < BufferSize(job)
    ensures Placement(job)[at] == WantByte(job, at, Total(job), 0, Total(job))
  {
  }

  /** Every byte that is not a stored sample stays zero: slots of channels
      without a source and slots past the samples the sectors hold. */
  lemma PlacementZero(job: LoggerJob, c: nat, idx: nat, d: nat)
    requires BufferSize(job) >= 0 && c < job.numChannels && idx < job.numSamples && d < 8
    requires ChannelSource(job.numChannels, c).None? || idx >= Total(job)
    ensures var at := 8 * (job.numSamples * c + idx) + d;
      at < |Placement(job)| && Placement(job)[at] == 0
  {
    var n := job.numSamples;
    SlotInBuffer(n, job.numChannels, c, idx);
    InSlot(n, 8 * (n * c + idx) + d, c, idx);
  }
}
