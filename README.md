# OpenMovementConvert core, modelled in Dafny

OpenMovementConvert converts the ".cwa" recordings of several movement
loggers into one catman ".bin" file. This project models the core of that
converter:

- **The catman BIN header writer** (`src/bin_data.py`):
  - `pack_string`, the `Channel` record and `seconds_to_BIN_time`;
  - `generate_BIN`, which writes the preamble, one channel header record per channel, the patched data offset and the patched channel offset table;
  - `bin_write_header`, the single-logger variant with three axes.
- **The multi-logger bookkeeping** (`ConvertMain.py`):
  - the running statistics of `update_dictionary` and the test of `logger_out_of_range`;
  - the channel naming and logger-offset loop of `compute_multi_channel`;
  - the chunked sector reading and channel-major sample placement of `get_logger_data`.
- **The resampling** (`Resampler.py`, `rInterpolate.py`):
  - `get_range`, the common window;
  - `resample`, linear resampling on whole nanoseconds;
  - `interp1d`, the vectorised interpolation with interval and index clamping.
- **The fast sector decoders** (`rapidCWA.py`, `src/rapidCWA.py`). They read 80 little-endian int16 triples from each 512-byte sector and write x, y and z channel-major as doubles.
- **The registry of Task objects and their progress** (`src/Multithread.py`).

The model is organised as follows:

- There is one Dafny module per source component.
- `Py` holds the Python behaviour the others rely on:
  - `int()` truncation;
  - `round` with ties to even;
  - list indexing with negative indices;
  - the exceptions as an error datatype.
- `Packing` holds the `struct` formats (`H`, `L` as 4 bytes, `B`, `Ns`), UTF-8 encoding and decoding, and `pack_string`.
- Doubles are reals. `pack('d', ·)` is an 8-byte encoder passed in as a parameter. `pack('f', 0)` is four zero bytes.
- Operations that update state in the source are Dafny methods over arrays or classes, proved against reference functions:
  - the `bytearray` appends and back-patches;
  - the `memoryview` slot writes;
  - the `masterArray` fill;
  - the `Task` and `TASKS` updates.
- Each reference function has lemmas for what the source promises:
  - decoders that read every header back (`Decode(Encode(h) + rest) == Some((h, rest))`);
  - the exact position of every field and back-patched value;
  - the channel-major layouts;
  - the interpolation bounds;
  - the running-mean invariant.

## Model

| member | source | states |
|---|---|---|
| Py.Trunc | Resampler.py:27 | `int(x)` on a float truncates toward zero: the result is within 1 of `x` on the side of 0 |
| Py.RoundHalfEven | src/Multithread.py:16 | `round` gives the nearest integer, within 0.5, and an even one on a tie |
| Py.Round1 | src/Multithread.py:16 | `round(x, 1)` lies within 0.05 of `x` and is a whole number of tenths |
| Py.PyIndex | Resampler.py:71-72 | list indexing succeeds exactly for `-len <= i < len`; a negative index counts from the end; anything else is an IndexError |
| Packing.PackU16 | src/bin_data.py:150 | `pack("H", n)` is two bytes |
| Packing.PackU32 | src/bin_data.py:151 | `pack("L", n)` is four bytes |
| Packing.U16RoundTrip | src/bin_data.py:150 | the two bytes of `pack("H", n)` read back as `n` wherever they sit in a byte string |
| Packing.U32RoundTrip | src/bin_data.py:151 | the four little-endian bytes of `pack("L", n)` read back as `n` wherever they sit |
| Packing.PadTo | src/bin_data.py:216-218 | an `"Ns"` field is exactly N bytes: the string's first bytes, then zero padding |
| Packing.Utf8Char | src/bin_data.py:133 | a character encodes as 1 to 4 UTF-8 bytes, and as one byte exactly when it is ASCII |
| Packing.Utf8 | src/bin_data.py:133 | `bytes(s, 'utf8')` has between `len(s)` and `4 len(s)` bytes; an ASCII string encodes as its own code points |
| Packing.Utf8Ascii | src/bin_data.py:144 | the UTF-8 of an ASCII string such as the unit "g" is its bytes one for one |
| Packing.Utf8Concat | src/bin_data.py:320 | the UTF-8 of a concatenation is the concatenation of the encodings |
| Packing.Utf8CharDecodes | src/bin_data.py:133 | a character's encoding announces its own length in its lead byte and decodes back to the character |
| Packing.Utf8RoundTrip | src/bin_data.py:133 | decoding the UTF-8 of any string gives the string back |
| Packing.PackBytes | src/bin_data.py:134-135 | a byte string with its `H` length prefix: two bytes holding the length, then the bytes unchanged |
| Packing.PackString | src/bin_data.py:131-136 | `pack_string(s)` is `2 + len(utf8(s))` bytes: the UTF-8 length in the first two, then exactly those bytes |
| Packing.ReadU16Pack | src/bin_data.py:150 | `pack("H", n)` reads back as `n`, leaving what follows |
| Packing.ReadU32Pack | src/bin_data.py:151 | `pack("L", n)` reads back as `n`, leaving what follows |
| Packing.ReadStringPack | src/bin_data.py:134-135 | a length-prefixed byte string reads back whole and leaves what follows untouched |
| Packing.PackStringRoundTrip | src/bin_data.py:131-136 | reading a length-prefixed string from `pack_string(s) + rest` gives `utf8(s)` and `rest` |
| Packing.Starts | src/bin_data.py:254 | the start offset of each record in a concatenation lies between its base and the end of the records |
| Packing.StartsLocate | src/bin_data.py:255 | at record `i`'s start offset, the concatenated bytes continue with record `i` and then the records after it |
| BinData.StoreDouble | ConvertMain.py:345 | writing 8 bytes into a buffer slot changes those 8 bytes and nothing else |
| BinData.FieldsBeforeSubSlot | src/bin_data.py:208-219 | the fixed fields between dt and SubSlot are 84 zero bytes |
| BinData.FieldsAfterSubSlot | src/bin_data.py:221-234 | the fixed fields after SubSlot are 44 zero bytes |
| BinData.Settings | src/bin_data.py:208-234 | the fixed settings after dt, SubSlot among them, are 132 bytes |
| BinData.ExtendedBlock | src/bin_data.py:204-234 | the fields written after the size 148 total exactly 148 bytes |
| BinData.ExtendedBlockFields | src/bin_data.py:206-220 | the extended block starts with T0 and dt and holds SubSlot at byte 100 |
| BinData.SensorInfo | src/bin_data.py:248-250 | the sensor-info block is exactly the 70 bytes its size field announces |
| BinData.Linearisation | src/bin_data.py:237-246 | the linearisation fields plus the size field take 11 bytes |
| BinData.LinearisationAnnounces | src/bin_data.py:246 | the size field before the sensor-info block holds 70 |
| BinData.Trailer | src/bin_data.py:237-250 | everything after the extended block is 81 bytes |
| BinData.RecordHead | src/bin_data.py:185-199 | the 12 fixed bytes of index, sample count and three length prefixes, plus the name, unit and comment bytes |
| BinData.Blocks | src/bin_data.py:204-250 | the extended-header size, the 148-byte block and the 81-byte trailer: 233 bytes |
| BinData.RecordTail | src/bin_data.py:201-250 | everything after the comment: 245 bytes |
| BinData.EncodeChannelHeader | src/bin_data.py:185-250 | a channel header record is `257 + |name| + |units| + |comment|` bytes, so `258 + |name| + |comment|` with the unit "g" |
| BinData.HeadRoundTrip | src/bin_data.py:185-199 | index, sample count, name, unit and comment read back from the head of a record |
| BinData.NamesRoundTrip | src/bin_data.py:188-199 | the three length-prefixed strings read back in order |
| BinData.BlocksRoundTrip | src/bin_data.py:204-250 | T0, dt, SubSlot, description and TID read back from the blocks |
| BinData.TailRoundTrip | src/bin_data.py:201-250 | the whole fixed part after the comment reads back, the date included |
| BinData.ChannelHeaderRoundTrip | src/bin_data.py:185-250 | decoding an encoded channel header record gives back every field and the bytes after it |
| BinData.Space | src/bin_data.py:157 | `pack_string(" ")` is the three bytes 1, 0, 32 |
| BinData.Reserved | src/bin_data.py:156-157 | the 32 reserved strings take 3 bytes each |
| BinData.ReservedRoundTrip | src/bin_data.py:156-157 | the reserved block reads back as that many one-space strings |
| BinData.PackTable | src/bin_data.py:162-165 | the offset table is 4 bytes per channel |
| BinData.PackTableEntry | src/bin_data.py:164 | entry `i` of the table sits at byte `4 i` |
| BinData.TableRoundTrip | src/bin_data.py:162-165 | the table reads back entry for entry |
| BinData.ZeroTable | src/bin_data.py:163-164 | the placeholder table: one entry per channel, all fitting `"L"` |
| BinData.Strings | src/bin_data.py:153-157 | the comment and the reserved strings take `98 + |comment|` bytes |
| BinData.TableSection | src/bin_data.py:159-165 | the channel count, a zero limit word, the table and a zero word take `10 + 4 N` bytes |
| BinData.TableSectionRoundTrip | src/bin_data.py:159-165 | the channel count and the table read back |
| BinData.Preamble | src/bin_data.py:150-165 | the preamble is `114 + |comment| + 4 N` bytes |
| BinData.PreambleLayout | src/bin_data.py:150-165 | the preamble is file ID 5012, the data offset, the comment, 32 reserved strings, N, 0, the table and 0, in that order |
| BinData.PreambleAroundTable | src/bin_data.py:150-165 | the preamble splits into the part before the table, the table and the final zero word |
| BinData.PreambleTableSwap | src/bin_data.py:162 | the table starts at byte `110 + |comment|`: replacing it there changes nothing else |
| BinData.PatchDataOffset | src/bin_data.py:258-259 | patching bytes 2 to 6 replaces the data offset and leaves the rest, and the length, as they were |
| BinData.PreambleRoundTrip | src/bin_data.py:150-165 | data offset, comment and table read back from a preamble |
| BinWriter.SecondsToBinTime | src/bin_data.py:436-447 | seconds since the Unix epoch become OLE days: `(r - 25569) * 86400 == seconds` |
| BinWriter.BinTimeOfEpoch | src/bin_data.py:443 | the Unix epoch is day 25569 |
| BinWriter.BinTimeOneDay | src/bin_data.py:441 | 86400 more seconds is exactly one more day |
| BinWriter.BinTimeIncreasing | src/bin_data.py:441-445 | the conversion is strictly increasing |
| BinWriter.ChannelError | src/bin_data.py:185-207 | a channel packs exactly when its sample count fits `"L"`, its name and comment fit their `"H"` prefix and its rate is not 0; a zero rate raises ZeroDivisionError only once those fields fit, every other failure is struct.error |
| BinWriter.FirstChannelError | src/bin_data.py:172-255 | generate_BIN fails with no error exactly when every channel packs |
| BinWriter.FirstChannelErrorAt | src/bin_data.py:172-255 | the error raised is that of the first channel that does not pack |
| BinWriter.GenHeader | src/bin_data.py:185-250 | channel `i`'s record carries index and SubSlot `i`, the channel's sample count, name and comment, units "g", the same start time in the date field and in T0, a 50-byte description and a 16-byte TID |
| BinWriter.GenHeaderWellFormed | src/bin_data.py:185-250 | every channel that passes the checks gives a header whose fields all fit their formats |
| BinWriter.RecordList | src/bin_data.py:172-255 | one record per channel |
| BinWriter.LengthsOf | src/bin_data.py:254 | one recorded length per channel |
| BinWriter.ChannelRecord | src/bin_data.py:185-250 | channel record `i` is `258 + |utf8(name)| + |utf8(comment)|` bytes |
| BinWriter.RecordListAt | src/bin_data.py:254-255 | record `i` of the records is channel `i`'s record, and its length is the recorded `chanOffset[i]` |
| BinWriter.LengthsOfWithin | src/bin_data.py:254 | each recorded record length is at most the length of all records |
| BinWriter.AsWrittenOffsets | src/bin_data.py:262-266 | entries 0 and 1 are the header length; entry `i > 1` is the header length plus the length of record `i - 1` |
| BinWriter.GenerateBinSpec | src/bin_data.py:139-268 | on success the header is `114 + |comment| + 4 N` bytes and its bytes 2 to 6 hold header plus records length |
| BinWriter.GenerateBinSpecOk | src/bin_data.py:139-268 | when every field fits, generate_BIN returns the preamble with the full length as data offset and the as-written table, and the concatenated records |
| BinWriter.AsWrittenOffsetsFit | src/bin_data.py:262-266 | every as-written table entry fits `"L"` when the full length does |
| BinWriter.PreambleDataOffset | src/bin_data.py:258-259 | the data offset in a preamble reads back as the value patched in |
| BinWriter.GenerateBinReadsBack | src/bin_data.py:139-268 | the returned header decodes to the full length, the comment and the as-written table, and the records are the channels' records |
| BinWriter.GenerateBinFailsAtFirstBadChannel | src/bin_data.py:172-255 | the first channel whose fields do not pack decides the error |
| BinWriter.AsWrittenTableMisplacesChannelOne | src/bin_data.py:262-266 | with two or more channels, entries 0 and 1 both point at the first record, before the second record's start |
| BinWriter.RecordAt | src/bin_data.py:255 | at record `i`'s start the bytes decode to channel `i`'s header |
| BinWriter.SecondRecordStart | src/bin_data.py:254-255 | the second record starts after the first |
| BinWriter.GenerateBinCorrected | src/bin_data.py:262-266 | with cumulative offsets, the output fails exactly when generate_BIN does and has the same records |
| BinWriter.GenerateBinCorrectedOk | src/bin_data.py:262-266 | the corrected header carries the start of every record in its table |
| BinWriter.CorrectedHeaderReadsBack | src/bin_data.py:258-266 | the corrected header decodes to the full length, the comment and the record starts |
| BinWriter.CorrectedTableLocatesRecords | src/bin_data.py:262-266 | each corrected table entry points at a record that decodes to that channel's header |
| BinWriter.BuildPreamble | src/bin_data.py:150-165 | the preamble built with placeholder offset 934 and a zero table, and the table start `110 + |comment|` |
| BinWriter.GenerateBin | src/bin_data.py:139-268 | the method returns exactly `GenerateBinSpec`, error included |
| BinWriter.PatchHeader | src/bin_data.py:257-266 | patching the placeholder preamble gives the preamble with the full length and the as-written table |
| BinWriter.BuildRecords | src/bin_data.py:172-255 | the loop reports the first channel error, or gives all records and their lengths |
| BinWriter.BuildRecordsStep | src/bin_data.py:254-255 | appending one record and its length extends the records and the lengths by that channel |
| BinWriter.PatchAsWrittenTable | src/bin_data.py:262-266 | the loop overwrites exactly the table bytes with the as-written entries |
| BinWriteHeader.InputName | src/bin_data.py:279 | `name[:-4]`: the name without its last four characters, or empty when shorter |
| BinWriteHeader.ChannelNameLength | src/bin_data.py:320 | a channel name is two bytes longer than the input name |
| BinWriteHeader.AxisErrorUniform | src/bin_data.py:318-394 | every axis fails or packs alike, because the fields do not depend on the axis |
| BinWriteHeader.AxisError | src/bin_data.py:318-346 | an axis packs exactly when it has a tag (there are three), the sample count fits `"L"`, the channel name fits its `"H"` prefix and the rate is not 0; a fourth axis raises IndexError; the only errors are IndexError, struct.error and ZeroDivisionError |
| BinWriteHeader.FirstAxisError | src/bin_data.py:318-394 | no error exactly when every axis packs; otherwise the first failing axis's error |
| BinWriteHeader.FirstAxisErrorCases | src/bin_data.py:318-320 | the error is the first axis's packing error, or IndexError for a fourth channel |
| BinWriteHeader.AxisHeader | src/bin_data.py:318-390 | axis `i`'s record carries index `i + 10` but SubSlot `i`, the logger's sample count, the channel name as both name and comment, units "g", and the same start time in the date field and in T0 |
| BinWriteHeader.RecordLength | src/bin_data.py:318-390 | every axis record has the same length: 258 bytes plus its channel name twice |
| BinWriteHeader.AxisRecord | src/bin_data.py:318-394 | every axis record is `258 + 2 |utf8(name)|` bytes, the name written twice |
| BinWriteHeader.AxisRecords | src/bin_data.py:318-394 | one record per axis |
| BinWriteHeader.AxisRecordsAt | src/bin_data.py:394 | record `i` of the records is axis `i`'s record |
| BinWriteHeader.AxisRecordsStep | src/bin_data.py:394 | one more axis appends its record |
| BinWriteHeader.AxisRecordsUniform | src/bin_data.py:318-394 | all records have the same length, so the records take `n` times it |
| BinWriteHeader.EvenOffsets | src/bin_data.py:402-403 | one table entry per channel |
| BinWriteHeader.EvenOffsetsIncreasing | src/bin_data.py:402-403 | the table entries are evenly spaced by the record length and strictly increasing |
| BinWriteHeader.EvenOffsetsFit | src/bin_data.py:403 | the entries fit `"L"` when the last does |
| BinWriteHeader.EvenOffsetsAreStarts | src/bin_data.py:402-403 | `len(header) + i * len(ch)` is exactly where record `i` starts |
| BinWriteHeader.WriteHeaderSpec | src/bin_data.py:271-434 | on success the header has the preamble length, its bytes 2 to 6 hold the full length, and the records take N record lengths |
| BinWriteHeader.WriteHeaderErrors | src/bin_data.py:288-320 | an oversized comment or count is a struct error, a bad rate or field is the first axis's error, more than three channels is IndexError |
| BinWriteHeader.WriteHeaderSpecOk | src/bin_data.py:271-434 | on success, the preamble with the full length and the even table, then the axis records |
| BinWriteHeader.WriteHeaderReadsBack | src/bin_data.py:396-403 | the header decodes to the full length, the comment and the even table |
| BinWriteHeader.WriteHeaderLocatesRecords | src/bin_data.py:318-403 | each table entry points at a record decoding to axis `i`, with index `i + 10`, SubSlot `i`, and the name as its comment |
| BinWriteHeader.BinWriteHeader | src/bin_data.py:271-434 | the method returns exactly `WriteHeaderSpec` |
| BinWriteHeader.WriteHeaderLengthIs | src/bin_data.py:396 | preamble and records add up to the full length; a length over 32 bits is a struct error |
| BinWriteHeader.WriteHeaderResult | src/bin_data.py:396-403 | the record length from the last `ch` gives the same table as the common record length |
| BinWriteHeader.BuildAxisRecords | src/bin_data.py:318-394 | the loop reports the first axis error, or gives all records and the last record's length |
| BinWriteHeader.PatchEvenHeader | src/bin_data.py:396-403 | patching the placeholder gives the preamble with full length and even table |
| BinWriteHeader.PatchEvenTable | src/bin_data.py:402-403 | the loop overwrites exactly the table bytes with the even entries |
| ConvertMain.HolderIsFirstBest | ConvertMain.py:272-277 | the kept maximum (minimum) is beaten by no stat, and its logger is the first that reached it |
| ConvertMain.SumBounds | ConvertMain.py:264-268 | a sum of stats in `[lo, hi]` lies between `n lo` and `n hi` |
| ConvertMain.RunningMean | ConvertMain.py:264-268 | the new mean is the stat itself for the first logger, and otherwise lies between the old mean and the new stat |
| ConvertMain.MeanUpdate | ConvertMain.py:264-268 | `(average * n + stat) / (n + 1)` is the mean of all stats seen with the new one |
| ConvertMain.RecordSnoc | ConvertMain.py:272-277 | a new stat replaces the record and its logger only on strict improvement |
| ConvertMain.Stats.constructor | ConvertMain.py:102-106 | the initial dictionary: max 0, min 1e100, average 0, no loggers |
| ConvertMain.Stats.Update | ConvertMain.py:262-277 | one more logger: count plus 1, average the mean of all stats, max and min changed only on strict improvement, ties keeping the earlier logger |
| ConvertMain.Stats.OutOfRange | ConvertMain.py:281-286 | true exactly when max or min lies strictly more than the limit from the mean |
| ConvertMain.MeanBetween | ConvertMain.py:264-268 | the mean of stats in `[lo, hi]` lies in `[lo, hi]` |
| ConvertMain.AverageWithinRange | ConvertMain.py:262-277 | after one or more updates of non-negative stats, min <= average <= max |
| ConvertMain.AgreeingLoggersInRange | ConvertMain.py:281-286 | loggers whose stats all lie within the limit of each other are never flagged |
| ConvertMain.FlaggedLoggersDiffer | ConvertMain.py:281-286 | a flagged set holds two loggers whose stats differ by more than the limit |
| ConvertMain.Column | ConvertMain.py:117-121 | the stats column of a field holds each logger's value of it in order |
| ConvertMain.UpdateField | ConvertMain.py:117-121 | one update keeps a dictionary equal to the statistics of the loggers so far |
| ConvertMain.CollectOne | ConvertMain.py:117-121 | the five updates for one logger keep all five dictionaries in step |
| ConvertMain.CollectStats | ConvertMain.py:102-121 | after the loop each dictionary holds the statistics of its field over all loggers, in file order |
| ConvertMain.AxisLabels | ConvertMain.py:150-152 | one label per channel for 3, 6 or 9 channels; X, Y, Z for any count other than 6 or 9 |
| ConvertMain.LoggerChannel | ConvertMain.py:159-177 | a channel is named `deviceId_sessionId_axis` and carries the logger's figures, or the window's when resampling, except the stop time |
| ConvertMain.ChannelName | ConvertMain.py:175 | a channel name is the device id, "_", the session id, "_" and the axis label, with its length the sum of theirs plus 2 |
| ConvertMain.LoggerChannels | ConvertMain.py:174-177 | one channel per axis label, in label order |
| ConvertMain.ChannelList | ConvertMain.py:157-177 | the list has (number of loggers) times (channels per logger) entries |
| ConvertMain.ChannelListAt | ConvertMain.py:157-177 | axis `i` of logger `k` is entry `k * width + i`: loggers do not interleave |
| ConvertMain.AsWrittenResampledStopsDiffer | ConvertMain.py:167-177 | when resampling, channels share start, rate and count but keep their own stop times |
| ConvertMain.LoggerChannelCorrected | ConvertMain.py:167-177 | with the window's stop applied, a channel differs from the as-written one only in its stop time |
| ConvertMain.CorrectedChannelsShareWindow | ConvertMain.py:167-177 | corrected resampled channels all carry the window's start, stop, rate and count |
| ConvertMain.BlockBytes | ConvertMain.py:180 | a logger's block is `numSamples * channels * byteWidth` bytes: never negative for a non-negative count and width, and empty when there are no channels or the width is 0 |
| ConvertMain.Offsets | ConvertMain.py:154-155 | the offsets start at 0, one per logger plus the end |
| ConvertMain.OffsetsStep | ConvertMain.py:180 | each offset is the previous one plus the previous logger's `numSamples * channels * byteWidth` |
| ConvertMain.OffsetsDisjoint | ConvertMain.py:180 | the loggers' blocks follow one another without overlap |
| ConvertMain.PlanSnoc | ConvertMain.py:157-180 | one more logger appends its channels and its next offset |
| ConvertMain.PlanSpec | ConvertMain.py:146-180 | the loop fails, with IndexError, exactly when there is a logger and the channel count exceeds the label list; otherwise `loggers * channels` channels and `loggers + 1` offsets |
| ConvertMain.PlanLogger | ConvertMain.py:159-180 | one round appends the logger's channels and the next offset, or raises IndexError for a missing label |
| ConvertMain.PlanChannels | ConvertMain.py:146-180 | the loop computes exactly the channel list and the offsets of `PlanSpec` |
| ConvertMain.LoggerBlocksFollowHeader | ConvertMain.py:192-214 | logger 0 is written at the data offset in the header, and every later logger after the end of each earlier block |
| LoggerPlacement.ChannelSource | ConvertMain.py:344-352 | a channel has a source exactly when the logger has 3 channels and `c < 3`, or more than 3 channels and `c < 9`; the source is axis `c mod 3` of accel, gyro or mag, by `c`'s group of three |
| LoggerPlacement.SensorAxisStored | ConvertMain.py:344-352 | a sensor axis reaches the output exactly when the logger has a channel for it |
| LoggerPlacement.NumSectors | ConvertMain.py:314-316 | `(fileSize - 1024) // 512` whole sectors, or 0 below the header |
| LoggerPlacement.ReadAt | ConvertMain.py:325 | a read returns at most the bytes asked for, and exactly the file's bytes at that position when they all exist |
| LoggerPlacement.PySlice | ConvertMain.py:329 | Python slicing clamps at the end |
| LoggerPlacement.SectorBytes | ConvertMain.py:323-329 | every sector below the sector count is 512 bytes |
| LoggerPlacement.ChunkHoldsSector | ConvertMain.py:323-329 | sector `k` is the slice at `512 (k mod 100)` of chunk `k // 100` |
| LoggerPlacement.Placement | ConvertMain.py:319 | the buffer is `numSamples * 8 * numChannels` bytes |
| LoggerPlacement.FilledZero | ConvertMain.py:319 | a fresh zero buffer holds nothing yet |
| LoggerPlacement.WriteStep | ConvertMain.py:342-352 | writing one slot stores one more sample of that channel |
| LoggerPlacement.SkipStep | ConvertMain.py:344-352 | a channel with no source keeps its zeros |
| LoggerPlacement.ChannelStep | ConvertMain.py:340-341 | after a channel's samples the next channel begins |
| LoggerPlacement.SectorStep | ConvertMain.py:323-352 | after all channels of a sector the next sector begins |
| LoggerPlacement.SlotOfSample | ConvertMain.py:335-345 | `sectorOffset + chan*8*numSamples + sample*8` is slot `k*spp + sample` of the channel, inside the buffer, and holds the decoded value |
| LoggerPlacement.SectorOffsetIdentity | ConvertMain.py:335-342 | the source's offset expression equals the channel-major slot formula |
| LoggerPlacement.WantByteAt | ConvertMain.py:342 | byte `d` of slot `(c, idx)` is the slot's own byte |
| LoggerPlacement.StoreSlot | ConvertMain.py:345 | the slot write changes 8 bytes and stores one more sample |
| LoggerPlacement.PlaceChannel | ConvertMain.py:341-352 | one channel's samples of a sector are stored |
| LoggerPlacement.PlaceSector | ConvertMain.py:340-352 | every channel's samples of a sector are stored |
| LoggerPlacement.ChunkCounters | ConvertMain.py:324-327 | a new chunk starts exactly when the sector number is a multiple of 100 |
| LoggerPlacement.NextSector | ConvertMain.py:324-329 | the chunked reader hands out sector after sector, as if read one by one |
| LoggerPlacement.SectorWithin | ConvertMain.py:335 | every sector's samples lie within the sectors' samples |
| LoggerPlacement.GetLoggerData | ConvertMain.py:289-352 | ValueError for a negative size, ZeroDivisionError for 1 to 24 sectors, otherwise the buffer holds exactly the placement |
| LoggerPlacement.PlacementSlot | ConvertMain.py:335-352 | sample `s` of sector `k` on channel `c` sits at `8 (numSamples c + k spp + s)` and holds the double decoded from that sector |
| LoggerPlacement.SlotValue | ConvertMain.py:335-352 | sample `idx` of a channel is the value the decoder gives for that channel's sensor and axis at position `s` of sector `k`, where `idx = k * samplesPerSector + s` |
| LoggerPlacement.PlacedByte | ConvertMain.py:342-352 | each stored slot holds its value's bytes |
| LoggerPlacement.PlacementAt | ConvertMain.py:319-352 | every byte of the placement is the byte the loop leaves there once all sectors are placed |
| LoggerPlacement.PlacementZero | ConvertMain.py:319 | slots of channels without a source, or past the last sector, stay zero |
| Resampler.GetRange | Resampler.py:83-103 | the window starts at the latest start plus the trim, `stop - start == (n + 0.5) / freq`, and a zero rate is a ZeroDivisionError |
| Resampler.GetRangeIgnoresNegativeTrim | Resampler.py:90-91 | negative trims have no effect |
| Resampler.GetRangeSampleCount | Resampler.py:93-97 | for a non-negative duration the count is at least 1 and `count - 1 <= duration * freq < count` |
| Resampler.Nanos | Resampler.py:27 | `int(t * 1e9)` is within one nanosecond of `t`, rounded toward zero |
| Resampler.Period | Resampler.py:32 | `int((1.0 / freq) * 1e9)` is the whole nanoseconds in one period, rounded down, and 0 for a rate above 1 GHz |
| Resampler.TargetSamples | Resampler.py:37 | the target sample count is the whole periods in the target span, rounded down, and 0 for an empty span |
| Resampler.ResamplePlan | Resampler.py:27-42 | the set-up's times and counts on whole nanoseconds, and a ZeroDivisionError for a source of no duration or a zero target rate |
| Resampler.AlphaInUnit | Resampler.py:57-62 | for a target at or after the source start, `lower >= 0` and `0 <= alpha < 1` |
| Resampler.OnGridExact | Resampler.py:57-75 | a target on a source sample takes that sample's value exactly |
| Resampler.Interpolated | Resampler.py:60-75 | with `alpha` 0 the value is `lowerV`; for a target at or after the source start the value lies between its two neighbours |
| Resampler.Resampled | Resampler.py:42 | the output is `numChannels * 8 * tSamples` bytes |
| Resampler.WriteStep | Resampler.py:78 | writing one double stores one more channel of the current sample |
| Resampler.SampleStep | Resampler.py:68 | after all channels the next sample begins |
| Resampler.StoreSample | Resampler.py:78 | the write at `c * chanOffset + k * 8` stores channel `c` of sample `k` |
| Resampler.ChannelOffsetIdentity | Resampler.py:48-78 | `c * tSamples * 8 + k * 8` is the channel-major slot of `(c, k)` |
| Resampler.ResampleChannel | Resampler.py:68-78 | the channel's value is stored exactly when both neighbours exist |
| Resampler.ResampleOne | Resampler.py:53-78 | one target sample is stored on every channel exactly when all neighbours exist |
| Resampler.ResampleSpec | Resampler.py:22-81 | a set-up error is passed on; the only errors are ZeroDivisionError, ValueError and IndexError; a result has `numChannels * 8 * tSamples` bytes, and a non-empty one needs a non-zero source period, at least 25 target samples and every neighbour readable |
| Resampler.Resample | Resampler.py:22-81 | the method returns `ResampleSpec`, error included |
| Resampler.ResampledAt | Resampler.py:47-78 | bytes `c * tSamples * 8 + k * 8` onward hold the double for channel `c` at sample `k` |
| Resampler.ResampleLayout | Resampler.py:22-81 | in any successful output, each channel's samples sit channel-major and hold the interpolated values |
| Resampler.WindowSampleCount | Resampler.py:99-101 | a window with the half-sample stop gives `resample` the same count back, for rates up to 250 MHz |
| Resampler.GetRangeFeedsResample | Resampler.py:99-101 | `resample` on `get_range`'s window at the same rate produces `numSamples` samples |
| RInterpolate.Linspace | rInterpolate.py:34 | `n` points starting at `a` |
| RInterpolate.LinspaceEnds | rInterpolate.py:34 | the last of two or more points is `b` |
| RInterpolate.LinspaceWithin | rInterpolate.py:34 | every point lies in `[a, b]` |
| RInterpolate.OutputSamples | rInterpolate.py:22 | a forward interval gives at least one point and one more than the whole spacings in it; the count is negative exactly when the interval is at least two spacings backwards |
| RInterpolate.RawLo | rInterpolate.py:36 | the index is the whole input spacings from `startVal` to `x`, rounded toward zero |
| RInterpolate.Frac | rInterpolate.py:41 | `x` lies at `startVal + (lo + B) * inputDelta` |
| RInterpolate.Fracs | rInterpolate.py:41 | one fraction per point |
| RInterpolate.Lerp | rInterpolate.py:52 | a fraction of 0 gives `y[i, lo]` and a fraction of 1 gives `y[i, lo + 1]` |
| RInterpolate.InterpRow | rInterpolate.py:52 | one value per point |
| RInterpolate.InterpRows | rInterpolate.py:50-52 | exactly three rows, each with one value per point |
| RInterpolate.ClampStart | rInterpolate.py:14 | the start is moved up to the source start, never below it |
| RInterpolate.ClampEnd | rInterpolate.py:13 | the end is moved down to the source end, never above it |
| RInterpolate.LoOf | rInterpolate.py:36-37 | one index per output point |
| RInterpolate.ClampLo | rInterpolate.py:37 | an index below `N - 1` is kept and one at or past `N` becomes `N - 2`; as written `N - 1` is kept, while the corrected mask never leaves an index above `N - 2` |
| RInterpolate.DebugStarts | rInterpolate.py:55 | `range(10, 50000000, 10000000)`: five starts 10 apart by 10000000, the last below the stop |
| RInterpolate.DebugReadableBounds | rInterpolate.py:55-60 | the printout's columns all exist exactly when there are at least 40000013 output points and 40000014 input columns |
| RInterpolate.Interp1dSpec | rInterpolate.py:8-65 | a result exists only for a non-zero spacing and has 3 rows of `int((end - start) / spacing) + 1` values over the clamped interval; as written, a result also needs every column the debug printout reads |
| RInterpolate.Rows | rInterpolate.py:50 | the array's rows, with its shape |
| RInterpolate.MaskLo | rInterpolate.py:37 | `lo[lo >= N] = N - 2` in place, and nothing else changes |
| RInterpolate.FillRow | rInterpolate.py:52 | one row is filled with its interpolated values; other rows stay |
| RInterpolate.Interp1d | rInterpolate.py:8-65 | the method returns `Interp1dSpec` as written, error included, the debug printout's IndexError too |
| RInterpolate.RowsAreInterpolated | rInterpolate.py:51-52 | the filled array is the three interpolated rows |
| RInterpolate.FractionInUnit | rInterpolate.py:36-41 | for an unclamped index the fraction lies in `[0, 1)` |
| RInterpolate.GridPointExact | rInterpolate.py:36-52 | at a source grid point the fraction is 0 and the output equals the source |
| RInterpolate.LerpBetween | rInterpolate.py:52 | for a fraction in `[0, 1]` the output lies between its two neighbours |
| RInterpolate.RawLoWithin | rInterpolate.py:20-36 | points within the clamped interval give indices 0 to N |
| RInterpolate.AsWrittenReadsPastLastColumn | rInterpolate.py:36-37 | a window ending at the source end gives index N-1 and reads column N |
| RInterpolate.CorrectedInterpolatesWholeWindow | rInterpolate.py:36-60 | with the mask at `N - 1`, every non-empty clamped window over a source of at least 3 rows and 2 columns interpolates without error, and every point's column has both neighbours (`0 <= lo` and `lo + 1 < N`) |
| RInterpolate.AsWrittenNeedsDebugColumns | rInterpolate.py:55-60 | as written, a call returns rows only for at least 40000013 output points and 40000014 input columns |
| RInterpolate.EqualEndsFailAsWritten | rInterpolate.py:14-60 | as written, equal ends with a positive spacing always fail: ValueError when the clamped bounds are two or more steps out of order, IndexError otherwise, since at most one point remains for the printout |
| RInterpolate.AsWrittenDebugPrintoutFails | rInterpolate.py:55-56 | a 3 x 4 input sampled on `[0, 2]` every 0.5 interpolates, yet the printout raises IndexError; the intended program returns the rows |
| RInterpolate.CorrectedAgreesWhereAsWrittenSucceeds | rInterpolate.py:36-60 | wherever the program as written returns rows, the intended one returns the same rows |
| RapidCwa.Sectors | rapidCWA.py:43 | the whole sectors after the header, a trailing part sector dropped; negative for a file shorter than the header |
| RapidCwa.I16 | rapidCWA.py:51 | two little-endian bytes as a signed 16-bit value |
| RapidCwa.FromBuffer | rapidCWA.py:51 | each sector gives 80 records |
| RapidCwa.Master | rapidCWA.py:48-52 | the master array has `sectors * op * 80` records |
| RapidCwa.MasterInSectorOrder | rapidCWA.py:50-52 | record `j` of sector `i` is entry `80 i + j` |
| RapidCwa.MasterReadsOnlyPayload | rapidCWA.py:51 | only sector bytes 30 to 509 are read: the header and the rest of each sector never matter |
| RapidCwa.FillMaster | rapidCWA.py:43-52 | the loop fills the array exactly as the master array; a file shorter than its header is a ValueError |
| RapidCwa.ChannelBytes | rapidCWA.py:63 | one channel is 8 bytes per record |
| RapidCwa.ChannelBytesAt | rapidCWA.py:63 | record `k` of a channel is its value over 2048 |
| RapidCwa.ChannelsOut | rapidCWA.py:60-63 | `n` channels written one after another |
| RapidCwa.ChannelsOutSlot | rapidCWA.py:62-63 | channel `c` is the `c`-th block |
| RapidCwa.ChannelsOutAt | rapidCWA.py:60-63 | bytes `8 n c + 8 k` onward hold record `k` of channel `c` |
| RapidCwa.Method1Spec | rapidCWA.py:18-65 | `3 * 8 * samples` bytes, or ValueError exactly for a file shorter than its header |
| RapidCwa.WriteChannels | rapidCWA.py:60-63 | the loop writes x, then y, then z |
| RapidCwa.Method1 | rapidCWA.py:18-65 | the method returns `Method1Spec` |
| RapidCwa.Method1Layout | rapidCWA.py:43-63 | record `j` of sector `i` of channel `c` lands at `8 samples c + 8 (80 i + j)`, scaled by 1/2048 |
| SrcRapidCwa.Method1 | src/rapidCWA.py:14-59 | the variant returns `Method1Spec` with `op = 10` |
| SrcRapidCwa.SectorRepeated | src/rapidCWA.py:40-46 | each sector's 80 records appear 10 times in a row, in order |
| SrcRapidCwa.Method1Layout | src/rapidCWA.py:42-57 | repeat `rep` of record `j` of sector `s` on channel `c` lands at its channel-major slot, scaled by 1/2048 |
| Multithread.Task.constructor | src/Multithread.py:5-11 | a new task has progress 0 and is not done |
| Multithread.Task.UpdateProgress | src/Multithread.py:13-17 | the progress is stored; done is set when it rounds to 100.0 and never reset |
| Multithread.Task.IsDone | src/Multithread.py:19-20 | `is_done` reports the flag `update_progress` maintains |
| Multithread.Task.GetProgress | src/Multithread.py:22-23 | `get_progress` reports the last stored progress |
| Multithread.FinishedRange | src/Multithread.py:16 | a progress counts as finished exactly when it lies in `[99.95, 100.05]` |
| Multithread.FirstWithID | src/Multithread.py:38-42 | the first task, in insertion order, with the ID, or none |
| Multithread.Registry.constructor | src/Multithread.py:26 | the registry starts empty |
| Multithread.Registry.AddTask | src/Multithread.py:28-29 | the new Task is appended and the earlier ones stay |
| Multithread.Registry.AllDone | src/Multithread.py:31-36 | true exactly when every task is done, so true for none |
| Multithread.Registry.FindID | src/Multithread.py:38-42 | the first task with the ID, or None |
| Multithread.Registry.UpdateID | src/Multithread.py:44-50 | an unknown ID changes nothing; a known one updates only the first match |
| Multithread.FirstWithIDAt | src/Multithread.py:38-42 | a task with the ID and none before it is the one found |

## Left out

- GUI_Start.py (the Tk interface, dialogs and threads) is not part of this model.
- These parts of ConvertMain.py are not part of this model, because they are file and process plumbing:
  - `main`, `open_multiple_files` and `save_file_name`;
  - the open, seek, tell and write calls;
  - `read_file_to_mem`;
  - the multiprocessing pool.
  - What the model keeps is the data these calls move: the file is a byte sequence, and the output positions are stated as lemmas.
- `write_tst_convert` and `write_tst_resampled` are not part of this model. They write text files using the wall clock.
- `CWA.cwa_info` and `CWA.cwa_data` are not part of this model.
  - The per-sector decoder is the parameter `decode` of `LoggerPlacement.LoggerJob`.
  - The per-logger figures are the fields of `ConvertMain.LoggerInfo`.
- `rCWA.readToMem` and `rCWA.writeToFile`, which `compute_multi_channel` calls, are defined in neither decoder file. The model covers the `method1` decoders that exist.
- ConvertMain.py line 192 calls `generate_BIN` with four arguments, but it takes three, so that call raises TypeError. `BinWriter.GenerateBin` models `generate_BIN` as it is defined.
- src/ResampleController.py, rFilter.py, rIntegrate.py and UnitTest.py are not part of this model. They are I/O wrappers and scipy filtering/integration.
- IEEE-754 detail is not modelled:
  - floats are reals;
  - `pack('d', x)` is an opaque 8-byte encoder parameter;
  - numpy `float32` and `int32` casts are taken as exact.
  - `pack('f', 0)` is four zero bytes, which is the IEEE encoding of +0.0.
- `pack("L", n)` uses the platform's native size: 4 bytes on Windows, 8 on 64-bit Linux and macOS. The model fixes it at 4 bytes, the size the catman format defines, so every length and offset assumes the Windows layout.
- Prints and timing are not modelled, including the start/end times in `method1`. The debug printout at rInterpolate.py lines 55-60 is modelled only for the IndexError its indexing raises; what it prints is not.
  - The progress tests `% (n // 25)` are kept, because they raise ZeroDivisionError for 1 to 24 sectors or samples.
  - The disabled `update_ID` call in `resample` is left out.
- `rapidCWA.method2` is an empty stub and is not part of this model.
- LoggerPlacement.GetLoggerData: the full placement is proved only when the sectors' samples fit in `numSamples`.
  - Beyond that, the source writes into the next channel's slots or past the buffer, where a `memoryview` slice assignment raises ValueError.
  - The model then only guarantees a result of the right size or a ValueError/ZeroDivisionError.
- RInterpolate.LoOf, RInterpolate.Interp1dSpec, RInterpolate.Interp1d: the case `endVal == startVal` is modelled only where its outcome does not depend on infinite values.
  - There numpy divides by a zero `inputDelta`, and `lo` and `B` hold infinities or NaN whose int32 cast depends on the platform. Reals cannot represent that.
  - As written, the call then fails whatever those values are, unless the spacing is negative and the window holds 40000013 or more points (`RInterpolate.EqualEndsFailAsWritten` covers every positive spacing).
  - `LoOf` and the corrected program (`corrected == true`) require `endVal != startVal`.
- Resampler.WindowSampleCount, Resampler.GetRangeFeedsResample: proved only for target rates up to 250 MHz.
  - Above that, the nanosecond truncation can cost a whole sample.
- ConvertMain.Stats.Update: the ghost record of stats seen (`seen`, `loggers`) has no counterpart in the dictionary. It is there to state the invariant.
- In the source, `sampleRate` is `str(meanRate)` when not resampling, and `generate_BIN` converts it back with `float()`. The model keeps the number, which is the same value.
- Resampler.GetRange: `get_range` reports a window of no length only by printing (Resampler.py:94). `Resampler.GetRange` therefore returns that window, and its message is left out.
  - The 0.25 s margin (Resampler.py:87) is subtracted from the stop before the sample count `int(duration * freq) + 1` is taken (Resampler.py:91-97).

## Findings

| source | as written | input that shows it | evidently intended | confidence | as-written member | corrected member |
|---|---|---|---|---|---|---|
| src/bin_data.py:262-266 | the channel offset table gives entries 0 and 1 the header length, and entry `i > 1` the header length plus the length of record `i - 1` only | two channels: entry 1 points at channel 0's record, not channel 1's | entry `i` is the header length plus the lengths of records 0 to `i - 1` | not executed | BinWriter.AsWrittenTableMisplacesChannelOne | BinWriter.CorrectedTableLocatesRecords |
| rInterpolate.py:36-37 | only indices `lo >= N` are moved back to `N - 2` | 3 rows of 4 columns on `[0, 4]`, interpolated on `[0, 4]` every 0.5: the point 3.0 gives `lo = 3` and reads column 4 | indices `lo >= N - 1` are clamped, so `lo + 1` always exists | not executed | RInterpolate.AsWrittenReadsPastLastColumn | RInterpolate.CorrectedInterpolatesWholeWindow |
| rInterpolate.py:55-60 | after the interpolation, a debug printout reads points 10 to 40000012 of the output and columns 10 to 40000013 of the input | 3 rows of 4 columns on `[0, 4]`, interpolated on `[0, 2]` every 0.5: 5 points, and the printout reads point 10 | the printout is diagnostic, so the rows are returned whatever their number | not executed | RInterpolate.AsWrittenDebugPrintoutFails | RInterpolate.CorrectedInterpolatesWholeWindow |
| ConvertMain.py:167-177 | when resampling, `stopTime` is set to the window's stop but each Channel gets the logger's own `endTime` | two loggers with different last timestamps and resampling on: their channels share start, rate and count but not stop | resampled channels carry the window's stop time | not executed | ConvertMain.AsWrittenResampledStopsDiffer | ConvertMain.CorrectedChannelsShareWindow |
