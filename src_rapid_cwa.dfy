/** `method1` of src/rapidCWA.py: the sector decoder of rapidCWA.py with
    every sector copied ten times into the sample array, which simulates a
    file ten times as long. Header, sector layout and output format are
    those of module RapidCwa. */
module SrcRapidCwa {
  import opened Py
  import opened Packing
  import opened BinData
  import opened RapidCwa

  /** How many times each sector is copied. */
  const OP: nat := 10

  /** `method1` with ten copies of each sector: the bytes it writes to the
      ".bin" file, or the error. */
  method Method1(file: seq<byte>, f64: real -> F64Bytes) returns (r: Result<seq<byte>>)
    ensures r == Method1Spec(file, OP, f64)
  {
    var filled := FillMaster(file, OP);
    if filled.Err? {
      return Err(filled.error);
    }
    var out := WriteChannels(filled.value, f64);
    return Ok(out);
  }

  /** Copy `rep` of sector `s` is block `10 * s + rep` of the array: the 80
      samples of a sector appear ten times in a row, in order, and the
      sectors follow one another in file order. */
  lemma SectorRepeated(file: seq<byte>, s: nat, rep: nat, j: nat)
    requires |file| >= HEADER_OFFSET && s < Sectors(|file|) && rep < OP && j < SAMPLES_PER_SECTOR
    ensures SAMPLES_PER_SECTOR * (OP * s + rep) + j < |Master(file, OP)|
    ensures Master(file, OP)[SAMPLES_PER_SECTOR * (OP * s + rep) + j] == SectorSample(file, s, j)
  {
    var b := OP * s + rep;
    var k := SAMPLES_PER_SECTOR * b + j;
    assert b + 1 <= OP * Sectors(|file|);
    assert k / SAMPLES_PER_SECTOR == b && k % SAMPLES_PER_SECTOR == j;
    assert b / OP == s;
  }

  /** The output: 3 * samples * 10 doubles, channel-major; copy `rep` of
      sample `j` of sector `s` sits at index `80 * (10 * s + rep) + j` of
      each channel. */
  lemma Method1Layout(file: seq<byte>, f64: real -> F64Bytes, c: nat, s: nat, rep: nat, j: nat)
    requires |file| >= HEADER_OFFSET && c < NUM_CHANNELS && s < Sectors(|file|)
    requires rep < OP && j < SAMPLES_PER_SECTOR
    ensures var n := Sectors(|file|) * SAMPLES_PER_SECTOR * OP;
      var out := Method1Spec(file, OP, f64).value;
      var at := 8 * n * c + 8 * (SAMPLES_PER_SECTOR * (OP * s + rep) + j);
      && |out| == NUM_CHANNELS * 8 * n
      && out[at .. at + 8] == f64(Scaled(SectorSample(file, s, j), c))
  {
    var n := Sectors(|file|) * SAMPLES_PER_SECTOR * OP;
    var m := Master(file, OP);
    var k := SAMPLES_PER_SECTOR * (OP * s + rep) + j;
    assert |m| == n;
    assert Method1Spec(file, OP, f64) == Ok(ChannelsOut(m, NUM_CHANNELS, f64));
    SectorRepeated(file, s, rep, j);
    ChannelsOutAt(m, f64, c, k, n, 8 * n * c + 8 * k);
  }
}
