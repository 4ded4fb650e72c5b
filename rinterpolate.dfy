/** rInterpolate.py: `interp1d`, a memory-saving linear interpolation of the
    first three rows of a 2-D array `y` whose `N` columns are samples spaced
    `(endVal - startVal) / N` apart from `startVal`. The output interval is
    clamped into the input interval and sampled every `equispacing`; each
    output point takes the column index below it (clamped near the end) and
    interpolates between that column and the next. Values are reals. */
module RInterpolate {
  import opened Py
  import opened Arith

  /** A numpy array of 0, 1 or 2 dimensions; a 2-D array has `|rows|` rows of
      `width` columns each. */
  datatype NdArray = Scalar(x: real) | Vector(v: seq<real>) | Matrix(rows: seq<seq<real>>, width: nat)

  /** Every row of a 2-D array has `width` entries. */
  predicate Shaped(y: NdArray)
  {
    y.Matrix? ==> forall i | 0 <= i < |y.rows| :: |y.rows[i]| == y.width
  }

  /** The rows that are interpolated: rows 0, 1 and 2 only. */
  const ROWS: nat := 3

  // ---------------------------------------------------------------------
  // The vectorised steps
  // ---------------------------------------------------------------------

  /** `np.linspace(a, b, n)`: `n` evenly spaced points from `a` to `b`
      inclusive; just `a` when `n` is 1. */
  function Linspace(a: real, b: real, n: nat): (r: seq<real>)
    ensures |r| == n
    ensures n >= 1 ==> r[0] == a
  {
    seq(n, k requires 0 <= k < n => if n == 1 then a else a + k as real * (b - a) / (n - 1) as real)
  }

  /** The last of two or more points is `b`. */
  lemma LinspaceEnds(a: real, b: real, n: nat)
    requires n >= 2
    ensures Linspace(a, b, n)[n - 1] == b
  {
    var m := (n - 1) as real;
    MulDivCancel(b - a, m);
  }

  /** From `a` up to `b`, every point lies in `[a, b]`. */
  lemma LinspaceWithin(a: real, b: real, n: nat, k: nat)
    requires a <= b && k < n
    ensures a <= Linspace(a, b, n)[k] <= b
  {
    if n > 1 {
      var m, kr, d := (n - 1) as real, k as real, b - a;
      assert Linspace(a, b, n)[k] == a + kr * d / m;
      ProductSign(kr, d);
      ProductSign(m - kr, d);
      assert (m - kr) * d == m * d - kr * d;
      ScaleDown(kr * d, m * d, m);
      MulDivCancel(d, m);
    }
  }

  /** Dividing `0 <= x <= y` by a positive `m` keeps the order. */
  lemma ScaleDown(x: real, y: real, m: real)
    requires m > 0.0 && 0.0 <= x <= y
    ensures 0.0 <= x / m <= y / m
  {
    assert x / m * m == x;
    assert (y / m - x / m) * m == y - x;
    FactorSign(x / m, m);
    FactorSign(y / m - x / m, m);
  }

  /** The number of output points: `int((endInterp - startInterp) / equispacing) + 1`. */
  function OutputSamples(startInterp: real, endInterp: real, equispacing: real): (r: int)
    requires equispacing != 0.0
    ensures var q := (endInterp - startInterp) / equispacing;
      && (q >= 0.0 ==> 1 <= r && (r - 1) as real <= q < r as real)
      && (r < 0 <==> q <= -2.0)
  {
    Trunc((endInterp - startInterp) / equispacing) + 1
  }

  /** `lo` before the mask: the input column at or below `x`, truncated
      toward zero as `astype(np.int32)` does. */
  function RawLo(x: real, startVal: real, inputDelta: real): (r: int)
    requires inputDelta != 0.0
    ensures var q := (x - startVal) / inputDelta;
      && (q >= 0.0 ==> 0 <= r && r as real <= q < r as real + 1.0)
      && (q < 0.0 ==> r <= 0 && r as real - 1.0 < q <= r as real)
  {
    Trunc((x - startVal) / inputDelta)
  }

  /** The mask `lo[lo >= N] = N - 2`; the corrected mask also moves
      `lo = N - 1`, whose right neighbour does not exist. */
  function ClampLo(lo: int, n: int, corrected: bool): (r: int)
    ensures r == lo || r == n - 2
    ensures lo < n - 1 ==> r == lo
    ensures lo >= n ==> r == n - 2
    ensures corrected ==> r <= n - 2
    ensures !corrected && lo == n - 1 ==> r == n - 1
  {
    if lo >= (if corrected then n - 1 else n) then n - 2 else lo
  }

  /** `B`: how far `x` lies past column `lo`, in columns. */
  function Frac(x: real, startVal: real, inputDelta: real, lo: int): (r: real)
    requires inputDelta != 0.0
    ensures startVal + (lo as real + r) * inputDelta == x
  {
    var b := (x - (startVal + lo as real * inputDelta)) / inputDelta;
    assert b * inputDelta == x - (startVal + lo as real * inputDelta);
    b
  }

  /** Both `y[i, lo]` and `y[i, lo + 1]` exist (numpy indexing: negative
      indices count from the end). */
  predicate Indexable(lo: seq<int>, n: int)
  {
    forall k | 0 <= k < |lo| :: -n <= lo[k] < n && -n <= lo[k] + 1 < n
  }

  /** `y[i, lo] + B * (y[i, lo + 1] - y[i, lo])` for one row and one point. */
  function Lerp(row: seq<real>, lo: int, b: real): (r: real)
    requires -|row| <= lo < |row| && -|row| <= lo + 1 < |row|
    ensures b == 0.0 ==> r == PyIndex(row, lo).value
    ensures b == 1.0 ==> r == PyIndex(row, lo + 1).value
  {
    var lowerV := PyIndex(row, lo).value;
    var upperV := PyIndex(row, lo + 1).value;
    lowerV + b * (upperV - lowerV)
  }

  /** The fractions `B` of all points. */
  function Fracs(xs: seq<real>, startVal: real, inputDelta: real, lo: seq<int>): (r: seq<real>)
    requires inputDelta != 0.0 && |lo| == |xs|
    ensures |r| == |xs|
  {
    seq(|xs|, k requires 0 <= k < |xs| => Frac(xs[k], startVal, inputDelta, lo[k]))
  }

  /** `V[i, :]` for row `i` of `y`. */
  function InterpRow(row: seq<real>, lo: seq<int>, b: seq<real>): (r: seq<real>)
    requires |lo| == |b| && Indexable(lo, |row|)
    ensures |r| == |lo|
  {
    seq(|lo|, k requires 0 <= k < |lo| => Lerp(row, lo[k], b[k]))
  }

  /** `V`: rows 0, 1 and 2 of `y`, interpolated. */
  function InterpRows(rows: seq<seq<real>>, lo: seq<int>, b: seq<real>): (r: seq<seq<real>>)
    requires |rows| >= ROWS && |lo| == |b|
    requires forall i | 0 <= i < ROWS :: Indexable(lo, |rows[i]|)
    ensures |r| == ROWS && forall i | 0 <= i < ROWS :: |r[i]| == |lo|
  {
    seq(ROWS, i requires 0 <= i < ROWS => InterpRow(rows[i], lo, b))
  }

  // ---------------------------------------------------------------------
  // The debug printout
  // ---------------------------------------------------------------------

  /** After the interpolation, a debug printout visits the points
      `range(10, 50000000, 10000000)`; from each such `i` it shows the points
      `i`, `i + 1` and `i + 2`, each with its index `lo`, its fraction `B`,
      its output column of `V` and its input columns of `y` at that index and
      the next. */
  const DEBUG_START: nat := 10
  const DEBUG_STOP: nat := 50000000
  const DEBUG_STEP: nat := 10000000

  /** The points at which the debug printout starts: 10, 10000010, ...,
      40000010. */
  function DebugStarts(): (r: seq<nat>)
    ensures |r| == 5 && r[0] == DEBUG_START && r[|r| - 1] < DEBUG_STOP <= r[|r| - 1] + DEBUG_STEP
    ensures forall j | 0 < j < |r| :: r[j] == r[j - 1] + DEBUG_STEP
  {
    seq(5, j requires 0 <= j < 5 => DEBUG_START + j * DEBUG_STEP)
  }

  /** Every column the debug printout reads exists: `V`, `lo` and `B` have
      `n` entries and `y` has `width` columns. */
  predicate DebugReadable(n: int, width: int)
  {
    forall j | 0 <= j < |DebugStarts()| :: DebugStarts()[j] + 2 < n && DebugStarts()[j] + 3 < width
  }

  /** The printout reads everything it shows exactly when there are at least
      40000013 output points and 40000014 input columns. */
  lemma DebugReadableBounds(n: int, width: int)
    ensures DebugReadable(n, width) <==> n >= 40000013 && width >= 40000014
  {
    var starts := DebugStarts();
    assert starts[4] == 40000010;
    if n >= 40000013 && width >= 40000014 {
      forall j | 0 <= j < |starts| ensures starts[j] + 2 < n && starts[j] + 3 < width {
        assert starts[j] <= 40000010;
      }
    }
  }

  // ---------------------------------------------------------------------
  // The whole function
  // ---------------------------------------------------------------------

  /** The clamped interval: start no earlier than `startVal`, end no later
      than `endVal`. */
  function ClampStart(startInterp: real, startVal: real): (r: real)
    ensures r >= startVal && r >= startInterp
    ensures r == startInterp || r == startVal
  {
    if startInterp >= startVal then startInterp else startVal
  }

  function ClampEnd(endInterp: real, endVal: real): (r: real)
    ensures r <= endVal && r <= endInterp
    ensures r == endInterp || r == endVal
  {
    if endInterp <= endVal then endInterp else endVal
  }

  /** The column indices after the mask. */
  function LoOf(y: NdArray, startVal: real, endVal: real, startInterp: real, endInterp: real,
                equispacing: real, corrected: bool): (r: seq<int>)
    requires y.Matrix? && y.width > 0 && equispacing != 0.0 && endVal != startVal
    requires OutputSamples(ClampStart(startInterp, startVal), ClampEnd(endInterp, endVal), equispacing) >= 0
    ensures |r| == OutputSamples(ClampStart(startInterp, startVal), ClampEnd(endInterp, endVal), equispacing)
  {
    var s, e := ClampStart(startInterp, startVal), ClampEnd(endInterp, endVal);
    var xs := Linspace(s, e, OutputSamples(s, e, equispacing));
    var inputDelta := (endVal - startVal) / y.width as real;
    seq(|xs|, k requires 0 <= k < |xs| => ClampLo(RawLo(xs[k], startVal, inputDelta), y.width, corrected))
  }

  /** With `endVal == startVal` the input spacing `inputDelta` is 0, and
      numpy fills `lo` and `B` with infinities or NaN; which index such a
      value casts to depends on the platform. The outcome is still known
      when the call fails whatever those values are: an earlier error, fewer
      than three rows, or, as written, a debug printout whose columns are
      missing. */
  predicate OutcomeDetermined(y: NdArray, startVal: real, endVal: real, startInterp: real, endInterp: real,
                              equispacing: real, kind: string, corrected: bool)
  {
    || endVal != startVal
    || (&& !corrected
        && (|| !y.Matrix? || y.width == 0 || equispacing == 0.0 || kind != "linear"
            || var n := OutputSamples(ClampStart(startInterp, startVal), ClampEnd(endInterp, endVal), equispacing);
               n < 0 || |y.rows| < ROWS || !DebugReadable(n, y.width)))
  }

  /** What `interp1d` returns: ValueError for a 0-dimensional `y`,
      IndexError for a 1-dimensional one (it has no `shape[1]`),
      ZeroDivisionError for no columns or a zero spacing, ValueError for a
      kind other than 'linear' or a negative point count, IndexError when
      `y` has fewer than three rows or a point's neighbours do not exist
      (with `endVal == startVal`, where the points' indices are not numbers,
      the call is only modelled where it fails either way),
      IndexError when the debug printout after the interpolation reads a
      column that does not exist, else the three interpolated rows.
      `corrected` selects the intended program: the mask also moves
      `lo = N - 1`, and there is no debug printout. */
  function Interp1dSpec(y: NdArray, startVal: real, endVal: real, startInterp: real, endInterp: real,
                        equispacing: real, kind: string, corrected: bool): (r: Result<seq<seq<real>>>)
    requires Shaped(y) && OutcomeDetermined(y, startVal, endVal, startInterp, endInterp, equispacing, kind, corrected)
    ensures r.Ok? ==> (&& equispacing != 0.0 && |r.value| == ROWS
                        && forall i | 0 <= i < ROWS ::
                             |r.value[i]| == OutputSamples(ClampStart(startInterp, startVal), ClampEnd(endInterp, endVal), equispacing))
    ensures r.Ok? && !corrected ==>
      && y.Matrix? && DebugReadable(OutputSamples(ClampStart(startInterp, startVal), ClampEnd(endInterp, endVal), equispacing), y.width)
  {
    if y.Scalar? then Err(ValueError)
    else if y.Vector? then Err(IndexError)
    else if y.width == 0 then Err(ZeroDivisionError)
    else if equispacing == 0.0 then Err(ZeroDivisionError)
    else if kind != "linear" then Err(ValueError)
    else
      var s, e := ClampStart(startInterp, startVal), ClampEnd(endInterp, endVal);
      var n := OutputSamples(s, e, equispacing);
      if n < 0 then Err(ValueError)
      else if endVal == startVal then Err(IndexError)
      else
        var xs := Linspace(s, e, n);
        var inputDelta := (endVal - startVal) / y.width as real;
        var lo := LoOf(y, startVal, endVal, startInterp, endInterp, equispacing, corrected);
        if |y.rows| < ROWS || !Indexable(lo, y.width) then Err(IndexError)
        else if !corrected && !DebugReadable(n, y.width) then Err(IndexError)
        else
          Ok(InterpRows(y.rows, lo, Fracs(xs, startVal, inputDelta, lo)))
  }

  // ---------------------------------------------------------------------
  // The method
  // ---------------------------------------------------------------------

  /** The rows of a 2-D array. */
  function Rows(v: array2<real>): (r: seq<seq<real>>)
    reads v
    ensures |r| == v.Length0 && forall i | 0 <= i < v.Length0 :: |r[i]| == v.Length1
  {
    seq(v.Length0, i requires 0 <= i < v.Length0 reads v =>
      seq(v.Length1, k requires 0 <= k < v.Length1 reads v => v[i, k]))
  }

  /** `lo[lo >= N] = N - 2`, in place. */
  method MaskLo(lo: array<int>, n: int)
    modifies lo
    ensures forall k | 0 <= k < lo.Length :: lo[k] == ClampLo(old(lo[k]), n, false)
  {
    for k := 0 to lo.Length
      invariant forall j | 0 <= j < k :: lo[j] == ClampLo(old(lo[j]), n, false)
      invariant forall j | k <= j < lo.Length :: lo[j] == old(lo[j])
    {
      if lo[k] >= n {
        lo[k] := n - 2;
      }
    }
  }

  /** `V[i, :] = y[i, lo] + B * (y[i, lo + 1] - y[i, lo])`. */
  method FillRow(v: array2<real>, i: nat, row: seq<real>, lo: seq<int>, b: seq<real>)
    requires i < v.Length0 && v.Length1 == |lo| == |b| && Indexable(lo, |row|)
    modifies v
    ensures forall k | 0 <= k < v.Length1 :: v[i, k] == InterpRow(row, lo, b)[k]
    ensures forall i', k | 0 <= i' < v.Length0 && i' != i && 0 <= k < v.Length1 :: v[i', k] == old(v[i', k])
  {
    forall k | 0 <= k < v.Length1 {
      v[i, k] := Lerp(row, lo[k], b[k]);
    }
  }

  /** `interp1d` as written: the three interpolated rows, or the error it
      raises, the debug printout's IndexError included. */
  method Interp1d(y: NdArray, startVal: real, endVal: real, startInterp: real, endInterp: real,
                  equispacing: real, kind: string) returns (r: Result<array2<real>>)
    requires Shaped(y) && OutcomeDetermined(y, startVal, endVal, startInterp, endInterp, equispacing, kind, false)
    ensures r.Err? ==> Interp1dSpec(y, startVal, endVal, startInterp, endInterp, equispacing, kind, false) == Err(r.error)
    ensures r.Ok? ==> (fresh(r.value)
      && Interp1dSpec(y, startVal, endVal, startInterp, endInterp, equispacing, kind, false) == Ok(Rows(r.value)))
  {
    if y.Scalar? {
      return Err(ValueError);
    }
    var endI := ClampEnd(endInterp, endVal);
    var startI := ClampStart(startInterp, startVal);
    if y.Vector? {
      return Err(IndexError);
    }
    if y.width == 0 {
      return Err(ZeroDivisionError);
    }
    var inputDelta := (endVal - startVal) / y.width as real;
    if equispacing == 0.0 {
      return Err(ZeroDivisionError);
    }
    var outputSamples := OutputSamples(startI, endI, equispacing);
    if kind != "linear" {
      return Err(ValueError);
    }
    if outputSamples < 0 {
      return Err(ValueError);
    }
    if endVal == startVal {
      // lo and B are infinities or NaN; the rows or the printout's columns are missing
      return Err(IndexError);
    }
    var linspac := Linspace(startI, endI, outputSamples);
    var lo := new int[outputSamples](k requires 0 <= k < outputSamples => RawLo(linspac[k], startVal, inputDelta));
    MaskLo(lo, y.width);
    ghost var masked := LoOf(y, startVal, endVal, startInterp, endInterp, equispacing, false);
    assert lo[..] == masked by {
      forall k | 0 <= k < outputSamples ensures lo[k] == masked[k] { }
    }
    var loSeq := lo[..];
    var b := Fracs(linspac, startVal, inputDelta, loSeq);
    if |y.rows| < ROWS || !Indexable(loSeq, y.width) {
      return Err(IndexError);
    }
    assert forall i | 0 <= i < ROWS :: Indexable(loSeq, |y.rows[i]|);
    var v := new real[ROWS, outputSamples]((i, k) => 0.0);
    for i := 0 to ROWS
      invariant forall i', k | 0 <= i' < i && 0 <= k < outputSamples ::
        v[i', k] == InterpRow(y.rows[i'], loSeq, b)[k]
    {
      FillRow(v, i, y.rows[i], loSeq, b);
    }
    RowsAreInterpolated(v, y.rows, loSeq, b);
    var starts := DebugStarts();
    for j := 0 to |starts|
      invariant forall j' | 0 <= j' < j :: starts[j'] + 2 < outputSamples && starts[j'] + 3 < y.width
    {
      var i := starts[j];
      // the points i, i + 1 and i + 2 of V, lo and B; the columns i to i + 3 of y
      if i + 2 >= outputSamples || i + 3 >= y.width {
        return Err(IndexError);
      }
    }
    return Ok(v);
  }

  /** A 3-row array filled row by row holds `InterpRows`. */
  lemma RowsAreInterpolated(v: array2<real>, rows: seq<seq<real>>, lo: seq<int>, b: seq<real>)
    requires |rows| >= ROWS && |lo| == |b| && v.Length0 == ROWS && v.Length1 == |lo|
    requires forall i | 0 <= i < ROWS :: Indexable(lo, |rows[i]|)
    requires forall i, k | 0 <= i < ROWS && 0 <= k < |lo| :: v[i, k] == InterpRow(rows[i], lo, b)[k]
    ensures Rows(v) == InterpRows(rows, lo, b)
  {
    var r, w := Rows(v), InterpRows(rows, lo, b);
    forall i | 0 <= i < ROWS ensures r[i] == w[i] {
      assert forall k | 0 <= k < |lo| :: r[i][k] == w[i][k];
    }
  }

  // ---------------------------------------------------------------------
  // Properties
  // ---------------------------------------------------------------------

  /** At or after `startVal`, `lo` is not negative and the fraction lies in
      `[0, 1)`: the output lies between its two neighbours. */
  lemma FractionInUnit(x: real, startVal: real, inputDelta: real)
    requires inputDelta > 0.0 && x >= startVal
    ensures RawLo(x, startVal, inputDelta) >= 0
    ensures 0.0 <= Frac(x, startVal, inputDelta, RawLo(x, startVal, inputDelta)) < 1.0
  {
    var q := (x - startVal) / inputDelta;
    var lo := RawLo(x, startVal, inputDelta);
    ShiftQuotient(x - startVal, lo as real, inputDelta);
    assert Frac(x, startVal, inputDelta, lo) == q - lo as real;
  }

  lemma ShiftQuotient(a: real, l: real, d: real)
    requires d != 0.0
    ensures (a - l * d) / d == a / d - l
  {
    assert (a / d - l) * d == a - l * d;
  }

  /** A point on input column `m` reproduces that column: `lo` is `m` and
      the fraction is 0. */
  lemma GridPointExact(row: seq<real>, startVal: real, inputDelta: real, m: nat)
    requires inputDelta > 0.0 && m + 1 < |row|
    ensures var x := startVal + m as real * inputDelta;
      && RawLo(x, startVal, inputDelta) == m
      && Frac(x, startVal, inputDelta, m) == 0.0
      && Lerp(row, m, 0.0) == row[m]
  {
    var x := startVal + m as real * inputDelta;
    assert (x - startVal) / inputDelta == m as real;
  }

  /** An unclamped point interpolates between its two neighbours. */
  lemma LerpBetween(row: seq<real>, lo: nat, b: real)
    requires lo + 1 < |row| && 0.0 <= b <= 1.0
    ensures (row[lo] <= Lerp(row, lo, b) <= row[lo + 1]) || (row[lo + 1] <= Lerp(row, lo, b) <= row[lo])
  {
    var u, w, v := row[lo], row[lo + 1], Lerp(row, lo, b);
    assert PyIndex(row, lo) == Ok(u) && PyIndex(row, lo + 1) == Ok(w);
    assert v == u + b * (w - u);
    ConvexBetween(u, w, b, v);
  }

  /** The unmasked index of a point in `[startVal, endVal]` lies in `[0, N]`. */
  lemma RawLoWithin(x: real, startVal: real, endVal: real, n: nat)
    requires n > 0 && startVal < endVal && startVal <= x <= endVal
    ensures 0 <= RawLo(x, startVal, (endVal - startVal) / n as real) <= n
  {
    var d := (endVal - startVal) / n as real;
    var q := (x - startVal) / d;
    assert d > 0.0;
    assert q * d == x - startVal;
    assert n as real * d == endVal - startVal;
    assert (n as real - q) * d == endVal - x;
    FactorSign(q, d);
    FactorSign(n as real - q, d);
  }

  /** The mask as written lets `lo = N - 1` through: on a 3 x 4 input over
      [0, 4] sampled every 0.5, the point 3.0 gets `lo = 3`, and its right
      neighbour `y[i, 4]` does not exist, so the interpolation itself raises
      IndexError although the requested interval lies inside the input's. */
  lemma AsWrittenReadsPastLastColumn()
    ensures var y := Matrix([[0.0, 1.0, 2.0, 3.0], [0.0, 1.0, 2.0, 3.0], [0.0, 1.0, 2.0, 3.0]], 4);
      Interp1dSpec(y, 0.0, 4.0, 0.0, 4.0, 0.5, "linear", false) == Err(IndexError)
  {
    var y := Matrix([[0.0, 1.0, 2.0, 3.0], [0.0, 1.0, 2.0, 3.0], [0.0, 1.0, 2.0, 3.0]], 4);
    assert OutputSamples(0.0, 4.0, 0.5) == 9;
    var lo := LoOf(y, 0.0, 4.0, 0.0, 4.0, 0.5, false);
    assert Linspace(0.0, 4.0, 9)[6] == 3.0;
    assert RawLo(3.0, 0.0, 1.0) == 3;
    assert lo[6] == 3;
  }

  /** With the corrected mask, every interval that overlaps the input's is
      interpolated without an index error, for any input of three or more
      rows and two or more columns: every point's index has both of its
      neighbours. */
  lemma CorrectedInterpolatesWholeWindow(y: NdArray, startVal: real, endVal: real, startInterp: real,
                                         endInterp: real, equispacing: real)
    requires Shaped(y) && y.Matrix? && |y.rows| >= ROWS && y.width >= 2
    requires startVal < endVal && equispacing > 0.0
    requires ClampStart(startInterp, startVal) <= ClampEnd(endInterp, endVal)
    ensures var lo := LoOf(y, startVal, endVal, startInterp, endInterp, equispacing, true);
      forall k | 0 <= k < |lo| :: 0 <= lo[k] && lo[k] + 1 < y.width
    ensures Interp1dSpec(y, startVal, endVal, startInterp, endInterp, equispacing, "linear", true).Ok?
  {
    var s, e := ClampStart(startInterp, startVal), ClampEnd(endInterp, endVal);
    var n := OutputSamples(s, e, equispacing);
    ProductSign(e - s, 1.0 / equispacing);
    assert (e - s) / equispacing == (e - s) * (1.0 / equispacing);
    var xs := Linspace(s, e, n);
    var lo := LoOf(y, startVal, endVal, startInterp, endInterp, equispacing, true);
    forall k | 0 <= k < n
      ensures 0 <= lo[k] && lo[k] + 1 < y.width
    {
      LinspaceWithin(s, e, n, k);
      RawLoWithin(xs[k], startVal, endVal, y.width);
    }
  }

  /** As written, a call succeeds only on inputs long enough for the debug
      printout: at least 40000013 output points and 40000014 input columns. */
  lemma AsWrittenNeedsDebugColumns(y: NdArray, startVal: real, endVal: real, startInterp: real,
                                   endInterp: real, equispacing: real, kind: string)
    requires Shaped(y) && endVal != startVal
    requires Interp1dSpec(y, startVal, endVal, startInterp, endInterp, equispacing, kind, false).Ok?
    ensures y.Matrix? && equispacing != 0.0
    ensures OutputSamples(ClampStart(startInterp, startVal), ClampEnd(endInterp, endVal), equispacing) >= 40000013
    ensures y.width >= 40000014
  {
    var n := OutputSamples(ClampStart(startInterp, startVal), ClampEnd(endInterp, endVal), equispacing);
    DebugReadableBounds(n, y.width);
  }

  /** The debug printout fails on a short input whose interpolation itself
      succeeds: 3 rows of 4 columns on [0, 4], sampled on [0, 2] every 0.5,
      give 5 points whose neighbours all exist, yet the printout reads point
      10, so the call raises IndexError; the intended program returns the
      rows. */
  lemma AsWrittenDebugPrintoutFails()
    ensures var y := Matrix([[0.0, 1.0, 2.0, 3.0], [0.0, 1.0, 2.0, 3.0], [0.0, 1.0, 2.0, 3.0]], 4);
      && Interp1dSpec(y, 0.0, 4.0, 0.0, 2.0, 0.5, "linear", false) == Err(IndexError)
      && Interp1dSpec(y, 0.0, 4.0, 0.0, 2.0, 0.5, "linear", true).Ok?
  {
    var y := Matrix([[0.0, 1.0, 2.0, 3.0], [0.0, 1.0, 2.0, 3.0], [0.0, 1.0, 2.0, 3.0]], 4);
    assert OutputSamples(0.0, 2.0, 0.5) == 5;
    var lo := LoOf(y, 0.0, 4.0, 0.0, 2.0, 0.5, false);
    forall k | 0 <= k < 5 ensures 0 <= lo[k] <= 2 {
      LinspaceWithin(0.0, 2.0, 5, k);
      RawLoWithin(Linspace(0.0, 2.0, 5)[k], 0.0, 2.0, 2);
      assert (2.0 - 0.0) / 2 as real == (4.0 - 0.0) / 4 as real;
    }
    assert !DebugReadable(5, 4) by {
      assert DebugStarts()[0] + 2 >= 5;
    }
    CorrectedInterpolatesWholeWindow(y, 0.0, 4.0, 0.0, 2.0, 0.5);
  }

  /** Wherever the program as written returns rows, the intended one returns
      the same rows: the corrections only remove failures. */
  lemma CorrectedAgreesWhereAsWrittenSucceeds(y: NdArray, startVal: real, endVal: real, startInterp: real,
                                              endInterp: real, equispacing: real, kind: string)
    requires Shaped(y) && endVal != startVal
    requires Interp1dSpec(y, startVal, endVal, startInterp, endInterp, equispacing, kind, false).Ok?
    ensures Interp1dSpec(y, startVal, endVal, startInterp, endInterp, equispacing, kind, true)
         == Interp1dSpec(y, startVal, endVal, startInterp, endInterp, equispacing, kind, false)
  {
    var asWritten := LoOf(y, startVal, endVal, startInterp, endInterp, equispacing, false);
    var intended := LoOf(y, startVal, endVal, startInterp, endInterp, equispacing, true);
    forall k | 0 <= k < |asWritten| ensures intended[k] == asWritten[k] {
      assert asWritten[k] + 1 < y.width;
    }
    assert intended == asWritten;
  }

  /** With equal ends and a positive spacing the clamped interval holds at
      most one point, so the call as written always fails: with ValueError
      when the interval's bounds are two or more steps out of order, and
      otherwise with IndexError. Its outcome never depends on the infinite
      or NaN indices. */
  lemma EqualEndsFailAsWritten(y: NdArray, v: real, startInterp: real, endInterp: real, equispacing: real)
    requires Shaped(y) && y.Matrix? && y.width > 0 && equispacing > 0.0
    ensures OutcomeDetermined(y, v, v, startInterp, endInterp, equispacing, "linear", false)
    ensures Interp1dSpec(y, v, v, startInterp, endInterp, equispacing, "linear", false)
         == if OutputSamples(ClampStart(startInterp, v), ClampEnd(endInterp, v), equispacing) < 0
            then Err(ValueError) else Err(IndexError)
  {
    var s, e := ClampStart(startInterp, v), ClampEnd(endInterp, v);
    var n := OutputSamples(s, e, equispacing);
    var q := (e - s) / equispacing;
    assert (-q) * equispacing == s - e;
    FactorSign(-q, equispacing);
    assert n <= 1;
    DebugReadableBounds(n, y.width);
  }
}
