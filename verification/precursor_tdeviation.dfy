/** `precursorTdeviation`: the percentage deviation of the mean temperature
    from its initial profile, the largest deviation at each time and the
    height where it occurs, a report every `t` seconds, and a reduced table
    of every `N`th time at the requested heights.

    The input is the stitched `T_mean` table (time, dt, then the mean
    temperature and its running average at each height) and its header
    line.  The reported values, which the script only logs, are returned. */
module PrecursorTdeviation {
  import opened Common
  import opened Strings
  import opened Tables
  import opened HeightHeaders

  // ---------------------------------------------------------------------------
  // The deviation table

  /** `T[:, 2::2]`: the mean temperature at each height, without the time,
      dt and running-average columns. */
  function Temperatures(data: Table): (temps: Table)
    ensures |temps| == |data|
    ensures forall i :: 0 <= i < |data| ==> temps[i] == EvenFrom2(data[i])
  {
    seq(|data|, i requires 0 <= i < |data| => EvenFrom2(data[i]))
  }

  /** The first row has no zero temperature, so the relative deviation is a
      number (numpy would give inf or nan). */
  predicate NonZeroStart(temps: Table) {
    |temps| > 0 ==> forall h :: 0 <= h < |temps[0]| ==> temps[0][h] != 0.0
  }

  /** `dev[i, h]`: zero in the first row, else `100 (T[i,h] - T[0,h]) / T[0,h]`. */
  function Deviation(temps: Table, i: nat, h: nat): real
    requires i < |temps| && h < |temps[0]| && h < |temps[i]| && NonZeroStart(temps)
  {
    if i == 0 then 0.0 else ((temps[i][h] - temps[0][h]) / temps[0][h]) * 100.0
  }

  /** The deviation table, row by row. */
  function Deviations(temps: Table, w: nat): (dev: Table)
    requires |temps| > 0 && Rectangular(temps, w) && NonZeroStart(temps)
    ensures |dev| == |temps| && Rectangular(dev, w)
    ensures forall i, h :: 0 <= i < |temps| && 0 <= h < w ==> dev[i][h] == Deviation(temps, i, h)
  {
    seq(|temps|, i requires 0 <= i < |temps| => seq(w, h requires 0 <= h < w => Deviation(temps, i, h)))
  }

  /** The deviation is relative to the first row: the first row deviates by
      nothing, and every temperature is recovered from the first one and its
      deviation. */
  lemma DeviationInverse(temps: Table, i: nat, h: nat)
    requires i < |temps| && h < |temps[0]| && h < |temps[i]| && NonZeroStart(temps)
    ensures i == 0 ==> Deviation(temps, i, h) == 0.0
    ensures temps[i][h] == temps[0][h] * (1.0 + Deviation(temps, i, h) / 100.0)
  {
    var t0, d := temps[0][h], temps[i][h] - temps[0][h];
    if i > 0 {
      assert Deviation(temps, i, h) / 100.0 == d / t0;
      assert t0 * (d / t0) == d;
    }
  }

  /** A rise in temperature is a positive deviation when the start is
      positive, and no change is no deviation. */
  lemma DeviationSign(temps: Table, i: nat, h: nat)
    requires i < |temps| && h < |temps[0]| && h < |temps[i]| && NonZeroStart(temps)
    requires temps[0][h] > 0.0
    ensures Deviation(temps, i, h) > 0.0 <==> temps[i][h] > temps[0][h]
    ensures Deviation(temps, i, h) == 0.0 <==> (i == 0 || temps[i][h] == temps[0][h])
  {
    DeviationInverse(temps, i, h);
    var t0 := temps[0][h];
    var x := Deviation(temps, i, h) / 100.0;
    assert temps[i][h] - t0 == t0 * x;
    if x > 0.0 { MulLt(0.0, x, t0); }
    if x < 0.0 { MulLt(x, 0.0, t0); }
  }

  /** `dev = np.empty(T.shape)`, the zero first row, the relative change of
      each later row, then `dev[1:, :] *= 100` in place. */
  method DeviationArray(temps: Table, w: nat) returns (dev: array2<real>)
    requires |temps| > 0 && Rectangular(temps, w) && NonZeroStart(temps)
    ensures fresh(dev) && dev.Length0 == |temps| && dev.Length1 == w
    ensures Grid(dev) == Deviations(temps, w)
  {
    var n := |temps|;
    dev := new real[n, w];
    forall h | 0 <= h < w {
      dev[0, h] := 0.0;
    }
    for i := 1 to n
      invariant forall h :: 0 <= h < w ==> dev[0, h] == 0.0
      invariant forall r, h :: 1 <= r < i && 0 <= h < w ==> dev[r, h] == (temps[r][h] - temps[0][h]) / temps[0][h]
    {
      forall h | 0 <= h < w {
        dev[i, h] := (temps[i][h] - temps[0][h]) / temps[0][h];
      }
    }
    forall r, h | 1 <= r < n && 0 <= h < w {
      dev[r, h] := dev[r, h] * 100.0;
    }
    ghost var want := Deviations(temps, w);
    assert forall i, h :: 0 <= i < n && 0 <= h < w ==> Grid(dev)[i][h] == want[i][h];
    assert forall i :: 0 <= i < n ==> Grid(dev)[i] == want[i];
  }

  // ---------------------------------------------------------------------------
  // The largest deviation at each time

  /** Per row, the deviation of largest magnitude and its height. */
  datatype Extremes = Extremes(maxdev: seq<real>, maxheights: seq<int>)

  /** `np.argmax(np.abs(dev[i, :]))` for each row: argmax over no heights
      raises ValueError, and a column beyond the header heights raises
      IndexError at `heights[maxidx]`. */
  function MaxOf(dev: Table, w: nat, heights: seq<int>): (r: Result<Extremes>)
    requires |dev| > 0 && Rectangular(dev, w)
    ensures r.Err? <==> w == 0 || exists i :: 0 <= i < |dev| && ArgmaxAbs(dev[i]) >= |heights|
    ensures r.Ok? ==> |r.value.maxdev| == |r.value.maxheights| == |dev|
    ensures r.Ok? ==> forall i :: 0 <= i < |dev| ==>
              var k := ArgmaxAbs(dev[i]);
              k < |heights| && r.value.maxdev[i] == dev[i][k] && r.value.maxheights[i] == heights[k]
  {
    if w == 0 then Err(ValueError)
    else if exists i :: 0 <= i < |dev| && ArgmaxAbs(dev[i]) >= |heights| then Err(IndexError)
    else
      Ok(Extremes(seq(|dev|, i requires 0 <= i < |dev| => dev[i][ArgmaxAbs(dev[i])]),
                  seq(|dev|, i requires 0 <= i < |dev| => heights[ArgmaxAbs(dev[i])])))
  }

  /** The reported maximum dominates every deviation of its row and is found
      at the reported height. */
  lemma MaxDominates(dev: Table, w: nat, heights: seq<int>, i: nat)
    requires |dev| > 0 && Rectangular(dev, w) && MaxOf(dev, w, heights).Ok? && i < |dev|
    ensures var e := MaxOf(dev, w, heights).value;
            && (forall h :: 0 <= h < w ==> Abs(dev[i][h]) <= Abs(e.maxdev[i]))
            && (exists h :: 0 <= h < w && h < |heights| && dev[i][h] == e.maxdev[i] && heights[h] == e.maxheights[i])
  {
    var k := ArgmaxAbs(dev[i]);
    assert k < w && k < |heights|;
  }

  /** The `for i in range(times.shape[0])` loop filling `maxdev` and
      `maxheights`. */
  method MaxLoop(dev: array2<real>, heights: seq<int>) returns (r: Result<Extremes>)
    requires dev.Length0 > 0
    ensures r == MaxOf(Grid(dev), dev.Length1, heights)
  {
    ghost var g := Grid(dev);
    var n, w := dev.Length0, dev.Length1;
    var maxdev: seq<real> := [];
    var maxheights: seq<int> := [];
    for i := 0 to n
      invariant |maxdev| == |maxheights| == i
      invariant i > 0 ==> w > 0
      invariant forall r :: 0 <= r < i ==> ArgmaxAbs(g[r]) < |heights|
      invariant forall r :: 0 <= r < i ==> maxdev[r] == g[r][ArgmaxAbs(g[r])] && maxheights[r] == heights[ArgmaxAbs(g[r])]
    {
      if w == 0 {
        return Err(ValueError);
      }
      var row := seq(w, h requires 0 <= h < w reads dev => dev[i, h]);
      assert row == g[i];
      var maxidx := ArgmaxAbs(row);
      if maxidx >= |heights| {
        assert ArgmaxAbs(g[i]) >= |heights|;
        return Err(IndexError);
      }
      maxdev := maxdev + [row[maxidx]];
      maxheights := maxheights + [heights[maxidx]];
    }
    assert MaxOf(g, w, heights).Ok?;
    assert MaxOf(g, w, heights).value.maxdev == maxdev;
    assert MaxOf(g, w, heights).value.maxheights == maxheights;
    r := Ok(Extremes(maxdev, maxheights));
  }

  // ---------------------------------------------------------------------------
  // Reports every `t` seconds

  /** `int(times[-1] // t)`. */
  function Samples(times: seq<real>, t: real): int
    requires |times| > 0 && t > 0.0
  {
    FloorDiv(times[|times| - 1], t)
  }

  /** The number of report indices, `time_samples + 1` (none when the
      last time is negative). */
  function ReportCount(times: seq<real>, t: real): nat
    requires |times| > 0 && t > 0.0
  {
    var s := Samples(times, t);
    if s < 0 then 0 else s + 1
  }

  /** `i*t`: the time of report `i`. */
  function ReportTime(i: nat, t: real): real {
    (i as real) * t
  }

  /** `[np.argmin(np.abs(times - i*t)) for i in range(time_samples + 1)]`:
      for each report time the first row nearest to it. */
  function ReportIndices(times: seq<real>, t: real): (r: seq<nat>)
    requires |times| > 0 && t > 0.0
    ensures |r| == ReportCount(times, t)
    ensures forall k :: 0 <= k < |r| ==> r[k] < |times|
    ensures forall k, m :: 0 <= k < |r| && 0 <= m < |times| ==>
              Abs(times[r[k]] - ReportTime(k, t)) <= Abs(times[m] - ReportTime(k, t))
  {
    var count := ReportCount(times, t);
    seq(count, k requires 0 <= k < count => Nearest(times, ReportTime(k, t)))
  }

  /** One logged report: after `time` seconds the largest deviation, its
      height, and the deviation at the hub (the first requested height). */
  datatype Report = Report(time: real, maxDeviation: real, height: int, hubDeviation: real)

  /** `for i in range(1, time_samples + 1)`. */
  function Reports(dev: Table, times: seq<real>, t: real, e: Extremes, hub: nat): (r: seq<Report>)
    requires |dev| == |times| == |e.maxdev| == |e.maxheights| > 0 && t > 0.0
    requires forall i :: 0 <= i < |dev| ==> hub < |dev[i]|
    ensures |r| + 1 == ReportCount(times, t) || (|r| == 0 && ReportCount(times, t) == 0)
    ensures forall k :: 0 <= k < |r| ==>
              var idx := ReportIndices(times, t)[k + 1];
              r[k] == Report(ReportTime(k + 1, t), e.maxdev[idx], e.maxheights[idx], dev[idx][hub])
  {
    var idx := ReportIndices(times, t);
    var count := if |idx| == 0 then 0 else |idx| - 1;
    seq(count, k requires 0 <= k < count =>
      var j := idx[k + 1];
      Report(ReportTime(k + 1, t), e.maxdev[j], e.maxheights[j], dev[j][hub]))
  }

  /** `np.max(np.abs(dev[:, hub]))`. */
  function HubMax(dev: Table, hub: nat): (m: real)
    requires |dev| > 0 && forall i :: 0 <= i < |dev| ==> hub < |dev[i]|
    ensures forall i :: 0 <= i < |dev| ==> Abs(dev[i][hub]) <= m
    ensures exists i :: 0 <= i < |dev| && m == Abs(dev[i][hub])
  {
    var col := seq(|dev|, i requires 0 <= i < |dev| => Abs(dev[i][hub]));
    var m := MaxValue(col);
    assert forall i :: 0 <= i < |dev| ==> col[i] == Abs(dev[i][hub]);
    assert exists i :: 0 <= i < |dev| && m == Abs(dev[i][hub]) by {
      var i :| 0 <= i < |col| && col[i] == m;
      assert m == Abs(dev[i][hub]);
    }
    m
  }

  // ---------------------------------------------------------------------------
  // The whole script

  datatype Tdeviation = Tdeviation(reports: seq<Report>, hubMax: real, overallMax: real,
                                   rows: Table, header: string)

  /** The input the script relies on: `t` positive, `genfromtxt` rows of one
      width, and a first row without zero temperatures. */
  predicate Admissible(data: Table, t: real) {
    t > 0.0 && (|data| > 0 ==> Rectangular(data, |data[0]|) && NonZeroStart(Temperatures(data)))
  }

  /** `dev[::N, heights_idx]` next to `times[::N]`, under the header
      `time {h}m ...`. */
  function Reduced(dev: Table, w: nat, times: seq<real>, hidx: seq<nat>, n: int, keep: seq<int>): (r: Result<Table>)
    requires |dev| == |times| && Rectangular(dev, w)
    ensures r.Err? <==> n == 0 || (|dev| > 0 && exists j :: 0 <= j < |hidx| && hidx[j] >= w)
    ensures r.Ok? ==> |r.value| == StrideCount(|dev|, n)
    ensures r.Ok? ==> forall k :: 0 <= k < |r.value| ==>
              var i := StrideIndex(|dev|, n, k);
              0 <= i < |dev| && |r.value[k]| == |hidx| + 1 && r.value[k][0] == times[i]
              && forall j :: 0 <= j < |hidx| ==> hidx[j] < w && r.value[k][j + 1] == dev[i][hidx[j]]
  {
    if n == 0 then Err(ValueError)
    else
      var rows := Stride(dev, n).value;
      var ts := Stride(times, n).value;
      match SelectColumns(rows, hidx)
      case Err(e) => Err(e)
      case Ok(sel) =>
        assert |rows| > 0 ==> forall j :: 0 <= j < |hidx| ==> hidx[j] < w by {
          if |rows| > 0 { assert forall j :: 0 <= j < |hidx| ==> hidx[j] < |rows[0]|; }
        }
        Ok(seq(|sel|, k requires 0 <= k < |sel| => [ts[k]] + sel[k]))
  }

  /** The script from the deviation table on. */
  function Finish(dev: Table, w: nat, times: seq<real>, heights: seq<int>, hidx: seq<nat>,
                  n: int, t: real, keep: seq<int>): (r: Result<Tdeviation>)
    requires |dev| == |times| > 0 && Rectangular(dev, w) && t > 0.0
  {
    match MaxOf(dev, w, heights)
    case Err(e) => Err(e)
    case Ok(e) => ReportAndReduce(dev, w, times, e, hidx, n, t, keep)
  }

  /** The reports and the reduced table, once the maxima are known. */
  function ReportAndReduce(dev: Table, w: nat, times: seq<real>, e: Extremes, hidx: seq<nat>,
                  n: int, t: real, keep: seq<int>): (r: Result<Tdeviation>)
    requires |dev| == |times| == |e.maxdev| == |e.maxheights| > 0 && Rectangular(dev, w) && t > 0.0
    ensures r.Ok? ==> hidx != [] && hidx[0] < w
  {
    if hidx == [] || hidx[0] >= w then Err(IndexError)   // `heights_idx[0]` / `dev[:, heights_idx[0]]`
    else
      match Reduced(dev, w, times, hidx, n, keep)
      case Err(err) => Err(err)
      case Ok(rows) =>
        Ok(Tdeviation(Reports(dev, times, t, e, hidx[0]), HubMax(dev, hidx[0]),
                      MaxValue(e.maxdev), rows, ReducedHeader(keep)))
  }

  /** `main(casename, N, t, heights_to_keep)` on the rows and the header
      line of the `T_mean` file.  `genfromtxt` gives a one-dimensional array
      for a single row or column, where `T[:, 0]` raises IndexError. */
  function TDeviation(data: Table, line: string, n: int, t: real, keep: seq<int>): (r: Result<Tdeviation>)
    requires Admissible(data, t)
    ensures |data| < 2 || |data[0]| < 2 ==> r == Err(IndexError)
    ensures n == 0 ==> r.Err?
    ensures r.Ok? ==> r.value.header == ReducedHeader(keep) && |r.value.rows| == StrideCount(|data|, n)
  {
    if |data| < 2 || |data[0]| < 2 then Err(IndexError)
    else
      var temps := Temperatures(data);
      TemperaturesWidth(data);
      FromTemperatures(temps, |temps[0]|, Column(data, 0), line, n, t, keep)
  }

  /** The temperature columns of a rectangular table form a rectangular
      table. */
  lemma TemperaturesWidth(data: Table)
    requires |data| > 0 && Rectangular(data, |data[0]|)
    ensures Rectangular(Temperatures(data), |Temperatures(data)[0]|)
  {
  }

  /** The script once the temperatures and times are extracted. */
  function FromTemperatures(temps: Table, w: nat, times: seq<real>, line: string,
                            n: int, t: real, keep: seq<int>): (r: Result<Tdeviation>)
    requires |temps| == |times| > 0 && Rectangular(temps, w) && NonZeroStart(temps) && t > 0.0
  {
    match HeaderHeights(line)
    case Err(e) => Err(e)
    case Ok(heights) =>
      match NearestHeights(heights, keep)
      case Err(e) => Err(e)
      case Ok(hidx) => Finish(Deviations(temps, w), w, times, heights, hidx, n, t, keep)
  }

  /** The script itself: the deviation array is filled in place and the
      maxima by the row loop. */
  method RunTDeviation(data: Table, line: string, n: int, t: real, keep: seq<int>) returns (r: Result<Tdeviation>)
    requires Admissible(data, t)
    ensures r == TDeviation(data, line, n, t, keep)
  {
    if |data| < 2 || |data[0]| < 2 {
      return Err(IndexError);
    }
    var times := Column(data, 0);
    var temps := Temperatures(data);
    TemperaturesWidth(data);
    var w := |temps[0]|;
    var heights := HeaderHeights(line);
    if heights.Err? {
      return Err(heights.error);
    }
    var hidx := NearestHeights(heights.value, keep);
    if hidx.Err? {
      return Err(hidx.error);
    }
    var dev := DeviationArray(temps, w);
    ghost var table := Deviations(temps, w);
    assert FromTemperatures(temps, w, times, line, n, t, keep) == Finish(table, w, times, heights.value, hidx.value, n, t, keep);
    var e := MaxLoop(dev, heights.value);
    if e.Err? {
      return Err(e.error);
    }
    r := ReportAndReduce(Grid(dev), w, times, e.value, hidx.value, n, t, keep);
  }

  /** What a successful run reports: every report comes at a multiple of
      `t`, the hub maximum bounds the hub deviation of every row, and the
      output is labelled by the requested heights. */
  lemma TDeviationMeaning(data: Table, line: string, n: int, t: real, keep: seq<int>)
    requires Admissible(data, t) && TDeviation(data, line, n, t, keep).Ok?
    ensures |data| >= 2 && HeaderHeights(line).Ok? && NearestHeights(HeaderHeights(line).value, keep).Ok?
    ensures var r := TDeviation(data, line, n, t, keep).value;
            var temps := Temperatures(data);
            var hub := NearestHeights(HeaderHeights(line).value, keep).value[0];
            && (forall k :: 0 <= k < |r.reports| ==> r.reports[k].time == ReportTime(k + 1, t))
            && (forall i :: 0 <= i < |data| ==> hub < |temps[i]| && Abs(Deviation(temps, i, hub)) <= r.hubMax)
            && r.header == ReducedHeader(keep)
            && |r.rows| == StrideCount(|data|, n)
  {
    var temps := Temperatures(data);
    TemperaturesWidth(data);
    var w := |temps[0]|;
    var times := Column(data, 0);
    var heights := HeaderHeights(line).value;
    var hidx := NearestHeights(heights, keep).value;
    assert TDeviation(data, line, n, t, keep) == FromTemperatures(temps, w, times, line, n, t, keep);
    FinishOk(Deviations(temps, w), w, times, heights, hidx, n, t, keep);
    HubBound(temps, w, hidx[0]);
  }

  /** A successful report stage had a first requested height inside the
      table. */
  lemma FinishOk(dev: Table, w: nat, times: seq<real>, heights: seq<int>, hidx: seq<nat>,
                 n: int, t: real, keep: seq<int>)
    requires |dev| == |times| > 0 && Rectangular(dev, w) && t > 0.0
    requires Finish(dev, w, times, heights, hidx, n, t, keep).Ok?
    ensures MaxOf(dev, w, heights).Ok? && hidx != [] && hidx[0] < w
    ensures Finish(dev, w, times, heights, hidx, n, t, keep)
            == ReportAndReduce(dev, w, times, MaxOf(dev, w, heights).value, hidx, n, t, keep)
  {
  }

  /** The hub maximum bounds the hub deviation of every row. */
  lemma HubBound(temps: Table, w: nat, hub: nat)
    requires |temps| > 0 && Rectangular(temps, w) && NonZeroStart(temps) && hub < w
    ensures forall i :: 0 <= i < |temps| ==> Abs(Deviation(temps, i, hub)) <= HubMax(Deviations(temps, w), hub)
  {
    var dev := Deviations(temps, w);
    assert forall i :: 0 <= i < |temps| ==> dev[i][hub] == Deviation(temps, i, hub);
  }
}
