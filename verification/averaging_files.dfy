/** The files of a case's `sowfatools/averaging` directory as the precursor
    scripts find, read and write them, and the time-window average they
    take over a file's rows.

    An averaging file is its first line (the `#` header that `np.savetxt`
    wrote) and its rows as `np.genfromtxt` reads them.  An output file is
    its name, the header given to `np.savetxt` and its rows. */
module AveragingFiles {
  import opened Common
  import opened Tables
  import opened Utils

  /** `const.AVERAGING_QUANTITIES`, in the order the scripts search them. */
  const AveragingQuantities: seq<string> := [
    "q3_mean", "R22_mean", "Tw_mean", "R11_mean", "uu_mean",
    "wuu_mean", "R12_mean", "wuv_mean", "www_mean",
    "uw_mean", "q1_mean", "Tv_mean", "TI", "vv_mean",
    "R13_mean", "ww_mean", "wuw_mean", "Tu_mean", "nu_SGS_mean",
    "uv_mean", "wvw_mean", "R33_mean", "wvv_mean",
    "U_mean", "R23_mean", "W_mean", "vw_mean", "q2_mean",
    "T_mean", "V_mean"]

  datatype AveragingFile = AveragingFile(line: string, rows: Table)

  /** A file written with `np.savetxt(name, table, header=header)`. */
  datatype Saved = Saved(name: string, header: string, table: Table)

  /** `genfromtxt` reads every file as a table of equal rows. */
  predicate RectangularFiles(files: map<string, AveragingFile>) {
    forall name :: name in files && |files[name].rows| > 0 ==> Rectangular(files[name].rows, |files[name].rows[0]|)
  }

  /** `{casename}_{quantity}.gz`. */
  function AveragingName(case_: string, q: string): string {
    case_ + "_" + q + ".gz"
  }

  /** The quantities whose averaging file is in the directory. */
  function FoundQuantities(case_: string, files: map<string, AveragingFile>): set<string> {
    set q | q in AveragingQuantities && AveragingName(case_, q) in files
  }

  /** The search loop `for quantity in AVERAGING_QUANTITIES`, adding each
      quantity whose file is in the directory to the set. */
  method FindQuantities(case_: string, files: map<string, AveragingFile>) returns (found: set<string>)
    ensures found == FoundQuantities(case_, files)
  {
    found := {};
    for k := 0 to |AveragingQuantities|
      invariant found == set q | q in AveragingQuantities[..k] && AveragingName(case_, q) in files
    {
      assert AveragingQuantities[..k + 1] == AveragingQuantities[..k] + [AveragingQuantities[k]];
      if AveragingName(case_, AveragingQuantities[k]) in files {
        found := found + {AveragingQuantities[k]};
      }
    }
    assert AveragingQuantities[..|AveragingQuantities|] == AveragingQuantities;
  }

  /** `order` lists every member of `qs` exactly once: the order in which
      iterating a Python set yields its members. */
  ghost predicate Enumerates(order: seq<string>, qs: set<string>) {
    && (forall q :: q in qs <==> q in order)
    && (forall a, b :: 0 <= a < b < |order| ==> order[a] != order[b])
  }

  /** Iterating a set visits as many members as the set has. */
  lemma {:induction false} EnumeratesSize(order: seq<string>, qs: set<string>)
    requires Enumerates(order, qs)
    ensures |order| == |qs|
    decreases |order|
  {
    if order == [] {
      assert qs == {};
    } else {
      var rest := qs - {order[0]};
      forall q ensures q in rest <==> q in order[1..] {
        if q in order[1..] {
          var k :| 0 <= k < |order[1..]| && order[1..][k] == q;
          assert order[k + 1] == q;
        }
        if q in rest {
          var k :| 0 <= k < |order| && order[k] == q;
          assert order[1..][k - 1] == q;
        }
      }
      forall a, b | 0 <= a < b < |order[1..]| ensures order[1..][a] != order[1..][b] {
        assert order[1..][a] == order[a + 1] && order[1..][b] == order[b + 1];
      }
      EnumeratesSize(order[1..], rest);
      assert order[0] in qs;
    }
  }

  /** Every quantity the loop over the found set visits has its file. */
  lemma EnumeratedFound(case_: string, files: map<string, AveragingFile>, order: seq<string>, k: nat)
    requires Enumerates(order, FoundQuantities(case_, files)) && k < |order|
    ensures order[k] in AveragingQuantities && AveragingName(case_, order[k]) in files
  {
    assert order[k] in order;
  }

  /** A table as `np.genfromtxt` returns a two-dimensional array: at least
      two rows of equal width, at least two columns.  A single row or a
      single column comes back one-dimensional, and the scripts' two-index
      subscripts on it raise IndexError. */
  predicate TwoDimensional(data: Table) {
    |data| >= 2 && |data[0]| >= 2 && Rectangular(data, |data[0]|)
  }

  /** Time limits of an averaging file, whole multiples of 10 s. */
  datatype Limits = Limits(lower: int, upper: int)

  // ---------------------------------------------------------------------------
  // The quantity loops

  /** A Python loop whose every pass yields one result (a saved file, a
      window's profile): the results in order, up to the first pass that
      raises. */
  function Each<X, Y>(order: seq<X>, save: X -> Result<Y>): (r: Result<seq<Y>>)
    ensures r.Ok? ==> |r.value| == |order|
    ensures r.Ok? ==> forall k :: 0 <= k < |order| ==> save(order[k]) == Ok(r.value[k])
    ensures r.Err? <==> exists k :: 0 <= k < |order| && save(order[k]).Err?
    decreases |order|
  {
    if order == [] then Ok([])
    else
      var init := order[..|order| - 1];
      assert forall k :: 0 <= k < |init| ==> init[k] == order[k];
      match Each(init, save)
      case Err(e) => Err(e)
      case Ok(out) =>
        match save(order[|order| - 1])
        case Err(e) => Err(e)
        case Ok(saved) => Ok(out + [saved])
  }

  /** The loop stops at the first pass that raises, with its error. */
  lemma {:induction false} EachErr<X, Y>(order: seq<X>, save: X -> Result<Y>, k: nat)
    requires k < |order| && Each(order[..k], save).Ok? && save(order[k]).Err?
    ensures Each(order, save) == Err(save(order[k]).error)
    decreases |order|
  {
    assert order[..k + 1][..k] == order[..k];
    if k + 1 < |order| {
      var init := order[..|order| - 1];
      assert init[..k] == order[..k] && init[k] == order[k];
      EachErr(init, save, k);
    } else {
      assert order[..k] == order[..|order| - 1];
    }
  }

  /** A pass that does not raise appends its result. */
  lemma EachSnoc<X, Y>(order: seq<X>, save: X -> Result<Y>, k: nat)
    requires k < |order| && Each(order[..k], save).Ok? && save(order[k]).Ok?
    ensures Each(order[..k + 1], save) == Ok(Each(order[..k], save).value + [save(order[k]).value])
  {
    assert order[..k + 1][..k] == order[..k];
  }

  // ---------------------------------------------------------------------------
  // Time windows

  /** `np.argmin(np.abs(data[:, 0] - t))`: the first row whose time is
      nearest to `t`. */
  function NearestRow(data: Table, t: real): (i: nat)
    requires |data| > 0 && HasColumns(data, 1)
    ensures i < |data|
    ensures forall j :: 0 <= j < |data| ==> Abs(data[i][0] - t) <= Abs(data[j][0] - t)
    ensures forall j :: 0 <= j < i ==> Abs(data[j][0] - t) > Abs(data[i][0] - t)
  {
    ColumnAt(data, 0);
    Nearest(Column(data, 0), t)
  }

  /** The rows are in time order. */
  predicate TimesAscending(data: Table)
    requires HasColumns(data, 1)
  {
    forall i, j :: 0 <= i <= j < |data| ==> data[i][0] <= data[j][0]
  }

  /** On rows in time order the nearest row moves forward with the time, so
      a window whose start is not after its end selects its rows in order. */
  lemma NearestRowMonotone(data: Table, a: real, b: real)
    requires |data| > 0 && HasColumns(data, 1) && TimesAscending(data)
    requires a <= b
    ensures NearestRow(data, a) <= NearestRow(data, b)
  {
  }

  /** `data[s:e+1]`: empty when the start row is after the end row. */
  function WindowRows(data: Table, s: nat, e: nat): (w: Table)
    requires s < |data| && e < |data|
    ensures |w| == if s <= e then e - s + 1 else 0
    ensures forall i :: 0 <= i < |w| ==> w[i] == data[s + i]
  {
    if s <= e then data[s..e + 1] else []
  }

  /** `np.average(data[s:e+1, 2::2], axis=0, weights=data[s:e+1, 1])`: the
      dt-weighted mean over the window of every second column from column 2
      (the raw values, not the running averages), which is the weighted
      running mean of `calculate_moving_average` taken at the window's last
      row.  Weights summing to zero, an empty window included, raise
      ZeroDivisionError. */
  function WindowProfile(data: Table, s: nat, e: nat): (r: Result<seq<real>>)
    requires TwoDimensional(data) && s < |data| && e < |data|
    ensures r.Err? <==> Sum(Column(WindowRows(data, s, e), 1)) == 0.0
    ensures r.Err? ==> r.error == ZeroDivisionError
    ensures r.Ok? ==> |r.value| == |EvenFrom2(data[0])| && s <= e
  {
    var rows := WindowRows(data, s, e);
    var dt := Column(rows, 1);
    var n := |EvenFrom2(data[0])|;
    if Sum(dt) == 0.0 then Err(ZeroDivisionError)
    else Ok(seq(n, c requires 0 <= c < n => Dot(Column(rows, 2 * c + 2), dt) / Sum(dt)))
  }

  /** Each window mean is the weighted running mean of
      `calculate_moving_average` over the window's rows, at its last row. */
  lemma WindowProfileIsRunningMean(data: Table, s: nat, e: nat, c: nat)
    requires TwoDimensional(data) && s < |data| && e < |data|
    requires WindowProfile(data, s, e).Ok? && c < |WindowProfile(data, s, e).value|
    ensures PrefixSum(Column(WindowRows(data, s, e), 1), e - s) != 0.0
    ensures WindowProfile(data, s, e).value[c]
            == RunningWeightedMean(Column(WindowRows(data, s, e), 2 * c + 2), Column(WindowRows(data, s, e), 1), e - s)
  {
    var rows := WindowRows(data, s, e);
    var dt := Column(rows, 1);
    var xs := Column(rows, 2 * c + 2);
    assert dt[..e - s + 1] == dt && xs[..e - s + 1] == xs;
  }

  /** With positive time steps the window mean of a column lies between any
      bounds of that column over the window. */
  lemma WindowProfileBounds(data: Table, s: nat, e: nat, c: nat, lo: real, hi: real)
    requires TwoDimensional(data) && s <= e < |data| && c < |EvenFrom2(data[0])|
    requires forall i :: s <= i <= e ==> data[i][1] > 0.0
    requires forall i :: s <= i <= e ==> lo <= data[i][2 * c + 2] <= hi
    ensures WindowProfile(data, s, e).Ok?
    ensures lo <= WindowProfile(data, s, e).value[c] <= hi
  {
    var rows := WindowRows(data, s, e);
    var dt := Column(rows, 1);
    var xs := Column(rows, 2 * c + 2);
    assert forall k :: 0 <= k <= e - s ==> dt[k] > 0.0 && lo <= xs[k] <= hi by {
      forall k | 0 <= k <= e - s ensures dt[k] > 0.0 && lo <= xs[k] <= hi {
        assert dt[k] == data[s + k][1] && xs[k] == data[s + k][2 * c + 2];
      }
    }
    RunningWeightedMeanBounds(xs, dt, e - s, lo, hi);
    assert dt[..e - s + 1] == dt;
    WindowProfileIsRunningMean(data, s, e, c);
  }

  /** `np.column_stack((heights, *cols))`: the heights, then one column per
      profile. */
  function ProfileTable(heights: seq<int>, cols: seq<seq<real>>): (t: Table)
    requires forall w :: 0 <= w < |cols| ==> |cols[w]| == |heights|
    ensures |t| == |heights| && Rectangular(t, |cols| + 1)
    ensures forall k :: 0 <= k < |heights| ==>
              t[k][0] == heights[k] as real && forall w :: 0 <= w < |cols| ==> t[k][w + 1] == cols[w][k]
  {
    seq(|heights|, k requires 0 <= k < |heights| =>
      [heights[k] as real] + seq(|cols|, w requires 0 <= w < |cols| => cols[w][k]))
  }
}
