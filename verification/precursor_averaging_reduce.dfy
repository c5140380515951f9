/** `precursorAveragingReduce.py` and `precursoraveragingreduce` of the
    precursor tools: a published extract of a stitched averaging file, every
    `N`th time at the heights nearest to the requested ones.

    The input is the header line of the averaging file and its rows as
    `np.genfromtxt` reads them (the `#` header line is a comment). */
module PrecursorAveragingReduce {
  import opened Common
  import opened Strings
  import opened Tables
  import opened HeightHeaders

  /** The column map `idx`: 0 for time, then `2 k + 2` for the `k`th header
      height nearest to each requested height, which skips the time and dt
      columns and the running averages.  argmin over no heights raises
      ValueError. */
  function ColumnIndex(heights: seq<int>, keep: seq<int>): (r: Result<seq<nat>>)
    ensures r.Err? <==> heights == [] && keep != []
    ensures r.Err? ==> r.error == ValueError
    ensures r.Ok? ==> |r.value| == |keep| + 1 && r.value[0] == 0
    ensures r.Ok? ==> NearestHeights(heights, keep).Ok? && forall j :: 0 <= j < |keep| ==>
              r.value[j + 1] == 2 * NearestHeights(heights, keep).value[j] + 2
  {
    match NearestHeights(heights, keep)
    case Err(e) => Err(e)
    case Ok(hidx) => Ok([0] + seq(|keep|, j requires 0 <= j < |keep| => 2 * hidx[j] + 2))
  }

  /** The loop that fills `idx[1:]` with the nearest indices, then the
      in-place offset `idx[1:] = 2*idx[1:] + 2`. */
  method ColumnMap(heights: seq<int>, keep: seq<int>) returns (r: Result<seq<nat>>)
    ensures r == ColumnIndex(heights, keep)
  {
    if heights == [] && keep != [] {
      // argmin over no heights, at the first requested height
      return Err(ValueError);
    }
    var idx := NearestIndices(AsReals(heights), keep);
    ghost var found := idx[..];
    forall k | 1 <= k < idx.Length {
      idx[k] := 2 * idx[k] + 2;
    }
    r := Ok(idx[..]);
    ColumnIndexOf(heights, keep, found, idx[..]);
  }

  /** `idx[0] = 0` and the loop `idx[i+1] = np.argmin(np.abs(heights - height))`. */
  method NearestIndices(hs: seq<real>, keep: seq<int>) returns (idx: array<nat>)
    requires hs != [] || keep == []
    ensures fresh(idx) && idx.Length == |keep| + 1 && idx[0] == 0
    ensures forall j :: 0 <= j < |keep| ==> idx[j + 1] == Nearest(hs, keep[j] as real)
  {
    idx := new nat[|keep| + 1];
    idx[0] := 0;
    for i := 0 to |keep|
      invariant idx[0] == 0
      invariant forall j :: 0 <= j < i ==> idx[j + 1] == Nearest(hs, keep[j] as real)
    {
      idx[i + 1] := Nearest(hs, keep[i] as real);
    }
  }

  lemma ColumnIndexOf(heights: seq<int>, keep: seq<int>, found: seq<nat>, out: seq<nat>)
    requires heights != [] || keep == []
    requires |found| == |out| == |keep| + 1 && out[0] == 0
    requires forall j :: 0 <= j < |keep| ==> found[j + 1] == Nearest(AsReals(heights), keep[j] as real)
    requires forall k :: 1 <= k < |out| ==> out[k] == 2 * found[k] + 2
    ensures ColumnIndex(heights, keep) == Ok(out)
  {
    var hidx := NearestHeights(heights, keep).value;
    assert forall j :: 0 <= j < |keep| ==> hidx[j] == found[j + 1];
    var want := [0] + seq(|keep|, j requires 0 <= j < |keep| => 2 * hidx[j] + 2);
    assert forall k :: 0 <= k < |want| ==> out[k] == want[k];
    assert out == want;
  }

  /** `data[::N, idx]`: every `N`th row (from the end for a negative `N`),
      restricted to the listed columns in their order.  A zero step raises
      ValueError before the columns are looked at; a column beyond the table
      raises IndexError. */
  function Decimated(data: Table, idx: seq<nat>, n: int): (r: Result<Table>)
    requires |data| > 0 ==> Rectangular(data, |data[0]|)
    ensures r.Err? <==> n == 0 || (|data| > 0 && exists j :: 0 <= j < |idx| && idx[j] >= |data[0]|)
    ensures r.Err? ==> r.error == (if n == 0 then ValueError else IndexError)
    ensures r.Ok? ==> |r.value| == StrideCount(|data|, n) && Rectangular(r.value, |idx|)
    ensures r.Ok? ==> forall k, j :: 0 <= k < |r.value| && 0 <= j < |idx| ==>
              0 <= StrideIndex(|data|, n, k) < |data|
              && idx[j] < |data[StrideIndex(|data|, n, k)]|
              && r.value[k][j] == data[StrideIndex(|data|, n, k)][idx[j]]
  {
    if n == 0 then Err(ValueError)
    else
      var rows := Stride(data, n).value;
      assert |data| > 0 ==> |rows| > 0 && |rows[0]| == |data[0]|;
      SelectColumns(rows, idx)
  }

  datatype Reduced = Reduced(rows: Table, header: string)

  /** The reduction of one quantity, from the heights in the header line to
      the rows under the header `time {h}m ...`.  `genfromtxt` gives a
      one-dimensional array for a file of one row or one column, where the
      two-index subscript raises IndexError. */
  function Reduce(line: string, data: Table, n: int, keep: seq<int>): (r: Result<Reduced>)
    requires |data| > 0 ==> Rectangular(data, |data[0]|)
    ensures HeaderHeights(line).Err? ==> r == Err(HeaderHeights(line).error)
    ensures n == 0 ==> r.Err?
    ensures r.Ok? ==> r.value.header == ReducedHeader(keep)
  {
    match HeaderHeights(line)
    case Err(e) => Err(e)
    case Ok(heights) =>
      match ColumnIndex(heights, keep)
      case Err(e) => Err(e)
      case Ok(idx) =>
        if |data| < 2 || |data[0]| < 2 then Err(IndexError)
        else
          match Decimated(data, idx, n)
          case Err(e) => Err(e)
          case Ok(rows) => Ok(Reduced(rows, ReducedHeader(keep)))
  }

  /** One pass of the quantity loop. */
  method ReduceQuantity(line: string, data: Table, n: int, keep: seq<int>) returns (r: Result<Reduced>)
    requires |data| > 0 ==> Rectangular(data, |data[0]|)
    ensures r == Reduce(line, data, n, keep)
  {
    var heights := HeaderHeights(line);
    if heights.Err? {
      return Err(heights.error);
    }
    var idx := ColumnMap(heights.value, keep);
    if idx.Err? {
      return Err(idx.error);
    }
    if |data| < 2 || |data[0]| < 2 {
      return Err(IndexError);
    }
    var rows := Decimated(data, idx.value, n);
    if rows.Err? {
      return Err(rows.error);
    }
    r := Ok(Reduced(rows.value, ReducedHeader(keep)));
  }
}
