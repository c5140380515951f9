/** `precursorAveragingProfile.py`: the time-averaged vertical profile of
    every averaging quantity of a case over one window
    `[starttime, endtime]`.

    The quantities are those of `AveragingQuantities` whose averaging file
    exists, visited in the iteration order of the Python set that holds
    them (`order`).  The heights come from the header of the file of the
    last quantity searched, `V_mean`.  Start and end arrive as the
    command-line strings. */
module PrecursorAveragingProfile {
  import opened Common
  import opened Strings
  import opened Tables
  import opened HeightHeaders
  import opened Utils
  import opened AveragingFiles

  /** `lower = (t0 // 10) * 10` and `upper = ((tl // 10) + 1) * 10`: the
      first time rounded down to a multiple of 10 s and the last time rounded
      up past itself, by a full 10 s when it is already a multiple. */
  function AveragingLimits(t0: real, tl: real): (r: Limits)
    ensures (r.lower as real) <= t0 < (r.lower as real) + 10.0 && r.lower % 10 == 0
    ensures tl < (r.upper as real) <= tl + 10.0 && r.upper % 10 == 0
  {
    var lo := FloorDiv(t0, 10.0);
    var hi := FloorDiv(tl, 10.0);
    assert (lo * 10) as real == (lo as real) * 10.0;
    assert ((hi + 1) * 10) as real == (hi as real + 1.0) * 10.0;
    Limits(lo * 10, (hi + 1) * 10)
  }

  /** The limits of a table's times. */
  function TableLimits(data: Table): Limits
    requires TwoDimensional(data)
  {
    AveragingLimits(data[0][0], data[|data| - 1][0])
  }

  /** The request passes the script's checks on this table: start before
      end, both within the limits. */
  predicate Admissible(data: Table, s: real, e: real) {
    && TwoDimensional(data) && s < e
    && (TableLimits(data).lower as real) <= s && e <= (TableLimits(data).upper as real)
  }

  /** The profile file of one quantity: `float()` of both times
      (ValueError), start before end (ValueError), the file read
      (FileNotFoundError), a two-dimensional table (IndexError), the range
      check (ValueError), the window average between the nearest rows
      (ZeroDivisionError) and `np.column_stack` of heights and averages,
      which raises ValueError when their lengths differ. */
  function TimeAveraged(case_: string, files: map<string, AveragingFile>, q: string, start: string, end: string,
                        heights: seq<int>): (r: Result<Saved>)
    requires RectangularFiles(files)
    ensures ParseFloat(start).None? || ParseFloat(end).None? ==> r == Err(ValueError)
    ensures r.Ok? ==> && ParseFloat(start).Some? && ParseFloat(end).Some? && AveragingName(case_, q) in files
                      && Admissible(files[AveragingName(case_, q)].rows, ParseFloat(start).value, ParseFloat(end).value)
    ensures r.Ok? ==> && r.value.name == case_ + "_" + q + "_timeaveraged_" + start + "_" + end + ".gz"
                      && r.value.header == "heights_m " + q
                      && |r.value.table| == |heights| && Rectangular(r.value.table, 2)
                      && forall k :: 0 <= k < |heights| ==> r.value.table[k][0] == heights[k] as real
  {
    if ParseFloat(start).None? || ParseFloat(end).None? then Err(ValueError)
    else
      var s, e := ParseFloat(start).value, ParseFloat(end).value;
      var name := AveragingName(case_, q);
      if s >= e then Err(ValueError)
      else if name !in files then Err(FileNotFoundError)
      else
        var data := files[name].rows;
        if !TwoDimensional(data) then Err(IndexError)
        else if !Admissible(data, s, e) then Err(ValueError)
        else
          match WindowProfile(data, NearestRow(data, s), NearestRow(data, e))
          case Err(err) => Err(err)
          case Ok(avg) =>
            if |avg| != |heights| then Err(ValueError)
            else Ok(Saved(case_ + "_" + q + "_timeaveraged_" + start + "_" + end + ".gz", "heights_m " + q,
                          ProfileTable(heights, [avg])))
  }

  /** The window a successful request averages over: the nearest rows to
      its start and end. */
  function RequestWindow(data: Table, start: string, end: string): (w: (nat, nat))
    requires TwoDimensional(data) && ParseFloat(start).Some? && ParseFloat(end).Some?
    ensures w.0 < |data| && w.1 < |data|
  {
    (NearestRow(data, ParseFloat(start).value), NearestRow(data, ParseFloat(end).value))
  }

  /** Column 1 of a profile is the window average of the matching column:
      with positive time steps it lies between the smallest and largest
      value of column `2 k + 2` over the file. */
  lemma TimeAveragedBounds(case_: string, files: map<string, AveragingFile>, q: string, start: string, end: string,
                           heights: seq<int>, k: nat, lo: real, hi: real)
    requires RectangularFiles(files)
    requires TimeAveraged(case_, files, q, start, end, heights).Ok? && k < |heights|
    requires PositiveColumn(files[AveragingName(case_, q)].rows, 1)
    requires forall i :: 0 <= i < |files[AveragingName(case_, q)].rows| ==>
               2 * k + 2 < |files[AveragingName(case_, q)].rows[i]| ==>
               lo <= files[AveragingName(case_, q)].rows[i][2 * k + 2] <= hi
    ensures lo <= TimeAveraged(case_, files, q, start, end, heights).value.table[k][1] <= hi
  {
    var data := files[AveragingName(case_, q)].rows;
    var w := RequestWindow(data, start, end);
    var avg := WindowProfile(data, w.0, w.1).value;
    assert TimeAveraged(case_, files, q, start, end, heights).value.table == ProfileTable(heights, [avg]);
    WindowProfileBounds(data, w.0, w.1, k, lo, hi);
  }

  /** A request the checks admit, on a file whose times ascend with positive
      steps and that has one value column per height, yields its profile. */
  lemma TimeAveragedDefined(case_: string, files: map<string, AveragingFile>, q: string, start: string, end: string,
                            heights: seq<int>)
    requires RectangularFiles(files) && AveragingName(case_, q) in files
    requires ParseFloat(start).Some? && ParseFloat(end).Some?
    requires Admissible(files[AveragingName(case_, q)].rows, ParseFloat(start).value, ParseFloat(end).value)
    requires TimesAscending(files[AveragingName(case_, q)].rows)
    requires PositiveColumn(files[AveragingName(case_, q)].rows, 1)
    requires |EvenFrom2(files[AveragingName(case_, q)].rows[0])| == |heights|
    ensures TimeAveraged(case_, files, q, start, end, heights).Ok?
  {
    var data := files[AveragingName(case_, q)].rows;
    var w := RequestWindow(data, start, end);
    NearestRowMonotone(data, ParseFloat(start).value, ParseFloat(end).value);
    WindowWeighted(data, w.0, w.1);
    assert WindowProfile(data, w.0, w.1).Ok?;
  }

  /** A non-empty window of positive time steps has a positive weight sum. */
  lemma WindowWeighted(data: Table, s: nat, e: nat)
    requires TwoDimensional(data) && s <= e < |data| && PositiveColumn(data, 1)
    ensures Sum(Column(WindowRows(data, s, e), 1)) > 0.0
  {
    var dt := Column(WindowRows(data, s, e), 1);
    ColumnAt(WindowRows(data, s, e), 1);
    assert forall j :: 0 <= j < |dt| ==> dt[j] > 0.0 by {
      forall j | 0 <= j < |dt| ensures dt[j] > 0.0 {
        assert dt[j] == data[s + j][1];
      }
    }
    PositiveSum(dt);
  }

  /** `V_mean`, the quantity whose file the heights are read from. */
  function LastQuantity(): string {
    AveragingQuantities[|AveragingQuantities| - 1]
  }

  /** `main(casename, starttime, endtime)` with the averaging files of the
      case and the set's iteration order.  The heights are read before the
      loop from the file of the last quantity searched, whether or not that
      quantity was found; without it the script raises FileNotFoundError. */
  function AveragingProfile(case_: string, files: map<string, AveragingFile>, order: seq<string>,
                            start: string, end: string): (r: Result<seq<Saved>>)
    requires RectangularFiles(files)
    requires Enumerates(order, FoundQuantities(case_, files))
    ensures AveragingName(case_, LastQuantity()) !in files ==> r == Err(FileNotFoundError)
    ensures r.Ok? ==> && HeaderHeights(files[AveragingName(case_, LastQuantity())].line).Ok?
                      && r == Each(order, q => TimeAveraged(case_, files, q, start, end,
                                       HeaderHeights(files[AveragingName(case_, LastQuantity())].line).value))
    ensures r.Ok? ==> |r.value| == |FoundQuantities(case_, files)|
    ensures r.Ok? ==> forall q :: q in FoundQuantities(case_, files) ==>
              exists k :: 0 <= k < |r.value| && r.value[k].name == case_ + "_" + q + "_timeaveraged_" + start + "_" + end + ".gz"
  {
    var last := AveragingName(case_, LastQuantity());
    if last !in files then Err(FileNotFoundError)
    else
      match HeaderHeights(files[last].line)
      case Err(e) => Err(e)
      case Ok(heights) =>
        var r := Each(order, q => TimeAveraged(case_, files, q, start, end, heights));
        if r.Ok? then TimeAveragedFound(case_, files, order, start, end, heights, r.value); r
        else r
  }

  /** A loop over the found quantities that does not raise leaves one
      profile per found quantity, named after it. */
  lemma TimeAveragedFound(case_: string, files: map<string, AveragingFile>, order: seq<string>,
                          start: string, end: string, heights: seq<int>, out: seq<Saved>)
    requires RectangularFiles(files) && Enumerates(order, FoundQuantities(case_, files))
    requires |out| == |order|
    requires forall k :: 0 <= k < |order| ==> TimeAveraged(case_, files, order[k], start, end, heights) == Ok(out[k])
    ensures |out| == |FoundQuantities(case_, files)|
    ensures forall q :: q in FoundQuantities(case_, files) ==>
              exists k :: 0 <= k < |out| && out[k].name == case_ + "_" + q + "_timeaveraged_" + start + "_" + end + ".gz"
  {
    EnumeratesSize(order, FoundQuantities(case_, files));
    forall q | q in FoundQuantities(case_, files)
      ensures exists k :: 0 <= k < |out| && out[k].name == case_ + "_" + q + "_timeaveraged_" + start + "_" + end + ".gz"
    {
      var k :| 0 <= k < |order| && order[k] == q;
      assert TimeAveraged(case_, files, order[k], start, end, heights) == Ok(out[k]);
    }
  }

  /** Every profile file of a run carries, in its first column, the heights
      of the `V_mean` header, whatever its own quantity. */
  lemma HeightsFromLastQuantity(case_: string, files: map<string, AveragingFile>, order: seq<string>,
                                start: string, end: string, k: nat, j: nat)
    requires RectangularFiles(files) && Enumerates(order, FoundQuantities(case_, files))
    requires AveragingProfile(case_, files, order, start, end).Ok?
    requires k < |order|
    ensures j < |AveragingProfile(case_, files, order, start, end).value[k].table| ==>
              HeaderHeights(files[AveragingName(case_, LastQuantity())].line).Ok? &&
              j < |HeaderHeights(files[AveragingName(case_, LastQuantity())].line).value| &&
              AveragingProfile(case_, files, order, start, end).value[k].table[j][0]
              == HeaderHeights(files[AveragingName(case_, LastQuantity())].line).value[j] as real
  {
    var heights := HeaderHeights(files[AveragingName(case_, LastQuantity())].line).value;
    var save := q => TimeAveraged(case_, files, q, start, end, heights);
    assert save(order[k]) == Ok(AveragingProfile(case_, files, order, start, end).value[k]);
  }

  /** The script's `main`. */
  method AveragingProfileMain(case_: string, files: map<string, AveragingFile>, order: seq<string>,
                              start: string, end: string) returns (r: Result<seq<Saved>>)
    requires RectangularFiles(files) && Enumerates(order, FoundQuantities(case_, files))
    ensures r == AveragingProfile(case_, files, order, start, end)
  {
    var last := AveragingName(case_, LastQuantity());
    if last !in files {
      return Err(FileNotFoundError);
    }
    var heights := HeaderHeights(files[last].line);
    if heights.Err? {
      return Err(heights.error);
    }
    var save := q => TimeAveraged(case_, files, q, start, end, heights.value);
    var out: seq<Saved> := [];
    for k := 0 to |order|
      invariant Each(order[..k], save) == Ok(out)
    {
      assert order[..k + 1][..k] == order[..k];
      var saved := TimeAveraged(case_, files, order[k], start, end, heights.value);
      if saved.Err? {
        EachErr(order, save, k);
        return Err(saved.error);
      }
      out := out + [saved.value];
    }
    assert order[..|order|] == order;
    r := Ok(out);
  }
}
