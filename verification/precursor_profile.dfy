/** `precursorProfile.py`: time-averaged vertical profiles of every
    averaging quantity of a case, over one window from a start time
    (start-time mode) or over consecutive windows an offset apart (offset
    mode).

    The first quantity visited fixes, for all the others, the heights (from
    its header), the data limits and the windows.  Width, start time and
    offset are the integers the command line gives; `None` stands for an
    option not given. */
module PrecursorProfile {
  import opened Common
  import opened Strings
  import opened Tables
  import opened HeightHeaders
  import opened Utils
  import opened AveragingFiles
  import opened PrecursorAveragingProfile

  /** Python's `a // b` on integers: the floor of the quotient. */
  function IntFloorDiv(a: int, b: int): (q: int)
    requires b != 0
    ensures b > 0 ==> b * q <= a < b * q + b
    ensures b < 0 ==> b * q + b < a <= b * q
  {
    if b > 0 then a / b else (-a) / (-b)
  }

  /** `lower = int((t0 // 10) * 10)`; `upper = int(tl)` when `tl % 10 == 0`,
      otherwise `int(((tl // 10) + 1) * 10)`: the first time rounded down and
      the last rounded up to a multiple of 10 s. */
  function ProfileLimits(t0: real, tl: real): (r: Limits)
    ensures (r.lower as real) <= t0 < (r.lower as real) + 10.0 && r.lower % 10 == 0
    ensures tl <= (r.upper as real) < tl + 10.0 && r.upper % 10 == 0
  {
    var lo := FloorDiv(t0, 10.0);
    var hi := FloorDiv(tl, 10.0);
    assert (lo * 10) as real == (lo as real) * 10.0;
    assert ((hi + 1) * 10) as real == (hi as real + 1.0) * 10.0;
    if Mod(tl, 10.0) == 0.0 then
      assert tl == (hi * 10) as real;
      Limits(lo * 10, Trunc(tl))
    else Limits(lo * 10, (hi + 1) * 10)
  }

  /** The limits of a file's times: its first and its last row's time. */
  function DataLimits(data: Table): Limits
    requires TwoDimensional(data)
  {
    ProfileLimits(data[0][0], data[|data| - 1][0])
  }

  /** The two profile scripts round the first time alike; at the last time
      they agree unless it is a multiple of 10 s, where this one stops at it
      and `precursorAveragingProfile.py` goes 10 s past it. */
  lemma LimitsCompared(t0: real, tl: real)
    ensures ProfileLimits(t0, tl).lower == AveragingLimits(t0, tl).lower
    ensures Mod(tl, 10.0) == 0.0 ==> ProfileLimits(t0, tl).upper == AveragingLimits(t0, tl).upper - 10
    ensures Mod(tl, 10.0) != 0.0 ==> ProfileLimits(t0, tl).upper == AveragingLimits(t0, tl).upper
  {
    var hi := FloorDiv(tl, 10.0);
    if Mod(tl, 10.0) == 0.0 {
      assert tl == (hi * 10) as real;
    }
  }

  datatype Window = Window(start: int, end: int)

  /** What the first quantity fixes for every quantity: the heights, the
      windows and the end of the output file names. */
  datatype Plan = Plan(heights: seq<int>, windows: seq<Window>, suffix: string)

  /** `N` windows of the given width, the `i`th starting `offset * i` after
      `lower`. */
  function OffsetWindows(lower: int, offset: int, width: int, n: nat): (ws: seq<Window>)
    ensures |ws| == n
    ensures forall i :: 0 <= i < n ==> ws[i].start == lower + offset * i && ws[i].end == ws[i].start + width
  {
    seq(n, i requires 0 <= i < n => Window(lower + offset * i, lower + offset * i + width))
  }

  /** The window count of offset mode, `int((upper - lower) // offset)`. */
  function WindowCount(lim: Limits, offset: int): int
    requires offset != 0
  {
    IntFloorDiv(lim.upper - lim.lower, offset)
  }

  /** The first quantity's steps: its header heights (ValueError), the
      two-dimensional table (IndexError), the limits; in start-time mode the
      range check (ValueError) and one window; in offset mode the window
      count, where a missing offset raises TypeError and a zero one
      ZeroDivisionError.  With exactly one window in offset mode the loop
      uses the start time, which is `None`: TypeError. */
  function ProfilePlan(file: AveragingFile, width: int, starttime: Option<int>, offset: Option<int>): (r: Result<Plan>)
    requires |file.rows| > 0 ==> Rectangular(file.rows, |file.rows[0]|)
    ensures r.Ok? ==> HeaderHeights(file.line) == Ok(r.value.heights) && TwoDimensional(file.rows)
    ensures r.Ok? && starttime.Some? ==>
              && var lim := DataLimits(file.rows);
              && lim.lower <= starttime.value && starttime.value + width <= lim.upper
              && r.value.windows == [Window(starttime.value, starttime.value + width)]
    ensures r.Ok? && starttime.None? ==>
              && offset.Some? && offset.value != 0
              && var lim := DataLimits(file.rows);
              && WindowCount(lim, offset.value) != 1
              && r.value.windows == OffsetWindows(lim.lower, offset.value, width,
                                                  if WindowCount(lim, offset.value) < 0 then 0 else WindowCount(lim, offset.value))
  {
    match HeaderHeights(file.line)
    case Err(e) => Err(e)
    case Ok(heights) =>
      var data := file.rows;
      if !TwoDimensional(data) then Err(IndexError)
      else PlanWindows(heights, DataLimits(data), width, starttime, offset)
  }

  /** The steps of `ProfilePlan` once the heights and the limits are known. */
  function PlanWindows(heights: seq<int>, lim: Limits, width: int, starttime: Option<int>, offset: Option<int>)
    : (r: Result<Plan>)
    ensures r.Ok? ==> r.value.heights == heights
    ensures r.Ok? && starttime.Some? ==>
              && lim.lower <= starttime.value && starttime.value + width <= lim.upper
              && r.value.windows == [Window(starttime.value, starttime.value + width)]
    ensures r.Ok? && starttime.None? ==>
              && offset.Some? && offset.value != 0
              && WindowCount(lim, offset.value) != 1
              && r.value.windows == OffsetWindows(lim.lower, offset.value, width,
                                                  if WindowCount(lim, offset.value) < 0 then 0 else WindowCount(lim, offset.value))
  {
    match starttime
    case Some(s) =>
      if s < lim.lower || s + width > lim.upper then Err(ValueError)
      else Ok(Plan(heights, [Window(s, s + width)],
                   "_timeaveraged_" + IntToString(s) + "_" + IntToString(s + width) + ".gz"))
    case None =>
      match offset
      case None => Err(TypeError)
      case Some(o) =>
        if o == 0 then Err(ZeroDivisionError)
        else
          var n := WindowCount(lim, o);
          if n == 1 then Err(TypeError)
          else Ok(Plan(heights, OffsetWindows(lim.lower, o, width, if n < 0 then 0 else n),
                       "_timeaveraged_w" + IntToString(width) + "_o" + IntToString(o) + ".gz"))
  }

  /** With a positive offset the `i`th of `(upper - lower) // offset`
      windows starts at or after `lower` and before `upper`. */
  lemma OffsetStartInside(lim: Limits, o: int, i: int)
    requires o > 0 && 0 <= i < WindowCount(lim, o)
    ensures lim.lower <= lim.lower + o * i < lim.upper
  {
    var n := WindowCount(lim, o);
    MulLeInt(i, n - 1, o);
    assert o * i == i * o && o * (n - 1) == (n - 1) * o;
  }

  /** With a positive offset every window of offset mode starts inside the
      data limits (its end is not checked). */
  lemma OffsetWindowsStartInside(file: AveragingFile, width: int, o: int, i: nat)
    requires |file.rows| > 0 ==> Rectangular(file.rows, |file.rows[0]|)
    requires o > 0 && ProfilePlan(file, width, None, Some(o)).Ok?
    requires i < |ProfilePlan(file, width, None, Some(o)).value.windows|
    ensures var lim := DataLimits(file.rows);
            lim.lower <= ProfilePlan(file, width, None, Some(o)).value.windows[i].start < lim.upper
  {
    OffsetStartInside(DataLimits(file.rows), o, i);
  }

  // ---------------------------------------------------------------------------
  // One quantity

  /** One pass of the window loop: the rows nearest to the window's start
      and end (IndexError on a one-dimensional table), their dt-weighted
      average (ZeroDivisionError), and `np.column_stack` with what is stacked
      so far (ValueError when the lengths differ from the heights'). */
  function WindowAverage(data: Table, heights: seq<int>, w: Window): (r: Result<seq<real>>)
    requires |data| > 0 ==> Rectangular(data, |data[0]|)
    ensures r.Ok? ==> |r.value| == |heights| && TwoDimensional(data)
  {
    if !TwoDimensional(data) then Err(IndexError)
    else
      match WindowProfile(data, NearestRow(data, w.start as real), NearestRow(data, w.end as real))
      case Err(e) => Err(e)
      case Ok(avg) => if |avg| != |heights| then Err(ValueError) else Ok(avg)
  }

  /** `f' {quantity}_{starttime}_{endtime}'` for a window. */
  function WindowLabel(q: string, w: Window): string {
    q + "_" + IntToString(w.start) + "_" + IntToString(w.end)
  }

  function WindowLabels(q: string, ws: seq<Window>): (r: seq<string>)
    ensures |r| == |ws| && forall i :: 0 <= i < |ws| ==> r[i] == WindowLabel(q, ws[i])
  {
    seq(|ws|, i requires 0 <= i < |ws| => WindowLabel(q, ws[i]))
  }

  /** The output header: `heights_m`, then one label per window. */
  function WindowHeader(q: string, ws: seq<Window>): string {
    Join(["heights_m"] + WindowLabels(q, ws), " ")
  }

  /** For a quantity name without whitespace the header splits back into
      `heights_m` and the window labels. */
  lemma WindowHeaderWords(q: string, ws: seq<Window>)
    requires IsWord(q)
    ensures Words(WindowHeader(q, ws)) == ["heights_m"] + WindowLabels(q, ws)
  {
    var names := ["heights_m"] + WindowLabels(q, ws);
    forall i | 0 <= i < |ws| ensures IsWord(WindowLabel(q, ws[i])) {
      IntWord(ws[i].start);
      IntWord(ws[i].end);
    }
    assert forall k :: 0 <= k < |names| ==> IsWord(names[k]);
    WordsJoin(names);
  }

  /** The profile columns of one table, one per window of the plan. */
  function WindowAverages(data: Table, plan: Plan): (r: Result<seq<seq<real>>>)
    requires |data| > 0 ==> Rectangular(data, |data[0]|)
    ensures r.Ok? ==> |r.value| == |plan.windows|
    ensures r.Ok? ==> forall i :: 0 <= i < |plan.windows| ==>
                        WindowAverage(data, plan.heights, plan.windows[i]) == Ok(r.value[i])
    ensures r.Err? <==> exists i :: 0 <= i < |plan.windows| && WindowAverage(data, plan.heights, plan.windows[i]).Err?
  {
    Each(plan.windows, w => WindowAverage(data, plan.heights, w))
  }

  /** The output of one quantity's table under the plan: `{case}_{q}` and
      the plan's suffix, the header, and the heights stacked with one
      profile column per window. */
  function ProfileOf(case_: string, q: string, data: Table, plan: Plan): (r: Result<Saved>)
    requires |data| > 0 ==> Rectangular(data, |data[0]|)
    ensures r.Err? <==> WindowAverages(data, plan).Err?
    ensures r.Ok? ==> && r.value.name == case_ + "_" + q + plan.suffix
                      && r.value.header == WindowHeader(q, plan.windows)
                      && r.value.table == ProfileTable(plan.heights, WindowAverages(data, plan).value)
  {
    match WindowAverages(data, plan)
    case Err(e) => Err(e)
    case Ok(cols) =>
      assert forall i :: 0 <= i < |cols| ==> |cols[i]| == |plan.heights| by {
        forall i | 0 <= i < |cols| ensures |cols[i]| == |plan.heights| {
          assert WindowAverage(data, plan.heights, plan.windows[i]) == Ok(cols[i]);
        }
      }
      Ok(Saved(case_ + "_" + q + plan.suffix, WindowHeader(q, plan.windows), ProfileTable(plan.heights, cols)))
  }

  /** The output of one quantity: FileNotFoundError without its averaging
      file; otherwise a table with the plan's heights in its first column
      and one column per window. */
  function QuantityProfile(case_: string, files: map<string, AveragingFile>, q: string, plan: Plan): (r: Result<Saved>)
    requires RectangularFiles(files)
    ensures AveragingName(case_, q) !in files ==> r == Err(FileNotFoundError)
    ensures r.Ok? ==> && r.value.name == case_ + "_" + q + plan.suffix
                      && r.value.header == WindowHeader(q, plan.windows)
                      && |r.value.table| == |plan.heights| && Rectangular(r.value.table, |plan.windows| + 1)
                      && forall j :: 0 <= j < |plan.heights| ==> r.value.table[j][0] == plan.heights[j] as real
  {
    var name := AveragingName(case_, q);
    if name !in files then Err(FileNotFoundError) else ProfileOf(case_, q, files[name].rows, plan)
  }

  /** Column `i + 1` of a profile is the average over window `i`: with
      positive time steps it lies between the smallest and largest value of
      column `2 j + 2` over the table. */
  lemma ProfileOfBounds(case_: string, q: string, data: Table, plan: Plan, i: nat, j: nat, lo: real, hi: real)
    requires |data| > 0 ==> Rectangular(data, |data[0]|)
    requires ProfileOf(case_, q, data, plan).Ok? && i < |plan.windows| && j < |plan.heights|
    requires PositiveColumn(data, 1)
    requires forall r :: 0 <= r < |data| ==> 2 * j + 2 < |data[r]| ==> lo <= data[r][2 * j + 2] <= hi
    ensures lo <= ProfileOf(case_, q, data, plan).value.table[j][i + 1] <= hi
  {
    var cols := WindowAverages(data, plan).value;
    assert WindowAverage(data, plan.heights, plan.windows[i]) == Ok(cols[i]);
    var w := plan.windows[i];
    var s, e := NearestRow(data, w.start as real), NearestRow(data, w.end as real);
    assert |cols[i]| == |EvenFrom2(data[0])|;
    assert 2 * j + 2 < |data[0]|;
    forall r | s <= r <= e ensures data[r][1] > 0.0 && lo <= data[r][2 * j + 2] <= hi {
      assert |data[r]| == |data[0]|;
    }
    WindowProfileBounds(data, s, e, j, lo, hi);
  }

  /** The header gains one label per window. */
  lemma WindowHeaderSnoc(q: string, ws: seq<Window>, i: nat)
    requires i < |ws|
    ensures WindowHeader(q, ws[..i + 1]) == WindowHeader(q, ws[..i]) + " " + WindowLabel(q, ws[i])
  {
    var pre := WindowLabels(q, ws[..i]);
    var all := WindowLabels(q, ws[..i + 1]);
    var lab := WindowLabel(q, ws[i]);
    assert all == pre + [lab] by {
      forall k | 0 <= k < |all| ensures all[k] == (pre + [lab])[k] {
        assert ws[..i + 1][k] == if k < i then ws[..i][k] else ws[i];
      }
    }
    assert ["heights_m"] + all == (["heights_m"] + pre) + [lab];
    JoinSnoc(["heights_m"] + pre, lab, " ");
  }

  /** One quantity's window loop: `data_to_write` starts as the heights and
      gains one column per window, `header` one label. */
  method QuantityWindows(case_: string, q: string, data: Table, plan: Plan) returns (r: Result<Saved>)
    requires |data| > 0 ==> Rectangular(data, |data[0]|)
    ensures r == ProfileOf(case_, q, data, plan)
  {
    var average := w => WindowAverage(data, plan.heights, w);
    var header := "heights_m";
    var table := ProfileTable(plan.heights, []);
    ghost var cols: seq<seq<real>> := [];
    for i := 0 to |plan.windows|
      invariant Each(plan.windows[..i], average) == Ok(cols)
      invariant header == WindowHeader(q, plan.windows[..i])
      invariant forall c :: 0 <= c < |cols| ==> |cols[c]| == |plan.heights|
      invariant table == ProfileTable(plan.heights, cols)
    {
      var avg := WindowAverage(data, plan.heights, plan.windows[i]);
      if avg.Err? {
        EachErr(plan.windows, average, i);
        return Err(avg.error);
      }
      WindowStep(data, q, plan, cols, avg.value, i);
      table := AppendColumn(table, avg.value);
      cols := cols + [avg.value];
      header := header + " " + WindowLabel(q, plan.windows[i]);
    }
    assert plan.windows[..|plan.windows|] == plan.windows;
    r := Ok(Saved(case_ + "_" + q + plan.suffix, header, table));
  }

  /** One pass of the window loop: the averages, the table and the header
      each gain the entry for window `i`. */
  lemma WindowStep(data: Table, q: string, plan: Plan, cols: seq<seq<real>>, avg: seq<real>, i: nat)
    requires |data| > 0 ==> Rectangular(data, |data[0]|)
    requires i < |plan.windows|
    requires Each(plan.windows[..i], w => WindowAverage(data, plan.heights, w)) == Ok(cols)
    requires forall c :: 0 <= c < |cols| ==> |cols[c]| == |plan.heights|
    requires WindowAverage(data, plan.heights, plan.windows[i]) == Ok(avg)
    ensures Each(plan.windows[..i + 1], w => WindowAverage(data, plan.heights, w)) == Ok(cols + [avg])
    ensures |avg| == |plan.heights|
    ensures AppendColumn(ProfileTable(plan.heights, cols), avg) == ProfileTable(plan.heights, cols + [avg])
    ensures WindowHeader(q, plan.windows[..i + 1]) == WindowHeader(q, plan.windows[..i]) + " " + WindowLabel(q, plan.windows[i])
  {
    EachSnoc(plan.windows, w => WindowAverage(data, plan.heights, w), i);
    ProfileTableSnoc(plan.heights, cols, avg);
    WindowHeaderSnoc(q, plan.windows, i);
  }

  /** `np.column_stack` of a profile table with one more column. */
  lemma ProfileTableSnoc(heights: seq<int>, cols: seq<seq<real>>, col: seq<real>)
    requires forall c :: 0 <= c < |cols| ==> |cols[c]| == |heights|
    requires |col| == |heights|
    ensures AppendColumn(ProfileTable(heights, cols), col) == ProfileTable(heights, cols + [col])
  {
    var a := AppendColumn(ProfileTable(heights, cols), col);
    var b := ProfileTable(heights, cols + [col]);
    forall j | 0 <= j < |heights| ensures a[j] == b[j] {
      assert |a[j]| == |b[j]|;
    }
  }

  // ---------------------------------------------------------------------------
  // main

  /** `main(casename, width, starttime, offset)` with the averaging files of
      the case and the set's iteration order: the first quantity's file
      fixes the plan, then every quantity is profiled under it. */
  function Profile(case_: string, files: map<string, AveragingFile>, order: seq<string>,
                   width: int, starttime: Option<int>, offset: Option<int>): (r: Result<seq<Saved>>)
    requires RectangularFiles(files)
    requires Enumerates(order, FoundQuantities(case_, files))
    ensures order == [] ==> r == Ok([])
    ensures r.Ok? && order != [] ==>
              && AveragingName(case_, order[0]) in files
              && ProfilePlan(files[AveragingName(case_, order[0])], width, starttime, offset).Ok?
              && r == Each(order, q => QuantityProfile(case_, files, q,
                                         ProfilePlan(files[AveragingName(case_, order[0])], width, starttime, offset).value))
    ensures r.Ok? ==> |r.value| == |FoundQuantities(case_, files)|
    ensures r.Ok? && order != [] ==>
              var plan := ProfilePlan(files[AveragingName(case_, order[0])], width, starttime, offset).value;
              forall q :: q in FoundQuantities(case_, files) ==>
                exists k :: 0 <= k < |r.value| && r.value[k].name == case_ + "_" + q + plan.suffix
                                               && r.value[k].header == WindowHeader(q, plan.windows)
  {
    if order == [] then Ok([])
    else
      var first := AveragingName(case_, order[0]);
      if first !in files then Err(FileNotFoundError)
      else
        match ProfilePlan(files[first], width, starttime, offset)
        case Err(e) => Err(e)
        case Ok(plan) =>
          var r := Each(order, q => QuantityProfile(case_, files, q, plan));
          if r.Ok? then QuantityProfilesFound(case_, files, order, plan, r.value); r
          else r
  }

  /** A loop over the found quantities that does not raise leaves one
      profile per found quantity, headed with its windows' labels. */
  lemma QuantityProfilesFound(case_: string, files: map<string, AveragingFile>, order: seq<string>,
                              plan: Plan, out: seq<Saved>)
    requires RectangularFiles(files) && Enumerates(order, FoundQuantities(case_, files))
    requires |out| == |order|
    requires forall k :: 0 <= k < |order| ==> QuantityProfile(case_, files, order[k], plan) == Ok(out[k])
    ensures |out| == |FoundQuantities(case_, files)|
    ensures forall q :: q in FoundQuantities(case_, files) ==>
              exists k :: 0 <= k < |out| && out[k].name == case_ + "_" + q + plan.suffix
                                         && out[k].header == WindowHeader(q, plan.windows)
  {
    EnumeratesSize(order, FoundQuantities(case_, files));
    forall q | q in FoundQuantities(case_, files)
      ensures exists k :: 0 <= k < |out| && out[k].name == case_ + "_" + q + plan.suffix
                                         && out[k].header == WindowHeader(q, plan.windows)
    {
      var k :| 0 <= k < |order| && order[k] == q;
      assert QuantityProfile(case_, files, order[k], plan) == Ok(out[k]);
    }
  }

  /** Every output of a run has the heights of the first quantity's header
      in its first column. */
  lemma HeightsFromFirstQuantity(case_: string, files: map<string, AveragingFile>, order: seq<string>,
                                 width: int, starttime: Option<int>, offset: Option<int>, k: nat, j: nat)
    requires RectangularFiles(files) && Enumerates(order, FoundQuantities(case_, files))
    requires Profile(case_, files, order, width, starttime, offset).Ok? && k < |order|
    ensures AveragingName(case_, order[0]) in files
    ensures HeaderHeights(files[AveragingName(case_, order[0])].line).Ok?
    ensures j < |Profile(case_, files, order, width, starttime, offset).value[k].table| ==>
              j < |HeaderHeights(files[AveragingName(case_, order[0])].line).value| &&
              Profile(case_, files, order, width, starttime, offset).value[k].table[j][0]
              == HeaderHeights(files[AveragingName(case_, order[0])].line).value[j] as real
  {
    var plan := ProfilePlan(files[AveragingName(case_, order[0])], width, starttime, offset).value;
    var save := q => QuantityProfile(case_, files, q, plan);
    assert save(order[k]) == Ok(Profile(case_, files, order, width, starttime, offset).value[k]);
  }

  /** The script's `main`: the first-quantity steps run once, under the
      `first_quantity` flag. */
  method ProfileMain(case_: string, files: map<string, AveragingFile>, order: seq<string>,
                     width: int, starttime: Option<int>, offset: Option<int>) returns (r: Result<seq<Saved>>)
    requires RectangularFiles(files) && Enumerates(order, FoundQuantities(case_, files))
    ensures r == Profile(case_, files, order, width, starttime, offset)
  {
    var out: seq<Saved> := [];
    var first := true;
    var plan := Plan([], [], "");
    for k := 0 to |order|
      invariant first <==> k == 0
      invariant first ==> out == []
      invariant !first ==> && AveragingName(case_, order[0]) in files
                            && ProfilePlan(files[AveragingName(case_, order[0])], width, starttime, offset) == Ok(plan)
                            && Each(order[..k], q => QuantityProfile(case_, files, q, plan)) == Ok(out)
    {
      var name := AveragingName(case_, order[k]);
      EnumeratedFound(case_, files, order, k);
      if first {
        var p := ProfilePlan(files[name], width, starttime, offset);
        if p.Err? {
          return Err(p.error);
        }
        plan := p.value;
        first := false;
        assert order[..0] == [];
      }
      ghost var save := q => QuantityProfile(case_, files, q, plan);
      var saved := QuantityWindows(case_, order[k], files[name].rows, plan);
      assert saved == save(order[k]);
      if saved.Err? {
        EachErr(order, save, k);
        return Err(saved.error);
      }
      EachSnoc(order, save, k);
      out := out + [saved.value];
    }
    if first {
      return Ok([]);
    }
    assert order[..|order|] == order;
    r := Ok(out);
  }

  // ---------------------------------------------------------------------------
  // Offset mode with a single window

  /** As written, offset mode with exactly one window raises TypeError: the
      window's times are recomputed only when there are more than one, so the
      loop subtracts the start time `None` from the times.  A file with times
      from 5 s to 600 s, width 100 and offset 600 has one window. */
  lemma SingleOffsetWindowFails()
    ensures ProfilePlan(AveragingFile("", [[5.0, 1.0], [600.0, 1.0]]), 100, None, Some(600)) == Err(TypeError)
  {
    var lim := ProfileLimits(5.0, 600.0);
    assert FloorDiv(600.0, 10.0) == 60;
    assert Mod(600.0, 10.0) == 0.0;
    assert lim.lower == 0 && lim.upper == 600;
    assert WindowCount(lim, 600) == 1;
    assert HeaderHeights("") == Ok([]);
  }

  /** The evidently intended plan: in offset mode every window, a single one
      included, is placed by the offset, and the file name follows the
      mode. */
  function IntendedPlan(file: AveragingFile, width: int, starttime: Option<int>, offset: Option<int>): (r: Result<Plan>)
    requires |file.rows| > 0 ==> Rectangular(file.rows, |file.rows[0]|)
    ensures r.Ok? && starttime.None? ==>
              && offset.Some? && offset.value != 0 && TwoDimensional(file.rows)
              && var lim := DataLimits(file.rows);
              && r.value.windows == OffsetWindows(lim.lower, offset.value, width,
                                                  if WindowCount(lim, offset.value) < 0 then 0 else WindowCount(lim, offset.value))
  {
    match HeaderHeights(file.line)
    case Err(e) => Err(e)
    case Ok(heights) =>
      var data := file.rows;
      if !TwoDimensional(data) then Err(IndexError)
      else IntendedWindows(heights, DataLimits(data), width, starttime, offset)
  }

  /** The steps of `IntendedPlan` once the heights and the limits are known. */
  function IntendedWindows(heights: seq<int>, lim: Limits, width: int, starttime: Option<int>, offset: Option<int>)
    : (r: Result<Plan>)
    ensures r.Ok? && starttime.None? ==>
              && offset.Some? && offset.value != 0
              && r.value.windows == OffsetWindows(lim.lower, offset.value, width,
                                                  if WindowCount(lim, offset.value) < 0 then 0 else WindowCount(lim, offset.value))
  {
    match starttime
    case Some(s) =>
      if s < lim.lower || s + width > lim.upper then Err(ValueError)
      else Ok(Plan(heights, [Window(s, s + width)],
                   "_timeaveraged_" + IntToString(s) + "_" + IntToString(s + width) + ".gz"))
    case None =>
      match offset
      case None => Err(TypeError)
      case Some(o) =>
        if o == 0 then Err(ZeroDivisionError)
        else
          var n := WindowCount(lim, o);
          Ok(Plan(heights, OffsetWindows(lim.lower, o, width, if n < 0 then 0 else n),
                  "_timeaveraged_w" + IntToString(width) + "_o" + IntToString(o) + ".gz"))
  }

  /** Given the limits, the two plans differ only for a single offset window. */
  lemma IntendedWindowsAgree(heights: seq<int>, lim: Limits, width: int, starttime: Option<int>, offset: Option<int>)
    ensures PlanWindows(heights, lim, width, starttime, offset).Ok? ==>
              IntendedWindows(heights, lim, width, starttime, offset) == PlanWindows(heights, lim, width, starttime, offset)
    ensures PlanWindows(heights, lim, width, starttime, offset) != IntendedWindows(heights, lim, width, starttime, offset) ==>
              && starttime.None? && PlanWindows(heights, lim, width, starttime, offset) == Err(TypeError)
              && IntendedWindows(heights, lim, width, starttime, offset).Ok?
              && IntendedWindows(heights, lim, width, starttime, offset).value.windows == [Window(lim.lower, lim.lower + width)]
  {
    if starttime.None? && offset.Some? && offset.value != 0 && WindowCount(lim, offset.value) == 1 {
      var ws := IntendedWindows(heights, lim, width, starttime, offset).value.windows;
      assert |ws| == 1 && ws[0].start == lim.lower + offset.value * 0;
    }
  }

  /** The intended plan differs from the written one only where that one
      raises TypeError for a single offset window, and there it yields that
      window, starting at the lower limit. */
  lemma IntendedPlanAgrees(file: AveragingFile, width: int, starttime: Option<int>, offset: Option<int>)
    requires |file.rows| > 0 ==> Rectangular(file.rows, |file.rows[0]|)
    ensures ProfilePlan(file, width, starttime, offset).Ok? ==>
              IntendedPlan(file, width, starttime, offset) == ProfilePlan(file, width, starttime, offset)
    ensures ProfilePlan(file, width, starttime, offset) != IntendedPlan(file, width, starttime, offset) ==>
              && starttime.None? && ProfilePlan(file, width, starttime, offset) == Err(TypeError)
              && IntendedPlan(file, width, starttime, offset).Ok?
              && IntendedPlan(file, width, starttime, offset).value.windows
                 == [Window(DataLimits(file.rows).lower, DataLimits(file.rows).lower + width)]
  {
    if HeaderHeights(file.line).Ok? && TwoDimensional(file.rows) {
      IntendedWindowsAgree(HeaderHeights(file.line).value, DataLimits(file.rows), width, starttime, offset);
    }
  }
}
