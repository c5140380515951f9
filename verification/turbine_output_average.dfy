/** `turbineOutputAverage.py`: the dt-weighted running average of every
    turbineOutput file of a case, saved under `turbineOutputAveraged`, and
    the averages at requested times written to the log.

    A turbine file (`{case}_{q}_turbine{t}.gz`) has its column 2 replaced by
    the running average of that column weighted by column 1 (dt); a blade
    file (`..._blade{b}.gz`) has every column from 2 on replaced in turn.
    The output keeps the input's header line.  With times to report, the
    rows nearest those times are looked up once, in the first file read
    (`time_idx`), and reused for every later file; after each turbine the
    values of the last file read (`data_to_report`) are logged. */
module TurbineOutputAverage {
  import opened Common
  import opened Tables
  import opened Utils
  import opened AveragingFiles
  import opened TurbineOutput
  import PrecursorStability

  /** A turbineOutput file: its first line and its rows as `np.genfromtxt`
      reads them. */
  datatype DataFile = DataFile(line: string, rows: Table)

  /** A case: whether `sowfatools/turbineOutput` exists, the stems of its
      files in directory order, their contents by file name, and the output
      files already in `turbineOutputAveraged`. */
  datatype CaseDir = CaseDir(name: string, hasOutput: bool, stems: seq<string>,
                             files: map<string, DataFile>, present: set<string>)

  /** The arguments: `times_to_report`, `blade_sample_to_report`,
      `overwrite`. */
  datatype Config = Config(times: Option<seq<real>>, bladeSample: nat, overwrite: bool)

  /** The locals that outlive one file, and what the run has produced. */
  datatype State = State(
    timeIdx: Option<seq<nat>>,    // time_idx, once assigned
    toReport: Option<seq<real>>,  // data_to_report, once assigned
    written: seq<Written>,        // the files saved, in order
    reported: seq<seq<real>>)     // the values logged after each turbine

  const Initial: State := State(None, None, [], [])

  /** One file to average: where it is read, where it is saved, and whether
      it is a blade file. */
  datatype Job = Job(input: string, output: string, blade: bool)

  function TurbineJob(case_: string, q: string, t: string): Job {
    Job(case_ + "_" + q + "_turbine" + t + ".gz", case_ + "_" + q + "_turbine" + t + "_averaged.gz", false)
  }

  function BladeJob(case_: string, q: string, t: string, b: string): Job {
    Job(case_ + "_" + q + "_turbine" + t + "_blade" + b + ".gz",
        case_ + "_" + q + "_turbine" + t + "_blade" + b + "_averaged.gz", true)
  }

  /** `writefile.exists()`: there before the run, or saved by it. */
  predicate Exists(d: CaseDir, st: State, name: string) {
    name in d.present || exists k :: 0 <= k < |st.written| && st.written[k].name == name
  }

  /** The file is skipped unread: its output exists, `overwrite` is False
      and no times are asked for. */
  predicate Skips(cfg: Config, d: CaseDir, st: State, job: Job) {
    Exists(d, st, job.output) && !cfg.overwrite && cfg.times.None?
  }

  // ---------------------------------------------------------------------------
  // Averaging the columns of one file

  /** Entry `(i, c)` once `data[:, c] = calculate_moving_average(data, c, 1)`
      has run for every `c` in `[2, hi)`. */
  function AveragedCell(data: Table, hi: nat, i: nat, c: nat): real
    requires TwoDimensional(data) && i < |data| && c < |data[0]|
    requires hi <= 2 || PrefixWeightsNonZero(Column(data, 1))
  {
    if 2 <= c < hi then RunningWeightedMean(Column(data, c), Column(data, 1), i) else data[i][c]
  }

  /** The table once columns `[2, hi)` are averaged; with no such column
      nothing is divided. */
  function Averaged(data: Table, hi: nat): (t: Table)
    requires TwoDimensional(data) && (hi <= 2 || PrefixWeightsNonZero(Column(data, 1)))
    ensures |t| == |data| && Rectangular(t, |data[0]|)
    ensures forall i, c :: 0 <= i < |data| && 0 <= c < |data[0]| ==> t[i][c] == AveragedCell(data, hi, i, c)
  {
    seq(|data|, i requires 0 <= i < |data| =>
      seq(|data[0]|, c requires 0 <= c < |data[0]| => AveragedCell(data, hi, i, c)))
  }

  /** Averaging leaves time and dt, and every column from `hi` on, as they
      were; column `c` in `[2, hi)` at row `i` becomes the dt-weighted mean of
      that column's first `i + 1` values. */
  lemma AveragedColumns(data: Table, hi: nat, i: nat, c: nat)
    requires TwoDimensional(data) && PrefixWeightsNonZero(Column(data, 1))
    requires i < |data| && c < |data[0]|
    ensures Sum(Column(data, 1)[..i + 1]) != 0.0
    ensures c < 2 || c >= hi ==> Averaged(data, hi)[i][c] == data[i][c]
    ensures 2 <= c < hi ==>
              Averaged(data, hi)[i][c]
              == Dot(Column(data, c)[..i + 1], Column(data, 1)[..i + 1]) / Sum(Column(data, 1)[..i + 1])
  {
    assert PrefixSum(Column(data, 1), i) != 0.0;
  }

  /** With positive time steps an averaged entry lies between the smallest
      and largest value its column has taken up to that row. */
  lemma AveragedBounds(data: Table, hi: nat, i: nat, c: nat, lo: real, up: real)
    requires TwoDimensional(data) && PositiveColumn(data, 1)
    requires i < |data| && 2 <= c < hi && c < |data[0]|
    requires forall k :: 0 <= k <= i ==> lo <= data[k][c] <= up
    ensures PrefixWeightsNonZero(Column(data, 1))
    ensures lo <= Averaged(data, hi)[i][c] <= up
  {
    PositiveWeights(data, 1);
    var xs, ws := Column(data, c), Column(data, 1);
    assert forall k :: 0 <= k <= i ==> ws[k] > 0.0 && lo <= xs[k] <= up by {
      forall k | 0 <= k <= i ensures ws[k] > 0.0 && lo <= xs[k] <= up {
        assert ws[k] == data[k][1] && xs[k] == data[k][c];
      }
    }
    RunningWeightedMeanBounds(xs, ws, i, lo, up);
  }

  /** The last row of an averaged column is `np.average` of the whole column
      weighted by dt. */
  lemma AveragedLast(data: Table, hi: nat, c: nat)
    requires TwoDimensional(data) && PrefixWeightsNonZero(Column(data, 1))
    requires 2 <= c < hi && c < |data[0]|
    ensures WeightedMean(Column(data, c), Column(data, 1)) == Ok(Averaged(data, hi)[|data| - 1][c])
  {
    var ws := Column(data, 1);
    assert PrefixSum(ws, |data| - 1) != 0.0;
    assert ws[..|data|] == ws;
    RunningWeightedMeanLast(Column(data, c), ws);
  }

  /** `for i in range(2, hi): data[:, i] = calculate_moving_average(data, i, 1)`,
      in place.  Column 1 is never overwritten, so each pass weights by the
      file's own dt, and column `c` is still the raw column when its pass
      reads it. */
  method AverageColumns(a: array2<real>, hi: nat)
    requires TwoDimensional(Grid(a)) && (hi <= 2 || PrefixWeightsNonZero(Column(Grid(a), 1)))
    requires 2 <= hi <= a.Length1
    modifies a
    ensures Grid(a) == Averaged(old(Grid(a)), hi)
  {
    ghost var g := Grid(a);
    for c := 2 to hi
      invariant forall i, k :: 0 <= i < a.Length0 && 0 <= k < a.Length1 ==> a[i, k] == AveragedCell(g, c, i, k)
    {
      var data := Grid(a);
      assert Column(data, 1) == Column(g, 1);
      assert Column(data, c) == Column(g, c);
      var average := MovingAverage(data, c, Some(1));
      SetColumn(a, c, average.value);
    }
    SameTable(Grid(a), Averaged(g, hi));
  }

  // ---------------------------------------------------------------------------
  // One file

  /** The column reported: 2 for a turbine file, `blade_sample_to_report`
      for a blade file. */
  function ReportColumn(cfg: Config, job: Job): nat {
    if job.blade then cfg.bladeSample else 2
  }

  /** `time_idx`, computed from this file's times when not yet assigned,
      and `data_to_report = data[time_idx, col]`; an index past the file's
      rows or columns raises IndexError. */
  function Report(cfg: Config, st: State, data: Table, col: nat): (r: Result<State>)
    requires TwoDimensional(data)
    ensures cfg.times.None? ==> r == Ok(st)
    ensures r.Ok? ==> r.value.written == st.written && r.value.reported == st.reported
    ensures r.Ok? && cfg.times.Some? ==>
              && r.value.timeIdx.Some? && r.value.toReport.Some?
              && (st.timeIdx.Some? ==> r.value.timeIdx == st.timeIdx)
              && (st.timeIdx.None? ==> r.value.timeIdx == Some(TimeIndices(data, cfg.times.value).value))
              && |r.value.toReport.value| == |r.value.timeIdx.value|
              && forall k :: 0 <= k < |r.value.timeIdx.value| ==>
                   r.value.timeIdx.value[k] < |data| && col < |data[r.value.timeIdx.value[k]]|
                   && r.value.toReport.value[k] == data[r.value.timeIdx.value[k]][col]
    ensures r.Err? ==> r.error == IndexError && cfg.times.Some?
  {
    match cfg.times
    case None => Ok(st)
    case Some(ts) =>
      assert HasColumns(data, 1) && data != [];
      var idx := if st.timeIdx.Some? then st.timeIdx.value else TimeIndices(data, ts).value;
      if col >= |data[0]| || exists k :: 0 <= k < |idx| && idx[k] >= |data| then Err(IndexError)
      else Ok(st.(timeIdx := Some(idx),
                  toReport := Some(seq(|idx|, k requires 0 <= k < |idx| => data[idx[k]][col]))))
  }

  /** The pass of one file: the skip test, `np.genfromtxt` (a missing file
      raises FileNotFoundError; a single row or column comes back
      one-dimensional and the column subscripts raise IndexError, as does
      `data[:, 2]` on a turbine file narrower than three columns), the
      header `line.removeprefix('# ').removesuffix('\n')`, the averaging,
      the save unless the output exists and `overwrite` is False, and the
      report.  Time steps whose running sum is zero stand for the nan numpy
      would divide into, and raise ZeroDivisionError here; a blade file of
      two columns has no column to average and divides nothing. */
  function FileStep(cfg: Config, d: CaseDir, st: State, job: Job): (r: Result<State>)
    ensures Skips(cfg, d, st, job) ==> r == Ok(st)
    ensures r.Ok? && !Skips(cfg, d, st, job) ==>
              job.input in d.files && TwoDimensional(d.files[job.input].rows)
              && (job.blade || |d.files[job.input].rows[0]| >= 3)
              && (|d.files[job.input].rows[0]| > 2 ==> PrefixWeightsNonZero(Column(d.files[job.input].rows, 1)))
    ensures r.Ok? ==> r.value.reported == st.reported
    ensures r.Ok? ==> st.written <= r.value.written && |r.value.written| <= |st.written| + 1
    ensures r.Ok? && r.value.written != st.written ==>
              && r.value.written[|st.written|].name == job.output
              && (!Exists(d, st, job.output) || cfg.overwrite)
    ensures r.Ok? && (!Exists(d, st, job.output) || cfg.overwrite) ==>
              var data := d.files[job.input].rows;
              && r.value.written
                 == st.written + [Written(job.output, PrecursorStability.HeaderText(d.files[job.input].line),
                                          Averaged(data, if job.blade then |data[0]| else 3))]
    ensures r.Ok? && st.timeIdx.Some? ==> r.value.timeIdx == st.timeIdx
    ensures r.Ok? && cfg.times.None? ==> r.value.timeIdx == st.timeIdx && r.value.toReport == st.toReport
  {
    if Skips(cfg, d, st, job) then Ok(st)
    else if job.input !in d.files then Err(FileNotFoundError)
    else
      var f := d.files[job.input];
      if !TwoDimensional(f.rows) || (!job.blade && |f.rows[0]| < 3) then Err(IndexError)
      else if |f.rows[0]| > 2 && !PrefixWeightsNonZero(Column(f.rows, 1)) then Err(ZeroDivisionError)
      else
        var data := Averaged(f.rows, if job.blade then |f.rows[0]| else 3);
        var saved := if !Exists(d, st, job.output) || cfg.overwrite
                     then st.(written := st.written + [Written(job.output, PrecursorStability.HeaderText(f.line), data)])
                     else st;
        Report(cfg, saved, data, ReportColumn(cfg, job))
  }

  /** With times to report no file is skipped, and the values kept for the
      log are the running averages at the indexed rows: for a turbine file
      the running mean of column 2 weighted by dt at the row nearest each
      requested time (nearest in the first file read). */
  lemma FileStepReports(cfg: Config, d: CaseDir, st: State, job: Job)
    requires cfg.times.Some? && FileStep(cfg, d, st, job).Ok?
    ensures job.input in d.files
    ensures var data := d.files[job.input].rows;
            var r := FileStep(cfg, d, st, job).value;
            var col := ReportColumn(cfg, job);
            && TwoDimensional(data) && (|data[0]| > 2 ==> PrefixWeightsNonZero(Column(data, 1)))
            && r.timeIdx.Some? && r.toReport.Some? && |r.toReport.value| == |r.timeIdx.value|
            && (st.timeIdx.None? ==> r.timeIdx == Some(TimeIndices(data, cfg.times.value).value))
            && forall k :: 0 <= k < |r.timeIdx.value| ==>
                 && r.timeIdx.value[k] < |data| && col < |data[0]|
                 && (2 <= col < (if job.blade then |data[0]| else 3) ==>
                       r.toReport.value[k]
                       == RunningWeightedMean(Column(data, col), Column(data, 1), r.timeIdx.value[k]))
  {
    var f := d.files[job.input];
    var data := Averaged(f.rows, if job.blade then |f.rows[0]| else 3);
    var saved := if !Exists(d, st, job.output) || cfg.overwrite
                 then st.(written := st.written + [Written(job.output, PrecursorStability.HeaderText(f.line), data)])
                 else st;
    assert FileStep(cfg, d, st, job) == Report(cfg, saved, data, ReportColumn(cfg, job));
    assert Column(data, 0) == Column(f.rows, 0);
    assert TimeIndices(data, cfg.times.value) == TimeIndices(f.rows, cfg.times.value);
  }

  /** One file, as the script processes it: the table is loaded into an
      array whose columns are averaged in place. */
  method AverageFile(cfg: Config, d: CaseDir, st: State, job: Job) returns (r: Result<State>)
    ensures r == FileStep(cfg, d, st, job)
  {
    if Exists(d, st, job.output) && !cfg.overwrite && cfg.times.None? {
      return Ok(st);
    }
    if job.input !in d.files {
      return Err(FileNotFoundError);
    }
    var f := d.files[job.input];
    var rows := f.rows;
    if !TwoDimensional(rows) || (!job.blade && |rows[0]| < 3) {
      return Err(IndexError);
    }
    if |rows[0]| > 2 && !PrefixWeightsNonZero(Column(rows, 1)) {
      return Err(ZeroDivisionError);
    }
    var n, w := |rows|, |rows[0]|;
    var a := new real[n, w]((i, j) requires 0 <= i < n && 0 <= j < w => rows[i][j]);
    SameTable(Grid(a), rows);
    var hi := if job.blade then w else 3;
    AverageColumns(a, hi);
    var data := Grid(a);
    var saved := st;
    if !Exists(d, st, job.output) || cfg.overwrite {
      saved := st.(written := st.written + [Written(job.output, PrecursorStability.HeaderText(f.line), data)]);
    }
    r := Report(cfg, saved, data, ReportColumn(cfg, job));
  }

  // ---------------------------------------------------------------------------
  // The loops

  /** A loop over `xs` whose passes update a state, stopping at the first
      pass that raises. */
  function Fold<X>(xs: seq<X>, st: State, step: (State, X) -> Result<State>): Result<State>
    decreases |xs|
  {
    if xs == [] then Ok(st)
    else
      match Fold(xs[..|xs| - 1], st, step)
      case Err(e) => Err(e)
      case Ok(s) => step(s, xs[|xs| - 1])
  }

  lemma FoldSnoc<X>(xs: seq<X>, st: State, step: (State, X) -> Result<State>, k: nat)
    requires k < |xs| && Fold(xs[..k], st, step).Ok?
    ensures Fold(xs[..k + 1], st, step) == step(Fold(xs[..k], st, step).value, xs[k])
  {
    assert xs[..k + 1][..k] == xs[..k];
  }

  /** The loop stops at the first pass that raises, with its error. */
  lemma {:induction false} FoldErr<X>(xs: seq<X>, st: State, step: (State, X) -> Result<State>, k: nat)
    requires k < |xs| && Fold(xs[..k], st, step).Ok? && step(Fold(xs[..k], st, step).value, xs[k]).Err?
    ensures Fold(xs, st, step) == step(Fold(xs[..k], st, step).value, xs[k])
    decreases |xs|
  {
    FoldSnoc(xs, st, step, k);
    if k + 1 < |xs| {
      var init := xs[..|xs| - 1];
      assert init[..k] == xs[..k] && init[k] == xs[k];
      FoldErr(init, st, step, k);
    } else {
      assert xs[..k + 1] == xs;
    }
  }

  /** `for blade in blades`: one file per blade. */
  function BladeStep(cfg: Config, d: CaseDir, q: string, t: string): (State, string) -> Result<State> {
    (s: State, b: string) => FileStep(cfg, d, s, BladeJob(d.name, q, t, b))
  }

  /** The log lines after a turbine: with times to report, one value of
      `data_to_report` per time.  When no file has assigned it yet (an
      unclassified quantity first, or no blades) the script raises
      NameError. */
  function LogReport(cfg: Config, st: State): (r: Result<State>)
    ensures cfg.times.None? || cfg.times.value == [] ==> r == Ok(st)
    ensures r.Ok? ==> r.value.written == st.written && r.value.timeIdx == st.timeIdx
    ensures r.Ok? && r.value != st ==>
              cfg.times.Some? && st.toReport.Some? && |cfg.times.value| <= |st.toReport.value|
              && r.value.reported == st.reported + [st.toReport.value[..|cfg.times.value|]]
    ensures r.Err? ==> cfg.times.Some? && cfg.times.value != []
    ensures r.Err? && Reporting(cfg, st) ==> r.error == NameError && st.toReport.None?
  {
    match cfg.times
    case None => Ok(st)
    case Some(ts) =>
      if ts == [] then Ok(st)
      else if st.toReport.None? then Err(NameError)
      else if |st.toReport.value| < |ts| then Err(IndexError)
      else Ok(st.(reported := st.reported + [st.toReport.value[..|ts|]]))
  }

  /** `for i, time in enumerate(times_to_report)`, logging
      `data_to_report[i]`. */
  method LogValues(cfg: Config, st: State) returns (r: Result<State>)
    ensures r == LogReport(cfg, st)
  {
    if cfg.times.None? {
      return Ok(st);
    }
    var ts := cfg.times.value;
    var logged: seq<real> := [];
    for i := 0 to |ts|
      invariant i > 0 ==> st.toReport.Some? && i <= |st.toReport.value|
      invariant logged == if i == 0 then [] else st.toReport.value[..i]
    {
      if st.toReport.None? {
        return Err(NameError);
      }
      if i >= |st.toReport.value| {
        return Err(IndexError);
      }
      logged := logged + [st.toReport.value[i]];
      assert st.toReport.value[..i + 1] == st.toReport.value[..i] + [st.toReport.value[i]];
    }
    if ts == [] {
      return Ok(st);
    }
    r := Ok(st.(reported := st.reported + [logged]));
  }

  /** One pass of `for turbine in turbines` for quantity `q`: the branch
      of its kind, then the log lines.  An unclassified quantity reads no
      file. */
  function TurbinePass(cfg: Config, d: CaseDir, blades: seq<string>, q: string, st: State, t: string): (r: Result<State>)
  {
    var files := match KindOf(q)
                 case TurbineKind => FileStep(cfg, d, st, TurbineJob(d.name, q, t))
                 case BladeKind => Fold(blades, st, BladeStep(cfg, d, q, t))
                 case OtherKind => Ok(st);
    if files.Err? then files else LogReport(cfg, files.value)
  }

  function TurbineStep(cfg: Config, d: CaseDir, blades: seq<string>, q: string): (State, string) -> Result<State> {
    (s: State, t: string) => TurbinePass(cfg, d, blades, q, s, t)
  }

  /** One pass of `for quantity in quantities`. */
  function QuantityPass(cfg: Config, d: CaseDir, names: TurbineOutputNames, st: State, q: string): Result<State> {
    Fold(names.turbines, st, TurbineStep(cfg, d, names.blades, q))
  }

  function QuantityStep(cfg: Config, d: CaseDir, names: TurbineOutputNames): (State, string) -> Result<State> {
    (s: State, q: string) => QuantityPass(cfg, d, names, s, q)
  }

  /** The fields of every stem, as `parse_turbineOutput_files` splits them. */
  function ParsedStems(stems: seq<string>): seq<seq<string>> {
    seq(|stems|, i requires 0 <= i < |stems| => StemFields(stems[i]))
  }

  /** `turbineOutputAverage(casename, times_to_report,
      blade_sample_to_report, overwrite)`: nothing when the case has no
      turbineOutput directory; otherwise every quantity, turbine and blade
      the file names list, in sorted order. */
  function Run(cfg: Config, d: CaseDir): (r: Result<State>)
    ensures !d.hasOutput ==> r == Ok(Initial)
    ensures d.hasOutput && NamesOfFields(ParsedStems(d.stems)).Err? ==> r == Err(NamesOfFields(ParsedStems(d.stems)).error)
  {
    if !d.hasOutput then Ok(Initial)
    else
      match NamesOfFields(ParsedStems(d.stems))
      case Err(e) => Err(e)
      case Ok(names) => Fold(names.quantities, Initial, QuantityStep(cfg, d, names))
  }

  // ---------------------------------------------------------------------------
  // What every run keeps

  /** The report locals match the requested times: `time_idx` and
      `data_to_report` have one entry per time, every log block has one
      value per time, and without times nothing is looked up or logged. */
  predicate Reporting(cfg: Config, s: State) {
    && (s.timeIdx.Some? ==> cfg.times.Some? && |s.timeIdx.value| == |cfg.times.value|)
    && (s.toReport.Some? ==> cfg.times.Some? && |s.toReport.value| == |cfg.times.value|)
    && (forall k :: 0 <= k < |s.reported| ==> cfg.times.Some? && |s.reported[k]| == |cfg.times.value|)
  }

  /** Unless `overwrite` is set, no file that existed is saved again and no
      file is saved twice. */
  predicate Preserving(cfg: Config, d: CaseDir, s: State) {
    !cfg.overwrite ==>
      && (forall k :: 0 <= k < |s.written| ==> s.written[k].name !in d.present)
      && (forall j, k :: 0 <= j < k < |s.written| ==> s.written[j].name != s.written[k].name)
  }

  predicate Inv(cfg: Config, d: CaseDir, s: State) {
    Reporting(cfg, s) && Preserving(cfg, d, s)
  }

  /** `b` can follow `a` in a run: the invariant carries over, `time_idx`
      once assigned never changes, and saved files and log blocks are only
      appended. */
  predicate Follows(cfg: Config, d: CaseDir, a: State, b: State) {
    && (Inv(cfg, d, a) ==> Inv(cfg, d, b))
    && (a.timeIdx.Some? ==> b.timeIdx == a.timeIdx)
    && a.written <= b.written
    && a.reported <= b.reported
  }

  lemma FollowsTrans(cfg: Config, d: CaseDir, a: State, b: State, c: State)
    requires Follows(cfg, d, a, b) && Follows(cfg, d, b, c)
    ensures Follows(cfg, d, a, c)
  {
  }

  /** Every pass of a loop whose passes follow on keeps the loop following
      on. */
  lemma {:induction false} FoldFollows<X>(cfg: Config, d: CaseDir, xs: seq<X>, st: State, step: (State, X) -> Result<State>)
    requires forall s: State, x: X :: step(s, x).Ok? ==> Follows(cfg, d, s, step(s, x).value)
    ensures Fold(xs, st, step).Ok? ==> Follows(cfg, d, st, Fold(xs, st, step).value)
    decreases |xs|
  {
    if xs != [] {
      FoldFollows(cfg, d, xs[..|xs| - 1], st, step);
      if Fold(xs, st, step).Ok? {
        var s := Fold(xs[..|xs| - 1], st, step).value;
        FollowsTrans(cfg, d, st, s, Fold(xs, st, step).value);
      }
    }
  }

  lemma FileStepFollows(cfg: Config, d: CaseDir, st: State, job: Job)
    ensures FileStep(cfg, d, st, job).Ok? ==> Follows(cfg, d, st, FileStep(cfg, d, st, job).value)
  {
    var r := FileStep(cfg, d, st, job);
    if r.Ok? && Inv(cfg, d, st) && !Skips(cfg, d, st, job) {
      var s := r.value;
      assert s.reported == st.reported;
      if cfg.times.Some? {
        FileStepReports(cfg, d, st, job);
        var data := d.files[job.input].rows;
        assert HasColumns(data, 1) && data != [];
        assert |TimeIndices(data, cfg.times.value).value| == |cfg.times.value|;
      }
      ReportingKept(cfg, st, s);
      if !cfg.overwrite && s.written != st.written {
        assert !Exists(d, st, job.output);
        forall j, k | 0 <= j < k < |s.written| ensures s.written[j].name != s.written[k].name {
          if k == |st.written| {
            assert s.written[j] == st.written[j];
          }
        }
      }
    }
  }

  /** Log blocks left alone and report locals of the right length keep
      `Reporting`. */
  lemma ReportingKept(cfg: Config, st: State, s: State)
    requires Reporting(cfg, st) && s.reported == st.reported
    requires s.timeIdx.Some? ==> cfg.times.Some? && |s.timeIdx.value| == |cfg.times.value|
    requires s.toReport.Some? ==> cfg.times.Some? && |s.toReport.value| == |cfg.times.value|
    ensures Reporting(cfg, s)
  {
  }

  lemma TurbinePassFollows(cfg: Config, d: CaseDir, blades: seq<string>, q: string, st: State, t: string)
    ensures TurbinePass(cfg, d, blades, q, st, t).Ok? ==> Follows(cfg, d, st, TurbinePass(cfg, d, blades, q, st, t).value)
  {
    var step := BladeStep(cfg, d, q, t);
    forall s: State, b: string | step(s, b).Ok? ensures Follows(cfg, d, s, step(s, b).value) {
      FileStepFollows(cfg, d, s, BladeJob(d.name, q, t, b));
    }
    FoldFollows(cfg, d, blades, st, step);
    FileStepFollows(cfg, d, st, TurbineJob(d.name, q, t));
    var files := match KindOf(q)
                 case TurbineKind => FileStep(cfg, d, st, TurbineJob(d.name, q, t))
                 case BladeKind => Fold(blades, st, step)
                 case OtherKind => Ok(st);
    if files.Ok? && LogReport(cfg, files.value).Ok? {
      LogReportFollows(cfg, d, files.value);
      FollowsTrans(cfg, d, st, files.value, LogReport(cfg, files.value).value);
    }
  }

  lemma LogReportFollows(cfg: Config, d: CaseDir, s: State)
    requires LogReport(cfg, s).Ok?
    ensures Follows(cfg, d, s, LogReport(cfg, s).value)
  {
    var r := LogReport(cfg, s).value;
    if r != s {
      assert s.reported <= r.reported;
    }
  }

  lemma QuantityPassFollows(cfg: Config, d: CaseDir, names: TurbineOutputNames, st: State, q: string)
    ensures QuantityPass(cfg, d, names, st, q).Ok? ==> Follows(cfg, d, st, QuantityPass(cfg, d, names, st, q).value)
  {
    var step := TurbineStep(cfg, d, names.blades, q);
    forall s: State, t: string | step(s, t).Ok? ensures Follows(cfg, d, s, step(s, t).value) {
      TurbinePassFollows(cfg, d, names.blades, q, s, t);
    }
    FoldFollows(cfg, d, names.turbines, st, step);
  }

  /** What a finished run guarantees: every log block holds one value per
      requested time, nothing is logged without times, and unless
      `overwrite` is set no existing output is replaced and no output is
      saved twice. */
  lemma RunKeepsInvariant(cfg: Config, d: CaseDir)
    requires Run(cfg, d).Ok?
    ensures Inv(cfg, d, Run(cfg, d).value)
    ensures cfg.times.None? ==> Run(cfg, d).value.reported == []
  {
    if d.hasOutput {
      var names := NamesOfFields(ParsedStems(d.stems)).value;
      var step := QuantityStep(cfg, d, names);
      forall s: State, q: string | step(s, q).Ok? ensures Follows(cfg, d, s, step(s, q).value) {
        QuantityPassFollows(cfg, d, names, s, q);
      }
      FoldFollows(cfg, d, names.quantities, Initial, step);
    }
    var s := Run(cfg, d).value;
    assert 0 < |s.reported| ==> cfg.times.Some? && |s.reported[0]| == |cfg.times.value|;
  }

  /** Once a file has assigned `time_idx`, every later file of the run
      reuses those rows: the step after any state holding `time_idx` keeps
      it. */
  lemma TimeIndicesKept(cfg: Config, d: CaseDir, names: TurbineOutputNames, st: State, q: string)
    requires st.timeIdx.Some? && QuantityPass(cfg, d, names, st, q).Ok?
    ensures QuantityPass(cfg, d, names, st, q).value.timeIdx == st.timeIdx
  {
    QuantityPassFollows(cfg, d, names, st, q);
  }

  /** Without times, a file whose output exists is skipped before it is
      read; with times, every file listed is read. */
  lemma SkipOnlyWithoutTimes(cfg: Config, d: CaseDir, st: State, job: Job)
    ensures Skips(cfg, d, st, job) <==> cfg.times.None? && !cfg.overwrite && Exists(d, st, job.output)
    ensures Skips(cfg, d, st, job) ==> FileStep(cfg, d, st, job) == Ok(st)
    ensures cfg.times.Some? && FileStep(cfg, d, st, job).Ok? ==> job.input in d.files
  {
  }

  // ---------------------------------------------------------------------------
  // The script's loops

  /** `for blade in blades` of one turbine. */
  method ProcessTurbine(cfg: Config, d: CaseDir, blades: seq<string>, q: string, st: State, t: string)
    returns (r: Result<State>)
    ensures r == TurbinePass(cfg, d, blades, q, st, t)
  {
    var s := st;
    match KindOf(q) {
      case TurbineKind =>
        var x := AverageFile(cfg, d, st, TurbineJob(d.name, q, t));
        if x.Err? {
          return x;
        }
        s := x.value;
      case BladeKind =>
        ghost var step := BladeStep(cfg, d, q, t);
        assert blades[..0] == [];
        for k := 0 to |blades|
          invariant Fold(blades[..k], st, step) == Ok(s)
        {
          var x := AverageFile(cfg, d, s, BladeJob(d.name, q, t, blades[k]));
          FoldSnoc(blades, st, step, k);
          if x.Err? {
            FoldErr(blades, st, step, k);
            return x;
          }
          s := x.value;
        }
        assert blades[..|blades|] == blades;
      case OtherKind =>
    }
    r := LogValues(cfg, s);
  }

  /** `for turbine in turbines` of one quantity. */
  method ProcessQuantity(cfg: Config, d: CaseDir, names: TurbineOutputNames, st: State, q: string)
    returns (r: Result<State>)
    ensures r == QuantityPass(cfg, d, names, st, q)
  {
    var turbines := names.turbines;
    ghost var step := TurbineStep(cfg, d, names.blades, q);
    var s := st;
    assert turbines[..0] == [];
    for k := 0 to |turbines|
      invariant Fold(turbines[..k], st, step) == Ok(s)
    {
      var x := ProcessTurbine(cfg, d, names.blades, q, s, turbines[k]);
      FoldSnoc(turbines, st, step, k);
      if x.Err? {
        FoldErr(turbines, st, step, k);
        return x;
      }
      s := x.value;
    }
    assert turbines[..|turbines|] == turbines;
    r := Ok(s);
  }

  /** The script's function for one case. */
  method TurbineOutputAverageCase(cfg: Config, d: CaseDir) returns (r: Result<State>)
    ensures r == Run(cfg, d)
  {
    if !d.hasOutput {
      return Ok(Initial);
    }
    var names := ParseTurbineOutputStems(d.stems);
    assert names == NamesOfFields(ParsedStems(d.stems));
    if names.Err? {
      return Err(names.error);
    }
    var quantities := names.value.quantities;
    ghost var step := QuantityStep(cfg, d, names.value);
    var s := Initial;
    assert quantities[..0] == [];
    for k := 0 to |quantities|
      invariant Fold(quantities[..k], Initial, step) == Ok(s)
    {
      var x := ProcessQuantity(cfg, d, names.value, s, quantities[k]);
      FoldSnoc(quantities, Initial, step, k);
      if x.Err? {
        FoldErr(quantities, Initial, step, k);
        return x;
      }
      s := x.value;
    }
    assert quantities[..|quantities|] == quantities;
    r := Ok(s);
  }

  /** The command line: `turbineOutputAverage(casename, args.times)` for
      each case, with the sample and overwrite defaults (27, False). */
  function CommandLine(cases: seq<CaseDir>, times: Option<seq<int>>): (r: Result<seq<State>>)
    ensures r.Ok? ==> |r.value| == |cases|
    ensures r.Ok? ==> forall k :: 0 <= k < |cases| ==> Run(Defaults(times), cases[k]) == Ok(r.value[k])
  {
    Each(cases, (c: CaseDir) => Run(Defaults(times), c))
  }

  /** The configuration of a command-line run. */
  function Defaults(times: Option<seq<int>>): (cfg: Config)
    ensures cfg.bladeSample == 27 && !cfg.overwrite
    ensures times.None? <==> cfg.times.None?
    ensures times.Some? ==>
              |cfg.times.value| == |times.value|
              && forall k :: 0 <= k < |times.value| ==> cfg.times.value[k] == times.value[k] as real
  {
    match times
    case None => Config(None, 27, false)
    case Some(ts) => Config(Some(seq(|ts|, k requires 0 <= k < |ts| => ts[k] as real)), 27, false)
  }
}
