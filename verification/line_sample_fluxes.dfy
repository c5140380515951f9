/** `turbineLineSampleFluxes`: vertical fluxes of streamwise kinetic energy
    along the transformed line samples of a case.

    The script scans the line-sample directory for names containing
    `UAvg_transformed` or (misspelt) `uuPrime2_transfomed`, collects the set
    of sample times (last `_` field of the stem) and of line names (the first
    field, or the first two when the second is `5`, as in `lineV0_5`), and
    then, for every line and time, reads the mean velocity, the velocity
    fluctuation and the Reynolds-stress tables and writes
    `[position, U U W, U U w', uu W, uu w']`. */
module LineSampleFluxes {
  import opened Common
  import opened Strings
  import opened Tables
  import Sorting

  // ---------------------------------------------------------------------------
  // Names

  /** The names the directory scan keeps. */
  predicate Scanned(name: string) {
    Contains(name, "UAvg_transformed") || Contains(name, "uuPrime2_transfomed")
  }

  datatype NameParts = NameParts(line: string, time: string)

  /** Line name and time of one scanned file; a stem with a single `_` field
      fails on `fileparts[1]` with IndexError. */
  function ParseName(name: string): (r: Result<NameParts>)
    ensures r.Err? <==> |Split(PathStem(name), "_")| < 2
    ensures r.Err? ==> r.error == IndexError
  {
    var parts := Split(PathStem(name), "_");
    if |parts| < 2 then Err(IndexError)
    else
      var line := if parts[1] == "5" then Join(parts[..2], "_") else parts[0];
      Ok(NameParts(line, Last(parts)))
  }

  /** Names made of `_`-separated fields without `_` or `.`, such as the
      `{line}_{q}_transformed_{time}` names the line-sample transform
      writes, parse back to their fields: the time is the last field and the
      line is the first field, or the first two when the second is `5`. */
  lemma ParseJoinedFields(fields: seq<string>)
    requires |fields| >= 2
    requires forall j :: 0 <= j < |fields| ==> NoChar(fields[j], '_') && NoChar(fields[j], '.')
    ensures ParseName(Join(fields, "_"))
              == Ok(NameParts(if fields[1] == "5" then fields[0] + "_5" else fields[0], fields[|fields| - 1]))
  {
    var name := Join(fields, "_");
    JoinNoChar(fields, '_', '.');
    PathStemNoDot(name);
    SplitOfJoin(fields, '_');
    assert Split(PathStem(name), "_") == fields;
    if fields[1] == "5" {
      HalfLineName(fields);
    }
  }

  lemma HalfLineName(fields: seq<string>)
    requires |fields| >= 2 && fields[1] == "5"
    ensures Join(fields[..2], "_") == fields[0] + "_5"
  {
    assert fields[..2] == [fields[0]] + ["5"];
    JoinCons(fields[0], ["5"], "_");
    assert Join(["5"], "_") == "5";
    assert fields[0] + "_" + "5" == fields[0] + "_5";
  }

  /** The sets of times and line names the scan collects. */
  datatype Found = Found(times: set<string>, lines: set<string>)

  /** The scan over the directory listing, name by name; the first scanned
      name with a single-field stem raises IndexError.  Each name adds at
      most one time and one line. */
  function Scan(names: seq<string>): (r: Result<Found>)
    ensures r.Err? ==> r.error == IndexError
    ensures r.Ok? ==> |r.value.times| <= |names| && |r.value.lines| <= |names|
    decreases |names|
  {
    if names == [] then Ok(Found({}, {}))
    else
      var last := names[|names| - 1];
      match Scan(names[..|names| - 1])
      case Err(e) => Err(e)
      case Ok(f) =>
        if !Scanned(last) then Ok(f)
        else match ParseName(last)
          case Err(e) => Err(e)
          case Ok(p) => Ok(Found(f.times + {p.time}, f.lines + {p.line}))
  }

  /** The scan fails exactly when some scanned name does not parse. */
  lemma {:induction false} ScanFails(names: seq<string>)
    ensures Scan(names).Err? <==> exists k :: 0 <= k < |names| && Scanned(names[k]) && ParseName(names[k]).Err?
    decreases |names|
  {
    if names != [] {
      var init := names[..|names| - 1];
      ScanFails(init);
      assert forall k :: 0 <= k < |init| ==> init[k] == names[k];
    }
  }

  /** The scan finds exactly the times of the scanned names. */
  lemma {:induction false} ScanTimes(names: seq<string>, t: string)
    requires Scan(names).Ok?
    ensures t in Scan(names).value.times <==>
              exists k :: 0 <= k < |names| && Scanned(names[k]) && ParseName(names[k]).Ok? && ParseName(names[k]).value.time == t
    decreases |names|
  {
    if names != [] {
      var init := names[..|names| - 1];
      ScanTimes(init, t);
      assert forall k :: 0 <= k < |init| ==> init[k] == names[k];
    }
  }

  /** The scan finds exactly the line names of the scanned names. */
  lemma {:induction false} ScanLines(names: seq<string>, l: string)
    requires Scan(names).Ok?
    ensures l in Scan(names).value.lines <==>
              exists k :: 0 <= k < |names| && Scanned(names[k]) && ParseName(names[k]).Ok? && ParseName(names[k]).value.line == l
    decreases |names|
  {
    if names != [] {
      var init := names[..|names| - 1];
      ScanLines(init, l);
      assert forall k :: 0 <= k < |init| ==> init[k] == names[k];
    }
  }

  /** The scan loop: `times.add(...)` and `linenames.add(...)` per file. */
  method ScanNames(names: seq<string>) returns (r: Result<Found>)
    ensures r == Scan(names)
  {
    var times: set<string> := {};
    var lines: set<string> := {};
    var k := 0;
    while k < |names|
      invariant k <= |names|
      invariant Scan(names[..k]) == Ok(Found(times, lines))
    {
      assert names[..k + 1][..k] == names[..k];
      if Scanned(names[k]) {
        var parts := Split(PathStem(names[k]), "_");
        if |parts| < 2 {
          assert Scan(names[..k + 1]).Err?;
          ScanErrStays(names, k + 1);
          return Err(IndexError);
        }
        times := times + {Last(parts)};
        if parts[1] == "5" {
          lines := lines + {Join(parts[..2], "_")};
        } else {
          lines := lines + {parts[0]};
        }
      }
      k := k + 1;
    }
    assert names[..k] == names;
    r := Ok(Found(times, lines));
  }

  /** Once the scan has failed on a prefix it fails on the whole listing. */
  lemma {:induction false} ScanErrStays(names: seq<string>, k: nat)
    requires k <= |names| && Scan(names[..k]).Err?
    ensures Scan(names) == Scan(names[..k])
    decreases |names| - k
  {
    if k < |names| {
      assert names[..k + 1][..k] == names[..k];
      ScanErrStays(names, k + 1);
    } else {
      assert names[..k] == names;
    }
  }

  // ---------------------------------------------------------------------------
  // Fluxes

  /** One output row: position, then U U W, U U w', uu W and uu w'. */
  function FluxRow(mean: Row, fluct: Row, stress: Row): Row
    requires |mean| >= 4 && |fluct| >= 4 && |stress| >= 2
  {
    var ke := mean[1] * mean[1];
    [mean[0], ke * mean[3], ke * fluct[3], stress[1] * mean[3], stress[1] * fluct[3]]
  }

  /** The four flux columns beside the position column.  `np.loadtxt` gives
      a one-dimensional array for a file of fewer than two rows, so
      `[:, k]` raises IndexError there, as it does on a missing column;
      tables of different lengths do not broadcast (ValueError).  The
      checks come in the order the four products are evaluated. */
  function Fluxes(mean: Table, fluct: Table, stress: Table): (r: Result<Table>)
    ensures r.Ok? <==> |mean| >= 2 && HasColumns(mean, 4) && |fluct| >= 2 && HasColumns(fluct, 4)
                       && |stress| >= 2 && HasColumns(stress, 2)
                       && |fluct| == |mean| && |stress| == |mean|
    ensures r.Ok? ==> |r.value| == |mean|
    ensures r.Ok? ==>
              forall i :: 0 <= i < |mean| ==> r.value[i] == FluxRow(mean[i], fluct[i], stress[i])
  {
    if |mean| < 2 || !HasColumns(mean, 4) then Err(IndexError)
    else if |fluct| < 2 || !HasColumns(fluct, 4) then Err(IndexError)
    else if |fluct| != |mean| then Err(ValueError)
    else if |stress| < 2 || !HasColumns(stress, 2) then Err(IndexError)
    else if |stress| != |mean| then Err(ValueError)
    else Ok(seq(|mean|, i requires 0 <= i < |mean| => FluxRow(mean[i], fluct[i], stress[i])))
  }

  /** The mean and turbulent fluxes of each quantity add up to that quantity
      carried by the total vertical velocity W + w'. */
  lemma FluxesSplitTotal(mean: Table, fluct: Table, stress: Table, i: nat)
    requires Fluxes(mean, fluct, stress).Ok? && i < |mean|
    ensures var row := Fluxes(mean, fluct, stress).value[i];
            var w := mean[i][3] + fluct[i][3];
            |row| == 5 && row[0] == mean[i][0]
            && row[1] + row[2] == mean[i][1] * mean[i][1] * w
            && row[3] + row[4] == stress[i][1] * w
  {
    var ke := mean[i][1] * mean[i][1];
    assert ke * mean[i][3] + ke * fluct[i][3] == ke * (mean[i][3] + fluct[i][3]);
    assert stress[i][1] * mean[i][3] + stress[i][1] * fluct[i][3] == stress[i][1] * (mean[i][3] + fluct[i][3]);
  }

  /** Without vertical velocity fluctuations the turbulent fluxes vanish. */
  lemma NoFluctuationNoTurbulentFlux(mean: Table, fluct: Table, stress: Table, i: nat)
    requires Fluxes(mean, fluct, stress).Ok? && i < |mean| && fluct[i][3] == 0.0
    ensures Fluxes(mean, fluct, stress).value[i][2] == 0.0
    ensures Fluxes(mean, fluct, stress).value[i][4] == 0.0
  {
  }

  // ---------------------------------------------------------------------------
  // One output file per line and time

  datatype Outcome = Skipped(name: string) | Saved(name: string, table: Table)

  function FluxFileName(line: string, time: string): string {
    line + "_fluxes_" + time + ".gz"
  }

  /** The three input names for a line and a time. */
  function MeanFile(line: string, time: string): string { line + "_UAvg_transformed_" + time }
  function FluctuationFile(line: string, time: string): string { line + "_uPrime_transformed_" + time }
  function StressFile(line: string, time: string): string { line + "_uuPrime2_transformed_" + time }

  /** The body of the inner loop: skip an existing output unless overwriting,
      else read the three tables (FileNotFoundError for a missing one) and
      compute the fluxes. */
  function FluxFile(line: string, time: string, present: set<string>, files: map<string, Table>,
                    overwrite: bool): (r: Result<Outcome>)
    ensures r.Ok? && r.value.Skipped? <==> !overwrite && FluxFileName(line, time) in present
    ensures r.Ok? ==> r.value.name == FluxFileName(line, time)
    ensures r.Ok? && r.value.Saved? ==>
              MeanFile(line, time) in files && FluctuationFile(line, time) in files && StressFile(line, time) in files &&
              Fluxes(files[MeanFile(line, time)], files[FluctuationFile(line, time)], files[StressFile(line, time)])
                == Ok(r.value.table)
  {
    var out := FluxFileName(line, time);
    if !overwrite && out in present then Ok(Skipped(out))
    else if MeanFile(line, time) !in files then Err(FileNotFoundError)
    else if FluctuationFile(line, time) !in files then Err(FileNotFoundError)
    else if StressFile(line, time) !in files then Err(FileNotFoundError)
    else
      match Fluxes(files[MeanFile(line, time)], files[FluctuationFile(line, time)], files[StressFile(line, time)])
      case Err(e) => Err(e)
      case Ok(t) => Ok(Saved(out, t))
  }

  /** `for linename in linenames: for time in times:` in the sets' iteration
      order. */
  function Grid(lines: seq<string>, times: seq<string>): (g: seq<(string, string)>)
    ensures |g| == |lines| * |times|
    ensures forall k :: 0 <= k < |g| ==> g[k].0 in lines && g[k].1 in times
    decreases |lines|
  {
    if lines == [] then []
    else seq(|times|, j requires 0 <= j < |times| => (lines[0], times[j])) + Grid(lines[1..], times)
  }

  /** Every (line, time) pair of the two sets is visited. */
  lemma {:induction false} GridHas(lines: seq<string>, times: seq<string>, i: nat, j: nat) returns (k: nat)
    requires i < |lines| && j < |times|
    ensures k < |Grid(lines, times)| && Grid(lines, times)[k] == (lines[i], times[j])
    decreases |lines|
  {
    var first := seq(|times|, j requires 0 <= j < |times| => (lines[0], times[j]));
    assert Grid(lines, times) == first + Grid(lines[1..], times);
    if i == 0 {
      k := j;
    } else {
      var k' := GridHas(lines[1..], times, i - 1, j);
      assert lines[1..][i - 1] == lines[i];
      k := |times| + k';
    }
  }

  /** The files in visiting order, stopping at the first exception: one
      outcome per pair, under that pair's output name. */
  function FluxFiles(pairs: seq<(string, string)>, present: set<string>, files: map<string, Table>,
                     overwrite: bool): (r: Result<seq<Outcome>>)
    ensures r.Ok? ==> |r.value| == |pairs|
    ensures r.Ok? ==> forall k :: 0 <= k < |pairs| ==> r.value[k].name == FluxFileName(pairs[k].0, pairs[k].1)
    decreases |pairs|
  {
    if pairs == [] then Ok([])
    else
      match FluxFile(pairs[0].0, pairs[0].1, present, files, overwrite)
      case Err(e) => Err(e)
      case Ok(o) =>
        match FluxFiles(pairs[1..], present, files, overwrite)
        case Err(e) => Err(e)
        case Ok(rest) => Ok([o] + rest)
  }

  /** Without an exception there is one outcome per visited pair, in order. */
  lemma {:induction false} FluxFilesEach(pairs: seq<(string, string)>, present: set<string>,
                                         files: map<string, Table>, overwrite: bool)
    requires FluxFiles(pairs, present, files, overwrite).Ok?
    ensures |FluxFiles(pairs, present, files, overwrite).value| == |pairs|
    ensures forall k :: 0 <= k < |pairs| ==>
              FluxFile(pairs[k].0, pairs[k].1, present, files, overwrite)
                == Ok(FluxFiles(pairs, present, files, overwrite).value[k])
    decreases |pairs|
  {
    if pairs != [] {
      FluxFilesEach(pairs[1..], present, files, overwrite);
      var r := FluxFiles(pairs, present, files, overwrite).value;
      var rest := FluxFiles(pairs[1..], present, files, overwrite).value;
      assert r == [r[0]] + rest;
      forall k | 0 <= k < |pairs|
        ensures FluxFile(pairs[k].0, pairs[k].1, present, files, overwrite) == Ok(r[k])
      {
        if k > 0 {
          assert pairs[k] == pairs[1..][k - 1];
        }
      }
    }
  }

  /** `turbineLineSampleFluxes`: nothing when the case directory or the
      line-sample directory is missing; otherwise the scan and the files.
      `lineOrder` and `timeOrder` are the iteration orders of the two sets,
      each element once. */
  function LineSampleFluxes(caseExists: bool, dirExists: bool, names: seq<string>,
                            lineOrder: seq<string>, timeOrder: seq<string>,
                            present: set<string>, files: map<string, Table>, overwrite: bool)
    : (r: Result<seq<Outcome>>)
    requires Scan(names).Ok? ==> Sorting.Elems(lineOrder) == Scan(names).value.lines
                                  && Sorting.Elems(timeOrder) == Scan(names).value.times
                                  && |lineOrder| == |Scan(names).value.lines|
                                  && |timeOrder| == |Scan(names).value.times|
    ensures !caseExists || !dirExists ==> r == Ok([])
    ensures caseExists && dirExists && Scan(names).Err? ==> r == Err(IndexError)
    ensures r.Ok? && caseExists && dirExists ==>
              && Scan(names).Ok?
              && |r.value| == |lineOrder| * |timeOrder|
              && |r.value| == |Scan(names).value.lines| * |Scan(names).value.times|
              && forall k :: 0 <= k < |r.value| ==>
                   exists l, t :: l in Scan(names).value.lines && t in Scan(names).value.times
                                  && r.value[k].name == FluxFileName(l, t)
  {
    if !caseExists || !dirExists then Ok([])
    else
      match Scan(names)
      case Err(e) => Err(e)
      case Ok(found) =>
        var pairs := Grid(lineOrder, timeOrder);
        var r := FluxFiles(pairs, present, files, overwrite);
        assert r.Ok? ==> forall k :: 0 <= k < |r.value| ==>
                 exists l, t :: l in found.lines && t in found.times && r.value[k].name == FluxFileName(l, t) by {
          if r.Ok? {
            forall k | 0 <= k < |r.value|
              ensures exists l, t :: l in found.lines && t in found.times && r.value[k].name == FluxFileName(l, t)
            {
              assert pairs[k].0 in Sorting.Elems(lineOrder) && pairs[k].1 in Sorting.Elems(timeOrder);
              assert r.value[k].name == FluxFileName(pairs[k].0, pairs[k].1);
            }
          }
        }
        r
  }

  /** Every scanned line and time gets its output name in a successful run. */
  lemma EveryLineAndTime(names: seq<string>, lineOrder: seq<string>, timeOrder: seq<string>,
                         present: set<string>, files: map<string, Table>, overwrite: bool,
                         line: string, time: string)
    requires Scan(names).Ok?
    requires Sorting.Elems(lineOrder) == Scan(names).value.lines
    requires Sorting.Elems(timeOrder) == Scan(names).value.times
    requires |lineOrder| == |Scan(names).value.lines| && |timeOrder| == |Scan(names).value.times|
    requires line in Scan(names).value.lines && time in Scan(names).value.times
    requires LineSampleFluxes(true, true, names, lineOrder, timeOrder, present, files, overwrite).Ok?
    ensures exists o :: o in LineSampleFluxes(true, true, names, lineOrder, timeOrder, present, files, overwrite).value
                        && o.name == FluxFileName(line, time)
  {
    assert line in Sorting.Elems(lineOrder) && time in Sorting.Elems(timeOrder);
    var i :| 0 <= i < |lineOrder| && lineOrder[i] == line;
    var j :| 0 <= j < |timeOrder| && timeOrder[j] == time;
    var pairs := Grid(lineOrder, timeOrder);
    var k := GridHas(lineOrder, timeOrder, i, j);
    FluxFilesEach(pairs, present, files, overwrite);
    var outs := FluxFiles(pairs, present, files, overwrite).value;
    assert outs[k] in outs;
  }
}
