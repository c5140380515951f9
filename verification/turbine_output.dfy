/** `turbineOutput.py`: stitching the per-run turbineOutput files of one
    quantity into one table per turbine (or per turbine and blade), with the
    restart overlaps removed and a header built from the file's own header
    line. */
module TurbineOutput {
  import opened Common
  import opened Tables
  import opened Strings
  import Sorting
  import Utils
  import opened Stacking

  /** Quantities with one row per turbine and time. */
  const TurbineQuantities: seq<string> :=
    ["azimuth", "nacYaw", "pitch", "powerGenerator", "powerRotor", "rotSpeed",
     "rotSpeedFiltered", "thrust", "torqueGen", "torqueRotor"]

  /** Quantities with one row per turbine, blade and time, and one column per
      blade sample point. */
  const BladeQuantities: seq<string> :=
    ["alpha", "axialForce", "Cd", "Cl", "drag", "lift", "tangentialForce",
     "Vaxial", "Vmag", "Vradial", "Vtangential", "x", "y", "z"]

  datatype Kind = TurbineKind | BladeKind | OtherKind

  /** The branch a quantity takes: the turbine list is checked first. */
  function KindOf(q: string): Kind {
    if q in TurbineQuantities then TurbineKind
    else if q in BladeQuantities then BladeKind
    else OtherKind
  }

  /** One file the script writes: its name, its header line and its table. */
  datatype Written = Written(name: string, header: string, table: Table)

  // ---------------------------------------------------------------------------
  // Turbine and blade ids

  /** `np.unique(t[:, c]).astype('int')`: the distinct values of column `c`
      in ascending order, each truncated toward zero. */
  function Ids(t: Table, c: nat): (ids: seq<int>)
    requires HasColumns(t, c + 1)
    ensures forall i, j :: 0 <= i < j < |ids| ==> ids[i] <= ids[j]
    ensures forall r :: 0 <= r < |t| ==> Trunc(t[r][c]) in ids
    ensures forall k :: 0 <= k < |ids| ==> exists r :: 0 <= r < |t| && ids[k] == Trunc(t[r][c])
  {
    Sorting.RealLessIsStrictTotalOrder();
    var col := Column(t, c);
    var u := Sorting.SortedUnique(col, Sorting.RealLess);
    var ids := seq(|u|, k requires 0 <= k < |u| => Trunc(u[k]));
    assert forall i, j :: 0 <= i < j < |u| ==> u[i] < u[j] by {
      forall i, j | 0 <= i < j < |u| ensures u[i] < u[j] {
        assert Sorting.RealLess(u[i], u[j]);
      }
    }
    forall i, j | 0 <= i < j < |ids| ensures ids[i] <= ids[j] {
      TruncMonotone(u[i], u[j]);
    }
    forall r | 0 <= r < |t| ensures Trunc(t[r][c]) in ids {
      assert col[r] in Sorting.Elems(col);
      var k :| 0 <= k < |u| && u[k] == col[r];
      assert ids[k] == Trunc(t[r][c]);
    }
    forall k | 0 <= k < |ids| ensures exists r :: 0 <= r < |t| && ids[k] == Trunc(t[r][c]) {
      assert u[k] in Sorting.Elems(u);
      var r :| 0 <= r < |col| && col[r] == u[k];
      assert ids[k] == Trunc(t[r][c]);
    }
    ids
  }

  // ---------------------------------------------------------------------------
  // Header

  /** The names of a header line: `#` and the newline removed, split on four
      spaces, and each space inside a name replaced by `_`. */
  function HeaderFields(header: string): (names: seq<string>)
    ensures |names| >= 1
    ensures forall k :: 0 <= k < |names| ==> ' ' !in names[k]
  {
    var parts := Split(RemoveSuffix(RemovePrefix(header, "#"), "\n"), "    ");
    assert forall k :: 0 <= k < |parts| ==> ' ' !in Replace(parts[k], " ", "_") by {
      forall k | 0 <= k < |parts| ensures ' ' !in Replace(parts[k], " ", "_") {
        ReplaceCharRemovesIt(parts[k], ' ', "_");
      }
    }
    seq(|parts|, k requires 0 <= k < |parts| => Replace(parts[k], " ", "_"))
  }

  /** `base_0`, `base_1`, ...: one name per blade sample point (at least the
      first, which renames the last header name). */
  function SampleNames(base: string, samples: int): (names: seq<string>)
    ensures |names| == if samples < 1 then 1 else samples
    ensures forall i :: 0 <= i < |names| ==> names[i] == base + "_" + IntToString(i)
  {
    var n := if samples < 1 then 1 else samples;
    seq(n, i requires 0 <= i < n => base + "_" + IntToString(i))
  }

  /** The blade header: 'Turbine' and 'Blade' dropped and the last name
      expanded into one name per sample, where the number of samples is what
      the first data row has beyond the header's own names.  With fewer than
      three names `names[-1]` raises IndexError. */
  function BladeHeader(names: seq<string>, width: nat): (r: Result<seq<string>>)
    ensures r.Err? <==> |names| < 3
    ensures r.Ok? ==> |names| >= 3 && |r.value| >= |names| - 2
    ensures r.Ok? ==> r.value[..|names| - 3] == names[2..|names| - 1]
    ensures r.Ok? ==> r.value[|names| - 3..]
                        == SampleNames(names[|names| - 1], width - |names| + 1)
    ensures r.Ok? && width >= |names| ==> |r.value| == width - 2
  {
    if |names| < 3 then Err(IndexError)
    else Ok(names[2..|names| - 1] + SampleNames(names[|names| - 1], width - |names| + 1))
  }

  /** The last header name renamed `base_0`, then `base_1` … appended one
      by one for the remaining samples. */
  method AppendSamples(prefix: seq<string>, base: string, samples: int) returns (names: seq<string>)
    ensures names == prefix + SampleNames(base, samples)
  {
    names := prefix + [base + "_" + IntToString(0)];
    var i := 1;
    while i < samples
      invariant 1 <= i <= (if samples < 1 then 1 else samples)
      invariant names == prefix + SampleNames(base, i)
    {
      assert SampleNames(base, i + 1) == SampleNames(base, i) + [base + "_" + IntToString(i)];
      names := names + [base + "_" + IntToString(i)];
      i := i + 1;
    }
    assert SampleNames(base, i) == SampleNames(base, samples);
  }

  /** The header names of `turbineOutput`: the blade expansion, 'Turbine'
      dropped for a turbine quantity, and the names unchanged otherwise. */
  method HeaderNames(q: string, header: string, firstRow: string) returns (r: Result<seq<string>>)
    ensures KindOf(q) == BladeKind ==> r == BladeHeader(HeaderFields(header), |Words(RemoveSuffix(firstRow, "\n"))|)
    ensures KindOf(q) == TurbineKind ==> r == Ok(HeaderFields(header)[1..])
    ensures KindOf(q) == OtherKind ==> r == Ok(HeaderFields(header))
  {
    var row := Words(RemoveSuffix(firstRow, "\n"));
    var names := HeaderFields(header);
    ghost var all := names;
    if KindOf(q) == BladeKind {
      var samples := |row| - |names| + 1;
      names := if |names| >= 2 then names[2..] else [];   // names[2:]
      if |names| == 0 {
        return Err(IndexError);
      }
      var base := names[|names| - 1];
      assert base == all[|all| - 1];
      assert names[..|names| - 1] == all[2..|all| - 1];
      names := AppendSamples(names[..|names| - 1], base, samples);
    } else if KindOf(q) == TurbineKind {
      names := names[1..];
    }
    r := Ok(names);
  }

  /** A blade header has one name per data column left after the turbine and
      blade columns are removed, whenever the first row is at least as wide
      as the header. */
  lemma BladeHeaderMatchesColumns(names: seq<string>, width: nat)
    requires |names| >= 3 && width >= |names|
    ensures BladeHeader(names, width).Ok? && |BladeHeader(names, width).value| == width - 2
  {
  }

  // ---------------------------------------------------------------------------
  // Output names and the skip rule

  function TurbineFile(case_: string, q: string, t: int): string {
    case_ + "_" + q + "_turbine" + IntToString(t) + ".gz"
  }

  function BladeFile(case_: string, q: string, t: int, b: int): string {
    case_ + "_" + q + "_turbine" + IntToString(t) + "_blade" + IntToString(b) + ".gz"
  }

  /** For each turbine `t`, for each blade `b`, the name for `(t, b)`. */
  /** The (turbine, blade) pairs `for turbine in nturbines for blade in
      nblades`, in that order. */
  function Pairs(tids: seq<int>, bids: seq<int>): (r: seq<(int, int)>)
    ensures |r| == |tids| * |bids|
    decreases |tids|
  {
    if tids == [] then []
    else seq(|bids|, j requires 0 <= j < |bids| => (tids[0], bids[j])) + Pairs(tids[1..], bids)
  }

  function BladeFiles(case_: string, q: string, tids: seq<int>, bids: seq<int>): (r: seq<string>)
    ensures |r| == |Pairs(tids, bids)|
  {
    var pairs := Pairs(tids, bids);
    seq(|pairs|, k requires 0 <= k < |pairs| => BladeFile(case_, q, pairs[k].0, pairs[k].1))
  }

  /** Every (turbine, blade) pair is in the list ... */
  lemma {:induction false} PairsHas(tids: seq<int>, bids: seq<int>, i: nat, j: nat) returns (k: nat)
    requires i < |tids| && j < |bids|
    ensures k < |Pairs(tids, bids)| && Pairs(tids, bids)[k] == (tids[i], bids[j])
    decreases |tids|
  {
    var first := seq(|bids|, j requires 0 <= j < |bids| => (tids[0], bids[j]));
    assert Pairs(tids, bids) == first + Pairs(tids[1..], bids);
    if i == 0 {
      k := j;
    } else {
      var k' := PairsHas(tids[1..], bids, i - 1, j);
      assert tids[1..][i - 1] == tids[i];
      k := |bids| + k';
    }
  }

  /** ... and the list holds nothing else. */
  lemma {:induction false} PairsOnly(tids: seq<int>, bids: seq<int>, k: nat) returns (i: nat, j: nat)
    requires k < |Pairs(tids, bids)|
    ensures i < |tids| && j < |bids| && Pairs(tids, bids)[k] == (tids[i], bids[j])
    decreases |tids|
  {
    var first := seq(|bids|, j requires 0 <= j < |bids| => (tids[0], bids[j]));
    assert Pairs(tids, bids) == first + Pairs(tids[1..], bids);
    if k < |bids| {
      i, j := 0, k;
    } else {
      var i', j' := PairsOnly(tids[1..], bids, k - |bids|);
      assert tids[1..][i'] == tids[i' + 1];
      i, j := i' + 1, j';
    }
  }

  /** The files a quantity would write (`writefiles`). */
  function ExpectedFiles(case_: string, q: string, tids: seq<int>, bids: seq<int>): seq<string> {
    match KindOf(q)
    case TurbineKind => seq(|tids|, i requires 0 <= i < |tids| => TurbineFile(case_, q, tids[i]))
    case BladeKind => BladeFiles(case_, q, tids, bids)
    case OtherKind => []
  }

  /** The quantity is skipped when every expected file exists and overwrite
      is off (`all([])` is True). */
  predicate Skipped(expected: seq<string>, present: string -> bool, overwrite: bool) {
    (forall k :: 0 <= k < |expected| ==> present(expected[k])) && !overwrite
  }

  /** A quantity in neither list expects no files, so without overwrite it is
      always skipped. */
  lemma OtherQuantityAlwaysSkipped(case_: string, q: string, tids: seq<int>, bids: seq<int>,
                                   present: string -> bool)
    requires KindOf(q) == OtherKind
    ensures Skipped(ExpectedFiles(case_, q, tids, bids), present, false)
  {
  }

  /** Without overwrite a blade quantity is skipped exactly when every
      (turbine, blade) file exists. */
  lemma BladeSkipIffEveryPair(case_: string, q: string, tids: seq<int>, bids: seq<int>,
                              present: string -> bool)
    requires KindOf(q) == BladeKind
    ensures Skipped(ExpectedFiles(case_, q, tids, bids), present, false) <==>
              forall i, j :: 0 <= i < |tids| && 0 <= j < |bids| ==>
                present(BladeFile(case_, q, tids[i], bids[j]))
  {
    var names := BladeFiles(case_, q, tids, bids);
    if Skipped(ExpectedFiles(case_, q, tids, bids), present, false) {
      forall i, j | 0 <= i < |tids| && 0 <= j < |bids|
        ensures present(BladeFile(case_, q, tids[i], bids[j]))
      {
        var k := PairsHas(tids, bids, i, j);
        assert names[k] == BladeFile(case_, q, tids[i], bids[j]);
      }
    }
    if forall i, j :: 0 <= i < |tids| && 0 <= j < |bids| ==> present(BladeFile(case_, q, tids[i], bids[j])) {
      forall k | 0 <= k < |names| ensures present(names[k]) {
        var i, j := PairsOnly(tids, bids, k);
        assert names[k] == BladeFile(case_, q, tids[i], bids[j]);
      }
    }
  }

  // ---------------------------------------------------------------------------
  // Per-turbine tables

  /** `remove_overlaps` keeps the columns its input rows have. */
  lemma StitchedColumns(t: Table, c: nat, w: nat)
    requires HasColumns(t, w)
    ensures Utils.Stitched(t, c).Ok? ==> HasColumns(Utils.Stitched(t, c).value, w)
    ensures Utils.Stitched(t, c).Ok? ==> HasColumns(Utils.Stitched(t, c).value, c + 1)
  {
    if Utils.Stitched(t, c).Err? { return; }
    var idx := Utils.StitchedSubsequence(t, c);
    var r := Utils.Stitched(t, c).value;
    forall k | 0 <= k < |r| ensures |r[k]| >= w && |r[k]| >= c + 1 {
      assert r[k] == t[idx[k]];
    }
  }

  /** `remove_overlaps` returns at least one row, as wide as its input. */
  lemma StitchedShape(t: Table, c: nat)
    requires Utils.Stitched(t, c).Ok?
    ensures |Utils.Stitched(t, c).value| >= 1 && HasColumns(Utils.Stitched(t, c).value, c + 1)
  {
    var idx := Utils.StitchedSubsequence(t, c);
    StitchedColumns(t, c, c + 1);
  }

  /** The rows `remove_overlaps` keeps of `data[data[:, 0] == t]` are rows of
      `data` for turbine `t`. */
  lemma TurbineRowsFrom(data: Table, rows: Table, t: real)
    requires HasColumns(data, 1) && rows == RowsWhere(data, 0, t)
    requires Utils.Stitched(rows, 1).Ok?
    ensures |Utils.Stitched(rows, 1).value| >= 1 && HasColumns(Utils.Stitched(rows, 1).value, 1)
    ensures forall m :: 0 <= m < |Utils.Stitched(rows, 1).value| ==>
              exists i :: 0 <= i < |data| && data[i][0] == t && Utils.Stitched(rows, 1).value[m][1..] == data[i][1..]
  {
    var s := Utils.Stitched(rows, 1).value;
    var idx := Utils.StitchedSubsequence(rows, 1);
    StitchedColumns(rows, 1, 1);
    forall m | 0 <= m < |s|
      ensures exists i :: 0 <= i < |data| && data[i][0] == t && s[m][1..] == data[i][1..]
    {
      assert s[m] == rows[idx[m]];
      var i := RowsWhereFrom(data, 0, t, idx[m]);
      assert data[i][0] == t;
    }
  }

  /** The table of one turbine: its rows, de-overlapped on column 1 (time),
      without the turbine column; every row it holds is a row of `data` for
      that turbine, without the turbine column.  A turbine with fewer than two rows stops
      the script (UnboundLocalError, not caught in the turbine branch). */
  function TurbineTable(data: Table, t: int): (r: Result<Table>)
    requires HasColumns(data, 1)
    ensures |RowsWhere(data, 0, t as real)| < 2 ==> r == Err(NameError)
    ensures r.Ok? ==> |r.value| >= 1
    ensures r.Ok? ==> forall m :: 0 <= m < |r.value| ==>
              exists i :: 0 <= i < |data| && data[i][0] == t as real && r.value[m] == data[i][1..]
  {
    var rows := RowsWhere(data, 0, t as real);
    var s := Utils.Stitched(rows, 1);
    if s.Err? then Err(s.error)
    else
      TurbineRowsFrom(data, rows, t as real);
      Ok(DropColumns(s.value, 1))
  }

  /** The turbine branch for turbines `tids`, in order, stopping at the first
      exception. */
  function TurbineTables(data: Table, tids: seq<int>, case_: string, q: string, header: string): Result<seq<Written>>
    requires HasColumns(data, 1)
    decreases |tids|
  {
    if tids == [] then Ok([])
    else
      match TurbineTable(data, tids[0])
      case Err(e) => Err(e)
      case Ok(table) =>
        Prepend([Written(TurbineFile(case_, q, tids[0]), header, table)],
                TurbineTables(data, tids[1..], case_, q, header))
  }

  /** Without an exception there is one file per turbine id, holding that
      turbine's table, in the order of the ids. */
  lemma {:induction false} TurbineTablesFiles(data: Table, tids: seq<int>, case_: string, q: string, header: string)
    requires HasColumns(data, 1)
    ensures TurbineTables(data, tids, case_, q, header).Ok? ==>
              |TurbineTables(data, tids, case_, q, header).value| == |tids|
    ensures TurbineTables(data, tids, case_, q, header).Ok? ==>
              forall k :: 0 <= k < |tids| ==>
                TurbineTable(data, tids[k]).Ok? &&
                TurbineTables(data, tids, case_, q, header).value[k]
                  == Written(TurbineFile(case_, q, tids[k]), header, TurbineTable(data, tids[k]).value)
    decreases |tids|
  {
    var r := TurbineTables(data, tids, case_, q, header);
    if tids != [] && r.Ok? {
      var rest := TurbineTables(data, tids[1..], case_, q, header);
      TurbineTablesFiles(data, tids[1..], case_, q, header);
      TurbineTablesCons(data, tids, case_, q, header, TurbineTable(data, tids[0]));
      assert TurbineTable(data, tids[0]).Ok? && rest.Ok?;
      assert r.value == [Written(TurbineFile(case_, q, tids[0]), header, TurbineTable(data, tids[0]).value)] + rest.value;
      forall k | 0 <= k < |tids|
        ensures TurbineTable(data, tids[k]).Ok? &&
                r.value[k] == Written(TurbineFile(case_, q, tids[k]), header, TurbineTable(data, tids[k]).value)
      {
        if k > 0 {
          assert tids[1..][k - 1] == tids[k];
          assert r.value[k] == rest.value[k - 1];
        }
      }
    }
  }

  lemma OkPrefixShift(data: Table, tids: seq<int>, n: nat, case_: string, q: string, header: string,
                      h: Result<Table>)
    requires HasColumns(data, 1) && n < |tids| && TurbineTable(data, tids[0]) == h && h.Ok?
    requires TurbineTables(data, tids[1..][..n], case_, q, header).Ok?
    ensures TurbineTables(data, tids[..n + 1], case_, q, header).Ok?
  {
    var p := tids[..n + 1];
    assert p[0] == tids[0] && p[1..] == tids[1..][..n];
    TurbineTablesCons(data, p, case_, q, header, h);
  }

  /** One unfolding of `TurbineTables`, with the first turbine's table given. */
  lemma TurbineTablesCons(data: Table, tids: seq<int>, case_: string, q: string, header: string,
                          h: Result<Table>)
    requires HasColumns(data, 1) && tids != [] && TurbineTable(data, tids[0]) == h
    ensures TurbineTables(data, tids, case_, q, header)
              == if h.Err? then Err(h.error)
                 else Prepend([Written(TurbineFile(case_, q, tids[0]), header, h.value)],
                              TurbineTables(data, tids[1..], case_, q, header))
  {
  }

  /** With an exception, it is that of the first turbine whose table fails. */
  lemma {:induction false} TurbineTablesFirstError(data: Table, tids: seq<int>, case_: string, q: string, header: string,
                                                   e: PyError)
    returns (k: nat)
    requires HasColumns(data, 1)
    requires TurbineTables(data, tids, case_, q, header) == Err(e)
    ensures k < |tids| && TurbineTable(data, tids[k]) == Err(e)
    ensures TurbineTables(data, tids[..k], case_, q, header).Ok?
    decreases |tids|
  {
    assert tids != [];
    var h := TurbineTable(data, tids[0]);
    TurbineTablesCons(data, tids, case_, q, header, h);
    if h.Err? {
      k := 0;
    } else {
      FirstErrorLater(data, tids, case_, q, header, e, h);
      var k' := TurbineTablesFirstError(data, tids[1..], case_, q, header, e);
      assert tids[1..][k'] == tids[k' + 1];
      k := k' + 1;
      OkPrefixShift(data, tids, k', case_, q, header, h);
    }
  }

  lemma FirstErrorLater(data: Table, tids: seq<int>, case_: string, q: string, header: string,
                        e: PyError, h: Result<Table>)
    requires HasColumns(data, 1) && tids != [] && h.Ok?
    requires TurbineTables(data, tids, case_, q, header)
               == Prepend([Written(TurbineFile(case_, q, tids[0]), header, h.value)],
                          TurbineTables(data, tids[1..], case_, q, header))
    requires TurbineTables(data, tids, case_, q, header) == Err(e)
    ensures TurbineTables(data, tids[1..], case_, q, header) == Err(e)
  {
  }

  /** One turbine's table: filter, `remove_overlaps` on column 1, drop the
      turbine column. */
  method TurbineTableOf(data: Table, t: int) returns (r: Result<Table>)
    requires HasColumns(data, 1)
    ensures r == TurbineTable(data, t)
  {
    var turbineRows := RowsWhere(data, 0, t as real);
    var s := Utils.RemoveOverlaps(turbineRows, 1);
    if s.Err? {
      return Err(s.error);
    }
    TurbineRowsFrom(data, turbineRows, t as real);
    r := Ok(DropColumns(s.value, 1));     // remove the turbine column
  }

  lemma TurbineTablesStep(data: Table, tids: seq<int>, written: seq<Written>, table: Table,
                          case_: string, q: string, header: string)
    requires HasColumns(data, 1) && tids != [] && TurbineTable(data, tids[0]) == Ok(table)
    ensures Prepend(written, TurbineTables(data, tids, case_, q, header))
            == Prepend(written + [Written(TurbineFile(case_, q, tids[0]), header, table)],
                       TurbineTables(data, tids[1..], case_, q, header))
  {
    var w := Written(TurbineFile(case_, q, tids[0]), header, table);
    var rest := TurbineTables(data, tids[1..], case_, q, header);
    assert TurbineTables(data, tids, case_, q, header) == Prepend([w], rest);
    PrependPrepend(written, [w], rest);
  }

  lemma TurbineTablesStop(data: Table, tids: seq<int>, written: seq<Written>,
                          case_: string, q: string, header: string)
    requires HasColumns(data, 1) && tids != [] && TurbineTable(data, tids[0]).Err?
    ensures Prepend(written, TurbineTables(data, tids, case_, q, header))
            == Err(TurbineTable(data, tids[0]).error)
  {
  }

  /** The turbine loop of `turbineOutput`. */
  method SplitTurbines(data: Table, tids: seq<int>, case_: string, q: string, header: string)
    returns (r: Result<seq<Written>>)
    requires HasColumns(data, 1)
    ensures r == TurbineTables(data, tids, case_, q, header)
  {
    var written: seq<Written> := [];
    var rest := tids;
    PrependNothing(TurbineTables(data, tids, case_, q, header));
    while rest != []
      invariant TurbineTables(data, tids, case_, q, header)
                  == Prepend(written, TurbineTables(data, rest, case_, q, header))
      decreases |rest|
    {
      var table := TurbineTableOf(data, rest[0]);
      if table.Err? {
        TurbineTablesStop(data, rest, written, case_, q, header);
        return Err(table.error);
      }
      TurbineTablesStep(data, rest, written, table.value, case_, q, header);
      written := written + [Written(TurbineFile(case_, q, rest[0]), header, table.value)];
      rest := rest[1..];
    }
    assert TurbineTables(data, rest, case_, q, header) == Ok([]);
    assert written + [] == written;
    r := Ok(written);
  }

  lemma PrependNothing(r: Result<seq<Written>>)
    ensures Prepend([], r) == r
  {
    if r.Ok? {
      assert [] + r.value == r.value;
    }
  }

  // ---------------------------------------------------------------------------
  // Per-blade tables, as written

  /** The state the blade branch carries: the table the script calls `data`
      and the files written so far. */
  datatype BladeState = BladeState(data: Table, written: seq<Written>)

  /** The blade loop for one turbine, as written: the stitched blade rows are
      assigned to `data` (not to `bladedata`), and the file gets the
      filtered rows without overlap removal.  UnboundLocalError (fewer than
      two rows) is caught and the loop goes on. */
  function BladeLoop(st: BladeState, turbineRows: Table, t: int, bids: seq<int>,
                     case_: string, q: string, header: string): (r: Result<BladeState>)
    requires HasColumns(st.data, 2) && HasColumns(turbineRows, 2)
    ensures r.Ok? ==> HasColumns(r.value.data, 2)
    ensures r.Ok? ==> |r.value.written| == |st.written| + |bids|
    decreases |bids|
  {
    if bids == [] then Ok(st)
    else
      var bladeRows := RowsWhere(turbineRows, 1, bids[0] as real);
      var s := Utils.Stitched(bladeRows, 2);
      if s.Err? && s.error != NameError then Err(s.error)
      else
        StitchedColumns(bladeRows, 2, 2);
        var data := if s.Ok? then s.value else st.data;
        var w := Written(BladeFile(case_, q, t, bids[0]), header, DropColumns(bladeRows, 2));
        BladeLoop(BladeState(data, st.written + [w]), turbineRows, t, bids[1..], case_, q, header)
  }

  /** The blade branch over turbines `tids`; each turbine filters the current
      `data`. */
  function BladeTables(st: BladeState, tids: seq<int>, bids: seq<int>,
                       case_: string, q: string, header: string): (r: Result<BladeState>)
    requires HasColumns(st.data, 2)
    ensures r.Ok? ==> HasColumns(r.value.data, 2)
    decreases |tids|
  {
    if tids == [] then Ok(st)
    else
      var rows := RowsWhere(st.data, 0, tids[0] as real);
      match BladeLoop(st, rows, tids[0], bids, case_, q, header)
      case Err(e) => Err(e)
      case Ok(st1) => BladeTables(st1, tids[1..], bids, case_, q, header)
  }

  /** The blade loops of `turbineOutput`, with `data` reassigned inside. */
  method SplitBlades(data0: Table, tids: seq<int>, bids: seq<int>, case_: string, q: string, header: string)
    returns (r: Result<seq<Written>>)
    requires HasColumns(data0, 2)
    ensures BladeTables(BladeState(data0, []), tids, bids, case_, q, header).Err? ==>
              r == Err(BladeTables(BladeState(data0, []), tids, bids, case_, q, header).error)
    ensures BladeTables(BladeState(data0, []), tids, bids, case_, q, header).Ok? ==>
              r == Ok(BladeTables(BladeState(data0, []), tids, bids, case_, q, header).value.written)
  {
    var data := data0;
    var written: seq<Written> := [];
    assert tids[0..] == tids;
    for k := 0 to |tids|
      invariant HasColumns(data, 2)
      invariant BladeTables(BladeState(data0, []), tids, bids, case_, q, header)
                  == BladeTables(BladeState(data, written), tids[k..], bids, case_, q, header)
    {
      assert tids[k..][1..] == tids[k + 1..];
      var turbineRows := RowsWhere(data, 0, tids[k] as real);
      ghost var st0 := BladeState(data, written);
      assert bids[0..] == bids;
      for b := 0 to |bids|
        invariant HasColumns(data, 2)
        invariant BladeLoop(st0, turbineRows, tids[k], bids, case_, q, header)
                    == BladeLoop(BladeState(data, written), turbineRows, tids[k], bids[b..], case_, q, header)
      {
        assert bids[b..][1..] == bids[b + 1..];
        var bladeRows := RowsWhere(turbineRows, 1, bids[b] as real);
        var s := Utils.RemoveOverlaps(bladeRows, 2);
        StitchedColumns(bladeRows, 2, 2);
        if s.Ok? {
          data := s.value;    // the script assigns the result to `data`
        } else if s.error != NameError {
          return Err(s.error);
        }
        written := written + [Written(BladeFile(case_, q, tids[k], bids[b]), header, DropColumns(bladeRows, 2))];
      }
      assert bids[|bids|..] == [];
    }
    assert tids[|tids|..] == [];
    r := Ok(written);
  }

  // ---------------------------------------------------------------------------
  // One quantity

  /** A later folder's file stacks under a table of width `w`: it exists,
      has rows, and every row is `w` wide (`genfromtxt` raises ValueError
      for rows of unequal length, `vstack` for another width, and an empty
      file reads as an array of width 0). */
  predicate Fits(file: Option<Table>, w: nat) {
    file.Some? && file.value != [] && Rectangular(file.value, w)
  }

  /** The remaining folders stacked under `data` in folder order: the first
      folder that does not fit raises, FileNotFoundError when its file is
      missing and ValueError otherwise. */
  function StackedUnder(data: Table, rest: seq<Option<Table>>, w: nat): (r: Result<Table>)
    ensures r.Err? <==> exists f :: 0 <= f < |rest| && !Fits(rest[f], w)
    ensures r.Err? ==> exists f :: && 0 <= f < |rest| && !Fits(rest[f], w)
                                   && (forall g :: 0 <= g < f ==> Fits(rest[g], w))
                                   && r.error == (if rest[f].None? then FileNotFoundError else ValueError)
    ensures r.Ok? ==> Stacked(rest).Ok? && r.value == data + Stacked(rest).value
    ensures r.Ok? && Rectangular(data, w) ==> Rectangular(r.value, w)
    decreases |rest|
  {
    if rest == [] then Ok(data)
    else
      var init := rest[..|rest| - 1];
      assert forall f :: 0 <= f < |init| ==> init[f] == rest[f];
      match StackedUnder(data, init, w)
      case Err(e) => Err(e)
      case Ok(t) =>
        var last := rest[|rest| - 1];
        if !Fits(last, w) then Err(if last.None? then FileNotFoundError else ValueError)
        else
          assert t + last.value == data + (Stacked(init).value + last.value);
          Ok(t + last.value)
  }

  /** The loop over the remaining time folders, `np.vstack` onto the first. */
  method StackFolders(first: Table, rest: seq<Option<Table>>, w: nat) returns (r: Result<Table>)
    ensures r == StackedUnder(first, rest, w)
  {
    var data := first;
    for f := 0 to |rest|
      invariant StackedUnder(first, rest[..f], w) == Ok(data)
    {
      assert rest[..f + 1][..f] == rest[..f];
      if !Fits(rest[f], w) {
        StackedUnderStops(first, rest, w, f + 1);
        return Err(if rest[f].None? then FileNotFoundError else ValueError);
      }
      data := data + rest[f].value;
    }
    assert rest[..|rest|] == rest;
    r := Ok(data);
  }

  /** A folder that raises ends the loop with its error. */
  lemma {:induction false} StackedUnderStops(data: Table, rest: seq<Option<Table>>, w: nat, k: nat)
    requires k <= |rest| && StackedUnder(data, rest[..k], w).Err?
    ensures StackedUnder(data, rest, w) == StackedUnder(data, rest[..k], w)
    decreases |rest|
  {
    if k < |rest| {
      var init := rest[..|rest| - 1];
      assert init[..k] == rest[..k];
      StackedUnderStops(data, init, w, k);
    } else {
      assert rest[..k] == rest;
    }
  }

  /** What the stacked table of one quantity becomes: the header line
      (`' '.join(names)`) and the per-turbine or per-blade files. */
  function QuantityTables(case_: string, q: string, data: Table, tids: seq<int>, bids: seq<int>,
                          header: string, firstRow: string): Result<seq<Written>>
    requires HasColumns(data, 2)
  {
    var names := match KindOf(q)
                 case BladeKind => BladeHeader(HeaderFields(header), |Words(RemoveSuffix(firstRow, "\n"))|)
                 case TurbineKind => Ok(HeaderFields(header)[1..])
                 case OtherKind => Ok(HeaderFields(header));
    if names.Err? then Err(names.error)
    else
      var line := Join(names.value, " ");
      match KindOf(q)
      case TurbineKind => TurbineTables(data, tids, case_, q, line)
      case BladeKind =>
        (match BladeTables(BladeState(data, []), tids, bids, case_, q, line)
         case Err(e) => Err(e)
         case Ok(st) => Ok(st.written))
      case OtherKind => Ok([])
  }

  /** The header and splitting part of `turbineOutput` for one quantity. */
  method SplitQuantity(case_: string, q: string, data: Table, tids: seq<int>, bids: seq<int>,
                       header: string, firstRow: string) returns (r: Result<seq<Written>>)
    requires HasColumns(data, 2)
    ensures r == QuantityTables(case_, q, data, tids, bids, header, firstRow)
  {
    var names := HeaderNames(q, header, firstRow);
    if names.Err? {
      return Err(names.error);
    }
    var line := Join(names.value, " ");
    if KindOf(q) == TurbineKind {
      r := SplitTurbines(data, tids, case_, q, line);
    } else if KindOf(q) == BladeKind {
      r := SplitBlades(data, tids, bids, case_, q, line);
    } else {
      r := Ok([]);
    }
  }

  /** `data = np.genfromtxt(timefolders[0] / quantity)` as far as the id
      columns are concerned: no folder raises IndexError, a missing file
      FileNotFoundError, rows of unequal length ValueError, and one row or
      one column reads one-dimensional, so `data[:,0]` or `data[:,1]`
      raises IndexError. */
  function FirstTable(folders: seq<Option<Table>>): (r: Result<Table>)
    ensures r.Ok? ==> && |folders| >= 1 && folders[0] == Some(r.value)
                      && |r.value| >= 2 && |r.value[0]| >= 2 && Rectangular(r.value, |r.value[0]|)
    ensures r.Err? <==> |folders| == 0 || folders[0].None? || |folders[0].value| < 2
                        || !Rectangular(folders[0].value, |folders[0].value[0]|) || |folders[0].value[0]| < 2
  {
    if folders == [] then Err(IndexError)
    else if folders[0].None? then Err(FileNotFoundError)
    else
      var first := folders[0].value;
      if first != [] && !Rectangular(first, |first[0]|) then Err(ValueError)
      else if |first| < 2 || |first[0]| < 2 then Err(IndexError)
      else Ok(first)
  }

  /** What follows the first read: the skip decision on the ids of `first`,
      the remaining folders stacked under it, the header and the split. */
  function FromFirst(case_: string, q: string, first: Table, rest: seq<Option<Table>>,
                     header: string, firstRow: string,
                     present: string -> bool, overwrite: bool): Result<seq<Written>>
    requires |first| >= 2 && |first[0]| >= 2 && Rectangular(first, |first[0]|)
  {
    var tids := Ids(first, 0);
    var bids := Ids(first, 1);
    if Skipped(ExpectedFiles(case_, q, tids, bids), present, overwrite) then Ok([])
    else
      match StackedUnder(first, rest, |first[0]|)
      case Err(e) => Err(e)
      case Ok(data) => QuantityTables(case_, q, data, tids, bids, header, firstRow)
  }

  /** What `turbineOutput` writes for one quantity, or the exception that
      stops it.  `folders` holds the quantity's table in each time folder in
      ascending time order (None where the file is missing); `header` and
      `firstRow` are the first two lines of its file in the first folder;
      `present` says which output files already exist. */
  function QuantityOutputs(case_: string, q: string, folders: seq<Option<Table>>,
                           header: string, firstRow: string,
                           present: string -> bool, overwrite: bool): (r: Result<seq<Written>>)
    ensures folders == [] ==> r == Err(IndexError)
    ensures folders != [] && folders[0].None? ==> r == Err(FileNotFoundError)
    ensures FirstTable(folders).Ok? &&
            Skipped(ExpectedFiles(case_, q, Ids(folders[0].value, 0), Ids(folders[0].value, 1)), present, overwrite)
            ==> r == Ok([])
  {
    match FirstTable(folders)
    case Err(e) => Err(e)
    case Ok(first) => FromFirst(case_, q, first, folders[1..], header, firstRow, present, overwrite)
  }

  /** `turbineOutput` for one quantity: read the first folder, decide whether
      to skip, stack the other folders, then build the header and split. */
  method ProcessQuantity(case_: string, q: string, folders: seq<Option<Table>>,
                         header: string, firstRow: string,
                         present: string -> bool, overwrite: bool)
    returns (r: Result<seq<Written>>)
    ensures r == QuantityOutputs(case_, q, folders, header, firstRow, present, overwrite)
  {
    var first := FirstTable(folders);
    if first.Err? {
      return Err(first.error);
    }
    r := ProcessFromFirst(case_, q, first.value, folders[1..], header, firstRow, present, overwrite);
  }

  method ProcessFromFirst(case_: string, q: string, first: Table, rest: seq<Option<Table>>,
                          header: string, firstRow: string,
                          present: string -> bool, overwrite: bool)
    returns (r: Result<seq<Written>>)
    requires |first| >= 2 && |first[0]| >= 2 && Rectangular(first, |first[0]|)
    ensures r == FromFirst(case_, q, first, rest, header, firstRow, present, overwrite)
  {
    var tids := Ids(first, 0);
    var bids := Ids(first, 1);
    var writefiles := ExpectedFiles(case_, q, tids, bids);
    if Skipped(writefiles, present, overwrite) {
      return Ok([]);
    }
    var stacked := StackFolders(first, rest, |first[0]|);
    if stacked.Err? {
      return Err(stacked.error);
    }
    r := SplitQuantity(case_, q, stacked.value, tids, bids, header, firstRow);
  }

  /** A first file of one row or one column reads one-dimensional: the
      quantity raises IndexError before anything is decided. */
  lemma OneDimensionalFirst(case_: string, q: string, folders: seq<Option<Table>>,
                            header: string, firstRow: string,
                            present: string -> bool, overwrite: bool)
    requires |folders| >= 1 && folders[0].Some? && OneDimensional(folders[0].value)
    ensures QuantityOutputs(case_, q, folders, header, firstRow, present, overwrite) == Err(IndexError)
  {
  }

  /** The skip decision comes before the remaining folders are read: a
      skipped quantity writes nothing even when a later folder lacks the
      file, and a quantity that is not skipped fails on that folder when
      the folders before it stack. */
  lemma SkipBeforeStacking(case_: string, q: string, folders: seq<Option<Table>>,
                           header: string, firstRow: string,
                           present: string -> bool, overwrite: bool, f: nat)
    requires |folders| >= 1 && folders[0].Some?
    requires var first := folders[0].value; |first| >= 2 && |first[0]| >= 2 && Rectangular(first, |first[0]|)
    requires 1 <= f < |folders| && folders[f].None?
    requires forall g :: 1 <= g < f ==> Fits(folders[g], |folders[0].value[0]|)
    ensures var first := folders[0].value;
            var skipped := Skipped(ExpectedFiles(case_, q, Ids(first, 0), Ids(first, 1)), present, overwrite);
            QuantityOutputs(case_, q, folders, header, firstRow, present, overwrite)
              == if skipped then Ok([]) else Err(FileNotFoundError)
  {
    var first := folders[0].value;
    var rest := folders[1..];
    assert FirstTable(folders) == Ok(first);
    assert forall g :: 0 <= g < f - 1 ==> Fits(rest[g], |first[0]|) by {
      forall g | 0 <= g < f - 1 ensures Fits(rest[g], |first[0]|) {
        assert rest[g] == folders[g + 1];
      }
    }
    MissingAfterFirst(case_, q, first, rest, header, firstRow, present, overwrite, f - 1);
  }

  /** `SkipBeforeStacking` once the first table is read. */
  lemma MissingAfterFirst(case_: string, q: string, first: Table, rest: seq<Option<Table>>,
                          header: string, firstRow: string,
                          present: string -> bool, overwrite: bool, f: nat)
    requires |first| >= 2 && |first[0]| >= 2 && Rectangular(first, |first[0]|)
    requires f < |rest| && rest[f].None?
    requires forall g :: 0 <= g < f ==> Fits(rest[g], |first[0]|)
    ensures var skipped := Skipped(ExpectedFiles(case_, q, Ids(first, 0), Ids(first, 1)), present, overwrite);
            FromFirst(case_, q, first, rest, header, firstRow, present, overwrite)
              == if skipped then Ok([]) else Err(FileNotFoundError)
  {
    assert !Fits(rest[f], |first[0]|);
    var r := StackedUnder(first, rest, |first[0]|);
    if r.Err? {
      var e :| && 0 <= e < |rest| && !Fits(rest[e], |first[0]|)
               && (forall g :: 0 <= g < e ==> Fits(rest[g], |first[0]|))
               && r.error == (if rest[e].None? then FileNotFoundError else ValueError);
      assert e == f;
    }
  }

  /** A quantity in neither list writes nothing, whatever the overwrite flag. */
  lemma OtherQuantityWritesNothing(case_: string, q: string, folders: seq<Option<Table>>,
                                   header: string, firstRow: string,
                                   present: string -> bool, overwrite: bool)
    requires KindOf(q) == OtherKind
    ensures QuantityOutputs(case_, q, folders, header, firstRow, present, overwrite).Ok? ==>
              QuantityOutputs(case_, q, folders, header, firstRow, present, overwrite).value == []
  {
    if folders != [] && folders[0].Some? {
      var first := folders[0].value;
      if FirstTable(folders).Ok? {
        var tids, bids := Ids(first, 0), Ids(first, 1);
        var stacked := StackedUnder(first, folders[1..], |first[0]|);
        if !Skipped(ExpectedFiles(case_, q, tids, bids), present, overwrite) && stacked.Ok? {
          OtherTables(case_, q, stacked.value, tids, bids, header, firstRow);
        }
      }
    }
  }

  lemma OtherTables(case_: string, q: string, data: Table, tids: seq<int>, bids: seq<int>,
                    header: string, firstRow: string)
    requires HasColumns(data, 2) && KindOf(q) == OtherKind
    ensures QuantityTables(case_, q, data, tids, bids, header, firstRow) == Ok([])
  {
  }

  // ---------------------------------------------------------------------------
  // The blade branch's `data` reassignment

  lemma FirstTurbineRows(data: Table, t0: Table)
    requires data == [[0.0, 0.0, 1.0], [0.0, 0.0, 2.0], [1.0, 0.0, 1.0], [1.0, 0.0, 2.0]]
    requires t0 == [[0.0, 0.0, 1.0], [0.0, 0.0, 2.0]]
    ensures RowsWhere(data, 0, 0.0) == t0 && RowsWhere(t0, 1, 0.0) == t0
  {
    assert RowsWhere(data[3..], 0, 0.0) == [];
    assert RowsWhere(data[2..], 0, 0.0) == [];
    assert RowsWhere(data[1..], 0, 0.0) == [t0[1]];
    assert RowsWhere(t0[1..], 1, 0.0) == [t0[1]];
  }

  lemma FirstTurbineBlade(case_: string, q: string, data: Table, t0: Table, header: string)
    requires data == [[0.0, 0.0, 1.0], [0.0, 0.0, 2.0], [1.0, 0.0, 1.0], [1.0, 0.0, 2.0]]
    requires t0 == [[0.0, 0.0, 1.0], [0.0, 0.0, 2.0]]
    ensures HasColumns(data, 2) && HasColumns(t0, 2)
    ensures BladeLoop(BladeState(data, []), t0, 0, [0], case_, q, header)
              == Ok(BladeState(t0, [Written(BladeFile(case_, q, 0, 0), header, [[1.0], [2.0]])]))
  {
    FirstTurbineRows(data, t0);
    Utils.StitchedIncreasing(t0, 2);
    assert Utils.Stitched(RowsWhere(t0, 1, 0 as real), 2) == Ok(t0);
    var w := Written(BladeFile(case_, q, 0, 0), header, [[1.0], [2.0]]);
    assert DropColumns(t0, 2) == [[1.0], [2.0]];
    assert [] + [w] == [w];
    OneBlade(BladeState(data, []), t0, t0, 0, [0], case_, q, header);
  }

  /** The blade loop over a single blade whose stitched rows are `d`, or
      which has fewer than two rows and leaves `data` as it was. */
  lemma OneBlade(st: BladeState, turbineRows: Table, d: Table, t: int, bids: seq<int>,
                 case_: string, q: string, header: string)
    requires HasColumns(st.data, 2) && HasColumns(turbineRows, 2) && |bids| == 1
    requires var s := Utils.Stitched(RowsWhere(turbineRows, 1, bids[0] as real), 2);
             s == Ok(d) || (s == Err(NameError) && d == st.data)
    ensures BladeLoop(st, turbineRows, t, bids, case_, q, header)
            == Ok(BladeState(d, st.written + [Written(BladeFile(case_, q, t, bids[0]), header,
                                                      DropColumns(RowsWhere(turbineRows, 1, bids[0] as real), 2))]))
  {
    assert bids[1..] == [];
  }

  /** A blade loop over one blade of a turbine with no rows writes an empty
      file and leaves `data` as it was. */
  lemma AbsentTurbineBlade(st: BladeState, t: int, bids: seq<int>, case_: string, q: string, header: string)
    requires HasColumns(st.data, 2) && |bids| == 1
    ensures BladeLoop(st, [], t, bids, case_, q, header)
              == Ok(BladeState(st.data, st.written + [Written(BladeFile(case_, q, t, bids[0]), header, [])]))
  {
    assert RowsWhere([], 1, bids[0] as real) == [];
    assert Utils.Stitched([], 2) == Err(NameError);
    assert DropColumns([], 2) == [];
    assert bids[1..] == [];
  }

  lemma SecondTurbineRows(data: Table)
    requires data == [[0.0, 0.0, 1.0], [0.0, 0.0, 2.0], [1.0, 0.0, 1.0], [1.0, 0.0, 2.0]]
    ensures BladeRows(data, 1.0, 0.0) == {[1.0], [2.0]}
  {
    assert data[2][2..] == [1.0] && data[3][2..] == [2.0];
    assert data[0][0] == 0.0 && data[1][0] == 0.0;
    assert data[2][0] == 1.0 && data[3][0] == 1.0 && data[2][1] == 0.0 && data[3][1] == 0.0;
  }

  /** Two turbines with one blade each, two time rows per blade.  Turbine 0's
      blade rows are assigned to `data`, so turbine 1 finds no rows in it and
      its file is written empty although the stacked table has two rows for
      it. */
  lemma BladeDataClobbered(case_: string, q: string, header: string)
    ensures var data: Table := [[0.0, 0.0, 1.0], [0.0, 0.0, 2.0], [1.0, 0.0, 1.0], [1.0, 0.0, 2.0]];
            && BladeRows(data, 1.0, 0.0) == {[1.0], [2.0]}
            && BladeTables(BladeState(data, []), [0, 1], [0], case_, q, header)
                 == Ok(BladeState([[0.0, 0.0, 1.0], [0.0, 0.0, 2.0]],
                                  [Written(BladeFile(case_, q, 0, 0), header, [[1.0], [2.0]]),
                                   Written(BladeFile(case_, q, 1, 0), header, [])]))
  {
    var data: Table := [[0.0, 0.0, 1.0], [0.0, 0.0, 2.0], [1.0, 0.0, 1.0], [1.0, 0.0, 2.0]];
    var t0: Table := [[0.0, 0.0, 1.0], [0.0, 0.0, 2.0]];
    SecondTurbineRows(data);
    var w0 := Written(BladeFile(case_, q, 0, 0), header, [[1.0], [2.0]]);
    var w1 := Written(BladeFile(case_, q, 1, 0), header, []);
    FirstTurbineStep(case_, q, data, t0, header);
    NoSecondTurbine(t0);
    SecondTurbineStep(case_, q, t0, w0, w1, header, [1], [0]);
  }

  lemma NoSecondTurbine(t0: Table)
    requires t0 == [[0.0, 0.0, 1.0], [0.0, 0.0, 2.0]]
    ensures HasColumns(t0, 2) && RowsWhere(t0, 0, 1.0) == []
  {
    assert RowsWhere(t0[1..], 0, 1.0) == [];
  }

  lemma FirstTurbineStep(case_: string, q: string, data: Table, t0: Table, header: string)
    requires data == [[0.0, 0.0, 1.0], [0.0, 0.0, 2.0], [1.0, 0.0, 1.0], [1.0, 0.0, 2.0]]
    requires t0 == [[0.0, 0.0, 1.0], [0.0, 0.0, 2.0]]
    ensures HasColumns(data, 2) && HasColumns(t0, 2)
    ensures BladeTables(BladeState(data, []), [0, 1], [0], case_, q, header)
            == BladeTables(BladeState(t0, [Written(BladeFile(case_, q, 0, 0), header, [[1.0], [2.0]])]),
                           [1], [0], case_, q, header)
  {
    FirstTurbineRows(data, t0);
    FirstTurbineBlade(case_, q, data, t0, header);
    assert [0, 1][1..] == [1] && [0, 1][0] == 0;
  }

  lemma SecondTurbineStep(case_: string, q: string, t0: Table, w0: Written, w1: Written, header: string,
                          tids: seq<int>, bids: seq<int>)
    requires HasColumns(t0, 2) && |tids| == 1 && |bids| == 1
    requires RowsWhere(t0, 0, tids[0] as real) == []
    requires w1 == Written(BladeFile(case_, q, tids[0], bids[0]), header, [])
    ensures BladeTables(BladeState(t0, [w0]), tids, bids, case_, q, header) == Ok(BladeState(t0, [w0, w1]))
  {
    AbsentTurbineBlade(BladeState(t0, [w0]), tids[0], bids, case_, q, header);
    assert [w0] + [w1] == [w0, w1];
    LastTurbine(BladeState(t0, [w0]), BladeState(t0, [w0, w1]), tids, bids, case_, q, header);
  }

  /** The blade branch over a single turbine is its blade loop. */
  lemma LastTurbine(st: BladeState, st1: BladeState, tids: seq<int>, bids: seq<int>,
                    case_: string, q: string, header: string)
    requires HasColumns(st.data, 2) && |tids| == 1
    requires BladeLoop(st, RowsWhere(st.data, 0, tids[0] as real), tids[0], bids, case_, q, header) == Ok(st1)
    ensures BladeTables(st, tids, bids, case_, q, header) == Ok(st1)
  {
    assert tids[1..] == [];
  }

  // ---------------------------------------------------------------------------
  // Per-blade tables, as evidently intended

  /** The rows of `data` for turbine `t` and blade `b`, without those two
      columns. */
  ghost function BladeRows(data: Table, t: real, b: real): set<Row>
    requires HasColumns(data, 2)
  {
    set r | 0 <= r < |data| && data[r][0] == t && data[r][1] == b :: data[r][2..]
  }

  /** A row of `data[data[:, 0] == t][...[:, 1] == b]` is a row of `data`
      for that turbine and blade. */
  lemma RowOrigin(data: Table, turbineRows: Table, bladeRows: Table, i: nat, t: real, b: real)
    requires HasColumns(data, 2)
    requires turbineRows == RowsWhere(data, 0, t)
    requires bladeRows == RowsWhere(turbineRows, 1, b)
    requires i < |bladeRows|
    ensures bladeRows[i][2..] in BladeRows(data, t, b)
  {
    var n := RowsWhereFrom(turbineRows, 1, b, i);
    var r := RowsWhereFrom(data, 0, t, n);
    assert data[r][2..] in BladeRows(data, t, b);
  }

  lemma KeptRowsFrom(data: Table, turbineRows: Table, bladeRows: Table, kept: Table, t: real, b: real)
    requires HasColumns(data, 2)
    requires turbineRows == RowsWhere(data, 0, t)
    requires bladeRows == RowsWhere(turbineRows, 1, b)
    requires kept == bladeRows || (Utils.Stitched(bladeRows, 2).Ok? && kept == Utils.Stitched(bladeRows, 2).value)
    ensures forall k :: 0 <= k < |kept| ==> |kept[k]| >= 2 && kept[k][2..] in BladeRows(data, t, b)
  {
    var idx: seq<nat>;
    if kept == bladeRows {
      idx := Utils.Identity(|kept|);
    } else {
      idx := Utils.StitchedSubsequence(bladeRows, 2);
    }
    forall k | 0 <= k < |kept| ensures |kept[k]| >= 2 && kept[k][2..] in BladeRows(data, t, b) {
      assert kept[k] == bladeRows[idx[k]];
      RowOrigin(data, turbineRows, bladeRows, idx[k], t, b);
    }
  }

  lemma KeptRowsNonEmpty(data: Table, turbineRows: Table, bladeRows: Table, kept: Table, t: real, b: real, m: nat)
    requires HasColumns(data, 2)
    requires turbineRows == RowsWhere(data, 0, t)
    requires bladeRows == RowsWhere(turbineRows, 1, b)
    requires kept == bladeRows || (Utils.Stitched(bladeRows, 2).Ok? && kept == Utils.Stitched(bladeRows, 2).value)
    requires m < |data| && data[m][0] == t && data[m][1] == b
    ensures |kept| >= 1
  {
    var n := RowsWhereHas(data, 0, t, m);
    var k := RowsWhereHas(turbineRows, 1, b, n);
    if kept != bladeRows {
      var idx := Utils.StitchedSubsequence(bladeRows, 2);
    }
  }

  /** The evidently intended blade table: the stitched rows of turbine `t`
      and blade `b` of the full stacked table, assigned to `bladedata` and
      saved, with `data` left alone.  Every row comes from that turbine and
      blade, and the table is non-empty whenever `data` has a row for them. */
  function IntendedBladeTable(data: Table, t: int, b: int): (r: Result<Table>)
    requires HasColumns(data, 2)
    ensures r.Ok? ==> forall k :: 0 <= k < |r.value| ==> r.value[k] in BladeRows(data, t as real, b as real)
    ensures r.Ok? ==> forall m :: (0 <= m < |data| && data[m][0] == t as real && data[m][1] == b as real)
                                    ==> |r.value| >= 1
  {
    var turbineRows := RowsWhere(data, 0, t as real);
    var bladeRows := RowsWhere(turbineRows, 1, b as real);
    var s := Utils.Stitched(bladeRows, 2);
    if s.Err? && s.error != NameError then Err(s.error)
    else
      var kept := if s.Ok? then s.value else bladeRows;
      KeptRowsFrom(data, turbineRows, bladeRows, kept, t as real, b as real);
      assert forall m :: 0 <= m < |data| && data[m][0] == t as real && data[m][1] == b as real ==> |kept| >= 1 by {
        forall m | 0 <= m < |data| && data[m][0] == t as real && data[m][1] == b as real
          ensures |kept| >= 1
        {
          KeptRowsNonEmpty(data, turbineRows, bladeRows, kept, t as real, b as real, m);
        }
      }
      Ok(DropColumns(kept, 2))
  }
}
