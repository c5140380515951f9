/** `geostrophicWind.py`: the geostrophic wind a precursor run logged in
    `postProcessing/geostrophicWind/<time>/faceSource.dat.gz`, stitched over
    the time folders, with its time step, magnitude and time-weighted running
    mean, written as `{case}_geostrophicWind.gz`.

    A folder's file is given as its whitespace-separated tokens row by row
    (`None` when the file is missing); the time folders of a case come in
    numeric order.  The vector magnitude `np.linalg.norm` is the parameter
    `norm`. */
module GeostrophicWind {
  import opened Common
  import opened Strings
  import opened Tables
  import opened Utils
  import opened AveragingFiles
  import Stacking

  /** The tokens of `np.genfromtxt(fname, dtype='str')`, row by row. */
  type Tokens = seq<seq<string>>

  // ---------------------------------------------------------------------------
  // Tokens

  /** The characters of `s` are those of `Filter(s, c)` and `c`. */
  lemma {:induction false} FilterKeeps(s: string, c: char, x: char)
    ensures x in Filter(s, c) <==> x in s && x != c
  {
    if s != "" {
      FilterKeeps(s[1..], c, x);
      assert s == [s[0]] + s[1..];
    }
  }

  lemma {:induction false} FilterAbsent(s: string, c: char)
    requires c !in s
    ensures Filter(s, c) == s
  {
    if s != "" {
      FilterAbsent(s[1..], c);
      assert s == [s[0]] + s[1..];
    }
  }

  /** `val.replace('(', '').replace(')', '')`: the token with its brackets
      deleted and every other character kept in order. */
  function CleanToken(tok: string): (r: string)
    ensures r == Filter(Filter(tok, '('), ')')
    ensures '(' !in r && ')' !in r
  {
    DeleteCharKeepsOthers(tok, '(');
    DeleteCharKeepsOthers(Replace(tok, "(", ""), ')');
    FilterKeeps(tok, '(', '(');
    FilterKeeps(Filter(tok, '('), ')', '(');
    FilterKeeps(Filter(tok, '('), ')', ')');
    Replace(Replace(tok, "(", ""), ")", "")
  }

  /** A token without brackets (a time, the middle component) is kept as it
      is. */
  lemma CleanTokenPlain(tok: string)
    requires '(' !in tok && ')' !in tok
    ensures CleanToken(tok) == tok
  {
    FilterAbsent(tok, '(');
    FilterAbsent(tok, ')');
  }

  /** The tokens of a table, each cleaned. */
  function CleanTable(raw: Tokens): (r: Tokens)
    ensures |r| == |raw|
    ensures forall i :: 0 <= i < |raw| ==> |r[i]| == |raw[i]|
    ensures forall i, j :: 0 <= i < |raw| && 0 <= j < |raw[i]| ==> r[i][j] == CleanToken(raw[i][j])
  {
    seq(|raw|, i requires 0 <= i < |raw| => seq(|raw[i]|, j requires 0 <= j < |raw[i]| => CleanToken(raw[i][j])))
  }

  /** The `np.ndenumerate` loop: every element of `rawdata` rewritten in
      place, brackets deleted. */
  method CleanTokens(a: array2<string>)
    modifies a
    ensures forall i, j :: 0 <= i < a.Length0 && 0 <= j < a.Length1 ==> a[i, j] == CleanToken(old(a[i, j]))
  {
    for i := 0 to a.Length0
      invariant forall k, l :: 0 <= k < i && 0 <= l < a.Length1 ==> a[k, l] == CleanToken(old(a[k, l]))
      invariant forall k, l :: i <= k < a.Length0 && 0 <= l < a.Length1 ==> a[k, l] == old(a[k, l])
    {
      for j := 0 to a.Length1
        invariant forall k, l :: 0 <= k < i && 0 <= l < a.Length1 ==> a[k, l] == CleanToken(old(a[k, l]))
        invariant forall l :: 0 <= l < j ==> a[i, l] == CleanToken(old(a[i, l]))
        invariant forall k, l :: i <= k < a.Length0 && 0 <= l < a.Length1 && (k > i || l >= j) ==> a[k, l] == old(a[k, l])
      {
        a[i, j] := CleanToken(a[i, j]);
      }
    }
  }

  /** `rawdata.astype('float')`: every token read as a number; a token that
      is not one raises ValueError. */
  function AsFloats(raw: Tokens): (r: Result<Table>)
    ensures r.Err? <==> exists i, j :: 0 <= i < |raw| && 0 <= j < |raw[i]| && ParseFloat(raw[i][j]).None?
    ensures r.Err? ==> r.error == ValueError
    ensures r.Ok? ==> |r.value| == |raw| && forall i :: 0 <= i < |raw| ==> |r.value[i]| == |raw[i]|
    ensures r.Ok? ==> forall i, j :: 0 <= i < |raw| && 0 <= j < |raw[i]| ==> ParseFloat(raw[i][j]) == Some(r.value[i][j])
  {
    if exists i, j :: 0 <= i < |raw| && 0 <= j < |raw[i]| && ParseFloat(raw[i][j]).None? then Err(ValueError)
    else Ok(seq(|raw|, i requires 0 <= i < |raw| =>
              seq(|raw[i]|, j requires 0 <= j < |raw[i]| => ParseFloat(raw[i][j]).value)))
  }

  /** Rows of one length, as `genfromtxt` demands. */
  predicate EvenRows(raw: Tokens) {
    forall i :: 0 <= i < |raw| ==> |raw[i]| == |raw[0]|
  }

  /** One time folder's `faceSource.dat.gz` as a table: FileNotFoundError
      when it is missing, ValueError from `genfromtxt` for rows of unequal
      length, ValueError from `astype` for a token that is not a number once
      its brackets are deleted. */
  function FolderTable(file: Option<Tokens>): (r: Result<Table>)
    ensures file.None? ==> r == Err(FileNotFoundError)
    ensures file.Some? && !EvenRows(file.value) ==> r == Err(ValueError)
    ensures r.Ok? ==> file.Some? && |r.value| == |file.value| && (|r.value| > 0 ==> Rectangular(r.value, |r.value[0]|))
    ensures r.Ok? ==> forall i :: 0 <= i < |file.value| ==> |r.value[i]| == |file.value[i]|
    ensures r.Ok? ==> forall i, j :: 0 <= i < |file.value| && 0 <= j < |file.value[i]| ==>
                        ParseFloat(CleanToken(file.value[i][j])) == Some(r.value[i][j])
  {
    match file
    case None => Err(FileNotFoundError)
    case Some(raw) =>
      if !EvenRows(raw) then Err(ValueError) else AsFloats(CleanTable(raw))
  }

  /** Reading one folder: `genfromtxt` builds the token array, the
      `ndenumerate` loop cleans it in place, `astype` converts it. */
  method ReadFolder(file: Option<Tokens>) returns (r: Result<Table>)
    ensures r == FolderTable(file)
  {
    if file.None? {
      return Err(FileNotFoundError);
    }
    var raw := file.value;
    if !EvenRows(raw) {
      return Err(ValueError);
    }
    var w := if raw == [] then 0 else |raw[0]|;
    var a := new string[|raw|, w]((i, j) requires 0 <= i < |raw| && 0 <= j < w => raw[i][j]);
    CleanTokens(a);
    var cleaned := seq(|raw|, i requires 0 <= i < |raw| reads a =>
                     seq(w, j requires 0 <= j < w reads a => a[i, j]));
    assert cleaned == CleanTable(raw) by {
      forall i | 0 <= i < |raw| ensures cleaned[i] == CleanTable(raw)[i] {
        assert |raw[i]| == w;
      }
    }
    r := AsFloats(cleaned);
  }

  // ---------------------------------------------------------------------------
  // Folders

  /** The number of columns of a table (0 for one without rows). */
  function Width(t: Table): nat {
    if t == [] then 0 else |t[0]|
  }

  /** The folder loop: the first table read binds `data`, every later one
      is stacked under it with `np.vstack`, which raises ValueError when the
      widths differ.  The first folder that raises stops the loop. */
  function ReadFolders(folders: seq<Option<Tokens>>): (r: Result<Table>)
    ensures r.Ok? ==> |r.value| > 0 ==> Rectangular(r.value, |r.value[0]|)
    ensures r.Ok? ==> forall f :: 0 <= f < |folders| ==> FolderTable(folders[f]).Ok?
    decreases |folders|
  {
    if folders == [] then Ok([])
    else
      var init := folders[..|folders| - 1];
      assert forall f :: 0 <= f < |init| ==> init[f] == folders[f];
      match ReadFolders(init)
      case Err(e) => Err(e)
      case Ok(data) =>
        match FolderTable(folders[|folders| - 1])
        case Err(e) => Err(e)
        case Ok(raw) =>
          if init != [] && Width(data) != Width(raw) then Err(ValueError)
          else Ok(data + raw)
  }

  /** A folder that raises ends the loop with its error. */
  lemma {:induction false} ReadFoldersStops(folders: seq<Option<Tokens>>, k: nat)
    requires k <= |folders| && ReadFolders(folders[..k]).Err?
    ensures ReadFolders(folders) == ReadFolders(folders[..k])
    decreases |folders|
  {
    if k < |folders| {
      var init := folders[..|folders| - 1];
      assert init[..k] == folders[..k];
      ReadFoldersStops(init, k);
    } else {
      assert folders[..k] == folders;
    }
  }

  /** The case's folder loop, `'data' in locals()` as an optional table. */
  method ReadCase(folders: seq<Option<Tokens>>) returns (r: Result<Table>)
    ensures r == ReadFolders(folders)
  {
    var data: Option<Table> := None;
    for f := 0 to |folders|
      invariant f == 0 <==> data.None?
      invariant f > 0 ==> ReadFolders(folders[..f]) == Ok(data.value)
    {
      assert folders[..f + 1][..f] == folders[..f];
      var raw := ReadFolder(folders[f]);
      if raw.Err? {
        assert ReadFolders(folders[..f + 1]) == Err(raw.error);
        ReadFoldersStops(folders, f + 1);
        return Err(raw.error);
      }
      if data.None? {
        assert folders[..1][..0] == [];
        assert [] + raw.value == raw.value;
        data := Some(raw.value);
      } else {
        if Width(data.value) != Width(raw.value) {
          assert ReadFolders(folders[..f + 1]) == Err(ValueError);
          ReadFoldersStops(folders, f + 1);
          return Err(ValueError);
        }
        data := Some(data.value + raw.value);
      }
    }
    if data.None? {
      return Ok([]);
    }
    assert folders[..|folders|] == folders;
    r := Ok(data.value);
  }

  /** What `remove_overlaps` keeps of a table of equal rows: at least one
      row, of the input's width. */
  lemma StitchedShape(data: Table)
    requires Stitched(data, 0).Ok? && (|data| > 0 ==> Rectangular(data, |data[0]|))
    ensures |Stitched(data, 0).value| >= 1
    ensures Rectangular(Stitched(data, 0).value, |data[0]|) && |data[0]| >= 1
  {
    var idx := StitchedSubsequence(data, 0);
    var t := Stitched(data, 0).value;
    forall k | 0 <= k < |t| ensures |t[k]| == |data[0]| {
      assert t[k] == data[idx[k]];
    }
  }

  // ---------------------------------------------------------------------------
  // Time steps

  /** `dt[0] = t[0] - floor(t[0])` and `dt[i] = t[i] - t[i - 1]`. */
  function Dt(times: seq<real>): (dt: seq<real>)
    ensures |dt| == |times|
  {
    seq(|times|, i requires 0 <= i < |times| =>
      if i == 0 then times[0] - (times[0].Floor as real) else times[i] - times[i - 1])
  }

  /** The steps up to row `i` add up to the time from the whole second of
      the first time to the time of row `i`. */
  lemma {:induction false} DtTelescopes(times: seq<real>, i: nat)
    requires i < |times|
    ensures PrefixSum(Dt(times), i) == times[i] - (times[0].Floor as real)
  {
    SumSnoc(Dt(times), i);
    if i == 0 {
      assert Dt(times)[..0] == [];
    } else {
      DtTelescopes(times, i - 1);
    }
  }

  /** No running sum of the steps is zero exactly when no time falls on the
      whole second of the first time. */
  lemma DtWeightsNonZero(times: seq<real>)
    ensures PrefixWeightsNonZero(Dt(times)) <==>
            forall i :: 0 <= i < |times| ==> times[i] != times[0].Floor as real
  {
    forall i | 0 <= i < |times| ensures PrefixSum(Dt(times), i) == times[i] - (times[0].Floor as real) {
      DtTelescopes(times, i);
    }
  }

  /** The `dt` loop; a table without rows raises IndexError at `dt[0]`. */
  method DtColumn(times: seq<real>) returns (r: Result<seq<real>>)
    ensures times == [] ==> r == Err(IndexError)
    ensures times != [] ==> r == Ok(Dt(times))
  {
    if times == [] {
      return Err(IndexError);
    }
    var dt := new real[|times|];
    dt[0] := times[0] - (times[0].Floor as real);
    for i := 1 to |times|
      invariant forall k :: 0 <= k < i ==> dt[k] == Dt(times)[k]
    {
      dt[i] := times[i] - times[i - 1];
    }
    assert dt[..] == Dt(times);
    r := Ok(dt[..]);
  }

  /** `np.insert(t, 1, col, axis=1)`: `col` becomes column 1 and the columns
      from 1 on move one to the right. */
  function InsertColumn1(t: Table, col: seq<real>): (u: Table)
    requires |col| == |t| && HasColumns(t, 1)
    ensures |u| == |t|
    ensures forall r :: 0 <= r < |t| ==>
              |u[r]| == |t[r]| + 1 && u[r][0] == t[r][0] && u[r][1] == col[r] && u[r][2..] == t[r][1..]
  {
    seq(|t|, r requires 0 <= r < |t| => [t[r][0], col[r]] + t[r][1..])
  }

  // ---------------------------------------------------------------------------
  // One case

  /** `names`, the output columns. */
  const Names: seq<string> := ["time", "dt", "Ux", "Uy", "Uz", "Umag", "UAvg"]

  /** The table written and the final average that is logged. */
  datatype Report = Report(saved: Saved, final: real)

  /** `np.linalg.norm(data[:, 2:], axis=1)` with `dt` inserted: the norm of
      every row's velocity. */
  function Magnitudes(t: Table, norm: seq<real> -> real): (m: seq<real>)
    requires HasColumns(t, 1)
    ensures |m| == |t| && forall r :: 0 <= r < |t| ==> m[r] == norm(t[r][1..])
  {
    seq(|t|, r requires 0 <= r < |t| => norm(t[r][1..]))
  }

  /** The running mean of the magnitude weighted by `dt`, at every row. */
  function Averages(t: Table, norm: seq<real> -> real): (a: seq<real>)
    requires HasColumns(t, 1) && PrefixWeightsNonZero(Dt(Column(t, 0)))
    ensures |a| == |t|
  {
    var ws := Dt(Column(t, 0));
    var xs := Magnitudes(t, norm);
    seq(|t|, i requires 0 <= i < |t| => RunningWeightedMean(xs, ws, i))
  }

  /** The columns of a de-overlapped record: time, `dt`, the velocity, its
      magnitude and the running average of the magnitude.  Where a running
      sum of `dt` is zero numpy writes nan or inf; the model raises
      ZeroDivisionError there.  `rec.fromarrays` with the seven names raises
      ValueError unless the record had four columns. */
  function Derived(t: Table, norm: seq<real> -> real): (r: Result<Table>)
    requires |t| >= 1 && Rectangular(t, |t[0]|) && |t[0]| >= 1
    ensures r.Err? <==> !PrefixWeightsNonZero(Dt(Column(t, 0))) || |t[0]| != 4
    ensures r.Ok? ==> |r.value| == |t| && Rectangular(r.value, |Names|)
  {
    var dt := Dt(Column(t, 0));
    var u := InsertColumn1(t, dt);
    var v := AppendColumn(u, Magnitudes(t, norm));
    if !PrefixWeightsNonZero(dt) then Err(ZeroDivisionError)
    else if |t[0]| != 4 then Err(ValueError)
    else
      var w := AppendColumn(v, Averages(t, norm));
      assert forall i :: 0 <= i < |t| ==> |w[i]| == 7;
      Ok(w)
  }

  /** Each derived row holds time, `dt`, the velocity, its magnitude and
      the running average of the magnitude. */
  lemma DerivedRows(t: Table, norm: seq<real> -> real)
    requires |t| >= 1 && Rectangular(t, |t[0]|) && |t[0]| >= 1
    requires Derived(t, norm).Ok?
    ensures forall i :: 0 <= i < |t| ==>
              var row := Derived(t, norm).value[i];
              && row[0] == t[i][0] && row[1] == Dt(Column(t, 0))[i]
              && row[2..5] == t[i][1..]
              && row[5] == norm(t[i][1..])
              && row[6] == Averages(t, norm)[i]
  {
    var dt := Dt(Column(t, 0));
    var u := InsertColumn1(t, dt);
    var v := AppendColumn(u, Magnitudes(t, norm));
    var w := AppendColumn(v, Averages(t, norm));
    assert Derived(t, norm).value == w;
    forall i | 0 <= i < |t|
      ensures && w[i][0] == t[i][0] && w[i][1] == dt[i] && w[i][2..5] == t[i][1..]
              && w[i][5] == norm(t[i][1..]) && w[i][6] == Averages(t, norm)[i]
    {
      assert w[i] == u[i] + [Magnitudes(t, norm)[i]] + [Averages(t, norm)[i]];
      assert |u[i]| == 5 && u[i][2..] == t[i][1..];
    }
  }

  /** With positive steps the average column lies between the smallest and
      largest magnitude so far. */
  lemma AveragesBounds(t: Table, norm: seq<real> -> real, i: nat, lo: real, hi: real)
    requires |t| >= 1 && HasColumns(t, 1) && i < |t|
    requires forall k :: 0 <= k <= i ==> Dt(Column(t, 0))[k] > 0.0 && lo <= norm(t[k][1..]) <= hi
    ensures PrefixWeightsNonZero(Dt(Column(t, 0))) ==> lo <= Averages(t, norm)[i] <= hi
  {
    var ws := Dt(Column(t, 0));
    var xs := Magnitudes(t, norm);
    RunningWeightedMeanBounds(xs, ws, i, lo, hi);
  }

  /** The logged final value is the magnitude integrated over time, divided
      by the time since the whole second of the first time. */
  lemma FinalAverage(t: Table, norm: seq<real> -> real)
    requires |t| >= 1 && HasColumns(t, 1) && PrefixWeightsNonZero(Dt(Column(t, 0)))
    ensures t[|t| - 1][0] - (t[0][0].Floor as real) != 0.0
    ensures Averages(t, norm)[|t| - 1]
            == Dot(Magnitudes(t, norm), Dt(Column(t, 0))) / (t[|t| - 1][0] - (t[0][0].Floor as real))
  {
    var times := Column(t, 0);
    var ws := Dt(times);
    var xs := Magnitudes(t, norm);
    DtTelescopes(times, |t| - 1);
    assert xs[..|t|] == xs && ws[..|t|] == ws;
  }

  /** A case's report: the record saved as `{casename}_geostrophicWind.gz`
      under the seven column names, at least one row of seven columns, and
      the logged value the last row's running average. */
  predicate SavedReport(case_: string, rep: Report) {
    && rep.saved.name == case_ + "_geostrophicWind.gz"
    && Words(rep.saved.header) == Names
    && |rep.saved.table| >= 1 && Rectangular(rep.saved.table, |Names|)
    && rep.final == rep.saved.table[|rep.saved.table| - 1][6]
  }

  /** The processing of one case after its folders are read: the
      de-overlapped record and the derived columns. */
  function CaseOutput(case_: string, folders: seq<Option<Tokens>>, norm: seq<real> -> real): (r: Result<Report>)
    ensures ReadFolders(folders).Err? ==> r == Err(ReadFolders(folders).error)
    ensures ReadFolders(folders).Ok? && |folders| == 1 && Stacking.OneDimensional(ReadFolders(folders).value) ==>
              r == Err(IndexError)
    ensures ReadFolders(folders).Ok? && !(|folders| == 1 && Stacking.OneDimensional(ReadFolders(folders).value))
            && Stitched(ReadFolders(folders).value, 0).Err? ==>
              r == Err(Stitched(ReadFolders(folders).value, 0).error)
    ensures r.Ok? ==> SavedReport(case_, r.value)
  {
    match ReadFolders(folders)
    case Err(e) => Err(e)
    case Ok(data) => DataOutput(case_, |folders| == 1, data, norm)
  }

  /** The processing of the stacked table: a single file of one row or one
      column is read one-dimensional (IndexError), otherwise its overlaps
      are removed and the columns derived. */
  function DataOutput(case_: string, single: bool, data: Table, norm: seq<real> -> real): (r: Result<Report>)
    requires |data| > 0 ==> Rectangular(data, |data[0]|)
    ensures single && Stacking.OneDimensional(data) ==> r == Err(IndexError)
    ensures !(single && Stacking.OneDimensional(data)) && Stitched(data, 0).Err? ==> r == Err(Stitched(data, 0).error)
    ensures r.Ok? ==> SavedReport(case_, r.value)
  {
    if single && Stacking.OneDimensional(data) then Err(IndexError)
    else
      match Stitched(data, 0)
      case Err(e) => Err(e)
      case Ok(t) =>
        StitchedShape(data);
        ReportOf(case_, t, norm)
  }

  /** The report of a de-overlapped record: its derived columns saved under
      the case's name with the column names as header, and the last running
      average logged. */
  function ReportOf(case_: string, t: Table, norm: seq<real> -> real): (r: Result<Report>)
    requires |t| >= 1 && Rectangular(t, |t[0]|) && |t[0]| >= 1
    ensures r.Err? <==> Derived(t, norm).Err?
    ensures r.Ok? ==> SavedReport(case_, r.value)
  {
    match Derived(t, norm)
    case Err(e) => Err(e)
    case Ok(table) =>
      NamesAreWords();
      Ok(Report(Saved(case_ + "_geostrophicWind.gz", Join(Names, " "), table), table[|table| - 1][6]))
  }

  lemma NamesAreWords()
    ensures Words(Join(Names, " ")) == Names
  {
    assert forall k :: 0 <= k < |Names| ==> IsWord(Names[k]);
    WordsJoin(Names);
  }

  /** The script's work on one case. */
  method CaseMain(case_: string, folders: seq<Option<Tokens>>, norm: seq<real> -> real) returns (r: Result<Report>)
    ensures r == CaseOutput(case_, folders, norm)
  {
    var data := ReadCase(folders);
    if data.Err? {
      return Err(data.error);
    }
    ghost var single := |folders| == 1;
    assert CaseOutput(case_, folders, norm) == DataOutput(case_, single, data.value, norm);
    if |folders| == 1 && Stacking.OneDimensional(data.value) {
      return Err(IndexError);
    }
    var stitched := RemoveOverlaps(data.value, 0);
    if stitched.Err? {
      return Err(stitched.error);
    }
    var t := stitched.value;
    StitchedShape(data.value);
    assert DataOutput(case_, single, data.value, norm) == ReportOf(case_, t, norm);
    r := SaveReport(case_, t, norm);
  }

  /** The derived columns of the de-overlapped record, saved with the
      column names, and the last running average logged. */
  method SaveReport(case_: string, t: Table, norm: seq<real> -> real) returns (r: Result<Report>)
    requires |t| >= 1 && Rectangular(t, |t[0]|) && |t[0]| >= 1
    ensures r == ReportOf(case_, t, norm)
  {
    var table := DeriveColumns(t, norm);
    if table.Err? {
      return Err(table.error);
    }
    var rows := table.value;
    assert Derived(t, norm) == Ok(rows);
    assert |rows[|rows| - 1]| == 7;
    r := Ok(Report(Saved(case_ + "_geostrophicWind.gz", Join(Names, " "), rows), rows[|rows| - 1][6]));
  }

  /** The derived columns as the script builds them: `dt` inserted, the
      magnitude appended, then its moving average weighted by `dt`. */
  method DeriveColumns(t: Table, norm: seq<real> -> real) returns (r: Result<Table>)
    requires |t| >= 1 && Rectangular(t, |t[0]|) && |t[0]| >= 1
    ensures r == Derived(t, norm)
  {
    var dt := DtColumn(Column(t, 0));
    var u := InsertColumn1(t, dt.value);
    var umag := Magnitudes(t, norm);
    var v := AppendColumn(u, umag);
    if !PrefixWeightsNonZero(dt.value) {
      return Err(ZeroDivisionError);
    }
    ColumnAt(v, 1);
    ColumnAt(v, |v[0]| - 1);
    assert Column(v, 1) == dt.value && Column(v, |v[0]| - 1) == umag;
    var average := MovingAverage(v, |v[0]| - 1, Some(1));
    if |t[0]| != 4 {
      return Err(ValueError);
    }
    assert average.value == Averages(t, norm);
    r := Ok(AppendColumn(v, average.value));
  }

  // ---------------------------------------------------------------------------
  // Cases

  datatype Case = Case(name: string, folders: seq<Option<Tokens>>)

  /** The evidently intended `main`: every case processed on its own. */
  function Cases(cases: seq<Case>, norm: seq<real> -> real): (r: Result<seq<Report>>)
    ensures r.Ok? ==> |r.value| == |cases|
  {
    Each(cases, (c: Case) => CaseOutput(c.name, c.folders, norm))
  }

  /** Each report depends on its own case only. */
  lemma CasesIndependent(cases: seq<Case>, norm: seq<real> -> real, k: nat)
    requires Cases(cases, norm).Ok? && k < |cases|
    ensures CaseOutput(cases[k].name, cases[k].folders, norm) == Ok(Cases(cases, norm).value[k])
  {
    var run := (c: Case) => CaseOutput(c.name, c.folders, norm);
    assert run(cases[k]) == Ok(Each(cases, run).value[k]);
  }

  /** A later case as written: `data`, a local of `main`, still holds the
      previous case's output as a record array of `n` records, so `'data' in
      locals()` is true.  Its first folder, once read, is stacked under that
      array: ValueError when its width is not `n`, TypeError (no common
      dtype of records and floats) when it is.  Without folders,
      `remove_overlaps` gets the record array: IndexError at `data[1, 0]`,
      or NameError when there is no row 1. */
  function LaterCaseAsWritten(n: nat, folders: seq<Option<Tokens>>): PyError {
    if folders == [] then (if n >= 2 then IndexError else NameError)
    else
      match FolderTable(folders[0])
      case Err(e) => e
      case Ok(raw) => if Width(raw) == n then TypeError else ValueError
  }

  /** The loop of `main` as written, `run` processing one case: the first
      case is processed, the second raises. */
  function LoopAsWritten(cases: seq<Case>, run: Case -> Result<Report>): (r: Result<seq<Report>>)
    ensures |cases| >= 2 ==> r.Err?
    ensures |cases| <= 1 ==> r == Each(cases, run)
  {
    if cases == [] then Ok([])
    else
      match run(cases[0])
      case Err(e) =>
        EachErr(cases, run, 0);
        Err(e)
      case Ok(rep) =>
        if |cases| == 1 then
          assert cases[..0] == [] && Each(cases[..0], run) == Ok([]);
          EachSnoc(cases, run, 0);
          assert cases[..1] == cases && [] + [rep] == [rep];
          Ok([rep])
        else Err(LaterCaseAsWritten(|rep.saved.table|, cases[1].folders))
  }

  /** `main(casenames)` as written. */
  function CasesAsWritten(cases: seq<Case>, norm: seq<real> -> real): (r: Result<seq<Report>>)
    ensures |cases| >= 2 ==> r.Err?
    ensures |cases| <= 1 ==> r == Cases(cases, norm)
  {
    LoopAsWritten(cases, (c: Case) => CaseOutput(c.name, c.folders, norm))
  }

  /** Two cases that each process on their own: as written the loop raises
      at the second, the intended loop reports both. */
  lemma LoopSecondFails(cases: seq<Case>, run: Case -> Result<Report>)
    requires |cases| == 2 && run(cases[0]).Ok? && run(cases[1]).Ok?
    ensures LoopAsWritten(cases, run).Err?
    ensures Each(cases, run) == Ok([run(cases[0]).value, run(cases[1]).value])
  {
    assert cases[..0] == [] && Each(cases[..0], run) == Ok([]);
    EachSnoc(cases, run, 0);
    var a, b := run(cases[0]).value, run(cases[1]).value;
    assert [] + [a] == [a] && [a] + [b] == [a, b];
    EachSnoc(cases, run, 1);
    assert cases[..2] == cases;
  }

  /** The same for the script's case processing. */
  lemma SecondCaseFails(cases: seq<Case>, norm: seq<real> -> real)
    requires |cases| == 2
    requires CaseOutput(cases[0].name, cases[0].folders, norm).Ok?
    requires CaseOutput(cases[1].name, cases[1].folders, norm).Ok?
    ensures CasesAsWritten(cases, norm).Err?
    ensures Cases(cases, norm) == Ok([CaseOutput(cases[0].name, cases[0].folders, norm).value,
                                      CaseOutput(cases[1].name, cases[1].folders, norm).value])
  {
    LoopSecondFails(cases, (c: Case) => CaseOutput(c.name, c.folders, norm));
  }
}
