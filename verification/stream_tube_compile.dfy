/** `turbineStreamTubeSliceIntegrated`: one table per turbine of the
    area-integrated velocities of the stream-tube slices.

    The slice files are named `{case}_streamTube_{side}Turbine_slice_{x}D_integrated.csv`,
    where `x` is a whole number of rotor diameters or, for half diameters,
    two fields such as `0_5`.  The files are ordered by that distance, and
    each contributes the row `[distance, value 3, value 0]` to the table of
    the upstream turbine, of the downstream turbine, or both, by the words
    in its name. */
module StreamTubeCompile {
  import opened Common
  import opened Strings
  import opened Tables
  import Sorting

  /** The names a directory scan of the stream-tube scripts keeps: the
      integrated slices here, the slice polygons (`D.csv`) for the mesh. */
  predicate IsSliceFile(case_: string, suffix: string, name: string) {
    StartsWith(name, case_ + "_streamTube") && EndsWith(name, suffix)
  }

  const Integrated := "D_integrated.csv"

  /** The kept names, in listing order. */
  function SliceFiles(case_: string, suffix: string, names: seq<string>): (r: seq<string>)
    ensures forall k :: 0 <= k < |r| ==> IsSliceFile(case_, suffix, r[k]) && r[k] in names
    ensures forall n :: n in names && IsSliceFile(case_, suffix, n) ==> n in r
  {
    if names == [] then []
    else (if IsSliceFile(case_, suffix, names[0]) then [names[0]] else []) + SliceFiles(case_, suffix, names[1..])
  }

  /** Python's `parts[lo:hi]`: the bounds are clamped to the list. */
  function SliceOf(parts: seq<string>, lo: nat, hi: nat): (r: seq<string>)
    requires lo <= hi
    ensures |r| <= hi - lo
  {
    var a := if lo < |parts| then lo else |parts|;
    var b := if hi < |parts| then hi else |parts|;
    parts[a..b]
  }

  /** The distance in front of `D`: `int` of field 4 for a six-field stem,
      otherwise `float` of fields 4 and 5 joined by `.`; ValueError when
      that text is not a number. */
  function SliceDistance(name: string): (r: Result<real>)
    ensures r.Err? ==> r.error == ValueError
  {
    var parts := Split(PathStem(name), "_");
    if |parts| == 6 then
      match ParseInt(RemoveSuffix(parts[4], "D"))
      case None => Err(ValueError)
      case Some(n) => Ok(n as real)
    else
      match ParseFloat(RemoveSuffix(Join(SliceOf(parts, 4, 6), "."), "D"))
      case None => Err(ValueError)
      case Some(x) => Ok(x)
  }

  /** The fields of a slice name, for a whole or a half distance. */
  function SliceFields(case_: string, side: string, whole: nat, half: Option<nat>): seq<string> {
    match half
    case None => [case_, "streamTube", side, "slice", NatToString(whole) + "D", "integrated"]
    case Some(h) => [case_, "streamTube", side, "slice", NatToString(whole), NatToString(h) + "D", "integrated"]
  }

  predicate PlainField(s: string) {
    s != "" && NoChar(s, '_')
  }

  lemma DigitsPlain(s: string, c: char)
    requires AllDigits(s) && !IsDigit(c)
    ensures NoChar(s, c)
  {
  }

  /** The split fields of a slice name written with the field layout above. */
  lemma SliceNameFields(case_: string, side: string, whole: nat, half: Option<nat>)
    requires PlainField(case_) && PlainField(side)
    ensures var fields := SliceFields(case_, side, whole, half);
            Split(PathStem(Join(fields, "_") + ".csv"), "_") == fields
  {
    var fields := SliceFields(case_, side, whole, half);
    DigitsPlain(NatToString(whole), '_');
    if half.Some? {
      DigitsPlain(NatToString(half.value), '_');
    }
    assert forall j :: 0 <= j < |fields| ==> NoChar(fields[j], '_');
    StemFields(fields, "csv");
    CsvSuffix(Join(fields, "_"));
  }

  lemma CsvSuffix(stem: string)
    ensures stem + "." + "csv" == stem + ".csv"
  {
  }

  /** The stem of `_`-joined fields with an extension splits back into the
      fields. */
  lemma StemFields(fields: seq<string>, ext: string)
    requires |fields| >= 1 && fields[0] != "" && ext != "" && NoChar(ext, '.')
    requires forall j :: 0 <= j < |fields| ==> NoChar(fields[j], '_')
    ensures Split(PathStem(Join(fields, "_") + "." + ext), "_") == fields
  {
    var stem := Join(fields, "_");
    SplitOfJoin(fields, '_');
    JoinNotEmpty(fields);
    PathStemOfSuffixed(stem, ext);
  }

  lemma JoinNotEmpty(fields: seq<string>)
    requires |fields| >= 1 && fields[0] != ""
    ensures Join(fields, "_") != ""
  {
    if |fields| > 1 {
      JoinCons(fields[0], fields[1..], "_");
      assert [fields[0]] + fields[1..] == fields;
    }
  }

  /** A six-field stem: the integer in front of `D` in field 4. */
  lemma WholeFromFields(name: string, fields: seq<string>, n: int)
    requires Split(PathStem(name), "_") == fields && |fields| == 6
    requires ParseInt(RemoveSuffix(fields[4], "D")) == Some(n)
    ensures SliceDistance(name) == Ok(n as real)
  {
  }

  /** Any other stem: the decimal made of fields 4 and 5. */
  lemma HalfFromFields(name: string, fields: seq<string>, x: real)
    requires Split(PathStem(name), "_") == fields && |fields| != 6
    requires ParseFloat(RemoveSuffix(Join(SliceOf(fields, 4, 6), "."), "D")) == Some(x)
    ensures SliceDistance(name) == Ok(x)
  {
  }

  /** A whole distance `{n}D` reads back as `n`. */
  lemma WholeDistance(case_: string, side: string, n: nat)
    requires PlainField(case_) && PlainField(side)
    ensures SliceDistance(Join(SliceFields(case_, side, n, None), "_") + ".csv") == Ok(n as real)
  {
    var fields := SliceFields(case_, side, n, None);
    SliceNameFields(case_, side, n, None);
    assert RemoveSuffix(fields[4], "D") == NatToString(n);
    ParseIntToString(n);
    WholeFromFields(Join(fields, "_") + ".csv", fields, n);
  }

  /** A half distance `{n}_{m}D` reads back as the decimal `n.m`. */
  lemma HalfDistance(case_: string, side: string, n: nat, m: nat)
    requires PlainField(case_) && PlainField(side)
    ensures SliceDistance(Join(SliceFields(case_, side, n, Some(m)), "_") + ".csv")
              == Ok(n as real + m as real / Pow10(|NatToString(m)|) as real)
  {
    var fields := SliceFields(case_, side, n, Some(m));
    SliceNameFields(case_, side, n, Some(m));
    var a, b := NatToString(n), NatToString(m);
    assert SliceOf(fields, 4, 6) == [a, b + "D"];
    JoinCons(a, [b + "D"], ".");
    assert Join(SliceOf(fields, 4, 6), ".") == (a + "." + b) + "D";
    assert RemoveSuffix((a + "." + b) + "D", "D") == a + "." + b;
    DecimalText(a, b);
    DigitsValueOfNat(n);
    DigitsValueOfNat(m);
    HalfFromFields(Join(fields, "_") + ".csv", fields, n as real + m as real / Pow10(|b|) as real);
  }

  /** `float("a.b")` for digit strings `a` and `b`. */
  lemma DecimalText(a: string, b: string)
    requires a != "" && b != "" && AllDigits(a) && AllDigits(b)
    ensures ParseFloat(a + "." + b) == Some(DigitsValue(a) as real + DigitsValue(b) as real / Pow10(|b|) as real)
  {
    var s := a + "." + b;
    DecimalSplit(a, b);
    assert s[0] == a[0] && IsDigit(s[0]);
    DecimalNoExponent(a, b);
    assert ParseFloat(s) == ParseUnsignedDecimal(s);
    DecimalOfParts(s, a, b);
  }

  lemma DecimalNoExponent(a: string, b: string)
    requires AllDigits(a) && AllDigits(b)
    ensures ParseUnsignedFloat(a + "." + b) == ParseUnsignedDecimal(a + "." + b)
  {
    var s := a + "." + b;
    forall i | 0 <= i < |s| ensures s[i] != 'e' && s[i] != 'E' {
      if i < |a| { assert s[i] == a[i]; } else if i > |a| { assert s[i] == b[i - |a| - 1]; }
    }
    ExponentAbsent(s);
  }

  lemma DecimalOfParts(s: string, a: string, b: string)
    requires Split(s, ".") == [a, b] && a != "" && AllDigits(a) && AllDigits(b)
    ensures ParseUnsignedDecimal(s) == Some(DigitsValue(a) as real + DigitsValue(b) as real / Pow10(|b|) as real)
  {
  }

  lemma DecimalSplit(a: string, b: string)
    requires AllDigits(a) && AllDigits(b)
    ensures Split(a + "." + b, ".") == [a, b]
  {
    DigitsPlain(a, '.');
    DigitsPlain(b, '.');
    JoinCons(a, [b], ".");
    assert [a] + [b] == [a, b];
    assert Join([b], ".") == b;
    SplitOfJoin([a, b], '.');
  }

  // ---------------------------------------------------------------------------
  // Distances and order

  /** The distances of the kept names, in order; the first unreadable name
      raises ValueError. */
  function Distances(files: seq<string>): (r: Result<seq<real>>)
    ensures r.Ok? ==> |r.value| == |files|
    decreases |files|
  {
    if files == [] then Ok([])
    else
      match Distances(files[..|files| - 1])
      case Err(e) => Err(e)
      case Ok(ds) =>
        match SliceDistance(files[|files| - 1])
        case Err(e) => Err(e)
        case Ok(d) => Ok(ds + [d])
  }

  /** Each distance is the one read from its own name. */
  lemma {:induction false} DistancesEach(files: seq<string>, k: nat)
    requires Distances(files).Ok? && k < |files|
    ensures SliceDistance(files[k]) == Ok(Distances(files).value[k])
    decreases |files|
  {
    if k < |files| - 1 {
      var init := files[..|files| - 1];
      DistancesEach(init, k);
      assert init[k] == files[k];
    }
  }

  /** The loop that appends one distance per name. */
  method ReadDistances(files: seq<string>) returns (r: Result<seq<real>>)
    ensures r == Distances(files)
  {
    var distances: seq<real> := [];
    var k := 0;
    while k < |files|
      invariant k <= |files|
      invariant Distances(files[..k]) == Ok(distances)
    {
      assert files[..k + 1][..k] == files[..k];
      var d := SliceDistance(files[k]);
      if d.Err? {
        DistancesErrStays(files, k + 1);
        return Err(d.error);
      }
      distances := distances + [d.value];
      k := k + 1;
    }
    assert files[..k] == files;
    r := Ok(distances);
  }

  lemma {:induction false} DistancesErrStays(files: seq<string>, k: nat)
    requires k <= |files| && Distances(files[..k]).Err?
    ensures Distances(files) == Distances(files[..k])
    decreases |files| - k
  {
    if k < |files| {
      assert files[..k + 1][..k] == files[..k];
      DistancesErrStays(files, k + 1);
    } else {
      assert files[..k] == files;
    }
  }

  type Entry = (real, string)

  function Distance(e: Entry): real { e.0 }

  /** `list(zip(distances, filepaths))`. */
  function Zip(distances: seq<real>, files: seq<string>): (r: seq<Entry>)
    requires |distances| == |files|
    ensures |r| == |files|
  {
    seq(|files|, k requires 0 <= k < |files| => (distances[k], files[k]))
  }

  // ---------------------------------------------------------------------------
  // The two tables

  /** The row a slice file contributes: its distance, then values 3 and 0 of
      its single data line. */
  function SliceRow(e: Entry, values: seq<real>): (row: Row)
    requires |values| >= 4
  {
    [e.0, values[3], values[0]]
  }

  /** `len([f for f in filepaths if word in f.name])`. */
  function Count(entries: seq<Entry>, word: string): nat
    decreases |entries|
  {
    if entries == [] then 0
    else Count(entries[..|entries| - 1], word) + (if Contains(entries[|entries| - 1].1, word) then 1 else 0)
  }

  /** The upstream and the downstream tables. */
  type TablePair = (Table, Table)

  /** The table of one turbine. */
  function Side(p: TablePair, word: string): Table {
    if word == "upstream" then p.0 else p.1
  }

  /** The writing loop, file by file in sorted order: each file's row goes
      to the upstream table, the downstream table or both, by the words in
      its name; a file that is not in `contents` or holds fewer than four
      values raises IndexError at `data[3]`. */
  function Written(entries: seq<Entry>, contents: map<string, seq<real>>): (r: Result<TablePair>)
    ensures r.Ok? ==> |r.value.0| == Count(entries, "upstream") && |r.value.1| == Count(entries, "downstream")
    decreases |entries|
  {
    if entries == [] then Ok(([], []))
    else
      match Written(entries[..|entries| - 1], contents)
      case Err(e) => Err(e)
      case Ok(p) =>
        var e := entries[|entries| - 1];
        if e.1 !in contents || |contents[e.1]| < 4 then Err(IndexError)
        else
          var row := SliceRow(e, contents[e.1]);
          Ok((p.0 + (if Contains(e.1, "upstream") then [row] else []),
              p.1 + (if Contains(e.1, "downstream") then [row] else [])))
  }

  /** The two saved tables, each with the name it is saved under. */
  datatype Compiled = NoFiles | Compiled(upstreamFile: string, upstream: Table, downstreamFile: string, downstream: Table)

  /** What the case name is followed by in the two output names. */
  const UpstreamSuffix := "_streamTube_upstreamTurbine_integratedAreaVelocity"
  const DownstreamSuffix := "_streamTube_downstreamTurbine_integratedAreaVelocity"

  /** The entries in the order the rows are written. */
  function SortedEntries(files: seq<string>, distances: seq<real>): (r: seq<Entry>)
    requires |distances| == |files|
    ensures Sorting.SortedByKey(r, Distance)
    ensures multiset(r) == multiset(Zip(distances, files))
  {
    Sorting.SortByKey(Zip(distances, files), Distance)
  }

  /** The whole function on a directory listing and the files' values
      (`contents` maps every listed name to its single data line); an empty
      selection writes nothing. */
  function Compile(case_: string, names: seq<string>, contents: map<string, seq<real>>): (r: Result<Compiled>)
    ensures r == Ok(NoFiles) <==> SliceFiles(case_, Integrated, names) == []
    ensures r.Ok? && r.value.Compiled? ==>
              r.value.upstreamFile == case_ + "_streamTube_upstreamTurbine_integratedAreaVelocity" &&
              r.value.downstreamFile == case_ + "_streamTube_downstreamTurbine_integratedAreaVelocity"
  {
    var files := SliceFiles(case_, Integrated, names);
    if files == [] then Ok(NoFiles)
    else
      match Distances(files)
      case Err(e) => Err(e)
      case Ok(ds) =>
        match Written(SortedEntries(files, ds), contents)
        case Err(e) => Err(e)
        case Ok(p) => Ok(Compiled(case_ + UpstreamSuffix, p.0, case_ + DownstreamSuffix, p.1))
  }

  /** The script: distances, sort, the two counts, then the rows written
      into the two preallocated tables through their counters. */
  method CompileSlices(case_: string, names: seq<string>, contents: map<string, seq<real>>) returns (r: Result<Compiled>)
    ensures r == Compile(case_, names, contents)
  {
    var files := SliceFiles(case_, Integrated, names);
    if files == [] {
      return Ok(NoFiles);
    }
    var distances := ReadDistances(files);
    if distances.Err? {
      return Err(distances.error);
    }
    var sorted := SortedEntries(files, distances.value);
    var tables := WriteRows(sorted, contents);
    if tables.Err? {
      return Err(tables.error);
    }
    r := Ok(Compiled(case_ + UpstreamSuffix, tables.value.0, case_ + DownstreamSuffix, tables.value.1));
  }

  /** The two counts, the preallocated tables, and the loop that writes
      each file's row through the counters. */
  method WriteRows(sorted: seq<Entry>, contents: map<string, seq<real>>) returns (r: Result<TablePair>)
    ensures r == Written(sorted, contents)
  {
    var upstream := Count(sorted, "upstream");
    var downstream := Count(sorted, "downstream");
    var upData := new seq<real>[upstream](_ => []);
    var downData := new seq<real>[downstream](_ => []);
    var ui, di := 0, 0;
    ghost var up: Table, down: Table := [], [];
    var k := 0;
    while k < |sorted|
      invariant k <= |sorted|
      invariant ui <= upstream && di <= downstream
      invariant upData[..ui] == up && downData[..di] == down
      invariant Written(sorted[..k], contents) == Ok((up, down))
    {
      var e := sorted[k];
      if e.1 !in contents || |contents[e.1]| < 4 {
        WrittenStepErr(sorted, k, contents, (up, down));
        WrittenErrStays(sorted, k + 1, contents);
        return Err(IndexError);
      }
      var row := SliceRow(e, contents[e.1]);
      WrittenStep(sorted, k, contents, (up, down), row);
      WrittenRoom(sorted, k + 1, contents);
      var isUp, isDown := Contains(e.1, "upstream"), Contains(e.1, "downstream");
      ghost var up', down' := up + (if isUp then [row] else []), down + (if isDown then [row] else []);
      ui := Place(upData, ui, row, isUp);
      assert downData[..di] == down;
      di := Place(downData, di, row, isDown);
      up, down := up', down';
      k := k + 1;
    }
    assert sorted[..k] == sorted;
    assert upData[..] == upData[..ui] && downData[..] == downData[..di];
    r := Ok((upData[..], downData[..]));
  }

  /** `table[i, :] = row; i += 1` for a file the table takes, nothing
      otherwise. */
  method Place(table: array<Row>, i: nat, row: Row, takes: bool) returns (next: nat)
    requires i <= table.Length && (takes ==> i < table.Length)
    modifies table
    ensures next == if takes then i + 1 else i
    ensures table[..next] == old(table[..i]) + (if takes then [row] else [])
  {
    if takes {
      table[i] := row;
      next := i + 1;
    } else {
      next := i;
    }
  }

  /** One more readable file: `Written` on the next prefix in terms of the
      current one. */
  lemma WrittenStep(entries: seq<Entry>, k: nat, contents: map<string, seq<real>>, p: TablePair, row: Row)
    requires k < |entries| && Written(entries[..k], contents) == Ok(p)
    requires entries[k].1 in contents && |contents[entries[k].1]| >= 4
    requires row == SliceRow(entries[k], contents[entries[k].1])
    ensures Written(entries[..k + 1], contents)
              == Ok((p.0 + (if Contains(entries[k].1, "upstream") then [row] else []),
                     p.1 + (if Contains(entries[k].1, "downstream") then [row] else [])))
  {
    assert entries[..k + 1][..k] == entries[..k];
  }

  /** One more unreadable file: IndexError. */
  lemma WrittenStepErr(entries: seq<Entry>, k: nat, contents: map<string, seq<real>>, p: TablePair)
    requires k < |entries| && Written(entries[..k], contents) == Ok(p)
    requires entries[k].1 !in contents || |contents[entries[k].1]| < 4
    ensures Written(entries[..k + 1], contents) == Err(IndexError)
  {
    assert entries[..k + 1][..k] == entries[..k];
  }

  /** The counts taken over all files bound the rows written so far. */
  lemma WrittenRoom(entries: seq<Entry>, k: nat, contents: map<string, seq<real>>)
    requires k <= |entries| && Written(entries[..k], contents).Ok?
    ensures |Written(entries[..k], contents).value.0| <= Count(entries, "upstream")
    ensures |Written(entries[..k], contents).value.1| <= Count(entries, "downstream")
  {
    CountBound(entries, k, "upstream");
    CountBound(entries, k, "downstream");
  }

  lemma {:induction false} CountBound(entries: seq<Entry>, k: nat, word: string)
    requires k <= |entries|
    ensures Count(entries[..k], word) <= Count(entries, word)
    decreases |entries| - k
  {
    if k < |entries| {
      CountBound(entries, k + 1, word);
      assert entries[..k + 1][..k] == entries[..k];
    } else {
      assert entries[..k] == entries;
    }
  }

  /** Once a file has raised, the loop ends with that exception. */
  lemma {:induction false} WrittenErrStays(entries: seq<Entry>, k: nat, contents: map<string, seq<real>>)
    requires k <= |entries| && Written(entries[..k], contents).Err?
    ensures Written(entries, contents) == Written(entries[..k], contents)
    decreases |entries| - k
  {
    if k < |entries| {
      assert entries[..k + 1][..k] == entries[..k];
      WrittenErrStays(entries, k + 1, contents);
    } else {
      assert entries[..k] == entries;
    }
  }

  // ---------------------------------------------------------------------------
  // Properties

  /** Rows of three values whose distances are the entries' own. */
  predicate RowsOf(t: Table, entries: seq<Entry>) {
    forall i :: 0 <= i < |t| ==> |t[i]| == 3 && exists k :: 0 <= k < |entries| && t[i][0] == entries[k].0
  }

  predicate AscendingDistance(t: Table) {
    forall i, j :: 0 <= i < j < |t| && t[i] != [] && t[j] != [] ==> t[i][0] <= t[j][0]
  }

  /** Written in sorted order, each table lists its slices by increasing
      distance. */
  lemma {:induction false} WrittenAscending(entries: seq<Entry>, contents: map<string, seq<real>>, word: string)
    requires Written(entries, contents).Ok? && Sorting.SortedByKey(entries, Distance)
    ensures RowsOf(Side(Written(entries, contents).value, word), entries)
    ensures AscendingDistance(Side(Written(entries, contents).value, word))
    decreases |entries|
  {
    if entries != [] {
      var init := entries[..|entries| - 1];
      var e := entries[|entries| - 1];
      assert forall k :: 0 <= k < |init| ==> init[k] == entries[k];
      WrittenAscending(init, contents, word);
      assert forall k :: 0 <= k < |init| ==> init[k].0 <= e.0 by {
        forall k | 0 <= k < |init| ensures init[k].0 <= e.0 {
          assert Distance(entries[k]) <= Distance(entries[|entries| - 1]);
        }
      }
      var t0 := Side(Written(init, contents).value, word);
      var row := SliceRow(e, contents[e.1]);
      var grows := Contains(e.1, if word == "upstream" then "upstream" else "downstream");
      assert Side(Written(entries, contents).value, word) == t0 + (if grows then [row] else []);
      assert entries == init + [e];
      AscendingAppend(t0, init, e, row, grows);
    }
  }

  /** Appending, or not, the row of an entry whose distance is at least every
      earlier one keeps the rows ascending. */
  lemma AscendingAppend(t0: Table, init: seq<Entry>, e: Entry, row: Row, grows: bool)
    requires RowsOf(t0, init) && AscendingDistance(t0)
    requires forall k :: 0 <= k < |init| ==> init[k].0 <= e.0
    requires |row| == 3 && row[0] == e.0
    ensures RowsOf(t0 + (if grows then [row] else []), init + [e])
    ensures AscendingDistance(t0 + (if grows then [row] else []))
  {
    var t := t0 + (if grows then [row] else []);
    forall i | 0 <= i < |t0|
      ensures t0[i][0] <= e.0
    {
      var k :| 0 <= k < |init| && t0[i][0] == init[k].0;
    }
    forall i, j | 0 <= i < j < |t| && t[i] != [] && t[j] != []
      ensures t[i][0] <= t[j][0]
    {
      if j == |t0| {
        assert t[j] == row;
      }
    }
    var es := init + [e];
    forall i | 0 <= i < |t|
      ensures |t[i]| == 3 && exists k :: 0 <= k < |es| && t[i][0] == es[k].0
    {
      if i < |t0| {
        var k :| 0 <= k < |init| && t0[i][0] == init[k].0;
        assert t[i] == t0[i] && es[k] == init[k];
      } else {
        assert t[i] == row && es[|init|] == e;
      }
    }
    assert RowsOf(t, es);
  }

  /** The compiled tables list their slices by increasing distance. */
  lemma CompiledAscending(case_: string, names: seq<string>, contents: map<string, seq<real>>)
    requires Compile(case_, names, contents).Ok? && Compile(case_, names, contents).value.Compiled?
    ensures AscendingDistance(Compile(case_, names, contents).value.upstream)
    ensures AscendingDistance(Compile(case_, names, contents).value.downstream)
  {
    var files := SliceFiles(case_, Integrated, names);
    var sorted := SortedEntries(files, Distances(files).value);
    WrittenAscending(sorted, contents, "upstream");
    WrittenAscending(sorted, contents, "downstream");
  }

  /** A file named for a turbine has its row in that turbine's table. */
  lemma {:induction false} WrittenHas(entries: seq<Entry>, contents: map<string, seq<real>>, word: string, j: nat)
    requires Written(entries, contents).Ok? && j < |entries|
    requires word == "upstream" || word == "downstream"
    requires Contains(entries[j].1, word)
    ensures entries[j].1 in contents && |contents[entries[j].1]| >= 4
    ensures SliceRow(entries[j], contents[entries[j].1]) in Side(Written(entries, contents).value, word)
    decreases |entries|
  {
    var init := entries[..|entries| - 1];
    if j < |entries| - 1 {
      assert init[j] == entries[j];
      WrittenHas(init, contents, word, j);
    }
  }

  /** Every kept file whose name contains the word contributes its row,
      with its own distance and values, to that word's table. */
  lemma EveryFileHasItsRow(case_: string, names: seq<string>, contents: map<string, seq<real>>,
                           word: string, file: string)
    requires Compile(case_, names, contents).Ok? && Compile(case_, names, contents).value.Compiled?
    requires word == "upstream" || word == "downstream"
    requires file in names && IsSliceFile(case_, Integrated, file) && Contains(file, word)
    ensures file in contents && |contents[file]| >= 4 && SliceDistance(file).Ok?
    ensures var c := Compile(case_, names, contents).value;
            var t := if word == "upstream" then c.upstream else c.downstream;
            [SliceDistance(file).value, contents[file][3], contents[file][0]] in t
  {
    var files := SliceFiles(case_, Integrated, names);
    var ds := Distances(files).value;
    var zipped := Zip(ds, files);
    var sorted := SortedEntries(files, ds);
    var k :| 0 <= k < |files| && files[k] == file;
    DistancesEach(files, k);
    assert zipped[k] in multiset(zipped);
    assert zipped[k] in multiset(sorted);
    var j :| 0 <= j < |sorted| && sorted[j] == zipped[k];
    WrittenHas(sorted, contents, word, j);
  }
}
