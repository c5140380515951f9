/** `precursorAveraging.py`: the planar averages SOWFA writes for each run of
    a precursor case (one folder per run start time) stitched into one table
    per quantity, with the restart overlaps removed and, next to every
    height's column, its running average in time weighted by `dt`.

    A time folder is given by the names it lists, the heights in its
    `hLevelsCell` file when it has one, and the table of each quantity file
    it holds.  Folders come in ascending numeric order of their names. */
module PrecursorAveraging {
  import opened Common
  import opened Strings
  import opened Tables
  import opened Utils
  import opened Stacking
  import opened HeightHeaders
  import opened PrecursorAveragingReduce
  import opened AveragingFiles

  /** The file that holds the heights of the averaging planes. */
  const HeightsStem := "hLevelsCell"

  datatype Folder = Folder(names: seq<string>, heights: Option<seq<real>>, files: map<string, Table>)

  // ---------------------------------------------------------------------------
  // Quantities and heights

  /** The quantity names one folder lists. */
  function ListedQuantities(names: seq<string>): (qs: set<string>)
    ensures forall q :: q in qs <==> q in names && PathStem(q) != HeightsStem
  {
    set q | q in names && PathStem(q) != HeightsStem
  }

  /** Every file name listed in some folder whose stem is not `hLevelsCell`,
      once each. */
  function Quantities(folders: seq<Folder>): (qs: set<string>)
    ensures forall q :: q in qs <==>
              PathStem(q) != HeightsStem && exists f :: 0 <= f < |folders| && q in folders[f].names
  {
    set f, q | 0 <= f < |folders| && q in folders[f].names && PathStem(q) != HeightsStem :: q
  }

  lemma QuantitiesSnoc(folders: seq<Folder>, f: nat)
    requires f < |folders|
    ensures Quantities(folders[..f + 1]) == Quantities(folders[..f]) + ListedQuantities(folders[f].names)
  {
    var a, b := Quantities(folders[..f + 1]), Quantities(folders[..f]) + ListedQuantities(folders[f].names);
    forall q | q in a ensures q in b {
      var g :| 0 <= g < f + 1 && q in folders[..f + 1][g].names;
      if g < f { assert folders[..f][g] == folders[g]; }
    }
    forall q | q in b ensures q in a {
      if q in Quantities(folders[..f]) {
        var g :| 0 <= g < f && q in folders[..f][g].names;
        assert folders[..f + 1][g] == folders[g];
      } else {
        assert folders[..f + 1][f] == folders[f];
      }
    }
  }

  /** The loop over the folders that fills the set. */
  method DiscoverQuantities(folders: seq<Folder>) returns (qs: set<string>)
    ensures qs == Quantities(folders)
  {
    qs := {};
    for f := 0 to |folders|
      invariant qs == Quantities(folders[..f])
    {
      qs := AddListed(qs, folders[f].names);
      QuantitiesSnoc(folders, f);
    }
    assert folders[..|folders|] == folders;
  }

  /** The inner loop over the files of one folder. */
  method AddListed(qs: set<string>, names: seq<string>) returns (r: set<string>)
    ensures r == qs + ListedQuantities(names)
  {
    r := qs;
    for k := 0 to |names|
      invariant r == qs + ListedQuantities(names[..k])
    {
      if PathStem(names[k]) != HeightsStem {
        r := r + {names[k]};
      }
      assert names[..k + 1] == names[..k] + [names[k]];
    }
    assert names[..|names|] == names;
  }

  /** The heights of the first folder with an `hLevelsCell` file. */
  function FirstHeights(folders: seq<Folder>): (r: Option<seq<real>>)
    ensures r.None? <==> forall f :: 0 <= f < |folders| ==> folders[f].heights.None?
    ensures r.Some? ==> exists f :: 0 <= f < |folders| && folders[f].heights == r
                          && forall g :: 0 <= g < f ==> folders[g].heights.None?
  {
    if folders == [] then None
    else if folders[0].heights.Some? then folders[0].heights
    else
      var r := FirstHeights(folders[1..]);
      assert forall f :: 1 <= f < |folders| ==> folders[f] == folders[1..][f - 1];
      r
  }

  /** The `try`/`break` loop over the folders.  `heights` is a variable of
      `main` that no case resets, so a case without any heights file keeps
      the heights of an earlier case. */
  method FindHeights(folders: seq<Folder>, previous: Option<seq<real>>) returns (heights: Option<seq<real>>)
    ensures heights == if FirstHeights(folders).Some? then FirstHeights(folders) else previous
  {
    heights := previous;
    var f := 0;
    while f < |folders|
      invariant f <= |folders|
      invariant FirstHeights(folders) == FirstHeights(folders[f..])
      invariant heights == previous
    {
      assert folders[f..][1..] == folders[f + 1..];
      if folders[f].heights.Some? {
        return folders[f].heights;
      }
      f := f + 1;
    }
  }

  // ---------------------------------------------------------------------------
  // The interleaved layout

  /** `stackeddata`: time and dt, then for each height its raw column and
      the running average of that column weighted by dt (`Cell`).  A table
      without rows, or without a column for every height, raises IndexError. */
  function Interleaved(data: Table, h: nat): (r: Result<Table>)
    requires h >= 1 && (HasColumns(data, 2) ==> PrefixWeightsNonZero(Column(data, 1)))
    ensures r.Err? <==> |data| == 0 || !HasColumns(data, h + 2)
    ensures r.Err? ==> r.error == IndexError
    ensures r.Ok? ==> |r.value| == |data| && Rectangular(r.value, 2 + 2 * h)
  {
    if |data| == 0 || !HasColumns(data, h + 2) then Err(IndexError)
    else
      Ok(seq(|data|, i requires 0 <= i < |data| => LayoutRow(data, i, h)))
  }

  /** Row `i` of the layout for the first `m` heights: time and dt, then
      per height its raw column and the running average of that column. */
  function LayoutRow(data: Table, i: nat, m: nat): (row: seq<real>)
    requires i < |data| && HasColumns(data, m + 2) && PrefixWeightsNonZero(Column(data, 1))
    ensures |row| == 2 + 2 * m
    decreases m
  {
    if m == 0 then [data[i][0], data[i][1]]
    else
      assert HasColumns(data, m + 1);
      LayoutRow(data, i, m - 1) + [data[i][m + 1], RunningWeightedMean(Column(data, m + 1), Column(data, 1), i)]
  }

  /** Entry `k` of a layout row is its `Cell`. */
  lemma {:induction false} LayoutRowCell(data: Table, h: nat, i: nat, m: nat, k: nat)
    requires m <= h && i < |data| && HasColumns(data, h + 2) && PrefixWeightsNonZero(Column(data, 1))
    requires k < 2 + 2 * m
    ensures HasColumns(data, m + 2) && LayoutRow(data, i, m)[k] == Cell(data, h, i, k)
    decreases m
  {
    assert HasColumns(data, m + 2);
    if m > 0 && k < 2 * m {
      LayoutRowCell(data, h, i, m - 1, k);
    } else if m > 0 {
      assert k / 2 + 1 == m + 1;
    }
  }

  /** Every entry of the layout is its `Cell`. */
  lemma InterleavedCells(data: Table, h: nat)
    requires h >= 1 && (HasColumns(data, 2) ==> PrefixWeightsNonZero(Column(data, 1)))
    requires Interleaved(data, h).Ok?
    ensures forall i, k :: 0 <= i < |data| && 0 <= k < 2 + 2 * h ==>
              Interleaved(data, h).value[i][k] == Cell(data, h, i, k)
  {
    forall i, k | 0 <= i < |data| && 0 <= k < 2 + 2 * h
      ensures Interleaved(data, h).value[i][k] == Cell(data, h, i, k)
    {
      LayoutRowCell(data, h, i, h, k);
    }
  }

  /** Entry `k` of row `i` of the interleaved layout. */
  function Cell(data: Table, h: nat, i: nat, k: nat): real
    requires i < |data| && k < 2 + 2 * h && HasColumns(data, h + 2)
    requires PrefixWeightsNonZero(Column(data, 1))
  {
    if k < 2 then data[i][k]
    else if k % 2 == 0 then data[i][k / 2 + 1]
    else RunningWeightedMean(Column(data, k / 2 + 1), Column(data, 1), i)
  }

  /** What the layout holds for height `j`: column `2 j + 2` is the height's
      raw column and column `2 j + 3` its dt-weighted running average; the
      first two columns are time and dt. */
  lemma InterleavedAt(data: Table, h: nat, i: nat, j: nat)
    requires h >= 1 && (HasColumns(data, 2) ==> PrefixWeightsNonZero(Column(data, 1)))
    requires Interleaved(data, h).Ok? && i < |data| && j < h
    ensures var r := Interleaved(data, h).value;
            && r[i][0] == data[i][0] && r[i][1] == data[i][1]
            && r[i][2 * j + 2] == data[i][j + 2]
            && r[i][2 * j + 3] == RunningWeightedMean(Column(data, j + 2), Column(data, 1), i)
  {
    InterleavedCells(data, h);
    assert (2 * j + 2) / 2 == j + 1 && (2 * j + 3) / 2 == j + 1;
    assert (2 * j + 2) % 2 == 0 && (2 * j + 3) % 2 == 1;
  }

  /** `stackeddata = np.empty(...)`, the first two columns copied, then one
      pass per height filling its raw and its average column. */
  method Interleave(data: Table, h: nat) returns (r: Result<Table>)
    requires h >= 1 && (HasColumns(data, 2) ==> PrefixWeightsNonZero(Column(data, 1)))
    ensures r == Interleaved(data, h)
  {
    if |data| == 0 || !HasColumns(data, h + 2) {
      return Err(IndexError);
    }
    var n := |data|;
    var stacked := new real[n, 2 + 2 * h];
    SetColumn(stacked, 0, Column(data, 0));
    SetColumn(stacked, 1, Column(data, 1));
    assert forall i, k :: 0 <= i < n && 0 <= k < 2 ==> stacked[i, k] == data[i][k];
    assert forall i, k :: 0 <= i < n && 0 <= k < 2 ==> Cell(data, h, i, k) == data[i][k];
    for j := 0 to h
      invariant Filled(stacked, data, h, 2 + 2 * j)
    {
      FillHeight(stacked, data, h, j);
    }
    r := Ok(Grid(stacked));
    InterleavedCells(data, h);
    SameTable(Grid(stacked), Interleaved(data, h).value);
  }

  /** The first `m` columns of `stacked` hold the layout. */
  ghost predicate Filled(stacked: array2<real>, data: Table, h: nat, m: nat)
    reads stacked
  {
    && stacked.Length0 == |data| > 0 && stacked.Length1 == 2 + 2 * h && m <= 2 + 2 * h
    && HasColumns(data, h + 2) && PrefixWeightsNonZero(Column(data, 1))
    && forall i, k :: 0 <= i < |data| && 0 <= k < m ==> stacked[i, k] == Cell(data, h, i, k)
  }

  /** One pass of the height loop: the raw column and its running average. */
  method FillHeight(stacked: array2<real>, data: Table, h: nat, j: nat)
    requires j < h && Filled(stacked, data, h, 2 + 2 * j)
    modifies stacked
    ensures Filled(stacked, data, h, 4 + 2 * j)
  {
    var average := MovingAverage(data, j + 2, Some(1));
    CellsOfHeight(data, h, j);
    SetColumn(stacked, 2 * j + 2, Column(data, j + 2));
    SetColumn(stacked, 2 * j + 3, average.value);
    forall i, k | 0 <= i < |data| && 0 <= k < 4 + 2 * j
      ensures stacked[i, k] == Cell(data, h, i, k)
    {
      if k < 2 + 2 * j {
        assert stacked[i, k] == old(stacked[i, k]);
      } else if k == 2 * j + 2 {
        assert stacked[i, k] == Column(data, j + 2)[i];
      } else if k == 2 * j + 3 {
        assert stacked[i, k] == average.value[i];
      }
    }
  }

  lemma CellsOfHeight(data: Table, h: nat, j: nat)
    requires j < h && HasColumns(data, h + 2) && PrefixWeightsNonZero(Column(data, 1))
    ensures forall i :: 0 <= i < |data| ==>
              Cell(data, h, i, 2 * j + 2) == data[i][j + 2]
              && Cell(data, h, i, 2 * j + 3) == RunningWeightedMean(Column(data, j + 2), Column(data, 1), i)
  {
    assert (2 * j + 2) / 2 == j + 1 && (2 * j + 3) / 2 == j + 1;
    assert (2 * j + 2) % 2 == 0 && (2 * j + 3) % 2 == 1;
  }

  // ---------------------------------------------------------------------------
  // The header

  /** `f'{h}'` of `int(h)`: the height as the header writes it. */
  function HeightLabel(h: real): string {
    IntToString(Trunc(h))
  }

  /** `['time', 'dt']` followed by `{q}_{h}` and `average_{h}` per height. */
  function AveragingNames(stem: string, hs: seq<real>): (names: seq<string>)
    ensures |names| == 2 + 2 * |hs| && names[0] == "time" && names[1] == "dt"
    ensures forall j :: 0 <= j < |hs| ==>
              names[2 * j + 2] == stem + "_" + HeightLabel(hs[j])
              && names[2 * j + 3] == "average_" + HeightLabel(hs[j])
    decreases |hs|
  {
    if hs == [] then ["time", "dt"]
    else
      var last := hs[|hs| - 1];
      AveragingNames(stem, hs[..|hs| - 1]) + [stem + "_" + HeightLabel(last), "average_" + HeightLabel(last)]
  }

  /** The loop that appends the two names of each height. */
  method HeaderNames(stem: string, hs: seq<real>) returns (names: seq<string>)
    ensures names == AveragingNames(stem, hs)
  {
    names := ["time", "dt"];
    for j := 0 to |hs|
      invariant names == AveragingNames(stem, hs[..j])
    {
      assert hs[..j + 1][..j] == hs[..j];
      names := names + [stem + "_" + HeightLabel(hs[j]), "average_" + HeightLabel(hs[j])];
    }
    assert hs[..|hs|] == hs;
  }

  /** The heights a reader takes from the saved header (every second token
      from the fourth, up to its last `_`) are the written heights, as
      integers: the format this script writes is the one the reduce step
      reads. */
  lemma AveragingHeaderHeights(stem: string, hs: seq<real>)
    requires forall k :: 0 <= k < |stem| ==> !IsSpace(stem[k])
    ensures HeaderHeights(SavedHeaderLine(Join(AveragingNames(stem, hs), " ")))
            == Ok(seq(|hs|, j requires 0 <= j < |hs| => Trunc(hs[j])))
  {
    var names := AveragingNames(stem, hs);
    NamesAreWords(stem, hs);
    SavedHeaderWords(names);
    var tokens := HeightTokens(SavedHeaderLine(Join(names, " ")));
    assert |tokens| == |hs|;
    forall j | 0 <= j < |hs| ensures TokenHeight(tokens[j]) == Some(Trunc(hs[j])) {
      assert tokens[j] == (["#"] + names)[3 + 2 * j] == names[2 * j + 2];
      LabelHeight(stem, hs[j]);
    }
    var r := ParseHeights(tokens);
    assert r.Ok?;
    assert r.value == seq(|hs|, j requires 0 <= j < |hs| => Trunc(hs[j]));
  }

  lemma NamesAreWords(stem: string, hs: seq<real>)
    requires forall k :: 0 <= k < |stem| ==> !IsSpace(stem[k])
    ensures forall k :: 0 <= k < |AveragingNames(stem, hs)| ==> IsWord(AveragingNames(stem, hs)[k])
  {
    var names := AveragingNames(stem, hs);
    forall k | 0 <= k < |names| ensures IsWord(names[k]) {
      if k >= 2 {
        var j := (k - 2) / 2;
        HeightNamesAreWords(stem, hs[j]);
        assert k == 2 * j + 2 || k == 2 * j + 3;
      }
    }
  }

  /** Both names written for one height are words. */
  lemma HeightNamesAreWords(stem: string, h: real)
    requires forall k :: 0 <= k < |stem| ==> !IsSpace(stem[k])
    ensures IsWord(stem + "_" + HeightLabel(h)) && IsWord("average_" + HeightLabel(h))
  {
    LabelChars(h);
    WordAfter(stem + "_", HeightLabel(h));
    WordAfter("average_", HeightLabel(h));
  }

  /** The height field of `{q}_{h}` reads back as `int(h)`. */
  lemma LabelHeight(stem: string, h: real)
    ensures TokenHeight(stem + "_" + HeightLabel(h)) == Some(Trunc(h))
  {
    LabelChars(h);
    assert stem + "_" + HeightLabel(h) == stem + ['_'] + HeightLabel(h);
    LastFieldAfter(stem, HeightLabel(h), '_');
    ParseIntToString(Trunc(h));
  }

  /** A height label holds only a sign and digits. */
  lemma LabelChars(h: real)
    ensures IsWord(HeightLabel(h)) && NoChar(HeightLabel(h), '_')
  {
    IntToStringChars(Trunc(h));
  }

  // ---------------------------------------------------------------------------
  // One quantity

  /** The quantity's file in each folder, when the folder has it. */
  function QuantityFiles(folders: seq<Folder>, q: string): (fs: seq<Option<Table>>)
    ensures |fs| == |folders|
    ensures forall f :: 0 <= f < |folders| ==> (fs[f].Some? <==> q in folders[f].files)
    ensures forall f :: 0 <= f < |folders| && q in folders[f].files ==> fs[f] == Some(folders[f].files[q])
  {
    seq(|folders|, f requires 0 <= f < |folders| =>
      if q in folders[f].files then Some(folders[f].files[q]) else None)
  }

  /** Every quantity file has positive time steps in its dt column. */
  predicate DtPositive(folders: seq<Folder>) {
    forall f, q :: 0 <= f < |folders| && q in folders[f].files ==> PositiveColumn(folders[f].files[q], 1)
  }

  lemma FilesPositive(folders: seq<Folder>, q: string)
    requires DtPositive(folders)
    ensures var fs := QuantityFiles(folders, q);
            forall f :: 0 <= f < |fs| && fs[f].Some? ==> PositiveColumn(fs[f].value, 1)
  {
  }

  /** No two heights share `int(h)`. */
  predicate DistinctLabels(hs: seq<real>) {
    forall i, j :: 0 <= i < j < |hs| ==> Trunc(hs[i]) != Trunc(hs[j])
  }

  /** No two names alike, as `rec.fromarrays` demands of its fields. */
  predicate DistinctNames(names: seq<string>) {
    forall a, b :: 0 <= a < b < |names| ==> names[a] != names[b]
  }

  /** One pass of the quantity loop: stack the folders' files (a missing
      one raises FileNotFoundError), stitch on time, lay the heights out with
      their averages, and save under `{case}_{q}.gz`.  With one height
      `genfromtxt` gave a zero-dimensional array, whose `shape[0]` raises
      IndexError, as does a table without a column for every height; a
      running sum of dt that is zero is ZeroDivisionError; two equal field
      names make `rec.fromarrays` raise ValueError.  A saved file is named
      after the quantity's stem, carries the averaging header of distinct
      names and holds the interleaved layout of the stacked, stitched rows,
      whose dt column has no zero running sum. */
  function AveragedQuantity(case_: string, folders: seq<Folder>, q: string, hs: seq<real>): (r: Result<Saved>)
    requires |hs| >= 1
    ensures Stacked(QuantityFiles(folders, q)).Err? ==> r == Err(FileNotFoundError)
    ensures LoneVector(QuantityFiles(folders, q)) ==> r == Err(IndexError)
    ensures |hs| == 1 ==> r.Err?
    ensures r.Ok? ==>
              && r.value.name == case_ + "_" + PathStem(q) + ".gz"
              && r.value.header == Join(AveragingNames(PathStem(q), hs), " ")
              && DistinctNames(AveragingNames(PathStem(q), hs))
              && StackedStitched(QuantityFiles(folders, q), 0).Ok?
    ensures r.Ok? ==>
              var t := StackedStitched(QuantityFiles(folders, q), 0).value;
              && HasColumns(t, 2) && PrefixWeightsNonZero(Column(t, 1))
              && Interleaved(t, |hs|) == Ok(r.value.table)
  {
    match StackedStitched(QuantityFiles(folders, q), 0)
    case Err(e) => Err(e)
    case Ok(t) =>
      if |hs| == 1 || !HasColumns(t, |hs| + 2) then Err(IndexError)
      else if !PrefixWeightsNonZero(Column(t, 1)) then Err(ZeroDivisionError)
      else
        match Interleaved(t, |hs|)
        case Err(e) => Err(e)
        case Ok(table) =>
          var stem := PathStem(q);
          var names := AveragingNames(stem, hs);
          if !DistinctNames(names) then Err(ValueError)
          else Ok(Saved(case_ + "_" + stem + ".gz", Join(names, " "), table))
  }

  /** Two heights with the same `int(h)` give two equal names: the pass
      raises. */
  lemma SharedLabelRaises(case_: string, folders: seq<Folder>, q: string, hs: seq<real>, i: nat, j: nat)
    requires i < j < |hs| && Trunc(hs[i]) == Trunc(hs[j])
    ensures AveragedQuantity(case_, folders, q, hs).Err?
  {
    var names := AveragingNames(PathStem(q), hs);
    assert names[2 * i + 3] == names[2 * j + 3];
  }

  /** The averaging names are distinct exactly when the stem is not
      `average` and no two heights share `int(h)`. */
  lemma AveragingNamesDistinct(stem: string, hs: seq<real>)
    requires |hs| >= 1
    ensures DistinctNames(AveragingNames(stem, hs)) <==> stem != "average" && DistinctLabels(hs)
  {
    var names := AveragingNames(stem, hs);
    if stem == "average" {
      var lab := HeightLabel(hs[0]);
      assert names[2 * 0 + 2] == stem + "_" + lab && names[2 * 0 + 3] == "average_" + lab;
      assert stem + "_" + lab == "average_" + lab;
    } else if !DistinctLabels(hs) {
      var i, j :| 0 <= i < j < |hs| && Trunc(hs[i]) == Trunc(hs[j]);
      assert names[2 * i + 3] == names[2 * j + 3];
    } else {
      forall a, b | 0 <= a < b < |names| ensures names[a] != names[b] {
        NamesDiffer(stem, hs, a, b);
      }
    }
  }

  /** Two positions of the averaging names hold different names. */
  lemma NamesDiffer(stem: string, hs: seq<real>, a: nat, b: nat)
    requires stem != "average" && DistinctLabels(hs) && a < b < 2 + 2 * |hs|
    ensures AveragingNames(stem, hs)[a] != AveragingNames(stem, hs)[b]
  {
    var names := AveragingNames(stem, hs);
    if b >= 2 {
      var jb := (b - 2) / 2;
      var pb := if b % 2 == 0 then stem else "average";
      NameParts(stem, hs, b);
      if a < 2 {
        assert names[b][|pb|] == '_';
        assert NoChar(names[a], '_');
      } else {
        var ja := (a - 2) / 2;
        var pa := if a % 2 == 0 then stem else "average";
        NameParts(stem, hs, a);
        assert ja < jb || pa != pb;
        SuffixedDiffer(pa, hs[ja], pb, hs[jb]);
      }
    }
  }

  /** Name `k` of a height: its prefix, `_` and the height's label. */
  lemma NameParts(stem: string, hs: seq<real>, k: nat)
    requires 2 <= k < 2 + 2 * |hs|
    ensures AveragingNames(stem, hs)[k]
            == (if k % 2 == 0 then stem else "average") + "_" + HeightLabel(hs[(k - 2) / 2])
  {
    var j := (k - 2) / 2;
    assert k == 2 * j + 2 || k == 2 * j + 3;
  }

  /** `{p}_{int(g)}` tells both its prefix and `int(g)`. */
  lemma SuffixedDiffer(pa: string, ga: real, pb: string, gb: real)
    requires pa != pb || Trunc(ga) != Trunc(gb)
    ensures pa + "_" + HeightLabel(ga) != pb + "_" + HeightLabel(gb)
  {
    LabelChars(ga);
    LabelChars(gb);
    ParseIntToString(Trunc(ga));
    ParseIntToString(Trunc(gb));
    if pa + "_" + HeightLabel(ga) == pb + "_" + HeightLabel(gb) {
      LastSeparatorUnique(pa, HeightLabel(ga), pb, HeightLabel(gb), '_');
      assert false;
    }
  }

  /** With positive time steps in every file the running average is always
      defined. */
  lemma PositiveStepsWeighted(folders: seq<Folder>, q: string)
    requires DtPositive(folders)
    requires StackedStitched(QuantityFiles(folders, q), 0).Ok?
    ensures var t := StackedStitched(QuantityFiles(folders, q), 0).value;
            HasColumns(t, 2) ==> PrefixWeightsNonZero(Column(t, 1))
  {
    var files := QuantityFiles(folders, q);
    var data := Stacked(files).value;
    FilesPositive(folders, q);
    StackedPositive(files, 1);
    StitchedPositive(data, 0, 1);
    PositiveWeights(StackedStitched(files, 0).value, 1);
  }

  method AverageQuantity(case_: string, folders: seq<Folder>, q: string, hs: seq<real>) returns (r: Result<Saved>)
    requires |hs| >= 1
    ensures r == AveragedQuantity(case_, folders, q, hs)
  {
    var files := QuantityFiles(folders, q);
    if folders == [] {
      // `data` was never bound
      assert StackedStitched([], 0) == Err(NameError);
      return Err(NameError);
    }
    var t := StackAndStitch(files, 0);
    if t.Err? {
      return Err(t.error);
    }
    if |hs| == 1 || !HasColumns(t.value, |hs| + 2) {
      return Err(IndexError);
    }
    if !PrefixWeightsNonZero(Column(t.value, 1)) {
      return Err(ZeroDivisionError);
    }
    var table := Interleave(t.value, |hs|);
    if table.Err? {
      return Err(table.error);
    }
    var stem := PathStem(q);
    var names := HeaderNames(stem, hs);
    if !DistinctNames(names) {
      return Err(ValueError);
    }
    r := Ok(Saved(case_ + "_" + stem + ".gz", Join(names, " "), table.value));
  }

  // ---------------------------------------------------------------------------
  // Cases

  /** One case: its name, its time folders in numeric order, and the order
      in which iterating the set of quantities yields them. */
  datatype Case = Case(name: string, folders: seq<Folder>, order: seq<string>)

  /** The quantity loop over the passes in order: the saved files, up to
      the first pass that raises, whose error the loop ends with. */
  function Collected(rs: seq<Result<Saved>>): (r: Result<seq<Saved>>)
    ensures r.Ok? ==> |r.value| == |rs| && forall k :: 0 <= k < |rs| ==> rs[k] == Ok(r.value[k])
    ensures r.Err? <==> exists k :: 0 <= k < |rs| && rs[k].Err?
    decreases |rs|
  {
    if rs == [] then Ok([])
    else
      var init := rs[..|rs| - 1];
      assert forall k :: 0 <= k < |init| ==> init[k] == rs[k];
      match Collected(init)
      case Err(e) => Err(e)
      case Ok(out) =>
        match rs[|rs| - 1]
        case Err(e) => Err(e)
        case Ok(saved) =>
          assert forall k :: 0 <= k < |init| ==> (out + [saved])[k] == out[k];
          Ok(out + [saved])
  }

  /** The loop ends with the error of the first pass that raises. */
  lemma {:induction false} CollectedErr(rs: seq<Result<Saved>>, k: nat)
    requires k < |rs| && Collected(rs[..k]).Ok? && rs[k].Err?
    ensures Collected(rs) == Err(rs[k].error)
    decreases |rs|
  {
    assert rs[..k + 1][..k] == rs[..k];
    if k + 1 < |rs| {
      var init := rs[..|rs| - 1];
      assert init[..k] == rs[..k] && init[k] == rs[k];
      CollectedErr(init, k);
    } else {
      assert rs[..k] == rs[..|rs| - 1];
    }
  }

  /** One more pass that saves its file appends that file. */
  lemma CollectedStep(rs: seq<Result<Saved>>, k: nat, out: seq<Saved>, saved: Saved)
    requires k < |rs| && Collected(rs[..k]) == Ok(out) && rs[k] == Ok(saved)
    ensures Collected(rs[..k + 1]) == Ok(out + [saved])
  {
    assert rs[..k + 1][..k] == rs[..k];
  }

  /** One pass of the quantity loop per quantity, in order. */
  function Passes(case_: string, folders: seq<Folder>, order: seq<string>, hs: seq<real>): (rs: seq<Result<Saved>>)
    requires |hs| >= 1
    ensures |rs| == |order| && forall k :: 0 <= k < |order| ==> rs[k] == AveragedQuantity(case_, folders, order[k], hs)
  {
    seq(|order|, k requires 0 <= k < |order| => AveragedQuantity(case_, folders, order[k], hs))
  }

  /** The quantity loop of one case: one saved file per quantity, in order,
      up to the first quantity that raises. */
  function SavedQuantities(case_: string, folders: seq<Folder>, order: seq<string>, hs: seq<real>): (r: Result<seq<Saved>>)
    requires |hs| >= 1
    ensures r.Ok? ==> |r.value| == |order|
    ensures r.Ok? ==> forall k :: 0 <= k < |order| ==> AveragedQuantity(case_, folders, order[k], hs) == Ok(r.value[k])
    ensures r.Err? <==> exists k :: 0 <= k < |order| && AveragedQuantity(case_, folders, order[k], hs).Err?
  {
    var rs := Passes(case_, folders, order, hs);
    assert forall k :: 0 <= k < |order| ==> rs[k] == AveragedQuantity(case_, folders, order[k], hs);
    Collected(rs)
  }

  /** A prefix of the quantities makes the same passes as the prefix of the passes. */
  lemma PassesPrefix(case_: string, folders: seq<Folder>, order: seq<string>, hs: seq<real>, k: nat)
    requires |hs| >= 1 && k <= |order|
    ensures Passes(case_, folders, order[..k], hs) == Passes(case_, folders, order, hs)[..k]
  {
  }

  /** The heights a case uses: its own when one of its folders has them,
      otherwise those left over from an earlier case. */
  function CaseHeights(c: Case, previous: Option<seq<real>>): Option<seq<real>> {
    if FirstHeights(c.folders).Some? then FirstHeights(c.folders) else previous
  }

  /** One case once its heights are known: `np.argmin(90 - heights)` raises
      NameError when no heights were ever read and ValueError when there are
      none; then the quantity loop. */
  function AveragingCase(c: Case, heights: Option<seq<real>>): (r: Result<seq<Saved>>)
    ensures heights.None? ==> r == Err(NameError)
    ensures heights == Some([]) ==> r == Err(ValueError)
  {
    match heights
    case None => Err(NameError)
    case Some(hs) =>
      if hs == [] then Err(ValueError)
      else SavedQuantities(c.name, c.folders, c.order, hs)
  }

  /** `s` is saved under the name of one quantity of one of the cases. */
  predicate SavedFor(cases: seq<Case>, s: Saved) {
    exists k, j :: 0 <= k < |cases| && 0 <= j < |cases[k].order|
                   && s.name == cases[k].name + "_" + PathStem(cases[k].order[j]) + ".gz"
  }

  /** `main(casenames)` from the given heights on: every file it saves
      belongs to a quantity of one of the cases, and a case reached without
      heights ever read raises NameError. */
  function Averaging(cases: seq<Case>, previous: Option<seq<real>>): (r: Result<seq<Saved>>)
    ensures r.Ok? ==> forall s :: s in r.value ==> SavedFor(cases, s)
    ensures cases != [] && previous.None? && FirstHeights(cases[0].folders).None? ==> r == Err(NameError)
    decreases |cases|
  {
    if cases == [] then Ok([])
    else
      var hs := CaseHeights(cases[0], previous);
      match AveragingCase(cases[0], hs)
      case Err(e) => Err(e)
      case Ok(out) =>
        var rest := Averaging(cases[1..], hs);
        if rest.Ok? then
          assert forall j :: 0 <= j < |out| ==> SavedFor(cases, out[j]) by {
            forall j | 0 <= j < |out| ensures SavedFor(cases, out[j]) {
              assert out[j].name == cases[0].name + "_" + PathStem(cases[0].order[j]) + ".gz";
            }
          }
          SavedForTail(cases, rest.value);
          Prepend(out, rest)
        else Prepend(out, rest)
  }

  /** Files saved for the later cases are saved for the whole list. */
  lemma SavedForTail(cases: seq<Case>, saved: seq<Saved>)
    requires cases != [] && forall s :: s in saved ==> SavedFor(cases[1..], s)
    ensures forall s :: s in saved ==> SavedFor(cases, s)
  {
    forall s | s in saved ensures SavedFor(cases, s) {
      var k, j :| 0 <= k < |cases[1..]| && 0 <= j < |cases[1..][k].order|
                  && s.name == cases[1..][k].name + "_" + PathStem(cases[1..][k].order[j]) + ".gz";
      assert cases[1..][k] == cases[k + 1];
    }
  }

  /** `main`: the loop over the cases, with `heights` living on from one
      case to the next. */
  method AveragingMain(cases: seq<Case>) returns (r: Result<seq<Saved>>)
    requires forall k :: 0 <= k < |cases| ==> Enumerates(cases[k].order, Quantities(cases[k].folders))
    ensures r == Averaging(cases, None)
  {
    var heights: Option<seq<real>> := None;
    var out: seq<Saved> := [];
    assert cases[0..] == cases;
    assert Prepend([], Averaging(cases, None)) == Averaging(cases, None) by {
      if Averaging(cases, None).Ok? { assert [] + Averaging(cases, None).value == Averaging(cases, None).value; }
    }
    for c := 0 to |cases|
      invariant Averaging(cases, None) == Prepend(out, Averaging(cases[c..], heights))
    {
      var qs := DiscoverQuantities(cases[c].folders);
      heights := FindHeights(cases[c].folders, heights);
      var saved := CaseLoop(cases[c], heights);
      if saved.Err? {
        return Err(saved.error);
      }
      PrependPrepend(out, saved.value, Averaging(cases[c + 1..], heights));
      assert cases[c..][1..] == cases[c + 1..];
      out := out + saved.value;
    }
    assert Averaging(cases[|cases|..], heights) == Ok([]);
    assert out + [] == out;
    r := Ok(out);
  }

  /** One case of `main` once its heights are known. */
  method CaseLoop(c: Case, heights: Option<seq<real>>) returns (r: Result<seq<Saved>>)
    ensures r == AveragingCase(c, heights)
  {
    if heights.None? {
      return Err(NameError);
    }
    var hs := heights.value;
    if hs == [] {
      return Err(ValueError);
    }
    ghost var rs := Passes(c.name, c.folders, c.order, hs);
    var out: seq<Saved> := [];
    for k := 0 to |c.order|
      invariant Collected(rs[..k]) == Ok(out)
    {
      var saved := AverageQuantity(c.name, c.folders, c.order[k], hs);
      assert rs[k] == saved;
      if saved.Err? {
        CollectedErr(rs, k);
        return Err(saved.error);
      }
      CollectedStep(rs, k, out, saved.value);
      out := out + [saved.value];
    }
    assert rs[..|c.order|] == rs;
    assert AveragingCase(c, heights) == SavedQuantities(c.name, c.folders, c.order, hs) == Collected(rs);
    r := Ok(out);
  }

  /** The loop stops at the first quantity that raises, with its error. */
  lemma SavedQuantitiesErr(case_: string, folders: seq<Folder>, order: seq<string>, hs: seq<real>, k: nat)
    requires |hs| >= 1 && k < |order|
    requires SavedQuantities(case_, folders, order[..k], hs).Ok?
    requires AveragedQuantity(case_, folders, order[k], hs).Err?
    ensures SavedQuantities(case_, folders, order, hs) == Err(AveragedQuantity(case_, folders, order[k], hs).error)
  {
    var rs := Passes(case_, folders, order, hs);
    PassesPrefix(case_, folders, order, hs, k);
    CollectedErr(rs, k);
  }

  /** A case none of whose folders has a heights file is laid out with the
      heights of the case before it. */
  lemma StaleHeights(first: Case, second: Case)
    requires FirstHeights(first.folders).Some? && FirstHeights(second.folders).None?
    requires AveragingCase(first, FirstHeights(first.folders)).Ok?
    ensures Averaging([first, second], None)
            == Prepend(AveragingCase(first, FirstHeights(first.folders)).value,
                       AveragingCase(second, FirstHeights(first.folders)))
  {
    var h := FirstHeights(first.folders);
    assert CaseHeights(first, None) == h && CaseHeights(second, h) == h;
    assert [first, second][0] == first && [first, second][1..] == [second];
    assert [second][0] == second && [second][1..] == [];
    var o1 := AveragingCase(first, h).value;
    var r2 := AveragingCase(second, h);
    assert Averaging([first, second], None) == Prepend(o1, Averaging([second], h));
    match r2 {
      case Err(e) =>
        assert Averaging([second], h) == Err(e);
      case Ok(o2) =>
        assert Averaging([second], h) == Prepend(o2, Averaging([], h));
        assert o2 + [] == o2;
    }
  }

  /** With no heights file in the first case, `main` raises NameError. */
  lemma NoHeightsFirst(cases: seq<Case>)
    requires |cases| > 0 && FirstHeights(cases[0].folders).None?
    ensures Averaging(cases, None) == Err(NameError)
  {
  }

  // ---------------------------------------------------------------------------
  // What the reduce step reads from this layout

  /** The reduce step, run on a file this script wrote, picks for each
      requested height the raw column of the nearest height, never its
      running average, and keeps the time column. */
  lemma ReduceReadsRawColumns(stem: string, hs: seq<real>, t: Table, n: int, keep: seq<int>, k: nat, j: nat)
    requires forall c :: 0 <= c < |stem| ==> !IsSpace(stem[c])
    requires |hs| >= 1 && (HasColumns(t, 2) ==> PrefixWeightsNonZero(Column(t, 1)))
    requires Interleaved(t, |hs|).Ok?
    requires Reduce(SavedHeaderLine(Join(AveragingNames(stem, hs), " ")), Interleaved(t, |hs|).value, n, keep).Ok?
    requires j < |keep|
    requires k < |Reduce(SavedHeaderLine(Join(AveragingNames(stem, hs), " ")), Interleaved(t, |hs|).value, n, keep).value.rows|
    ensures var ints := seq(|hs|, m requires 0 <= m < |hs| => Trunc(hs[m]));
            var rows := Reduce(SavedHeaderLine(Join(AveragingNames(stem, hs), " ")), Interleaved(t, |hs|).value, n, keep).value.rows;
            && NearestHeights(ints, keep).Ok?
            && ReadsRawColumn(t, rows, StrideIndex(|t|, n, k), k, j, NearestHeights(ints, keep).value[j])
  {
    var line := SavedHeaderLine(Join(AveragingNames(stem, hs), " "));
    AveragingHeaderHeights(stem, hs);
    var ints := seq(|hs|, m requires 0 <= m < |hs| => Trunc(hs[m]));
    ReduceInterleaved(line, ints, t, n, keep, k, j);
  }

  /** Row `k`, column `j + 1` of a reduced table is the raw column of height
      `hidx` in row `i` of the unstitched data, and its column 0 is time. */
  ghost predicate ReadsRawColumn(t: Table, rows: Table, i: int, k: nat, j: nat, hidx: nat) {
    && 0 <= i < |t| && k < |rows| && j + 1 < |rows[k]| && hidx + 2 < |t[i]| && 0 < |t[i]|
    && rows[k][0] == t[i][0]
    && rows[k][j + 1] == t[i][hidx + 2]
  }

  /** Reduce on an interleaved table whose header names heights `ints`. */
  lemma ReduceInterleaved(line: string, ints: seq<int>, t: Table, n: int, keep: seq<int>, k: nat, j: nat)
    requires |ints| >= 1 && (HasColumns(t, 2) ==> PrefixWeightsNonZero(Column(t, 1)))
    requires HeaderHeights(line) == Ok(ints) && Interleaved(t, |ints|).Ok?
    requires Reduce(line, Interleaved(t, |ints|).value, n, keep).Ok?
    requires j < |keep| && k < |Reduce(line, Interleaved(t, |ints|).value, n, keep).value.rows|
    ensures NearestHeights(ints, keep).Ok?
    ensures ReadsRawColumn(t, Reduce(line, Interleaved(t, |ints|).value, n, keep).value.rows,
                           StrideIndex(|t|, n, k), k, j, NearestHeights(ints, keep).value[j])
  {
    var table := Interleaved(t, |ints|).value;
    ReduceHeightCell(line, table, n, keep, ints, k, j);
    RawColumnOfCells(t, |ints|, Reduce(line, table, n, keep).value.rows,
                     StrideIndex(|t|, n, k), k, j, NearestHeights(ints, keep).value[j]);
  }

  /** Rows that copy time and the `2 h + 2` column of the layout read the
      raw column of height `h`. */
  lemma RawColumnOfCells(t: Table, h: nat, rows: Table, i: int, k: nat, j: nat, hidx: nat)
    requires h >= 1 && (HasColumns(t, 2) ==> PrefixWeightsNonZero(Column(t, 1)))
    requires Interleaved(t, h).Ok? && 0 <= i < |t| && hidx < h
    requires k < |rows| && j + 1 < |rows[k]|
    requires rows[k][0] == Interleaved(t, h).value[i][0]
    requires rows[k][j + 1] == Interleaved(t, h).value[i][2 * hidx + 2]
    ensures ReadsRawColumn(t, rows, i, k, j, hidx)
  {
    InterleavedAt(t, h, i, hidx);
  }

  /** Row `k` of a reduction: column 0 is time and column `j + 1` is column
      `2 h + 2` of the decimated row, `h` the header height nearest to the
      `j`th requested one. */
  lemma ReduceHeightCell(line: string, table: Table, n: int, keep: seq<int>, ints: seq<int>, k: nat, j: nat)
    requires |table| > 0 ==> Rectangular(table, |table[0]|)
    requires HeaderHeights(line) == Ok(ints) && Reduce(line, table, n, keep).Ok?
    requires j < |keep| && k < |Reduce(line, table, n, keep).value.rows|
    ensures NearestHeights(ints, keep).Ok? && 0 <= StrideIndex(|table|, n, k) < |table|
    ensures var i := StrideIndex(|table|, n, k);
            var rows := Reduce(line, table, n, keep).value.rows;
            && 2 * NearestHeights(ints, keep).value[j] + 2 < |table[i]| && 0 < |table[i]|
            && j + 1 < |rows[k]|
            && rows[k][0] == table[i][0]
            && rows[k][j + 1] == table[i][2 * NearestHeights(ints, keep).value[j] + 2]
  {
    ReduceOnHeights(line, table, n, keep, ints);
    DecimatedHeightCell(table, n, keep, ints, k, j);
  }

  /** The same cell, read off the decimation by the column map. */
  lemma DecimatedHeightCell(table: Table, n: int, keep: seq<int>, ints: seq<int>, k: nat, j: nat)
    requires |table| > 0 ==> Rectangular(table, |table[0]|)
    requires ColumnIndex(ints, keep).Ok? && Decimated(table, ColumnIndex(ints, keep).value, n).Ok?
    requires j < |keep| && k < |Decimated(table, ColumnIndex(ints, keep).value, n).value|
    ensures NearestHeights(ints, keep).Ok? && 0 <= StrideIndex(|table|, n, k) < |table|
    ensures var i := StrideIndex(|table|, n, k);
            var rows := Decimated(table, ColumnIndex(ints, keep).value, n).value;
            && 2 * NearestHeights(ints, keep).value[j] + 2 < |table[i]| && 0 < |table[i]|
            && j + 1 < |rows[k]|
            && rows[k][0] == table[i][0]
            && rows[k][j + 1] == table[i][2 * NearestHeights(ints, keep).value[j] + 2]
  {
    var idx := ColumnIndex(ints, keep).value;
    DecimatedCell(table, idx, n, k, 0);
    DecimatedCell(table, idx, n, k, j + 1);
  }

  /** One cell of a decimated table. */
  lemma DecimatedCell(data: Table, idx: seq<nat>, n: int, k: nat, c: nat)
    requires |data| > 0 ==> Rectangular(data, |data[0]|)
    requires Decimated(data, idx, n).Ok? && k < |Decimated(data, idx, n).value| && c < |idx|
    ensures 0 <= StrideIndex(|data|, n, k) < |data| && idx[c] < |data[StrideIndex(|data|, n, k)]|
    ensures Decimated(data, idx, n).value[k][c] == data[StrideIndex(|data|, n, k)][idx[c]]
  {
  }

  /** Once the header names the heights, reduce is the decimation by the
      column map of those heights. */
  lemma ReduceOnHeights(line: string, table: Table, n: int, keep: seq<int>, ints: seq<int>)
    requires |table| > 0 ==> Rectangular(table, |table[0]|)
    requires HeaderHeights(line) == Ok(ints)
    requires Reduce(line, table, n, keep).Ok?
    ensures ColumnIndex(ints, keep).Ok? && Decimated(table, ColumnIndex(ints, keep).value, n).Ok?
    ensures Reduce(line, table, n, keep).value.rows == Decimated(table, ColumnIndex(ints, keep).value, n).value
  {
  }
}
