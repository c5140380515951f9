/** `sowfatools/precursortools.py`: precursor averaging tools packaged with `sowfatools`.

    `precursorAveraging` stitches, for one case, each quantity's rows from
    all time folders into one table (no running averages here) under a
    header of metre labels `time dt {h}m ...`.  `precursoraveragingreduce`
    extracts every `N`th row at chosen heights from the averaging files of a
    case, reading their headers the way `precursorAveraging.py` writes them.

    Folders, their listings, heights and tables are those of
    `PrecursorAveraging`; the files present before a run are a set of names. */
module PrecursorTools {
  import opened Common
  import opened Strings
  import opened Tables
  import opened Utils
  import opened Stacking
  import opened HeightHeaders
  import opened PrecursorAveragingReduce
  import opened PrecursorAveraging
  import opened AveragingFiles

  // ---------------------------------------------------------------------------
  // precursorAveraging: header

  /** `[f'{int(i)}m' for i in heights]`. */
  function MetreLabels(hs: seq<real>): (r: seq<string>)
    ensures |r| == |hs| && forall k :: 0 <= k < |hs| ==> r[k] == MetreLabel(Trunc(hs[k]))
  {
    seq(|hs|, k requires 0 <= k < |hs| => MetreLabel(Trunc(hs[k])))
  }

  /** `' '.join(['time', 'dt'] + labels)`: once saved, its line reads as `#`,
      `time`, `dt` and one label per height. */
  function ToolsHeader(hs: seq<real>): (r: string)
    ensures Words(SavedHeaderLine(r)) == ["#", "time", "dt"] + MetreLabels(hs)
  {
    var names := ["time", "dt"] + MetreLabels(hs);
    MetreLabelsAreWords(hs);
    assert IsWord("time") && IsWord("dt");
    SavedHeaderWords(names);
    assert ["#"] + names == ["#", "time", "dt"] + MetreLabels(hs);
    Join(names, " ")
  }

  lemma MetreLabelsAreWords(hs: seq<real>)
    ensures forall k :: 0 <= k < |hs| ==> IsWord(MetreLabels(hs)[k])
  {
    forall k | 0 <= k < |hs| ensures IsWord(MetreLabels(hs)[k]) {
      IntWord(Trunc(hs[k]));
    }
  }

  // ---------------------------------------------------------------------------
  // precursorAveraging: one quantity

  /** `{casename}_{quantity.stem}.gz`. */
  function OutputName(case_: string, q: string): string {
    case_ + "_" + PathStem(q) + ".gz"
  }

  /** One quantity's rows from every time folder, stacked in folder order
      (a folder without the file raises FileNotFoundError) and stitched on
      time, saved under the case header.  A lone file of one row, or of one
      column, is read one-dimensional and raises IndexError. */
  function StitchedQuantity(case_: string, folders: seq<Folder>, q: string, header: string): (r: Result<Saved>)
    ensures (exists f :: 0 <= f < |folders| && q !in folders[f].files) ==> r == Err(FileNotFoundError)
    ensures LoneVector(QuantityFiles(folders, q)) ==> r == Err(IndexError)
    ensures r.Ok? ==> r.value.name == OutputName(case_, q) && r.value.header == header
  {
    match StackedStitched(QuantityFiles(folders, q), 0)
    case Err(e) => Err(e)
    case Ok(t) => Ok(Saved(OutputName(case_, q), header, t))
  }

  /** The saved rows are rows of the stacked folders, verbatim and in
      order, ending with the last row of the last folder: the later run
      wins every overlap. */
  lemma StitchedQuantityRows(case_: string, folders: seq<Folder>, q: string, header: string) returns (idx: seq<nat>)
    requires StitchedQuantity(case_, folders, q, header).Ok?
    ensures Stacked(QuantityFiles(folders, q)).Ok?
    ensures var stacked := Stacked(QuantityFiles(folders, q)).value;
            && IndexMap(idx, StitchedQuantity(case_, folders, q, header).value.table, stacked)
            && |idx| >= 1 && idx[|idx| - 1] == |stacked| - 1
  {
    idx := StitchedSubsequence(Stacked(QuantityFiles(folders, q)).value, 0);
  }

  /** The folder loop (`'data' not in locals()`) and `remove_overlaps`. */
  method StitchQuantity(case_: string, folders: seq<Folder>, q: string, header: string) returns (r: Result<Saved>)
    requires |folders| > 0
    ensures r == StitchedQuantity(case_, folders, q, header)
  {
    var t := StackAndStitch(QuantityFiles(folders, q), 0);
    if t.Err? {
      return Err(t.error);
    }
    r := Ok(Saved(OutputName(case_, q), header, t.value));
  }

  // ---------------------------------------------------------------------------
  // precursorAveraging: the quantity loop

  /** Every file `save` writes for a quantity is that quantity's output. */
  ghost predicate NamesOutputs(case_: string, save: string -> Result<Saved>) {
    forall q :: save(q).Ok? ==> save(q).value.name == OutputName(case_, q)
  }

  /** Some file of `out` has this name. */
  predicate Wrote(out: seq<Saved>, name: string) {
    exists k :: 0 <= k < |out| && out[k].name == name
  }

  /** The loop over the quantities from `order` on, in the order the set
      yields them, where `present` names the output files that exist at that
      point: a quantity whose output exists is skipped unless `overwrite` is
      set, the others are saved (and then exist), up to the first that
      raises. */
  function StitchedQuantities(case_: string, order: seq<string>, save: string -> Result<Saved>,
                              present: set<string>, overwrite: bool): (r: Result<seq<Saved>>)
    ensures r.Ok? ==> |r.value| <= |order|
    ensures r.Err? ==> exists m :: 0 <= m < |order| && save(order[m]) == Err(r.error)
    decreases |order|
  {
    if order == [] then Ok([])
    else
      var name := OutputName(case_, order[0]);
      assert forall m :: 0 <= m < |order| - 1 ==> order[1..][m] == order[m + 1];
      if !overwrite && name in present then
        StitchedQuantities(case_, order[1..], save, present, overwrite)
      else
        match save(order[0])
        case Err(e) => Err(e)
        case Ok(saved) => Prepend([saved], StitchedQuantities(case_, order[1..], save, present + {name}, overwrite))
  }

  /** Every saved file is the stitched table of one of the quantities. */
  lemma {:induction false} SavedIsQuantity(case_: string, order: seq<string>, save: string -> Result<Saved>,
                                           present: set<string>, overwrite: bool, k: nat) returns (m: nat)
    requires StitchedQuantities(case_, order, save, present, overwrite).Ok?
    requires k < |StitchedQuantities(case_, order, save, present, overwrite).value|
    ensures m < |order|
    ensures save(order[m])
            == Ok(StitchedQuantities(case_, order, save, present, overwrite).value[k])
    decreases |order|
  {
    var name := OutputName(case_, order[0]);
    var all := StitchedQuantities(case_, order, save, present, overwrite).value;
    if !overwrite && name in present {
      var m' := SavedIsQuantity(case_, order[1..], save, present, overwrite, k);
      m := m' + 1;
    } else if k == 0 {
      m := 0;
    } else {
      var tail := StitchedQuantities(case_, order[1..], save, present + {name}, overwrite).value;
      assert all[k] == tail[k - 1];
      var m' := SavedIsQuantity(case_, order[1..], save, present + {name}, overwrite, k - 1);
      m := m' + 1;
    }
  }

  /** Without `overwrite`, no file present before the run is replaced. */
  lemma {:induction false} KeepsExisting(case_: string, order: seq<string>, save: string -> Result<Saved>,
                                         present: set<string>, k: nat)
    requires NamesOutputs(case_, save)
    requires StitchedQuantities(case_, order, save, present, false).Ok?
    requires k < |StitchedQuantities(case_, order, save, present, false).value|
    ensures StitchedQuantities(case_, order, save, present, false).value[k].name !in present
    decreases |order|
  {
    var name := OutputName(case_, order[0]);
    if name in present {
      KeepsExisting(case_, order[1..], save, present, k);
    } else if k > 0 {
      KeepsExisting(case_, order[1..], save, present + {name}, k - 1);
    }
  }

  /** Without `overwrite`, no file is written twice in a run. */
  lemma {:induction false} WritesOnce(case_: string, order: seq<string>, save: string -> Result<Saved>,
                                      present: set<string>, k: nat, l: nat)
    requires NamesOutputs(case_, save)
    requires StitchedQuantities(case_, order, save, present, false).Ok?
    requires k < l < |StitchedQuantities(case_, order, save, present, false).value|
    ensures StitchedQuantities(case_, order, save, present, false).value[k].name
            != StitchedQuantities(case_, order, save, present, false).value[l].name
    decreases |order|
  {
    var name := OutputName(case_, order[0]);
    if name in present {
      WritesOnce(case_, order[1..], save, present, k, l);
    } else if k == 0 {
      KeepsExisting(case_, order[1..], save, present + {name}, l - 1);
    } else {
      WritesOnce(case_, order[1..], save, present + {name}, k - 1, l - 1);
    }
  }

  /** Every quantity has its output file at the end, unless the file
      existed before and `overwrite` is off. */
  lemma {:induction false} EveryQuantitySaved(case_: string, order: seq<string>, save: string -> Result<Saved>,
                                              present: set<string>, overwrite: bool, m: nat)
    requires NamesOutputs(case_, save)
    requires StitchedQuantities(case_, order, save, present, overwrite).Ok?
    requires m < |order|
    ensures (!overwrite && OutputName(case_, order[m]) in present)
            || Wrote(StitchedQuantities(case_, order, save, present, overwrite).value, OutputName(case_, order[m]))
    decreases |order|
  {
    var name := OutputName(case_, order[0]);
    if !overwrite && name in present {
      if m > 0 {
        StitchedSkip(case_, order, save, present, overwrite);
        EveryQuantitySaved(case_, order[1..], save, present, overwrite, m - 1);
        assert order[1..][m - 1] == order[m];
      }
    } else {
      StitchedHead(case_, order, save, present, overwrite);
      if m > 0 {
        EveryQuantitySaved(case_, order[1..], save, present + {name}, overwrite, m - 1);
        assert order[1..][m - 1] == order[m];
      }
      SavedAfterHead(StitchedQuantities(case_, order, save, present, overwrite).value,
                     StitchedQuantities(case_, order[1..], save, present + {name}, overwrite).value,
                     name, OutputName(case_, order[m]), m == 0, !overwrite && OutputName(case_, order[m]) in present + {name});
    }
  }

  /** A skipped quantity leaves the rest of the loop as it is. */
  lemma StitchedSkip(case_: string, order: seq<string>, save: string -> Result<Saved>,
                     present: set<string>, overwrite: bool)
    requires order != [] && !overwrite && OutputName(case_, order[0]) in present
    ensures StitchedQuantities(case_, order, save, present, overwrite)
            == StitchedQuantities(case_, order[1..], save, present, overwrite)
  {
  }

  /** The output after a saved head file: the file itself, or one the rest of
      the loop wrote, or one that existed and is skipped. */
  lemma SavedAfterHead(all: seq<Saved>, tail: seq<Saved>, name: string, x: string, first: bool, skipped: bool)
    requires all != [] && all[0].name == name && all == [all[0]] + tail
    requires first ==> x == name
    requires !first ==> skipped || Wrote(tail, x)
    ensures Wrote(all, x) || (skipped && x != name)
  {
    if first || x == name {
      assert all[0].name == x;
    } else if Wrote(tail, x) {
      WroteBefore(all[0], tail, x);
    }
  }

  /** A quantity that is not skipped and whose loop succeeds saved its own
      file first. */
  lemma StitchedHead(case_: string, order: seq<string>, save: string -> Result<Saved>,
                     present: set<string>, overwrite: bool)
    requires NamesOutputs(case_, save)
    requires order != [] && StitchedQuantities(case_, order, save, present, overwrite).Ok?
    requires overwrite || OutputName(case_, order[0]) !in present
    ensures save(order[0]).Ok?
    ensures StitchedQuantities(case_, order[1..], save, present + {OutputName(case_, order[0])}, overwrite).Ok?
    ensures StitchedQuantities(case_, order, save, present, overwrite).value
            == [save(order[0]).value]
               + StitchedQuantities(case_, order[1..], save, present + {OutputName(case_, order[0])}, overwrite).value
    ensures save(order[0]).value.name == OutputName(case_, order[0])
  {
  }

  lemma WroteBefore(head: Saved, tail: seq<Saved>, x: string)
    requires Wrote(tail, x)
    ensures Wrote([head] + tail, x)
  {
    var j :| 0 <= j < |tail| && tail[j].name == x;
    assert ([head] + tail)[j + 1] == tail[j];
  }

  /** With `overwrite` set nothing is skipped: one file per quantity, in
      order. */
  lemma {:induction false} OverwriteSavesAll(case_: string, order: seq<string>, save: string -> Result<Saved>,
                                             present: set<string>, m: nat)
    requires StitchedQuantities(case_, order, save, present, true).Ok?
    requires m < |order|
    ensures |StitchedQuantities(case_, order, save, present, true).value| == |order|
    ensures save(order[m])
            == Ok(StitchedQuantities(case_, order, save, present, true).value[m])
    decreases |order|
  {
    var name := OutputName(case_, order[0]);
    var all := StitchedQuantities(case_, order, save, present, true).value;
    var tail := StitchedQuantities(case_, order[1..], save, present + {name}, true).value;
    assert all == [all[0]] + tail;
    if |order| > 1 {
      OverwriteSavesAll(case_, order[1..], save, present + {name}, if m > 0 then m - 1 else 0);
      if m > 0 {
        assert order[1..][m - 1] == order[m] && all[m] == tail[m - 1];
      }
    }
  }

  // ---------------------------------------------------------------------------
  // precursorAveraging: one case

  /** `precursorAveraging(casename, overwrite)`.  Without the averaging
      directory the case is skipped; without an `hLevelsCell` file in any
      folder it raises FileNotFoundError; a single height is read as a
      zero-dimensional array, whose iteration raises TypeError. */
  function ToolsAveraging(c: Case, hasReadDir: bool, existing: set<string>, overwrite: bool): (r: Result<seq<Saved>>)
    ensures r.Ok? && hasReadDir ==> FirstHeights(c.folders).Some? && |FirstHeights(c.folders).value| != 1
    ensures r.Ok? && hasReadDir ==> forall k :: 0 <= k < |r.value| ==>
              Words(SavedHeaderLine(r.value[k].header)) == ["#", "time", "dt"] + MetreLabels(FirstHeights(c.folders).value)
  {
    if !hasReadDir then Ok([])
    else
      match FirstHeights(c.folders)
      case None => Err(FileNotFoundError)
      case Some(hs) =>
        if |hs| == 1 then Err(TypeError)
        else
          var header := ToolsHeader(hs);
          var save := q => StitchedQuantity(c.name, c.folders, q, header);
          var r := StitchedQuantities(c.name, c.order, save, existing, overwrite);
          assert r.Ok? ==> forall k :: 0 <= k < |r.value| ==> r.value[k].header == header by {
            if r.Ok? {
              forall k | 0 <= k < |r.value| ensures r.value[k].header == header {
                var m := SavedIsQuantity(c.name, c.order, save, existing, overwrite, k);
              }
            }
          }
          r
  }

  /** The function body of `precursorAveraging` for a case. */
  method PrecursorAveragingCase(c: Case, hasReadDir: bool, existing: set<string>, overwrite: bool)
    returns (r: Result<seq<Saved>>)
    requires Enumerates(c.order, Quantities(c.folders))
    ensures r == ToolsAveraging(c, hasReadDir, existing, overwrite)
  {
    if !hasReadDir {
      return Ok([]);
    }
    var qs := DiscoverQuantities(c.folders);
    var heights := FindHeights(c.folders, None);
    if heights.None? {
      return Err(FileNotFoundError);
    }
    if |heights.value| == 1 {
      return Err(TypeError);
    }
    var header := ToolsHeader(heights.value);
    r := QuantityLoop(c.name, c.folders, c.order, header, existing, overwrite);
  }

  /** `for quantity in quantities`, with the skip test against the files
      that exist: those present before the run and those saved since. */
  method QuantityLoop(case_: string, folders: seq<Folder>, order: seq<string>, header: string,
                      existing: set<string>, overwrite: bool) returns (r: Result<seq<Saved>>)
    requires |folders| > 0
    ensures r == StitchedQuantities(case_, order, q => StitchedQuantity(case_, folders, q, header), existing, overwrite)
  {
    var save := q => StitchedQuantity(case_, folders, q, header);
    var out: seq<Saved> := [];
    var present := existing;
    assert order[0..] == order;
    assert Prepend([], StitchedQuantities(case_, order, save, existing, overwrite))
           == StitchedQuantities(case_, order, save, existing, overwrite) by {
      var all := StitchedQuantities(case_, order, save, existing, overwrite);
      if all.Ok? { assert [] + all.value == all.value; }
    }
    for k := 0 to |order|
      invariant StitchedQuantities(case_, order, save, existing, overwrite)
                == Prepend(out, StitchedQuantities(case_, order[k..], save, present, overwrite))
    {
      assert order[k..][0] == order[k] && order[k..][1..] == order[k + 1..];
      var name := OutputName(case_, order[k]);
      if name in present && !overwrite {
        continue;
      }
      var saved := StitchQuantity(case_, folders, order[k], header);
      if saved.Err? {
        return Err(saved.error);
      }
      PrependPrepend(out, [saved.value], StitchedQuantities(case_, order[k + 1..], save, present + {name}, overwrite));
      out := out + [saved.value];
      present := present + {name};
    }
    assert order[|order|..] == [];
    assert out + [] == out;
    r := Ok(out);
  }

  // ---------------------------------------------------------------------------
  // precursoraveragingreduce

  /** One pass of the quantity loop: `gzip.open` raises FileNotFoundError
      when the averaging file is absent; otherwise the file's reduction,
      saved as `{casename}_{quantity}_reduced.gz` under `time {h}m ...`. */
  function ReducedFile(case_: string, files: map<string, AveragingFile>, q: string, n: int, keep: seq<int>): (r: Result<Saved>)
    requires RectangularFiles(files)
    ensures AveragingName(case_, q) !in files ==> r == Err(FileNotFoundError)
    ensures r.Ok? ==> r.value.name == case_ + "_" + q + "_reduced.gz"
    ensures r.Ok? ==> Words(r.value.header) == ["time"] + seq(|keep|, j requires 0 <= j < |keep| => MetreLabel(keep[j]))
  {
    var name := AveragingName(case_, q);
    if name !in files then Err(FileNotFoundError)
    else
      match Reduce(files[name].line, files[name].rows, n, keep)
      case Err(e) => Err(e)
      case Ok(red) => Ok(Saved(case_ + "_" + q + "_reduced.gz", red.header, red.rows))
  }

  /** `precursoraveragingreduce(casename, N, heights_to_keep,
      quantities_to_keep)` over the files of the case. */
  method PrecursorAveragingReduceCase(case_: string, files: map<string, AveragingFile>, qs: seq<string>,
                                      n: int, keep: seq<int>) returns (r: Result<seq<Saved>>)
    requires RectangularFiles(files)
    ensures r == Each(qs, q => ReducedFile(case_, files, q, n, keep))
  {
    var save := q => ReducedFile(case_, files, q, n, keep);
    var out: seq<Saved> := [];
    for k := 0 to |qs|
      invariant Each(qs[..k], save) == Ok(out)
    {
      assert qs[..k + 1][..k] == qs[..k];
      var name := AveragingName(case_, qs[k]);
      if name !in files {
        EachErr(qs, save, k);
        return Err(FileNotFoundError);
      }
      var red := ReduceQuantity(files[name].line, files[name].rows, n, keep);
      if red.Err? {
        EachErr(qs, save, k);
        return Err(red.error);
      }
      out := out + [Saved(case_ + "_" + qs[k] + "_reduced.gz", red.value.header, red.value.rows)];
    }
    assert qs[..|qs|] == qs;
    r := Ok(out);
  }

  // ---------------------------------------------------------------------------
  // The reduce step and the files this module writes

  /** A metre label `{h}m` has no `_` and ends in a letter, so the reduce
      step's `int(token.split('_')[-1])` rejects it. */
  lemma MetreLabelNotHeight(h: int)
    ensures TokenHeight(MetreLabel(h)) == None
  {
    var s := MetreLabel(h);
    IntToStringChars(h);
    assert forall i :: 0 <= i < |s| ==> s[i] != '_';
    SplitFromAbsent(s, "_", "");
    assert Last(Split(s, "_")) == s;
    assert !IsDigit(s[|s| - 1]);
  }

  /** As written, `precursoraveragingreduce` cannot read a file that
      `precursorAveraging` of this module wrote: the first height token of
      its header is a metre label, and when there are no heights the
      nearest-height search has nothing to choose from.  Either way it
      raises ValueError. */
  lemma ToolsHeaderNotReducible(hs: seq<real>, rows: Table, n: int, keep: seq<int>)
    requires |hs| >= 1 || keep != []
    requires |rows| > 0 ==> Rectangular(rows, |rows[0]|)
    ensures Reduce(SavedHeaderLine(ToolsHeader(hs)), rows, n, keep) == Err(ValueError)
  {
    var line := SavedHeaderLine(ToolsHeader(hs));
    var tokens := HeightTokens(line);
    if |hs| >= 1 {
      assert tokens[0] == MetreLabel(Trunc(hs[0]));
      MetreLabelNotHeight(Trunc(hs[0]));
      assert HeaderHeights(line) == Err(ValueError);
    } else {
      assert tokens == [];
      assert HeaderHeights(line) == Ok([]);
    }
  }

  /** The same for the files of a whole case: every file `precursorAveraging`
      saves makes the reduce step raise ValueError when it reads it back. */
  lemma ToolsOutputNotReducible(c: Case, existing: set<string>, overwrite: bool, k: nat,
                                files: map<string, AveragingFile>, q: string, n: int, keep: seq<int>)
    requires keep != [] && RectangularFiles(files)
    requires ToolsAveraging(c, true, existing, overwrite).Ok?
    requires k < |ToolsAveraging(c, true, existing, overwrite).value|
    requires AveragingName(c.name, q) in files
    requires files[AveragingName(c.name, q)].line == SavedHeaderLine(ToolsAveraging(c, true, existing, overwrite).value[k].header)
    ensures ReducedFile(c.name, files, q, n, keep) == Err(ValueError)
  {
    var hs := FirstHeights(c.folders).value;
    var f := files[AveragingName(c.name, q)];
    var header := ToolsAveraging(c, true, existing, overwrite).value[k].header;
    assert Words(SavedHeaderLine(header)) == Words(SavedHeaderLine(ToolsHeader(hs)));
    ReduceSameWords(SavedHeaderLine(header), SavedHeaderLine(ToolsHeader(hs)), f.rows, n, keep);
    ToolsHeaderNotReducible(hs, f.rows, n, keep);
  }

  /** Reduce reads its header line only through its words. */
  lemma ReduceSameWords(a: string, b: string, rows: Table, n: int, keep: seq<int>)
    requires Words(a) == Words(b)
    requires |rows| > 0 ==> Rectangular(rows, |rows[0]|)
    ensures Reduce(a, rows, n, keep) == Reduce(b, rows, n, keep)
  {
    assert HeaderHeights(a) == HeaderHeights(b);
  }

  /** The evidently intended reading of a `precursorAveraging` header:
      every word after `# time dt` is a metre label `{h}m`; ValueError when
      one is not. */
  function MetreHeights(line: string): (r: Result<seq<int>>)
    ensures r.Err? <==> |Words(line)| > 3 && exists k :: 3 <= k < |Words(line)| && MetreHeight(Words(line)[k]).None?
    ensures r.Err? ==> r.error == ValueError
    ensures r.Ok? ==> |r.value| == (if |Words(line)| <= 3 then 0 else |Words(line)| - 3)
    ensures r.Ok? ==> forall k :: 0 <= k < |r.value| ==> MetreHeight(Words(line)[k + 3]) == Some(r.value[k])
  {
    MetreWords(Words(line))
  }

  /** The metre labels among the words of a header line. */
  function MetreWords(w: seq<string>): (r: Result<seq<int>>)
    ensures r.Err? <==> |w| > 3 && exists k :: 3 <= k < |w| && MetreHeight(w[k]).None?
    ensures r.Err? ==> r.error == ValueError
    ensures r.Ok? ==> |r.value| == (if |w| <= 3 then 0 else |w| - 3)
    ensures r.Ok? ==> forall k :: 0 <= k < |r.value| ==> MetreHeight(w[k + 3]) == Some(r.value[k])
  {
    if |w| <= 3 then Ok([])
    else if exists k :: 3 <= k < |w| && MetreHeight(w[k]).None? then Err(ValueError)
    else
      var labels := w[3..];
      assert forall k :: 0 <= k < |labels| ==> labels[k] == w[k + 3];
      Ok(seq(|labels|, k requires 0 <= k < |labels| => MetreHeight(labels[k]).value))
  }

  /** `int(token.removesuffix('m'))`. */
  function MetreHeight(token: string): Option<int> {
    ParseInt(RemoveSuffix(token, "m"))
  }

  /** The metre headers round-trip: a saved `precursorAveraging` header
      reads back as the truncated heights it was written from. */
  lemma MetreHeightsOfHeader(hs: seq<real>)
    ensures MetreHeights(SavedHeaderLine(ToolsHeader(hs))) == Ok(Truncs(hs))
  {
    var w := Words(SavedHeaderLine(ToolsHeader(hs)));
    forall k | 3 <= k < |w| ensures MetreHeight(w[k]) == Some(Truncs(hs)[k - 3]) {
      assert w[k] == MetreLabel(Trunc(hs[k - 3]));
      MetreLabelReads(Trunc(hs[k - 3]));
    }
    var r := MetreHeights(SavedHeaderLine(ToolsHeader(hs)));
    if |w| > 3 {
      assert r.value == Truncs(hs);
    }
  }

  /** `int(f'{h}m'.removesuffix('m'))` is `h`. */
  lemma MetreLabelReads(h: int)
    ensures MetreHeight(MetreLabel(h)) == Some(h)
  {
    assert EndsWith(MetreLabel(h), "m");
    assert RemoveSuffix(MetreLabel(h), "m") == IntToString(h);
    ParseIntToString(h);
  }

  /** `[int(h) for h in heights]`. */
  function Truncs(hs: seq<real>): (r: seq<int>)
    ensures |r| == |hs| && forall k :: 0 <= k < |hs| ==> r[k] == Trunc(hs[k])
  {
    seq(|hs|, k requires 0 <= k < |hs| => Trunc(hs[k]))
  }

  /** The column map for a table without running averages: 0 for time, then
      `k + 2` for the `k`th height, past the time and dt columns. */
  function IntendedColumnIndex(heights: seq<int>, keep: seq<int>): (r: Result<seq<nat>>)
    ensures r.Err? <==> heights == [] && keep != []
    ensures r.Ok? ==> |r.value| == |keep| + 1 && r.value[0] == 0
    ensures r.Ok? ==> NearestHeights(heights, keep).Ok? && forall j :: 0 <= j < |keep| ==>
              r.value[j + 1] == NearestHeights(heights, keep).value[j] + 2
  {
    match NearestHeights(heights, keep)
    case Err(e) => Err(e)
    case Ok(hidx) => Ok([0] + seq(|keep|, j requires 0 <= j < |keep| => hidx[j] + 2))
  }

  /** The reduction of a `precursorAveraging` file as evidently intended:
      its metre header read as such and its columns taken without the
      interleaving of running averages. */
  function IntendedReduce(line: string, data: Table, n: int, keep: seq<int>): (r: Result<Reduced>)
    requires |data| > 0 ==> Rectangular(data, |data[0]|)
    ensures r.Ok? ==> r.value.header == ReducedHeader(keep)
  {
    match MetreHeights(line)
    case Err(e) => Err(e)
    case Ok(heights) =>
      match IntendedColumnIndex(heights, keep)
      case Err(e) => Err(e)
      case Ok(idx) =>
        if |data| < 2 || |data[0]| < 2 then Err(IndexError)
        else
          match Decimated(data, idx, n)
          case Err(e) => Err(e)
          case Ok(rows) => Ok(Reduced(rows, ReducedHeader(keep)))
  }

  /** The corrected reduce reads a `precursorAveraging` file: with at least
      one height, two rows and a non-zero step it succeeds, and row `k` of
      the result holds the time and, in column `j + 1`, the value at the
      height nearest to `keep[j]` from the `k`th selected row. */
  lemma {:induction false} IntendedReduceReads(hs: seq<real>, t: Table, n: int, keep: seq<int>, k: nat, j: nat)
    requires |hs| >= 1 && n != 0 && |t| >= 2 && Rectangular(t, |hs| + 2)
    ensures IntendedReduce(SavedHeaderLine(ToolsHeader(hs)), t, n, keep).Ok?
    ensures |IntendedReduce(SavedHeaderLine(ToolsHeader(hs)), t, n, keep).value.rows| == StrideCount(|t|, n)
    ensures NearestHeights(Truncs(hs), keep).Ok?
    ensures k < StrideCount(|t|, n) && j < |keep| ==>
              ReadsRawColumn(t, IntendedReduce(SavedHeaderLine(ToolsHeader(hs)), t, n, keep).value.rows,
                          StrideIndex(|t|, n, k), k, j, NearestHeights(Truncs(hs), keep).value[j])
  {
    var line := SavedHeaderLine(ToolsHeader(hs));
    MetreHeightsOfHeader(hs);
    var ints := Truncs(hs);
    var idx := IntendedColumnIndex(ints, keep).value;
    var hidx := NearestHeights(ints, keep).value;
    assert forall m :: 0 <= m < |idx| ==> idx[m] < |t[0]| by {
      forall m | 0 <= m < |idx| ensures idx[m] < |t[0]| {
        if m > 0 { assert idx[m] == hidx[m - 1] + 2; }
      }
    }
    var rows := Decimated(t, idx, n).value;
    if k < StrideCount(|t|, n) && j < |keep| {
      var i := StrideIndex(|t|, n, k);
      assert rows[k][0] == t[i][idx[0]];
      assert rows[k][j + 1] == t[i][idx[j + 1]];
    }
  }
}
