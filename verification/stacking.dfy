/** Stacking the rows a quantity has in each run's time folder
    (`np.vstack`), in folder order. */
module Stacking {
  import opened Common
  import opened Tables
  import opened Utils

  /** The number of rows of all folders together. */
  function SumRows(folders: seq<Option<Table>>): nat {
    if folders == [] then 0
    else SumRows(folders[..|folders| - 1])
         + (match folders[|folders| - 1] case None => 0 case Some(x) => |x|)
  }

  /** The rows of every time folder, in folder order (`np.vstack`); a folder
      without the file raises FileNotFoundError. */
  function Stacked(folders: seq<Option<Table>>): (r: Result<Table>)
    ensures r.Err? <==> exists f :: 0 <= f < |folders| && folders[f].None?
    ensures r.Err? ==> r.error == FileNotFoundError
    ensures r.Ok? ==> |r.value| == SumRows(folders)
  {
    if folders == [] then Ok([])
    else
      match Stacked(folders[..|folders| - 1])
      case Err(e) => Err(e)
      case Ok(t) =>
        match folders[|folders| - 1]
        case None => Err(FileNotFoundError)
        case Some(x) => Ok(t + x)
  }

  lemma {:induction false} StackedColumns(folders: seq<Option<Table>>, w: nat)
    requires forall f :: 0 <= f < |folders| && folders[f].Some? ==> HasColumns(folders[f].value, w)
    requires Stacked(folders).Ok?
    ensures HasColumns(Stacked(folders).value, w)
  {
    if folders != [] {
      StackedColumns(folders[..|folders| - 1], w);
    }
  }

  /** Stacking keeps a column positive when it is positive in every folder. */
  lemma {:induction false} StackedPositive(folders: seq<Option<Table>>, c: nat)
    requires forall f :: 0 <= f < |folders| && folders[f].Some? ==> PositiveColumn(folders[f].value, c)
    requires Stacked(folders).Ok?
    ensures PositiveColumn(Stacked(folders).value, c)
  {
    if folders != [] {
      StackedPositive(folders[..|folders| - 1], c);
    }
  }

  /** The folder loop of the averaging scripts: the first table read binds
      `data` (`'data' not in locals()`), every later one is stacked under it;
      a missing file raises FileNotFoundError. */
  method StackOnLocals(folders: seq<Option<Table>>) returns (r: Result<Table>)
    requires |folders| > 0
    ensures r == Stacked(folders)
  {
    var data: Option<Table> := None;
    for f := 0 to |folders|
      invariant f == 0 <==> data.None?
      invariant f > 0 ==> Stacked(folders[..f]) == Ok(data.value)
    {
      assert folders[..f + 1][..f] == folders[..f];
      match folders[f] {
        case None =>
          assert Stacked(folders).Err?;
          return Err(FileNotFoundError);
        case Some(raw) =>
          if data.None? {
            assert folders[..1][..0] == [];
            assert [] + raw == raw;
            data := Some(raw);
          } else {
            data := Some(data.value + raw);
          }
      }
    }
    assert folders[..|folders|] == folders;
    r := Ok(data.value);
  }

  // ---------------------------------------------------------------------------
  // One-dimensional reads

  /** `np.genfromtxt` squeezes the array of a file with one row, or with one
      column, to one dimension (a single value to none). */
  predicate OneDimensional(t: Table) {
    |t| == 1 || (|t| >= 2 && forall i :: 0 <= i < |t| ==> |t[i]| == 1)
  }

  /** After a folder loop that read a single file, `data` is that file's
      array; when it is one-dimensional, `data[i, c]` in `remove_overlaps`
      (or `data.shape[0]` of a zero-dimensional array) raises IndexError.
      Stacked under another array, a one-row file is a row like any other. */
  predicate LoneVector(folders: seq<Option<Table>>) {
    |folders| == 1 && folders[0].Some? && OneDimensional(folders[0].value)
  }

  /** `data = utils.remove_overlaps(data, c)` after the folder loop. */
  function StackedStitched(folders: seq<Option<Table>>, c: nat): (r: Result<Table>)
    ensures Stacked(folders).Err? ==> r == Err(FileNotFoundError)
    ensures LoneVector(folders) ==> r == Err(IndexError)
    ensures r.Ok? ==> && !LoneVector(folders) && Stacked(folders).Ok?
                      && Stitched(Stacked(folders).value, c) == r
  {
    match Stacked(folders)
    case Err(e) => Err(e)
    case Ok(data) => if LoneVector(folders) then Err(IndexError) else Stitched(data, c)
  }

  /** A single file of two rows or more and two columns or more is stitched
      like any stack: the lone-vector case is exactly the squeezed read. */
  lemma LoneMatrixStitched(t: Table, c: nat)
    requires |t| >= 2 && HasColumns(t, 2)
    ensures StackedStitched([Some(t)], c) == Stitched(t, c)
  {
    assert |t[0]| >= 2;
    assert Stacked([Some(t)][..0]) == Ok([]);
    assert [] + t == t;
  }

  /** The folder loop followed by `remove_overlaps`. */
  method StackAndStitch(folders: seq<Option<Table>>, c: nat) returns (r: Result<Table>)
    requires |folders| > 0
    ensures r == StackedStitched(folders, c)
  {
    var data := StackOnLocals(folders);
    if data.Err? {
      return Err(data.error);
    }
    if LoneVector(folders) {
      return Err(IndexError);
    }
    r := RemoveOverlaps(data.value, c);
  }
}
