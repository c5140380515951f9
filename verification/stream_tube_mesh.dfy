/** `turbineStreamTubeSliceMesh`: reorder the vertices of each stream-tube
    slice polygon so that consecutive vertices are nearest neighbours, and
    close the polygon with an edge list.

    The vertices come unordered from a cut through a stream tube.  Starting
    from the first vertex, the nearest of the vertices not yet placed is
    moved into the next position; the rows and the columns of the distance
    matrix are swapped with the vertices, so the matrix keeps giving the
    distances between the vertices at their current positions.  The distance
    itself (a Euclidean norm) is a parameter `d` of the model. */
module StreamTubeMesh {
  import opened Common
  import opened Strings
  import opened Tables
  import Sorting
  import StreamTubeCompile

  type Point = seq<real>

  // ---------------------------------------------------------------------------
  // File selection and order

  const PolygonSuffix := "D.csv"

  /** The integer in front of `D` in the last `_` field of the stem;
      ValueError when it is not an integer. */
  function MeshDistance(name: string): (r: Result<int>)
    ensures r.Err? ==> r.error == ValueError
  {
    match ParseInt(RemoveSuffix(Last(Split(PathStem(name), "_")), "D"))
    case None => Err(ValueError)
    case Some(n) => Ok(n)
  }

  /** A name whose last field is `{n}D` reads back as `n`. */
  lemma MeshDistanceOfName(fields: seq<string>, n: nat)
    requires |fields| >= 2 && fields[0] != "" && fields[|fields| - 1] == NatToString(n) + "D"
    requires forall j :: 0 <= j < |fields| - 1 ==> NoChar(fields[j], '_')
    ensures MeshDistance(Join(fields, "_") + ".csv") == Ok(n)
  {
    StreamTubeCompile.DigitsPlain(NatToString(n), '_');
    assert NoChar(fields[|fields| - 1], '_');
    StreamTubeCompile.StemFields(fields, "csv");
    StreamTubeCompile.CsvSuffix(Join(fields, "_"));
    assert RemoveSuffix(fields[|fields| - 1], "D") == NatToString(n);
    ParseIntToString(n);
  }

  /** `[int(...) for filepath in filepaths]`: ValueError when some name
      does not read, else the distances in file order. */
  function MeshDistances(files: seq<string>): (r: Result<seq<int>>)
    ensures r.Err? <==> exists k :: 0 <= k < |files| && MeshDistance(files[k]).Err?
    ensures r.Err? ==> r.error == ValueError
    ensures r.Ok? ==> |r.value| == |files| && forall k :: 0 <= k < |files| ==> MeshDistance(files[k]) == Ok(r.value[k])
  {
    if exists k :: 0 <= k < |files| && MeshDistance(files[k]).Err? then Err(ValueError)
    else Ok(seq(|files|, k requires 0 <= k < |files| => MeshDistance(files[k]).value))
  }

  /** The sort key, as a number. */
  function AsReals(xs: seq<int>): (r: seq<real>)
    ensures |r| == |xs| && forall k :: 0 <= k < |xs| ==> r[k] == xs[k] as real
  {
    seq(|xs|, k requires 0 <= k < |xs| => xs[k] as real)
  }

  // ---------------------------------------------------------------------------
  // The greedy order, on values

  /** `s[[a, b]] = s[[b, a]]`. */
  function Swap<T>(s: seq<T>, a: nat, b: nat): (r: seq<T>)
    requires a < |s| && b < |s|
    ensures |r| == |s| && r[a] == s[b] && r[b] == s[a]
    ensures forall k :: 0 <= k < |s| && k != a && k != b ==> r[k] == s[k]
  {
    s[a := s[b]][b := s[a]]
  }

  lemma SwapMultiset<T>(s: seq<T>, a: nat, b: nat)
    requires a < |s| && b < |s|
    ensures multiset(Swap(s, a, b)) == multiset(s)
  {
    if a != b {
      var t := s[a := s[b]];
      assert multiset(t) == multiset(s) - multiset{s[a]} + multiset{s[b]};
      assert multiset(t[b := s[a]]) == multiset(t) - multiset{s[b]} + multiset{s[a]};
    } else {
      assert Swap(s, a, b) == s;
    }
  }

  /** The distances from vertex `i` to the vertices after it. */
  function DistancesAfter(ps: seq<Point>, i: nat, d: (Point, Point) -> real): (r: seq<real>)
    requires i + 1 < |ps|
    ensures |r| == |ps| - i - 1
  {
    seq(|ps| - i - 1, j requires 0 <= j < |ps| - i - 1 => d(ps[i], ps[i + 1 + j]))
  }

  /** `np.argmin(dist_matrix[i, i+1:]) + i + 1`: the first of the vertices
      after `i` nearest to it. */
  function NearestAfter(ps: seq<Point>, i: nat, d: (Point, Point) -> real): (k: nat)
    requires i + 1 < |ps|
    ensures i < k < |ps|
    ensures forall j :: i < j < |ps| ==> d(ps[i], ps[k]) <= d(ps[i], ps[j])
    ensures forall j :: i < j < k ==> d(ps[i], ps[j]) > d(ps[i], ps[k])
  {
    var ds := DistancesAfter(ps, i, d);
    var m := Argmin(ds);
    assert forall j :: i < j < |ps| ==> ds[j - i - 1] == d(ps[i], ps[j]);
    m + i + 1
  }

  /** The loop from step `i` on: the nearest remaining vertex moves to
      position `i + 1`, for `i` up to the third-last position. */
  function GreedyFrom(ps: seq<Point>, i: nat, d: (Point, Point) -> real): (r: seq<Point>)
    ensures |r| == |ps|
    decreases |ps| - i
  {
    if i + 2 >= |ps| then ps
    else GreedyFrom(Swap(ps, i + 1, NearestAfter(ps, i, d)), i + 1, d)
  }

  /** The reordered polygon. */
  function Greedy(ps: seq<Point>, d: (Point, Point) -> real): (r: seq<Point>)
    ensures |r| == |ps|
  {
    GreedyFrom(ps, 0, d)
  }

  /** From step `i` on, positions up to `i` keep their vertices and the rest
      are permuted among themselves. */
  lemma {:induction false} GreedyFromShape(ps: seq<Point>, i: nat, d: (Point, Point) -> real)
    requires i < |ps|
    ensures GreedyFrom(ps, i, d)[..i + 1] == ps[..i + 1]
    ensures multiset(GreedyFrom(ps, i, d)[i + 1..]) == multiset(ps[i + 1..])
    decreases |ps| - i
  {
    if i + 2 < |ps| {
      var k := NearestAfter(ps, i, d);
      var s := Swap(ps, i + 1, k);
      GreedyFromShape(s, i + 1, d);
      var r := GreedyFrom(s, i + 1, d);
      assert GreedyFrom(ps, i, d) == r;
      assert r[..i + 1] == r[..i + 2][..i + 1];
      assert s[..i + 1] == ps[..i + 1];
      assert r[i + 1] == r[..i + 2][i + 1] == s[i + 1];
      assert r[i + 1..] == [r[i + 1]] + r[i + 2..];
      assert s[i + 1..] == [s[i + 1]] + s[i + 2..];
      assert multiset(r[i + 1..]) == multiset(s[i + 1..]);
      SwapTailMultiset(ps, i, k);
    }
  }

  /** Swapping two positions after `i` permutes the part after `i`. */
  lemma SwapTailMultiset(ps: seq<Point>, i: nat, k: nat)
    requires i + 1 < |ps| && i < k < |ps|
    ensures multiset(Swap(ps, i + 1, k)[i + 1..]) == multiset(ps[i + 1..])
  {
    var s := Swap(ps, i + 1, k);
    assert s[i + 1..] == Swap(ps[i + 1..], 0, k - i - 1);
    SwapMultiset(ps[i + 1..], 0, k - i - 1);
  }

  /** The reordered polygon is a permutation of the input, with the first
      vertex kept first. */
  lemma GreedyPermutation(ps: seq<Point>, d: (Point, Point) -> real)
    ensures multiset(Greedy(ps, d)) == multiset(ps)
    ensures |ps| > 0 ==> Greedy(ps, d)[0] == ps[0]
  {
    if |ps| > 0 {
      var r := Greedy(ps, d);
      GreedyFromShape(ps, 0, d);
      assert r == r[..1] + r[1..] && ps == ps[..1] + ps[1..];
      assert r[0] == r[..1][0];
    }
  }

  /** In the reordered polygon each vertex up to the third-last is followed
      by a vertex at least as near to it as any later vertex. */
  lemma GreedyNearest(ps: seq<Point>, d: (Point, Point) -> real, k: nat, j: nat)
    requires k + 2 < |ps| && k < j < |ps|
    ensures d(Greedy(ps, d)[k], Greedy(ps, d)[k + 1]) <= d(Greedy(ps, d)[k], Greedy(ps, d)[j])
  {
    GreedyFromNearest(ps, 0, d, k, j);
  }

  lemma {:induction false} GreedyFromNearest(ps: seq<Point>, i: nat, d: (Point, Point) -> real, k: nat, j: nat)
    requires i <= k && k + 2 < |ps| && k < j < |ps|
    ensures var r := GreedyFrom(ps, i, d);
            d(r[k], r[k + 1]) <= d(r[k], r[j])
    decreases k - i
  {
    var s := Swap(ps, i + 1, NearestAfter(ps, i, d));
    if i < k {
      GreedyFromNearest(s, i + 1, d, k, j);
    } else {
      NearestKept(ps, k, d, j);
    }
  }

  /** Step `k` places the nearest vertex after `k`, and the later steps
      leave positions up to `k + 1` alone and only permute the rest. */
  lemma NearestKept(ps: seq<Point>, k: nat, d: (Point, Point) -> real, j: nat)
    requires k + 2 < |ps| && k < j < |ps|
    ensures var r := GreedyFrom(Swap(ps, k + 1, NearestAfter(ps, k, d)), k + 1, d);
            d(r[k], r[k + 1]) <= d(r[k], r[j])
  {
    var nn := NearestAfter(ps, k, d);
    var s := Swap(ps, k + 1, nn);
    var r := GreedyFrom(s, k + 1, d);
    GreedyFromShape(s, k + 1, d);
    assert r[k] == r[..k + 2][k] == s[k] == ps[k];
    assert r[k + 1] == r[..k + 2][k + 1] == s[k + 1] == ps[nn];
    if j > k + 1 {
      var m := TailElement(r, s, k + 2, j);
      var q := if m == nn then k + 1 else m;
      assert r[j] == ps[q];
      assert d(ps[k], ps[nn]) <= d(ps[k], ps[q]);
    }
  }

  /** An element of the part from `lo` of one sequence is in the same part
      of a permutation of it. */
  lemma TailElement<T>(r: seq<T>, s: seq<T>, lo: nat, j: nat) returns (m: nat)
    requires lo <= j < |r| && lo <= |s| && multiset(r[lo..]) == multiset(s[lo..])
    ensures lo <= m < |s| && s[m] == r[j]
  {
    assert r[j] == r[lo..][j - lo];
    assert r[j] in multiset(s[lo..]);
    var i :| 0 <= i < |s[lo..]| && s[lo..][i] == r[j];
    m := lo + i;
  }

  // ---------------------------------------------------------------------------
  // The in-place loop

  /** `dist[a, b]` is the distance between the vertices now at `a` and `b`. */
  predicate Consistent(points: array<Point>, dist: array2<real>, d: (Point, Point) -> real)
    reads points, dist
  {
    dist.Length0 == points.Length && dist.Length1 == points.Length
    && forall a, b :: 0 <= a < points.Length && 0 <= b < points.Length ==> dist[a, b] == d(points[a], points[b])
  }

  /** The index a swap of `a` and `b` reads position `k` from. */
  function Swapped(k: nat, a: nat, b: nat): nat {
    if k == a then b else if k == b then a else k
  }

  /** `dist[[a, b]] = dist[[b, a]]`. */
  method SwapRows(dist: array2<real>, a: nat, b: nat)
    requires a < dist.Length0 && b < dist.Length0
    modifies dist
    ensures forall r, c :: 0 <= r < dist.Length0 && 0 <= c < dist.Length1 ==>
              dist[r, c] == old(dist[Swapped(r, a, b), c])
  {
    forall r, c | 0 <= r < dist.Length0 && 0 <= c < dist.Length1 {
      dist[r, c] := dist[Swapped(r, a, b), c];
    }
  }

  /** `dist[:, [a, b]] = dist[:, [b, a]]`. */
  method SwapColumns(dist: array2<real>, a: nat, b: nat)
    requires a < dist.Length1 && b < dist.Length1
    modifies dist
    ensures forall r, c :: 0 <= r < dist.Length0 && 0 <= c < dist.Length1 ==>
              dist[r, c] == old(dist[r, Swapped(c, a, b)])
  {
    forall r, c | 0 <= r < dist.Length0 && 0 <= c < dist.Length1 {
      dist[r, c] := dist[r, Swapped(c, a, b)];
    }
  }

  /** `yz_points[[a, b]] = yz_points[[b, a]]`. */
  method SwapPoints(points: array<Point>, a: nat, b: nat)
    requires a < points.Length && b < points.Length
    modifies points
    ensures points[..] == Swap(old(points[..]), a, b)
  {
    forall k | 0 <= k < points.Length {
      points[k] := points[Swapped(k, a, b)];
    }
  }

  /** The row of distances from vertex `i` to the vertices after it,
      `dist_matrix[i, i+1:]`. */
  function RowAfter(dist: array2<real>, i: nat): (r: seq<real>)
    reads dist
    requires i + 1 < dist.Length0 && dist.Length0 == dist.Length1
  {
    seq(dist.Length1 - i - 1, j requires 0 <= j < dist.Length1 - i - 1 reads dist => dist[i, i + 1 + j])
  }

  /** One step: swap the points and the matrix's rows and columns. */
  method Step(points: array<Point>, dist: array2<real>, d: (Point, Point) -> real, i: nat)
    requires i + 2 < points.Length && Consistent(points, dist, d)
    modifies points, dist
    ensures Consistent(points, dist, d)
    ensures points[..] == Swap(old(points[..]), i + 1, NearestAfter(old(points[..]), i, d))
  {
    ghost var ps := points[..];
    var row := RowAfter(dist, i);
    assert row == DistancesAfter(ps, i, d);
    var nearest := Argmin(row) + i + 1;
    SwapPoints(points, i + 1, nearest);
    SwapRows(dist, i + 1, nearest);
    SwapColumns(dist, i + 1, nearest);
    forall a, b | 0 <= a < points.Length && 0 <= b < points.Length
      ensures dist[a, b] == d(points[a], points[b])
    {
      assert points[a] == ps[Swapped(a, i + 1, nearest)];
      assert points[b] == ps[Swapped(b, i + 1, nearest)];
    }
  }

  /** `for i in range(n - 2)`: the greedy reordering in place, keeping the
      matrix consistent with the points. */
  method Reorder(points: array<Point>, dist: array2<real>, d: (Point, Point) -> real)
    requires Consistent(points, dist, d)
    modifies points, dist
    ensures points[..] == Greedy(old(points[..]), d)
    ensures Consistent(points, dist, d)
  {
    var i := 0;
    while i + 2 < points.Length
      invariant Consistent(points, dist, d)
      invariant GreedyFrom(points[..], i, d) == Greedy(old(points[..]), d)
    {
      Step(points, dist, d, i);
      i := i + 1;
    }
  }

  // ---------------------------------------------------------------------------
  // Edges

  /** `[[i, i+1] for i in range(n)]` with the last entry set to 0; an empty
      array has no `[-1, -1]` (IndexError). */
  function Edges(n: nat): (r: Result<seq<(int, int)>>)
    ensures r.Err? <==> n == 0
    ensures r.Ok? ==> |r.value| == n
    ensures r.Ok? ==> forall i :: 0 <= i < n ==> r.value[i] == (i, if i + 1 == n then 0 else i + 1)
  {
    if n == 0 then Err(IndexError)
    else
      var edges := seq(n, i requires 0 <= i < n => (i, i + 1));
      Ok(edges[n - 1 := (n - 1, 0)])
  }

  /** The vertex reached from 0 after `k` edges, each edge `(a, b)` leading
      from `a` to `b`. */
  function Follow(es: seq<(int, int)>, k: nat): (v: int)
    requires |es| > 0 && forall i :: 0 <= i < |es| ==> es[i].0 == i && 0 <= es[i].1 < |es|
    ensures 0 <= v < |es|
  {
    if k == 0 then 0 else es[Follow(es, k - 1)].1
  }

  /** The edges close the polygon: following them from vertex 0 visits the
      vertices in order and comes back to 0 after `n` edges. */
  lemma {:induction false} EdgesCycle(n: nat, k: nat)
    requires 0 < n && k <= n
    ensures Edges(n).Ok?
    ensures Follow(Edges(n).value, k) == if k == n then 0 else k
  {
    if k > 0 {
      EdgesCycle(n, k - 1);
    }
  }

  // ---------------------------------------------------------------------------
  // One slice file

  datatype Polygon = Polygon(sorted: seq<Point>, edges: seq<(int, int)>)

  /** The computation on one file's rows: columns 1.. are the yz vertices;
      `np.genfromtxt` gives a one-dimensional array for a single row or a
      single column, where `[:, 1:]` raises IndexError. */
  function MeshOf(rows: Table, d: (Point, Point) -> real): (r: Result<Polygon>)
    ensures r.Ok? ==> |r.value.sorted| == |rows| >= 2
    ensures r.Ok? ==> HasColumns(rows, 1) && multiset(r.value.sorted) == multiset(DropColumns(rows, 1))
  {
    if |rows| < 2 || !HasColumns(rows, 2) then Err(IndexError)
    else
      assert HasColumns(rows, 1);
      var yz := DropColumns(rows, 1);
      GreedyPermutation(yz, d);
      Ok(Polygon(Greedy(yz, d), Edges(|yz|).value))
  }

  /** The script's body for one file: copy the vertices, build the distance
      matrix, reorder in place and build the closed edge list. */
  method MeshFile(rows: Table, d: (Point, Point) -> real) returns (r: Result<Polygon>)
    ensures r == MeshOf(rows, d)
  {
    if |rows| < 2 || !HasColumns(rows, 2) {
      return Err(IndexError);
    }
    assert HasColumns(rows, 1);
    var yz := DropColumns(rows, 1);
    var n := |yz|;
    var points := new Point[n](k requires 0 <= k < n => yz[k]);
    assert points[..] == yz;
    var dist := new real[n, n]((a, b) requires 0 <= a < n && 0 <= b < n => d(yz[a], yz[b]));
    assert Consistent(points, dist, d);
    Reorder(points, dist, d);
    var edges := Edges(n);
    r := Ok(Polygon(points[..], edges.value));
  }

  // ---------------------------------------------------------------------------
  // The directory

  datatype Output = Output(name: string, polygon: Polygon)

  /** The output of one file: the polygon, saved as `{stem}_sorted`. */
  function MeshEntry(name: string, contents: map<string, Table>, d: (Point, Point) -> real): (r: Result<Output>)
    ensures r.Ok? ==> name in contents && MeshOf(contents[name], d) == Ok(r.value.polygon)
  {
    if name !in contents then Err(FileNotFoundError)
    else
      match MeshOf(contents[name], d)
      case Err(e) => Err(e)
      case Ok(p) => Ok(Output(PathStem(name) + "_sorted", p))
  }

  /** The files in ascending distance, each reordered.  A file that is not
      in `contents` would not have been listed; the model raises
      FileNotFoundError for it. */
  function Meshes(entries: seq<(real, string)>, contents: map<string, Table>, d: (Point, Point) -> real)
    : (r: Result<seq<Output>>)
    ensures r.Ok? ==> |r.value| == |entries|
  {
    if entries == [] then Ok([])
    else
      match Meshes(entries[..|entries| - 1], contents, d)
      case Err(e) => Err(e)
      case Ok(done) =>
        match MeshEntry(entries[|entries| - 1].1, contents, d)
        case Err(e) => Err(e)
        case Ok(o) => Ok(done + [o])
  }

  /** One output per file, each named after a file of the list and holding
      the polygon of that file's rows. */
  predicate MeshedFrom(out: seq<Output>, files: seq<string>, contents: map<string, Table>, d: (Point, Point) -> real)
  {
    && |out| == |files|
    && forall k :: 0 <= k < |out| ==>
         exists name :: && name in files && name in contents
                        && out[k].name == PathStem(name) + "_sorted"
                        && MeshOf(contents[name], d) == Ok(out[k].polygon)
  }

  /** `turbineStreamTubeSliceMesh`: no output when no file matches, and
      otherwise one output per matching file, each named after a matching
      file and holding the polygon of its rows. */
  function MeshSlices(case_: string, names: seq<string>, contents: map<string, Table>, d: (Point, Point) -> real)
    : (r: Result<seq<Output>>)
    ensures StreamTubeCompile.SliceFiles(case_, PolygonSuffix, names) == [] ==> r == Ok([])
    ensures var files := StreamTubeCompile.SliceFiles(case_, PolygonSuffix, names);
            files != [] && MeshDistances(files).Err? ==> r == Err(ValueError)
    ensures r.Ok? ==> MeshedFrom(r.value, StreamTubeCompile.SliceFiles(case_, PolygonSuffix, names), contents, d)
  {
    var files := StreamTubeCompile.SliceFiles(case_, PolygonSuffix, names);
    if files == [] then Ok([])
    else
      match MeshDistances(files)
      case Err(e) => Err(e)
      case Ok(ds) =>
        var r := Meshes(StreamTubeCompile.SortedEntries(files, AsReals(ds)), contents, d);
        if r.Ok? then SortedMeshes(files, AsReals(ds), contents, d); r else r
  }

  /** The outputs of the files in distance order: one per file, each for a
      file of the list. */
  lemma SortedMeshes(files: seq<string>, ds: seq<real>, contents: map<string, Table>, d: (Point, Point) -> real)
    requires |ds| == |files|
    requires Meshes(StreamTubeCompile.SortedEntries(files, ds), contents, d).Ok?
    ensures MeshedFrom(Meshes(StreamTubeCompile.SortedEntries(files, ds), contents, d).value, files, contents, d)
  {
    var entries := StreamTubeCompile.SortedEntries(files, ds);
    var out := Meshes(entries, contents, d).value;
    SortedEntriesOfFiles(files, ds);
    forall k | 0 <= k < |out|
      ensures exists name :: && name in files && name in contents
                             && out[k].name == PathStem(name) + "_sorted"
                             && MeshOf(contents[name], d) == Ok(out[k].polygon)
    {
      MeshOutputs(entries, contents, d, k);
      MeshOutput(entries, contents, d, k);
      assert entries[k].1 in files;
    }
  }

  /** Sorting by distance keeps one entry per file and no other file. */
  lemma SortedEntriesOfFiles(files: seq<string>, ds: seq<real>)
    requires |ds| == |files|
    ensures var entries := StreamTubeCompile.SortedEntries(files, ds);
            && |entries| == |files|
            && forall k :: 0 <= k < |entries| ==> entries[k].1 in files
  {
    var entries := StreamTubeCompile.SortedEntries(files, ds);
    var z := StreamTubeCompile.Zip(ds, files);
    assert |multiset(entries)| == |multiset(z)|;
    forall k | 0 <= k < |entries|
      ensures entries[k].1 in files
    {
      assert entries[k] in multiset(z);
      var i :| 0 <= i < |z| && z[i] == entries[k];
      assert entries[k].1 == files[i];
    }
  }

  lemma MeshesErrStays(entries: seq<(real, string)>, contents: map<string, Table>, d: (Point, Point) -> real, k: nat)
    requires k <= |entries| && Meshes(entries[..k], contents, d).Err?
    ensures Meshes(entries, contents, d) == Meshes(entries[..k], contents, d)
    decreases |entries| - k
  {
    if k < |entries| {
      assert entries[..k + 1][..k] == entries[..k];
      MeshesErrStays(entries, contents, d, k + 1);
    } else {
      assert entries[..k] == entries;
    }
  }

  /** The outputs of the first `k + 1` entries from those of the first `k`. */
  lemma MeshesStep(entries: seq<(real, string)>, contents: map<string, Table>, d: (Point, Point) -> real, k: nat)
    requires k < |entries| && Meshes(entries[..k], contents, d).Ok?
    ensures MeshEntry(entries[k].1, contents, d).Err? ==>
              Meshes(entries[..k + 1], contents, d) == Err(MeshEntry(entries[k].1, contents, d).error)
    ensures MeshEntry(entries[k].1, contents, d).Ok? ==>
              Meshes(entries[..k + 1], contents, d)
              == Ok(Meshes(entries[..k], contents, d).value + [MeshEntry(entries[k].1, contents, d).value])
  {
    assert entries[..k + 1][..k] == entries[..k];
    assert entries[..k + 1][k] == entries[k];
  }

  /** One file: read it, reorder it and name the output. */
  method MeshOne(name: string, contents: map<string, Table>, d: (Point, Point) -> real) returns (r: Result<Output>)
    ensures r == MeshEntry(name, contents, d)
  {
    if name !in contents {
      return Err(FileNotFoundError);
    }
    var p := MeshFile(contents[name], d);
    if p.Err? {
      return Err(p.error);
    }
    r := Ok(Output(PathStem(name) + "_sorted", p.value));
  }

  /** The loop over the sorted files. */
  method MeshAll(entries: seq<(real, string)>, contents: map<string, Table>, d: (Point, Point) -> real)
    returns (r: Result<seq<Output>>)
    ensures r == Meshes(entries, contents, d)
  {
    var out: seq<Output> := [];
    var k := 0;
    while k < |entries|
      invariant k <= |entries|
      invariant Meshes(entries[..k], contents, d) == Ok(out)
    {
      var o := MeshOne(entries[k].1, contents, d);
      MeshesStep(entries, contents, d, k);
      if o.Err? {
        MeshesErrStays(entries, contents, d, k + 1);
        return Err(o.error);
      }
      out := out + [o.value];
      k := k + 1;
    }
    assert entries[..k] == entries;
    r := Ok(out);
  }

  /** `turbineStreamTubeSliceMesh(casename)` over a directory listing. */
  method MeshCase(case_: string, names: seq<string>, contents: map<string, Table>, d: (Point, Point) -> real)
    returns (r: Result<seq<Output>>)
    ensures r == MeshSlices(case_, names, contents, d)
  {
    var files := StreamTubeCompile.SliceFiles(case_, PolygonSuffix, names);
    if files == [] {
      return Ok([]);
    }
    var ds := MeshDistances(files);
    if ds.Err? {
      return Err(ds.error);
    }
    r := MeshAll(StreamTubeCompile.SortedEntries(files, AsReals(ds.value)), contents, d);
  }

  /** Every output is the greedy reordering of its file's vertices, a
      permutation with the first vertex kept, closed by the edge cycle. */
  lemma {:induction false} MeshOutputs(entries: seq<(real, string)>, contents: map<string, Table>, d: (Point, Point) -> real, k: nat)
    requires Meshes(entries, contents, d).Ok? && k < |entries|
    ensures MeshEntry(entries[k].1, contents, d).Ok?
    ensures Meshes(entries, contents, d).value[k] == MeshEntry(entries[k].1, contents, d).value
  {
    var init := entries[..|entries| - 1];
    if k < |init| {
      MeshOutputs(init, contents, d, k);
      assert init[k] == entries[k];
    }
  }

  /** What each output holds. */
  lemma MeshOutput(entries: seq<(real, string)>, contents: map<string, Table>, d: (Point, Point) -> real, k: nat)
    requires Meshes(entries, contents, d).Ok? && k < |entries|
    ensures entries[k].1 in contents
    ensures var rows := contents[entries[k].1];
            var o := Meshes(entries, contents, d).value[k];
            o.name == PathStem(entries[k].1) + "_sorted"
            && 2 <= |rows| && HasColumns(rows, 2)
            && o.polygon.sorted == Greedy(DropColumns(rows, 1), d)
            && multiset(o.polygon.sorted) == multiset(DropColumns(rows, 1))
            && o.polygon.sorted[0] == rows[0][1..]
            && Edges(|rows|) == Ok(o.polygon.edges)
  {
    MeshOutputs(entries, contents, d, k);
    var rows := contents[entries[k].1];
    assert HasColumns(rows, 1);
    GreedyPermutation(DropColumns(rows, 1), d);
  }
}
