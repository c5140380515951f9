/** The shared helpers of `utils.py`: stitching restarted time series
    (`remove_overlaps`), running means (`calculate_moving_average`),
    tolerance bands (`check_tolerance`), nearest-time lookup
    (`get_time_idx`) and the parsing of turbineOutput file stems
    (`parse_turbineOutput_files`). */
module Utils {
  import opened Common
  import opened Tables
  import opened Strings
  import Sorting

  // ===========================================================================
  // remove_overlaps
  //
  // A simulation restarted from an earlier time writes rows whose time (the
  // key column) falls back.  The scan deletes the older rows the restart
  // overwrote, so that the later run wins.

  /** Row `i` fails the scan's test `data[i, c] > data[i-1, c]`; at `i == 0`
      Python's `data[-1]` compares the row with the last one. */
  predicate Drop(t: Table, c: nat, i: nat)
    requires HasColumns(t, c + 1) && i < |t|
  {
    var prev := if i == 0 then |t| - 1 else i - 1;
    !(t[i][c] > t[prev][c])
  }

  /** The row at which a `for` pass started at `k` breaks, or `|t|` when it
      runs to the end. */
  function FirstDrop(t: Table, c: nat, k: nat): (i: nat)
    requires HasColumns(t, c + 1) && k <= |t|
    ensures k <= i <= |t|
    ensures forall m :: k <= m < i ==> !Drop(t, c, m)
    ensures i < |t| ==> Drop(t, c, i)
    decreases |t| - k
  {
    if k == |t| then |t| else if Drop(t, c, k) then k else FirstDrop(t, c, k + 1)
  }

  /** Among positions `k..|xs|-1`, the first one holding the smallest value
      that is at least `x`, or `|xs|` when no value there reaches `x`: numpy's
      `argmin` of `xs - x` once the negative differences are set to infinity. */
  function LeastAtOrAboveFrom(xs: seq<real>, x: real, k: nat): (j: nat)
    requires k <= |xs|
    ensures k <= j <= |xs|
    ensures j < |xs| ==> xs[j] >= x
    ensures j < |xs| ==> forall m :: k <= m < |xs| && xs[m] >= x ==> xs[j] <= xs[m]
    ensures j < |xs| ==> forall m :: k <= m < j && xs[m] >= x ==> xs[m] > xs[j]
    ensures j == |xs| ==> forall m :: k <= m < |xs| ==> xs[m] < x
    decreases |xs| - k
  {
    if k == |xs| then |xs|
    else
      var g := LeastAtOrAboveFrom(xs, x, k + 1);
      if xs[k] >= x && (g == |xs| || xs[k] <= xs[g]) then k else g
  }

  /** The row the restart goes back to: the first row before `i` holding the
      smallest key that is at least row `i`'s key.  Row `i - 1` always
      qualifies, so at least one row is deleted. */
  function RestartRow(t: Table, c: nat, i: nat): (j: nat)
    requires HasColumns(t, c + 1) && 1 <= i < |t| && Drop(t, c, i)
    ensures j < i
    ensures t[j][c] >= t[i][c]
    ensures forall m :: 0 <= m < i && t[m][c] >= t[i][c] ==> t[j][c] <= t[m][c]
    ensures forall m :: 0 <= m < j && t[m][c] >= t[i][c] ==> t[m][c] > t[j][c]
  {
    var keys := Column(t[..i], c);
    ColumnAt(t[..i], c);
    LeastAtOrAboveFrom(keys, t[i][c], 0)
  }

  /** `np.delete(t, np.arange(j, i), axis=0)`: rows `j..i-1` removed. */
  function DeleteRows(t: Table, j: nat, i: nat): (u: Table)
    requires j <= i <= |t|
    ensures |u| == |t| - (i - j)
    ensures forall m {:trigger u[m]} :: 0 <= m < j ==> u[m] == t[m]
    ensures forall m :: j <= m < |u| ==> u[m] == t[m + (i - j)]
  {
    t[..j] + t[i..]
  }

  lemma DeleteRowsColumns(t: Table, c: nat, j: nat, i: nat)
    requires j <= i <= |t| && HasColumns(t, c + 1)
    ensures HasColumns(DeleteRows(t, j, i), c + 1)
  {
    var u := DeleteRows(t, j, i);
    forall m | 0 <= m < |u| ensures |u[m]| >= c + 1 {
      if m < j { assert u[m] == t[m]; } else { assert u[m] == t[m + (i - j)]; }
    }
  }

  /** The passes of `remove_overlaps` from the pass that starts at `start`,
      with the exit test exactly as written: after a deletion the loop stops
      when the stale index `i` equals the new last index. */
  function StitchFrom(t: Table, c: nat, start: nat): Result<Table>
    requires HasColumns(t, c + 1) && start < |t|
    decreases |t|
  {
    var i := FirstDrop(t, c, start);
    if i == |t| then Ok(t)
    else if i == 0 then Err(ValueError)   // argmin of the empty slice data[:0]
    else
      var j := RestartRow(t, c, i);
      var u := DeleteRows(t, j, i);
      DeleteRowsColumns(t, c, j, i);
      if i == |u| - 1 then Ok(u) else StitchFrom(u, c, j)
  }

  /** `remove_overlaps(t, c)` as written.  With fewer than two rows the
      `for` loop never binds `i`; a missing key column raises at the first
      subscript. */
  function Stitched(t: Table, c: nat): (r: Result<Table>)
    ensures |t| < 2 ==> r == Err(NameError)
    ensures |t| >= 2 && !HasColumns(t, c + 1) ==> r == Err(IndexError)
  {
    if |t| < 2 then Err(NameError)
    else if !HasColumns(t, c + 1) then Err(IndexError)
    else StitchFrom(t, c, 1)
  }

  /** `remove_overlaps` itself: the `while not finished` loop around a
      `for` pass that breaks at the first row whose key does not increase. */
  method RemoveOverlaps(t: Table, c: nat) returns (r: Result<Table>)
    ensures r == Stitched(t, c)
  {
    if |t| < 2 {
      return Err(NameError);    // `range(1, len)` is empty: `i` is unbound at the exit test
    }
    if !HasColumns(t, c + 1) {
      return Err(IndexError);   // the first `data[i, c]` raises
    }
    var data := t;
    var finished := false;
    var start: nat := 1;
    while !finished
      invariant HasColumns(data, c + 1) && start < |data|
      invariant !finished ==> StitchFrom(data, c, start) == Stitched(t, c)
      invariant finished ==> Stitched(t, c) == Ok(data)
      decreases |data| + (if finished then 0 else 1)
    {
      var k, i := ScanPass(data, c, start);
      if k < |data| {
        if k == 0 {
          PassAtZero(data, c, start);
          return Err(ValueError);   // argmin of the empty slice `data[:0]`
        }
        var j := RestartRow(data, c, k);
        PassBreaks(data, c, start, k);
        data := DeleteRows(data, j, k);
        start := j;
      }
      if i == |data| - 1 {
        finished := true;
      }
    }
    r := Ok(data);
  }

  /** The `for` pass from `start`: it stops at the first row whose key does
      not increase, or runs to the end; `i` is the last row it visited. */
  method ScanPass(data: Table, c: nat, start: nat) returns (k: nat, i: nat)
    requires HasColumns(data, c + 1) && start < |data|
    ensures k == FirstDrop(data, c, start)
    ensures i == if k < |data| then k else |data| - 1
  {
    k, i := start, start;
    while k < |data|
      invariant start <= k <= |data|
      invariant FirstDrop(data, c, start) == FirstDrop(data, c, k)
      invariant k > start ==> i == k - 1
    {
      i := k;
      var prev := if k == 0 then |data| - 1 else k - 1;
      if !(data[k][c] > data[prev][c]) {
        return;
      }
      k := k + 1;
    }
  }

  /** A pass that breaks at row 0 raises (argmin of an empty slice). */
  lemma PassAtZero(t: Table, c: nat, start: nat)
    requires HasColumns(t, c + 1) && start < |t|
    requires FirstDrop(t, c, start) == 0
    ensures StitchFrom(t, c, start) == Err(ValueError)
  {
  }

  /** A pass that breaks at row `i > 0` deletes rows `RestartRow..i-1` and
      either stops or starts the next pass at the restart row. */
  lemma PassBreaks(t: Table, c: nat, start: nat, i: nat)
    requires HasColumns(t, c + 1) && start < |t|
    requires FirstDrop(t, c, start) == i && 1 <= i < |t|
    ensures var u := DeleteRows(t, RestartRow(t, c, i), i);
            && HasColumns(u, c + 1) && RestartRow(t, c, i) < |u|
            && StitchFrom(t, c, start)
                 == if i == |u| - 1 then Ok(u) else StitchFrom(u, c, RestartRow(t, c, i))
  {
    DeleteRowsColumns(t, c, RestartRow(t, c, i), i);
  }

  /** `idx` lists, in increasing order, the rows of `t` that make up `r`. */
  predicate IndexMap(idx: seq<nat>, r: Table, t: Table) {
    && |idx| == |r|
    && (forall k {:trigger idx[k]} :: 0 <= k < |idx| ==> idx[k] < |t| && r[k] == t[idx[k]])
    && (forall k, l :: 0 <= k < l < |idx| ==> idx[k] < idx[l])
  }

  /** The stitched table is a verbatim subsequence of the input that keeps
      the last input row. */
  lemma {:induction false} StitchFromSubsequence(t: Table, c: nat, start: nat, r: Table)
    returns (idx: seq<nat>)
    requires HasColumns(t, c + 1) && start < |t|
    requires StitchFrom(t, c, start) == Ok(r)
    ensures IndexMap(idx, r, t)
    ensures |idx| >= 1 && idx[|idx| - 1] == |t| - 1
    decreases 2 * |t| + 1
  {
    var done, j, d, u := StitchFromPass(t, c, start);
    var inner := RestMap(u, c, j, r, done || j + d == |u| - 1);
    idx := SkipDeleted(inner, r, t, u, j, d);
  }

  /** The rows of `r` within `u`: `r` is `u` itself, or what the passes
      from `j` on leave of it. */
  lemma {:induction false} RestMap(u: Table, c: nat, j: nat, r: Table, last: bool)
    returns (inner: seq<nat>)
    requires HasColumns(u, c + 1) && j < |u|
    requires last ==> r == u
    requires !last ==> StitchFrom(u, c, j) == Ok(r)
    ensures IndexMap(inner, r, u)
    ensures |inner| >= 1 && inner[|inner| - 1] == |u| - 1
    decreases if last then 0 else 2 * |u| + 2
  {
    if last {
      inner := IdentityMap(u);
    } else {
      inner := StitchFromSubsequence(u, c, j, r);
    }
  }

  /** `u` is `t` without the `d` rows from `j` on. */
  predicate Removed(t: Table, u: Table, j: nat, d: nat) {
    && |u| + d == |t| && j <= |u|
    && (forall m {:trigger u[m]} :: 0 <= m < j ==> u[m] == t[m])
    && (forall m {:trigger u[m]} :: j <= m < |u| ==> u[m] == t[m + d])
  }

  /** One pass of `StitchFrom`: the table is done, or the `d` rows from `j`
      on go and the table `u` left is done or the next pass starts at `j`. */
  lemma StitchFromPass(t: Table, c: nat, start: nat) returns (done: bool, j: nat, d: nat, u: Table)
    requires HasColumns(t, c + 1) && start < |t|
    requires StitchFrom(t, c, start).Ok?
    ensures Removed(t, u, j, d) && HasColumns(u, c + 1) && j < |u|
    ensures done ==> d == 0 && u == t && StitchFrom(t, c, start) == Ok(t)
    ensures !done ==> && d >= 1
                      && StitchFrom(t, c, start) == if j + d == |u| - 1 then Ok(u) else StitchFrom(u, c, j)
  {
    var i := FirstDrop(t, c, start);
    done := i == |t|;
    if !done {
      j := RestartRow(t, c, i);
      d := i - j;
      u := DeleteRows(t, j, i);
      DeleteRowsColumns(t, c, j, i);
    } else {
      j, d, u := 0, 0, t;
    }
  }

  /** Every row of `t`, in order. */
  lemma IdentityMap(t: Table) returns (idx: seq<nat>)
    requires |t| >= 1
    ensures IndexMap(idx, t, t)
    ensures |idx| >= 1 && idx[|idx| - 1] == |t| - 1
  {
    idx := Identity(|t|);
  }

  function Identity(n: nat): (idx: seq<nat>)
    ensures |idx| == n && forall k :: 0 <= k < n ==> idx[k] == k
  {
    seq(n, k requires 0 <= k < n => k)
  }

  /** Indices into `u`, which is `t` without `d` rows from `j` on, carried
      back to indices into `t`. */
  lemma SkipDeleted(inner: seq<nat>, r: Table, t: Table, u: Table, j: nat, d: nat) returns (idx: seq<nat>)
    requires Removed(t, u, j, d) && j < |u|
    requires IndexMap(inner, r, u)
    requires |inner| >= 1 && inner[|inner| - 1] == |u| - 1
    ensures IndexMap(idx, r, t)
    ensures |idx| >= 1 && idx[|idx| - 1] == |t| - 1
  {
    idx := seq(|inner|, k requires 0 <= k < |inner| =>
             if inner[k] < j then inner[k] else inner[k] + d);
    forall k | 0 <= k < |idx| ensures idx[k] < |t| && r[k] == t[idx[k]] {
      assert r[k] == u[inner[k]];
    }
    forall k, l | 0 <= k < l < |idx| ensures idx[k] < idx[l] {
      assert inner[k] < inner[l];
    }
  }

  lemma StitchedSubsequence(t: Table, c: nat) returns (idx: seq<nat>)
    requires Stitched(t, c).Ok?
    ensures IndexMap(idx, Stitched(t, c).value, t)
    ensures |idx| >= 1 && idx[|idx| - 1] == |t| - 1
  {
    idx := StitchFromSubsequence(t, c, 1, Stitched(t, c).value);
  }

  /** Keys strictly increase from row to row. */
  ghost predicate KeysIncrease(t: Table, c: nat)
    requires HasColumns(t, c + 1)
  {
    forall k, l :: 0 <= k < l < |t| && l == k + 1 ==> t[k][c] < t[l][c]
  }

  /** A table already strictly increasing in its key is returned unchanged. */
  lemma StitchedIncreasing(t: Table, c: nat)
    requires |t| >= 2 && HasColumns(t, c + 1) && KeysIncrease(t, c)
    ensures Stitched(t, c) == Ok(t)
  {
    var i := FirstDrop(t, c, 1);
  }

  /** When no row after the first has a key at or below the first row's key,
      no pass ever starts at row 0, so the wrap-around comparison with
      `data[-1]` and the argmin of an empty slice never happen. */
  lemma {:induction false} StitchFromAboveFirst(t: Table, c: nat, start: nat)
    requires HasColumns(t, c + 1) && 1 <= start < |t|
    requires forall k :: 1 <= k < |t| ==> t[0][c] < t[k][c]
    ensures StitchFrom(t, c, start).Ok?
    decreases |t|
  {
    var i := FirstDrop(t, c, start);
    if i < |t| {
      var j := RestartRow(t, c, i);
      assert j != 0;
      var u := DeleteRows(t, j, i);
      DeleteRowsColumns(t, c, j, i);
      if i != |u| - 1 {
        forall k | 1 <= k < |u| ensures u[0][c] < u[k][c] {
          if k < j { assert u[k] == t[k]; } else { assert u[k] == t[k + (i - j)]; }
        }
        StitchFromAboveFirst(u, c, j);
      }
    }
  }

  lemma StitchedAboveFirst(t: Table, c: nat)
    requires |t| >= 2 && HasColumns(t, c + 1)
    requires forall k :: 1 <= k < |t| ==> t[0][c] < t[k][c]
    ensures Stitched(t, c).Ok?
  {
    StitchFromAboveFirst(t, c, 1);
  }

  /** The intended loop: stop only after a pass has scanned to the end
      without finding a drop. */
  function StitchToEndFrom(t: Table, c: nat, start: nat): Result<Table>
    requires HasColumns(t, c + 1) && start < |t|
    decreases |t|
  {
    var i := FirstDrop(t, c, start);
    if i == |t| then Ok(t)
    else if i == 0 then Err(ValueError)
    else
      var j := RestartRow(t, c, i);
      DeleteRowsColumns(t, c, j, i);
      StitchToEndFrom(DeleteRows(t, j, i), c, j)
  }

  /** `remove_overlaps` with the exit test corrected. */
  function StitchedToEnd(t: Table, c: nat): (r: Result<Table>)
    ensures |t| < 2 ==> r == Err(NameError)
    ensures |t| >= 2 && !HasColumns(t, c + 1) ==> r == Err(IndexError)
  {
    if |t| < 2 then Err(NameError)
    else if !HasColumns(t, c + 1) then Err(IndexError)
    else StitchToEndFrom(t, c, 1)
  }

  lemma {:induction false} StitchToEndFromIncreases(t: Table, c: nat, start: nat)
    requires HasColumns(t, c + 1) && start < |t|
    requires forall k :: 0 < k < start ==> t[k - 1][c] < t[k][c]
    requires StitchToEndFrom(t, c, start).Ok?
    ensures HasColumns(StitchToEndFrom(t, c, start).value, c + 1)
    ensures KeysIncrease(StitchToEndFrom(t, c, start).value, c)
    decreases |t|
  {
    var i := FirstDrop(t, c, start);
    forall k | 0 < k < i ensures t[k - 1][c] < t[k][c] {
      if k >= start { assert !Drop(t, c, k); }
    }
    if i < |t| {
      var j := RestartRow(t, c, i);
      var u := DeleteRows(t, j, i);
      DeleteRowsColumns(t, c, j, i);
      forall k | 0 < k < j ensures u[k - 1][c] < u[k][c] {
        assert u[k - 1] == t[k - 1] && u[k] == t[k];
      }
      StitchToEndFromIncreases(u, c, j);
    }
  }

  /** With the corrected exit test the result is strictly increasing in the key. */
  lemma StitchedToEndIncreases(t: Table, c: nat)
    requires StitchedToEnd(t, c).Ok?
    ensures HasColumns(StitchedToEnd(t, c).value, c + 1)
    ensures KeysIncrease(StitchedToEnd(t, c).value, c)
  {
    StitchToEndFromIncreases(t, c, 1);
  }

  /** Every table the corrected loop returns has at least two rows: a pass
      that starts at row 0 of a single row compares it with itself and
      breaks. */
  lemma {:induction false} StitchToEndFromRows(t: Table, c: nat, start: nat)
    requires HasColumns(t, c + 1) && start < |t|
    requires StitchToEndFrom(t, c, start).Ok?
    ensures |StitchToEndFrom(t, c, start).value| >= 2
    decreases |t|
  {
    var i := FirstDrop(t, c, start);
    if i == |t| {
      assert !Drop(t, c, start);
    } else {
      var j := RestartRow(t, c, i);
      DeleteRowsColumns(t, c, j, i);
      StitchToEndFromRows(DeleteRows(t, j, i), c, j);
    }
  }

  /** A table whose keys already strictly increase passes the corrected loop
      unchanged. */
  lemma StitchedToEndIncreasing(t: Table, c: nat)
    requires |t| >= 2 && HasColumns(t, c + 1) && KeysIncrease(t, c)
    ensures StitchedToEnd(t, c) == Ok(t)
  {
    var i := FirstDrop(t, c, 1);
    if i < |t| {
      assert false;
    }
  }

  /** Overlap removal with the corrected exit is idempotent: its result has
      nothing left to remove. */
  lemma StitchedToEndIdempotent(t: Table, c: nat)
    requires StitchedToEnd(t, c).Ok?
    ensures StitchedToEnd(StitchedToEnd(t, c).value, c) == StitchedToEnd(t, c)
  {
    StitchToEndFromRows(t, c, 1);
    StitchedToEndIncreases(t, c);
    StitchedToEndIncreasing(StitchedToEnd(t, c).value, c);
  }

  /** Keys 0, 1, 2, 1, 3, 2: after deleting the rows with keys 1 and 2 the
      stale index 3 equals the new last index and the loop stops, leaving the
      drop from 3 to 2 in place; the corrected loop removes it.  As written,
      `remove_overlaps` is therefore not idempotent: a second application
      removes the 3. */
  lemma StaleExitCounterexample()
    ensures Stitched([[0.0], [1.0], [2.0], [1.0], [3.0], [2.0]], 0)
              == Ok([[0.0], [1.0], [3.0], [2.0]])
    ensures !KeysIncrease([[0.0], [1.0], [3.0], [2.0]], 0)
    ensures Stitched([[0.0], [1.0], [3.0], [2.0]], 0) == Ok([[0.0], [1.0], [2.0]])
    ensures StitchedToEnd([[0.0], [1.0], [2.0], [1.0], [3.0], [2.0]], 0)
              == Ok([[0.0], [1.0], [2.0]])
  {
    var t: Table := [[0.0], [1.0], [2.0], [1.0], [3.0], [2.0]];
    var u: Table := [[0.0], [1.0], [3.0], [2.0]];
    CounterexampleFirstPass(t, u);
    CounterexampleSecondPass(u, [[0.0], [1.0], [2.0]]);
    assert u[2][0] > u[3][0];
  }

  lemma CounterexampleFirstPass(t: Table, u: Table)
    requires t == [[0.0], [1.0], [2.0], [1.0], [3.0], [2.0]]
    requires u == [[0.0], [1.0], [3.0], [2.0]]
    ensures HasColumns(t, 1) && HasColumns(u, 1)
    ensures StitchFrom(t, 0, 1) == Ok(u)
    ensures StitchToEndFrom(t, 0, 1) == StitchToEndFrom(u, 0, 1)
  {
    assert !Drop(t, 0, 1) && !Drop(t, 0, 2) && Drop(t, 0, 3);
    assert FirstDrop(t, 0, 3) == 3;
    assert FirstDrop(t, 0, 1) == 3;
    var keys := Column(t[..3], 0);
    assert keys == [0.0, 1.0, 2.0];
    assert LeastAtOrAboveFrom(keys, 1.0, 2) == 2;
    assert LeastAtOrAboveFrom(keys, 1.0, 0) == 1;
    assert RestartRow(t, 0, 3) == 1;
    assert DeleteRows(t, 1, 3) == u;
  }

  lemma CounterexampleSecondPass(u: Table, v: Table)
    requires u == [[0.0], [1.0], [3.0], [2.0]]
    requires v == [[0.0], [1.0], [2.0]]
    ensures HasColumns(u, 1)
    ensures StitchToEndFrom(u, 0, 1) == Ok(v)
    ensures StitchFrom(u, 0, 1) == Ok(v)
  {
    assert !Drop(u, 0, 1) && !Drop(u, 0, 2) && Drop(u, 0, 3);
    assert FirstDrop(u, 0, 3) == 3;
    assert FirstDrop(u, 0, 1) == 3;
    var keys := Column(u[..3], 0);
    assert keys == [0.0, 1.0, 3.0];
    assert LeastAtOrAboveFrom(keys, 2.0, 2) == 2;
    assert LeastAtOrAboveFrom(keys, 2.0, 0) == 2;
    assert RestartRow(u, 0, 3) == 2;
    assert DeleteRows(u, 2, 3) == v;
    assert !Drop(v, 0, 2) && FirstDrop(v, 0, 3) == 3 && FirstDrop(v, 0, 2) == 3;
  }

  // ===========================================================================
  // calculate_moving_average

  /** The mean of the first `i + 1` values. */
  function RunningMean(xs: seq<real>, i: nat): real
    requires i < |xs|
  {
    Sum(xs[..i + 1]) / ((i + 1) as real)
  }

  /** The sum of the first `i + 1` values. */
  function PrefixSum(ws: seq<real>, i: nat): real
    requires i < |ws|
  {
    Sum(ws[..i + 1])
  }

  /** Every prefix of the weights has a non-zero sum. */
  predicate PrefixWeightsNonZero(ws: seq<real>) {
    forall i :: 0 <= i < |ws| ==> PrefixSum(ws, i) != 0.0
  }

  /** The weighted mean of the first `i + 1` values: the value that, times
      the weights' sum, gives their weighted sum. */
  function RunningWeightedMean(xs: seq<real>, ws: seq<real>, i: nat): (m: real)
    requires |xs| == |ws| && i < |xs| && PrefixSum(ws, i) != 0.0
  {
    Dot(xs[..i + 1], ws[..i + 1]) / PrefixSum(ws, i)
  }

  lemma SumSnoc(xs: seq<real>, i: nat)
    requires i < |xs|
    ensures Sum(xs[..i + 1]) == Sum(xs[..i]) + xs[i]
  {
    assert xs[..i + 1][..i] == xs[..i];
  }

  lemma DotSnoc(xs: seq<real>, ws: seq<real>, i: nat)
    requires |xs| == |ws| && i < |xs|
    ensures Dot(xs[..i + 1], ws[..i + 1]) == Dot(xs[..i], ws[..i]) + xs[i] * ws[i]
  {
    assert xs[..i + 1][..i] == xs[..i];
    assert ws[..i + 1][..i] == ws[..i];
  }

  /** `calculate_moving_average(data, v, w)`: one running mean per row, of
      column `v`, weighted by column `w` when one is given.  A table with no
      rows or without the named columns raises IndexError. */
  method MovingAverage(data: Table, v: nat, w: Option<nat>) returns (r: Result<seq<real>>)
    requires w.Some? && HasColumns(data, w.value + 1) ==>
               PrefixWeightsNonZero(Column(data, w.value))
    ensures r.Err? <==> |data| == 0 || !HasColumns(data, v + 1)
                        || (w.Some? && !HasColumns(data, w.value + 1))
    ensures r.Err? ==> r.error == IndexError
    ensures r.Ok? ==> |r.value| == |data|
    ensures r.Ok? && w.None? ==>
              forall i :: 0 <= i < |data| ==> r.value[i] == RunningMean(Column(data, v), i)
    ensures r.Ok? && w.Some? ==>
              forall i :: 0 <= i < |data| ==>
                r.value[i] == RunningWeightedMean(Column(data, v), Column(data, w.value), i)
  {
    if |data| == 0 || !HasColumns(data, v + 1) || (w.Some? && !HasColumns(data, w.value + 1)) {
      return Err(IndexError);
    }
    var average: seq<real>;
    match w {
      case None =>
        average := PlainRunningMeans(Column(data, v));
      case Some(wi) =>
        average := WeightedRunningMeans(Column(data, v), Column(data, wi));
    }
    r := Ok(average);
  }

  /** The unweighted branch: running sums, then one division per row by its
      count. */
  method PlainRunningMeans(xs: seq<real>) returns (average: seq<real>)
    requires |xs| > 0
    ensures |average| == |xs|
    ensures forall i :: 0 <= i < |xs| ==> average[i] == RunningMean(xs, i)
  {
    var n := |xs|;
    var a := new real[n];
    a[0] := xs[0];
    SumSnoc(xs, 0);
    assert xs[..0] == [];
    for i := 1 to n
      invariant forall k :: 0 <= k < i ==> a[k] == PrefixSum(xs, k)
    {
      a[i] := a[i - 1] + xs[i];
      SumSnoc(xs, i);
    }
    // `average / np.arange(1, n + 1)`, element by element
    var sums := a[..];
    average := seq(n, k requires 0 <= k < n => sums[k] / ((k + 1) as real));
  }

  /** The weighted branch: running sums of value times weight and of the
      weights, then one division per row. */
  method WeightedRunningMeans(xs: seq<real>, ws: seq<real>) returns (average: seq<real>)
    requires |xs| == |ws| && |xs| > 0
    requires PrefixWeightsNonZero(ws)
    ensures |average| == |xs|
    ensures forall i :: 0 <= i < |xs| ==> average[i] == RunningWeightedMean(xs, ws, i)
  {
    var n := |xs|;
    var a := new real[n];
    var weightSum := new real[n];
    weightSum[0] := ws[0];
    a[0] := xs[0] * ws[0];
    SumSnoc(ws, 0);
    DotSnoc(xs, ws, 0);
    assert xs[..0] == [] && ws[..0] == [];
    for i := 1 to n
      invariant forall k :: 0 <= k < i ==> a[k] == Dot(xs[..k + 1], ws[..k + 1])
      invariant forall k :: 0 <= k < i ==> weightSum[k] == PrefixSum(ws, k)
    {
      a[i] := a[i - 1] + xs[i] * ws[i];
      weightSum[i] := weightSum[i - 1] + ws[i];
      SumSnoc(ws, i);
      DotSnoc(xs, ws, i);
    }
    // `average / weight_sum`, element by element
    var sums, weightSums := a[..], weightSum[..];
    average := seq(n, k requires 0 <= k < n => assert PrefixSum(ws, k) != 0.0; sums[k] / weightSums[k]);
  }

  /** With equal weights the weighted running mean is the plain one. */
  lemma RunningMeanEqualWeights(xs: seq<real>, ws: seq<real>, i: nat)
    requires |xs| == |ws| && i < |xs|
    requires forall k :: 0 <= k < |ws| ==> ws[k] == 1.0
    ensures PrefixSum(ws, i) != 0.0
    ensures RunningWeightedMean(xs, ws, i) == RunningMean(xs, i)
  {
    DotConstantWeight(xs[..i + 1], ws[..i + 1], 1.0);
  }

  /** With positive weights every running mean lies between the smallest and
      largest value seen so far. */
  lemma RunningWeightedMeanBounds(xs: seq<real>, ws: seq<real>, i: nat, lo: real, hi: real)
    requires |xs| == |ws| && i < |xs|
    requires forall k :: 0 <= k <= i ==> ws[k] > 0.0 && lo <= xs[k] <= hi
    ensures PrefixSum(ws, i) > 0.0
    ensures lo <= RunningWeightedMean(xs, ws, i) <= hi
  {
    PositiveSum(ws[..i + 1]);
    DotBounds(xs[..i + 1], ws[..i + 1], lo, hi);
    var s := Sum(ws[..i + 1]);
    var m := RunningWeightedMean(xs, ws, i);
    assert m * s == Dot(xs[..i + 1], ws[..i + 1]);
    if m < lo { MulLt(m, lo, s); }
    if m > hi { MulLt(hi, m, s); }
  }

  lemma {:induction false} PositiveSum(ws: seq<real>)
    requires |ws| > 0 && forall k :: 0 <= k < |ws| ==> ws[k] > 0.0
    ensures Sum(ws) > 0.0
  {
    if |ws| > 1 { PositiveSum(ws[..|ws| - 1]); }
  }

  /** Stitching keeps a column positive: its rows are input rows. */
  lemma StitchedPositive(t: Table, c: nat, w: nat)
    requires Stitched(t, c).Ok? && PositiveColumn(t, w)
    ensures PositiveColumn(Stitched(t, c).value, w)
  {
    var idx := StitchedSubsequence(t, c);
    var u := Stitched(t, c).value;
    forall r | 0 <= r < |u| && w < |u[r]| ensures u[r][w] > 0.0 {
      assert u[r] == t[idx[r]];
    }
  }

  /** Positive weights never sum to zero over a prefix. */
  lemma PositiveWeights(t: Table, w: nat)
    requires PositiveColumn(t, w)
    ensures HasColumns(t, w + 1) ==> PrefixWeightsNonZero(Column(t, w))
  {
    if !HasColumns(t, w + 1) { return; }
    var ws := Column(t, w);
    forall i | 0 <= i < |ws| ensures PrefixSum(ws, i) != 0.0 {
      PositiveSum(ws[..i + 1]);
    }
  }

  /** The last running mean is `np.average` of the whole column with the
      same weights. */
  lemma RunningWeightedMeanLast(xs: seq<real>, ws: seq<real>)
    requires |xs| == |ws| && |xs| > 0 && Sum(ws) != 0.0
    ensures Sum(ws[..|xs|]) != 0.0
    ensures WeightedMean(xs, ws) == Ok(RunningWeightedMean(xs, ws, |xs| - 1))
  {
    assert xs[..|xs|] == xs && ws[..|ws|] == ws;
  }

  // ===========================================================================
  // check_tolerance

  /** A value outside the band `ref * (1 - tol/100) .. ref * (1 + tol/100)`. */
  predicate Outside(x: real, ref: real, tol: real) {
    x < ref * (1.0 - tol / 100.0) || x > ref * (1.0 + tol / 100.0)
  }

  /** Where the data enters its final run inside the band: None when the
      data is empty or its last value is outside. */
  function FinalRunStart(data: seq<real>, ref: real, tol: real): (r: Option<nat>)
    ensures r.Some? <==> |data| > 0 && !Outside(data[|data| - 1], ref, tol)
    ensures r.Some? ==> r.value < |data|
    ensures r.Some? ==> forall m :: r.value <= m < |data| ==> !Outside(data[m], ref, tol)
    ensures r.Some? && r.value > 0 ==> Outside(data[r.value - 1], ref, tol)
  {
    if data == [] || Outside(data[|data| - 1], ref, tol) then None
    else
      match FinalRunStart(data[..|data| - 1], ref, tol)
      case None => Some(|data| - 1)
      case Some(k) => Some(k)
  }

  /** `FinalRunStart` one value further on. */
  lemma FinalRunStep(data: seq<real>, ref: real, tol: real, j: nat)
    requires j < |data|
    ensures FinalRunStart(data[..j + 1], ref, tol)
            == if Outside(data[j], ref, tol) then None
               else if FinalRunStart(data[..j], ref, tol).None? then Some(j)
               else FinalRunStart(data[..j], ref, tol)
  {
    assert data[..j + 1][..j] == data[..j];
  }

  /** `check_tolerance(data, ref, tolerances)`: for each tolerance in turn,
      one pass over the data tracking whether the current value is inside the
      band and since when. */
  method CheckTolerance(data: seq<real>, ref: real, tolerances: seq<real>)
    returns (r: seq<Option<nat>>)
    ensures |r| == |tolerances|
    ensures forall i :: 0 <= i < |tolerances| ==> r[i] == FinalRunStart(data, ref, tolerances[i])
  {
    var n := |tolerances|;
    var inTolerance := new bool[n](_ => false);
    var inToleranceIdx := new Option<nat>[n](_ => None);
    for i := 0 to n
      invariant forall k :: 0 <= k < i ==> inToleranceIdx[k] == FinalRunStart(data, ref, tolerances[k])
      invariant forall k :: i <= k < n ==> !inTolerance[k] && inToleranceIdx[k].None?
    {
      ScanTolerance(data, ref, tolerances[i], inTolerance, inToleranceIdx, i);
    }
    r := inToleranceIdx[..];
  }

  /** The inner loop of `check_tolerance` for tolerance number `i`: it only
      touches entry `i` of the two lists. */
  method ScanTolerance(data: seq<real>, ref: real, tol: real,
                       inTolerance: array<bool>, inToleranceIdx: array<Option<nat>>, i: nat)
    requires i < inTolerance.Length == inToleranceIdx.Length
    requires !inTolerance[i] && inToleranceIdx[i].None?
    modifies inTolerance, inToleranceIdx
    ensures inToleranceIdx[i] == FinalRunStart(data, ref, tol)
    ensures inTolerance[i] <==> inToleranceIdx[i].Some?
    ensures forall k :: 0 <= k < inTolerance.Length && k != i ==>
              inTolerance[k] == old(inTolerance[k]) && inToleranceIdx[k] == old(inToleranceIdx[k])
  {
    assert data[..0] == [];
    for j := 0 to |data|
      invariant inToleranceIdx[i] == FinalRunStart(data[..j], ref, tol)
      invariant inTolerance[i] <==> inToleranceIdx[i].Some?
      invariant forall k :: 0 <= k < inTolerance.Length && k != i ==>
                  inTolerance[k] == old(inTolerance[k]) && inToleranceIdx[k] == old(inToleranceIdx[k])
    {
      var x := data[j];
      FinalRunStep(data, ref, tol, j);
      if x < ref * (1.0 - tol / 100.0) || x > ref * (1.0 + tol / 100.0) {
        if inTolerance[i] {
          inTolerance[i] := false;
          inToleranceIdx[i] := None;
        }
      } else if !inTolerance[i] {
        inTolerance[i] := true;
        inToleranceIdx[i] := Some(j);
      }
    }
    assert data[..|data|] == data;
  }

  // ===========================================================================
  // get_time_idx

  /** `get_time_idx(data, times)`: for each requested time, the first row
      whose column-0 time is nearest to it.  argmin over no rows raises
      ValueError; a table without column 0 raises IndexError. */
  function TimeIndices(t: Table, times: seq<real>): (r: Result<seq<nat>>)
    ensures times == [] ==> r == Ok([])
    ensures r.Err? <==> times != [] && (!HasColumns(t, 1) || t == [])
    ensures r.Ok? ==> |r.value| == |times|
    ensures r.Ok? ==> forall k :: 0 <= k < |times| ==>
              && r.value[k] < |t|
              && (forall m :: 0 <= m < |t| ==> Abs(t[r.value[k]][0] - times[k]) <= Abs(t[m][0] - times[k]))
              && (forall m :: 0 <= m < r.value[k] ==> Abs(t[m][0] - times[k]) > Abs(t[r.value[k]][0] - times[k]))
  {
    if times == [] then Ok([])
    else if !HasColumns(t, 1) then Err(IndexError)
    else if t == [] then Err(ValueError)
    else
      var col := Column(t, 0);
      ColumnAt(t, 0);
      Ok(seq(|times|, k requires 0 <= k < |times| => Nearest(col, times[k])))
  }

  // ===========================================================================
  // parse_turbineOutput_files

  /** The fields of one turbineOutput file stem: 'turbine' deleted, 'blade'
      deleted when the stem names a blade, split on '_', and an empty fourth
      field appended for a turbine (non-blade) stem. */
  function StemFields(stem: string): (f: seq<string>)
    ensures Contains(stem, "blade") ==>
              Join(f, "_") == Replace(Replace(stem, "turbine", ""), "blade", "")
    ensures !Contains(stem, "blade") ==>
              |f| >= 2 && f[|f| - 1] == "" && Join(f[..|f| - 1], "_") == Replace(stem, "turbine", "")
  {
    var p := Replace(stem, "turbine", "");
    if Contains(stem, "blade") then
      JoinSplit(Replace(p, "blade", ""), "_");
      Split(Replace(p, "blade", ""), "_")
    else
      JoinSplit(p, "_");
      assert (Split(p, "_") + [""])[..|Split(p, "_")|] == Split(p, "_");
      Split(p, "_") + [""]
  }

  /** `a[a != x]`: the entries other than `x`, in order. */
  function Without(s: seq<string>, x: string): (r: seq<string>)
    ensures Sorting.Elems(r) == Sorting.Elems(s) - {x}
  {
    if s == [] then []
    else
      var rest := Without(s[1..], x);
      assert s == [s[0]] + s[1..];
      Sorting.ElemsCons(s[0], s[1..]);
      if s[0] == x then rest
      else
        Sorting.ElemsCons(s[0], rest);
        [s[0]] + rest
  }

  /** Removing a name keeps the names in ascending order. */
  lemma {:induction false} WithoutSorted(s: seq<string>, x: string)
    requires Sorting.StrictlySorted(s, Less)
    ensures Sorting.StrictlySorted(Without(s, x), Less)
  {
    if s != [] {
      WithoutSorted(s[1..], x);
      var rest := Without(s[1..], x);
      if s[0] != x {
        var r := [s[0]] + rest;
        assert Without(s, x) == r;
        HeadBelowRest(s);
        forall i, j | 0 <= i < j < |r| ensures Less(r[i], r[j]) {
          if i > 0 {
            assert r[i] == rest[i - 1] && r[j] == rest[j - 1];
          } else {
            assert r[j] == rest[j - 1] && rest[j - 1] in Sorting.Elems(rest);
          }
        }
      }
    }
  }

  /** In ascending names the first is below every later one. */
  lemma HeadBelowRest(s: seq<string>)
    requires s != [] && Sorting.StrictlySorted(s, Less)
    ensures forall y :: y in Sorting.Elems(s[1..]) ==> Less(s[0], y)
  {
    forall y | y in Sorting.Elems(s[1..]) ensures Less(s[0], y) {
      var k :| 0 <= k < |s[1..]| && s[1..][k] == y;
      assert s[k + 1] == y;
    }
  }

  /** Field `k` of every parsed stem: `filenames_parsed[:, k]`. */
  function FieldColumn(parsed: seq<seq<string>>, k: nat): (col: seq<string>)
    requires forall i :: 0 <= i < |parsed| ==> k < |parsed[i]|
    ensures |col| == |parsed| && forall i :: 0 <= i < |parsed| ==> col[i] == parsed[i][k]
  {
    seq(|parsed|, i requires 0 <= i < |parsed| => parsed[i][k])
  }

  datatype TurbineOutputNames =
    TurbineOutputNames(quantities: seq<string>, turbines: seq<string>, blades: seq<string>)

  /** The names `parse_turbineOutput_files` returns for parsed stems: numpy
      refuses stems of unequal field counts (ValueError); with no stems, or
      fewer than four fields, a column subscript raises IndexError. */
  function NamesOfFields(parsed: seq<seq<string>>): (r: Result<TurbineOutputNames>)
    ensures r.Ok? <==> |parsed| > 0 && (forall i :: 0 <= i < |parsed| ==> |parsed[i]| == |parsed[0]|)
                       && |parsed[0]| >= 4
    ensures r.Ok? ==>
              && Sorting.StrictlySorted(r.value.quantities, Less)
              && Sorting.StrictlySorted(r.value.turbines, Less)
              && Sorting.StrictlySorted(r.value.blades, Less)
              && Sorting.Elems(r.value.quantities) == (set i | 0 <= i < |parsed| :: parsed[i][1])
              && Sorting.Elems(r.value.turbines) == (set i | 0 <= i < |parsed| :: parsed[i][2])
              && Sorting.Elems(r.value.blades) == (set i | 0 <= i < |parsed| :: parsed[i][3]) - {""}
  {
    if |parsed| == 0 then Err(IndexError)
    else if exists i :: 0 <= i < |parsed| && |parsed[i]| != |parsed[0]| then Err(ValueError)
    else if |parsed[0]| < 4 then Err(IndexError)
    else
      var q := FieldColumn(parsed, 1);
      var tu := FieldColumn(parsed, 2);
      var b := FieldColumn(parsed, 3);
      assert Sorting.Elems(q) == set i | 0 <= i < |parsed| :: parsed[i][1] by {
        forall s | s in Sorting.Elems(q) ensures s in set i | 0 <= i < |parsed| :: parsed[i][1] {
          var i :| 0 <= i < |q| && q[i] == s;
        }
      }
      assert Sorting.Elems(tu) == set i | 0 <= i < |parsed| :: parsed[i][2] by {
        forall s | s in Sorting.Elems(tu) ensures s in set i | 0 <= i < |parsed| :: parsed[i][2] {
          var i :| 0 <= i < |tu| && tu[i] == s;
        }
      }
      assert Sorting.Elems(b) == set i | 0 <= i < |parsed| :: parsed[i][3] by {
        forall s | s in Sorting.Elems(b) ensures s in set i | 0 <= i < |parsed| :: parsed[i][3] {
          var i :| 0 <= i < |b| && b[i] == s;
        }
      }
      WithoutSorted(UniqueNames(b), "");
      Ok(TurbineOutputNames(UniqueNames(q), UniqueNames(tu), Without(UniqueNames(b), "")))
  }

  /** `parse_turbineOutput_files` on the stems of the directory's files:
      the loop rewrites each entry of `filenames_parsed` into its fields. */
  method ParseTurbineOutputStems(stems: seq<string>) returns (r: Result<TurbineOutputNames>)
    ensures r == NamesOfFields(seq(|stems|, i requires 0 <= i < |stems| => StemFields(stems[i])))
  {
    var parsed := new seq<string>[|stems|](_ => [""]);
    for i := 0 to |stems|
      invariant forall k :: 0 <= k < i ==> parsed[k] == StemFields(stems[k])
    {
      var p := Replace(stems[i], "turbine", "");
      if Contains(stems[i], "blade") {
        p := Replace(p, "blade", "");
      }
      var fields := Split(p, "_");
      if !Contains(stems[i], "blade") {
        fields := fields + [""];
      }
      parsed[i] := fields;
    }
    assert parsed[..] == seq(|stems|, i requires 0 <= i < |stems| => StemFields(stems[i]));
    r := NamesOfFields(parsed[..]);
  }
}
