/** Numeric tables as the scripts hold them in numpy arrays: a table is a
    sequence of rows, a row a sequence of reals.  This module gives the
    numpy idioms the scripts share: column extraction, row filtering,
    strided slicing `a[::N]`, `argmin`/`argmax`, `np.average` with weights,
    and Python's float `//`, `%` and `int()`. */
module Tables {
  import opened Common

  type Row = seq<real>
  type Table = seq<Row>

  /** Every row has at least `w` columns (so columns 0..w-1 exist). */
  predicate HasColumns(t: Table, w: nat) {
    forall r :: 0 <= r < |t| ==> |t[r]| >= w
  }

  /** Every row has exactly `w` columns: a 2-D array of width `w`. */
  predicate Rectangular(t: Table, w: nat) {
    forall r :: 0 <= r < |t| ==> |t[r]| == w
  }

  /** Column `c`, wherever a row has one, is positive (a time step `dt`). */
  predicate PositiveColumn(t: Table, c: nat) {
    forall r :: 0 <= r < |t| && c < |t[r]| ==> t[r][c] > 0.0
  }

  /** `t[:, c]`. */
  function Column(t: Table, c: nat): (col: seq<real>)
    requires HasColumns(t, c + 1)
    ensures |col| == |t|
  {
    seq(|t|, r requires 0 <= r < |t| => t[r][c])
  }

  /** Entry `r` of column `c` is row `r`'s entry `c`. */
  lemma ColumnAt(t: Table, c: nat)
    requires HasColumns(t, c + 1)
    ensures forall r :: 0 <= r < |t| ==> Column(t, c)[r] == t[r][c]
  {
  }

  /** `t[:, k:]`: every row without its first `k` entries. */
  function DropColumns(t: Table, k: nat): (u: Table)
    requires HasColumns(t, k)
    ensures |u| == |t|
    ensures forall r :: 0 <= r < |t| ==> u[r] == t[r][k..]
  {
    seq(|t|, r requires 0 <= r < |t| => t[r][k..])
  }

  /** `t[t[:, c] == v]`: the rows whose column `c` equals `v`, in order. */
  function RowsWhere(t: Table, c: nat, v: real): (u: Table)
    requires HasColumns(t, c + 1)
    ensures HasColumns(u, c + 1) && |u| <= |t|
    ensures forall w {:trigger HasColumns(u, w)} :: HasColumns(t, w) ==> HasColumns(u, w)
    ensures forall r :: 0 <= r < |u| ==> u[r][c] == v
  {
    if t == [] then []
    else
      var head: Table := if t[0][c] == v then [t[0]] else [];
      WidthsSplit(t, head, RowsWhere(t[1..], c, v));
      head + RowsWhere(t[1..], c, v)
  }

  /** Widths carry over from `t` to its tail, and from two tables to their
      concatenation. */
  lemma WidthsSplit(t: Table, a: Table, b: Table)
    requires t != []
    ensures forall w {:trigger HasColumns(t[1..], w)} :: HasColumns(t, w) ==> HasColumns(t[1..], w)
    ensures forall w {:trigger HasColumns(a + b, w)} :: HasColumns(a, w) && HasColumns(b, w) ==> HasColumns(a + b, w)
  {
    forall w | HasColumns(t, w) ensures HasColumns(t[1..], w) {
      forall r | 0 <= r < |t| - 1 ensures |t[1..][r]| >= w { assert t[1..][r] == t[r + 1]; }
    }
    forall w | HasColumns(a, w) && HasColumns(b, w) ensures HasColumns(a + b, w) {
      forall r | 0 <= r < |a + b| ensures |(a + b)[r]| >= w {
        if r < |a| { assert (a + b)[r] == a[r]; } else { assert (a + b)[r] == b[r - |a|]; }
      }
    }
  }

  /** Every row the filter keeps is a row of `t`. */
  lemma {:induction false} RowsWhereFrom(t: Table, c: nat, v: real, r: nat) returns (i: nat)
    requires HasColumns(t, c + 1) && r < |RowsWhere(t, c, v)|
    ensures i < |t| && t[i] == RowsWhere(t, c, v)[r]
    decreases |t|
  {
    var head: Table := if t[0][c] == v then [t[0]] else [];
    assert RowsWhere(t, c, v) == head + RowsWhere(t[1..], c, v);
    if r < |head| {
      i := 0;
    } else {
      WidthsSplit(t, [], []);
      var j := RowsWhereFrom(t[1..], c, v, r - |head|);
      i := j + 1;
    }
  }

  /** Every row of `t` whose column `c` holds `v` is kept. */
  lemma {:induction false} RowsWhereHas(t: Table, c: nat, v: real, i: nat) returns (r: nat)
    requires HasColumns(t, c + 1) && i < |t| && t[i][c] == v
    ensures r < |RowsWhere(t, c, v)| && RowsWhere(t, c, v)[r] == t[i]
    decreases |t|
  {
    var head: Table := if t[0][c] == v then [t[0]] else [];
    assert RowsWhere(t, c, v) == head + RowsWhere(t[1..], c, v);
    if i == 0 {
      r := 0;
    } else {
      WidthsSplit(t, [], []);
      assert t[1..][i - 1] == t[i];
      var j := RowsWhereHas(t[1..], c, v, i - 1);
      r := j + |head|;
    }
  }

  function Abs(x: real): real { if x < 0.0 then -x else x }

  // ---------------------------------------------------------------------------
  // argmin / argmax

  /** `np.argmin(np.abs(xs - x))`: the first index of an entry nearest to `x`. */
  function Nearest(xs: seq<real>, x: real): (k: nat)
    requires |xs| > 0
    ensures k < |xs|
    ensures forall j :: 0 <= j < |xs| ==> Abs(xs[k] - x) <= Abs(xs[j] - x)
    ensures forall j :: 0 <= j < k ==> Abs(xs[j] - x) > Abs(xs[k] - x)
  {
    NearestFrom(xs, x, 1, 0)
  }

  function NearestFrom(xs: seq<real>, x: real, i: nat, best: nat): (k: nat)
    requires best < i <= |xs|
    requires forall j :: 0 <= j < i ==> Abs(xs[best] - x) <= Abs(xs[j] - x)
    requires forall j :: 0 <= j < best ==> Abs(xs[j] - x) > Abs(xs[best] - x)
    ensures k < |xs|
    ensures forall j :: 0 <= j < |xs| ==> Abs(xs[k] - x) <= Abs(xs[j] - x)
    ensures forall j :: 0 <= j < k ==> Abs(xs[j] - x) > Abs(xs[k] - x)
    decreases |xs| - i
  {
    if i == |xs| then best
    else if Abs(xs[i] - x) < Abs(xs[best] - x) then NearestFrom(xs, x, i + 1, i)
    else NearestFrom(xs, x, i + 1, best)
  }

  /** `np.argmax(np.abs(xs))`: the first index of an entry of largest magnitude. */
  function ArgmaxAbs(xs: seq<real>): (k: nat)
    requires |xs| > 0
    ensures k < |xs|
    ensures forall j :: 0 <= j < |xs| ==> Abs(xs[j]) <= Abs(xs[k])
    ensures forall j :: 0 <= j < k ==> Abs(xs[j]) < Abs(xs[k])
  {
    ArgmaxAbsFrom(xs, 1, 0)
  }

  function ArgmaxAbsFrom(xs: seq<real>, i: nat, best: nat): (k: nat)
    requires best < i <= |xs|
    requires forall j :: 0 <= j < i ==> Abs(xs[j]) <= Abs(xs[best])
    requires forall j :: 0 <= j < best ==> Abs(xs[j]) < Abs(xs[best])
    ensures k < |xs|
    ensures forall j :: 0 <= j < |xs| ==> Abs(xs[j]) <= Abs(xs[k])
    ensures forall j :: 0 <= j < k ==> Abs(xs[j]) < Abs(xs[k])
    decreases |xs| - i
  {
    if i == |xs| then best
    else if Abs(xs[i]) > Abs(xs[best]) then ArgmaxAbsFrom(xs, i + 1, i)
    else ArgmaxAbsFrom(xs, i + 1, best)
  }

  /** `np.argmin(xs)`: the first index of a smallest entry. */
  function Argmin(xs: seq<real>): (k: nat)
    requires |xs| > 0
    ensures k < |xs|
    ensures forall j :: 0 <= j < |xs| ==> xs[k] <= xs[j]
    ensures forall j :: 0 <= j < k ==> xs[j] > xs[k]
  {
    ArgminFrom(xs, 1, 0)
  }

  function ArgminFrom(xs: seq<real>, i: nat, best: nat): (k: nat)
    requires best < i <= |xs|
    requires forall j :: 0 <= j < i ==> xs[best] <= xs[j]
    requires forall j :: 0 <= j < best ==> xs[j] > xs[best]
    ensures k < |xs|
    ensures forall j :: 0 <= j < |xs| ==> xs[k] <= xs[j]
    ensures forall j :: 0 <= j < k ==> xs[j] > xs[k]
    decreases |xs| - i
  {
    if i == |xs| then best
    else if xs[i] < xs[best] then ArgminFrom(xs, i + 1, i)
    else ArgminFrom(xs, i + 1, best)
  }

  /** `np.max(xs)`: the largest entry. */
  function MaxValue(xs: seq<real>): (m: real)
    requires |xs| > 0
    ensures forall j :: 0 <= j < |xs| ==> xs[j] <= m
    ensures m in xs
  {
    if |xs| == 1 then xs[0]
    else
      var init := xs[..|xs| - 1];
      var m := MaxValue(init);
      assert m in xs by { var j :| 0 <= j < |init| && init[j] == m; assert xs[j] == m; }
      if xs[|xs| - 1] > m then xs[|xs| - 1] else m
  }

  // ---------------------------------------------------------------------------
  // Sums and np.average(..., weights=...)

  function Sum(xs: seq<real>): real {
    if xs == [] then 0.0 else Sum(xs[..|xs| - 1]) + xs[|xs| - 1]
  }

  /** The sum of the products `xs[k] * ws[k]`. */
  function Dot(xs: seq<real>, ws: seq<real>): real
    requires |xs| == |ws|
  {
    if xs == [] then 0.0
    else Dot(xs[..|xs| - 1], ws[..|ws| - 1]) + xs[|xs| - 1] * ws[|ws| - 1]
  }

  /** `np.average(xs, weights=ws)`: ZeroDivisionError when the weights sum to
      zero (which includes the empty case). */
  function WeightedMean(xs: seq<real>, ws: seq<real>): (r: Result<real>)
    requires |xs| == |ws|
    ensures r.Err? <==> Sum(ws) == 0.0
    ensures r.Ok? ==> r.value * Sum(ws) == Dot(xs, ws)
  {
    if Sum(ws) == 0.0 then Err(ZeroDivisionError) else Ok(Dot(xs, ws) / Sum(ws))
  }

  /** With equal weights the weighted mean is the plain mean. */
  lemma {:induction false} DotConstantWeight(xs: seq<real>, ws: seq<real>, c: real)
    requires |xs| == |ws|
    requires forall k :: 0 <= k < |ws| ==> ws[k] == c
    ensures Dot(xs, ws) == c * Sum(xs) && Sum(ws) == c * (|ws| as real)
  {
    if xs != [] {
      DotConstantWeight(xs[..|xs| - 1], ws[..|ws| - 1], c);
    }
  }

  /** A weighted mean lies between the smallest and largest value when the
      weights are positive. */
  lemma {:induction false} DotBounds(xs: seq<real>, ws: seq<real>, lo: real, hi: real)
    requires |xs| == |ws|
    requires forall k :: 0 <= k < |ws| ==> ws[k] > 0.0
    requires forall k :: 0 <= k < |xs| ==> lo <= xs[k] <= hi
    ensures lo * Sum(ws) <= Dot(xs, ws) <= hi * Sum(ws)
  {
    if xs != [] {
      var n := |xs| - 1;
      var xs', ws' := xs[..n], ws[..n];
      assert forall k :: 0 <= k < |ws'| ==> ws'[k] == ws[k];
      assert forall k :: 0 <= k < |xs'| ==> xs'[k] == xs[k];
      DotBounds(xs', ws', lo, hi);
      var sw, dx := Sum(ws'), Dot(xs', ws');
      BoundsStep(lo, hi, sw, dx, xs[n], ws[n], Sum(ws), Dot(xs, ws));
    }
  }

  /** Adding one value in [lo, hi] with a positive weight keeps a weighted
      sum `d` between lo and hi times the total weight `s`. */
  lemma BoundsStep(lo: real, hi: real, sw: real, dx: real, x: real, w: real, s: real, d: real)
    requires lo * sw <= dx <= hi * sw
    requires lo <= x <= hi && w > 0.0
    requires s == sw + w && d == dx + x * w
    ensures lo * s <= d <= hi * s
  {
    MulLe(lo, x, w);
    MulLe(x, hi, w);
    Distribute(lo, sw, w);
    Distribute(hi, sw, w);
  }

  // ---------------------------------------------------------------------------
  // Python slicing and float arithmetic

  /** The indices `s[::step]` visits, for a non-zero step. */
  function StrideIndex(n: nat, step: int, k: nat): int
    requires step != 0
  {
    if step > 0 then k * step else n - 1 + k * step
  }

  /** The number of elements of `s[::step]`: ceil(n / |step|). */
  function StrideCount(n: nat, step: int): nat
    requires step != 0
  {
    var m := if step > 0 then step else -step;
    (n + m - 1) / m
  }

  lemma StrideInRange(n: nat, step: int, k: nat)
    requires step != 0 && k < StrideCount(n, step)
    ensures 0 <= StrideIndex(n, step, k) < n
  {
    var m := if step > 0 then step else -step;
    var q := (n + m - 1) / m;
    assert q * m <= n + m - 1;
    MulLeInt(k + 1, q, m);
    assert k * m <= n - 1;
    if step < 0 { assert k * step == -(k * m); }
  }

  lemma MulLeInt(a: int, b: int, c: nat)
    requires a <= b
    ensures a * c <= b * c
  {
    assert b * c - a * c == (b - a) * c;
  }

  lemma Distribute(a: real, b: real, c: real)
    ensures a * (b + c) == a * b + a * c
  {}

  lemma MulLe(a: real, b: real, c: real)
    requires a <= b && c >= 0.0
    ensures a * c <= b * c
  {
    assert b * c - a * c == (b - a) * c;
  }

  lemma MulLt(a: real, b: real, c: real)
    requires a < b && c > 0.0
    ensures a * c < b * c
  {
    assert b * c - a * c == (b - a) * c;
  }

  /** Python's `s[::step]`; a zero step raises ValueError. */
  function Stride<T>(s: seq<T>, step: int): (r: Result<seq<T>>)
    ensures r.Err? <==> step == 0
    ensures r.Ok? ==> |r.value| == StrideCount(|s|, step)
    ensures r.Ok? ==> forall k :: 0 <= k < |r.value| ==>
              0 <= StrideIndex(|s|, step, k) < |s| && r.value[k] == s[StrideIndex(|s|, step, k)]
  {
    if step == 0 then Err(ValueError)
    else
      var cnt := StrideCount(|s|, step);
      assert forall k :: 0 <= k < cnt ==> 0 <= StrideIndex(|s|, step, k) < |s| by {
        forall k | 0 <= k < cnt ensures 0 <= StrideIndex(|s|, step, k) < |s| {
          StrideInRange(|s|, step, k);
        }
      }
      Ok(seq(cnt, k requires 0 <= k < cnt => s[StrideIndex(|s|, step, k)]))
  }

  /** Python's `int(x)` for a float: truncation toward zero. */
  function Trunc(x: real): (i: int)
    ensures Abs(i as real) <= Abs(x) < Abs(i as real) + 1.0
    ensures (i as real) * x >= 0.0
  {
    if x >= 0.0 then x.Floor else -((-x).Floor)
  }

  lemma TruncMonotone(x: real, y: real)
    requires x <= y
    ensures Trunc(x) <= Trunc(y)
  {
    if 0.0 <= x {
      assert x.Floor <= y.Floor;
    } else if y < 0.0 {
      assert (-y).Floor <= (-x).Floor;
    }
  }

  /** Python's `x // d` on floats, for a positive divisor: the floor of the quotient. */
  function FloorDiv(x: real, d: real): (q: int)
    requires d > 0.0
    ensures (q as real) * d <= x < (q as real + 1.0) * d
  {
    var y := x / d;
    assert y * d == x;
    assert (y.Floor as real) <= y < (y.Floor as real) + 1.0;
    MulLe((y.Floor) as real, y, d);
    MulLt(y, (y.Floor) as real + 1.0, d);
    y.Floor
  }

  /** Python's `x % d` on floats, for a positive divisor (never negative). */
  function Mod(x: real, d: real): (m: real)
    requires d > 0.0
    ensures 0.0 <= m < d
    ensures x == (FloorDiv(x, d) as real) * d + m
  {
    x - (FloorDiv(x, d) as real) * d
  }

  /** `t[:, idx]`: the listed columns of every row, in the listed order;
      IndexError if a listed column does not exist. */
  function SelectColumns(t: Table, idx: seq<nat>): (r: Result<Table>)
    ensures r.Ok? <==> forall r0, j :: 0 <= r0 < |t| && 0 <= j < |idx| ==> idx[j] < |t[r0]|
    ensures r.Ok? ==> |r.value| == |t| && Rectangular(r.value, |idx|)
    ensures r.Ok? ==> forall r0, j :: 0 <= r0 < |t| && 0 <= j < |idx| ==> r.value[r0][j] == t[r0][idx[j]]
  {
    if forall r0, j :: 0 <= r0 < |t| && 0 <= j < |idx| ==> idx[j] < |t[r0]| then
      Ok(seq(|t|, r0 requires 0 <= r0 < |t| =>
        seq(|idx|, j requires 0 <= j < |idx| => t[r0][idx[j]])))
    else Err(IndexError)
  }

  /** `np.column_stack((t, col))`: `col` appended as a last column. */
  function AppendColumn(t: Table, col: seq<real>): (u: Table)
    requires |col| == |t|
    ensures |u| == |t|
    ensures forall r :: 0 <= r < |t| ==> u[r] == t[r] + [col[r]]
  {
    seq(|t|, r requires 0 <= r < |t| => t[r] + [col[r]])
  }

  /** Columns 2, 4, 6, ... of a row: `row[2::2]`. */
  function EvenFrom2(row: Row): (r: seq<real>)
    ensures |r| == if |row| <= 2 then 0 else (|row| - 1) / 2
    ensures forall k :: 0 <= k < |r| ==> 2 * k + 2 < |row| && r[k] == row[2 * k + 2]
  {
    var n := if |row| <= 2 then 0 else (|row| - 1) / 2;
    seq(n, k requires 0 <= k < n => row[2 * k + 2])
  }

  /** The contents of a two-dimensional array. */
  function Grid(a: array2<real>): (t: Table)
    reads a
    ensures |t| == a.Length0 && Rectangular(t, a.Length1)
    ensures forall i, h :: 0 <= i < a.Length0 && 0 <= h < a.Length1 ==> t[i][h] == a[i, h]
  {
    seq(a.Length0, i requires 0 <= i < a.Length0 reads a =>
      seq(a.Length1, h requires 0 <= h < a.Length1 reads a => a[i, h]))
  }

  /** Two tables with the same shape and the same entries are equal. */
  lemma SameTable(a: Table, b: Table)
    requires |a| == |b| && forall i :: 0 <= i < |a| ==> |a[i]| == |b[i]|
    requires forall i, k :: 0 <= i < |a| && 0 <= k < |a[i]| ==> a[i][k] == b[i][k]
    ensures a == b
  {
    assert forall i :: 0 <= i < |a| ==> a[i] == b[i];
  }

  /** `a[:, k] = col`: column `k` replaced, every other entry kept. */
  method SetColumn(a: array2<real>, k: nat, col: seq<real>)
    requires k < a.Length1 && |col| == a.Length0
    modifies a
    ensures forall i, c :: 0 <= i < a.Length0 && 0 <= c < a.Length1 ==>
              a[i, c] == if c == k then col[i] else old(a[i, c])
  {
    forall i | 0 <= i < a.Length0 {
      a[i, k] := col[i];
    }
  }
}
