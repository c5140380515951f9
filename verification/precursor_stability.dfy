/** Stability parameters of a precursor run, computed from the stitched
    averaging tables (`<case>_U_mean.gz`, `<case>_T_mean.gz`, ...).

    Every table has a time column, a dt column and one column per sampled
    height; the heights are read from the header line written beside the
    table (`# time dt 5m 15m ...`).  Vertical gradients are first
    differences between neighbouring heights and are attributed to the lower
    height, so every derived table has one column fewer than its input.

    `np.loadtxt` returns a one-dimensional array for a file with fewer than
    two data rows; the scripts then fail with IndexError on `shape[1]` or on a
    two-index slice.  A table here is the list of rows in the file, and the
    model raises IndexError in those places. */
module PrecursorStability {
  import opened Common
  import opened Tables
  import opened Strings

  /** Gravitational acceleration in m/s^2, as the constants module gives it. */
  const G: real := 9.81

  // ---------------------------------------------------------------------------
  // Heights from the header line

  /** `line.removeprefix('# ').removesuffix('\n')`. */
  function HeaderText(line: string): string {
    RemoveSuffix(RemovePrefix(line, "# "), "\n")
  }

  /** `float(token.removesuffix('m'))`, None where float() raises. */
  function HeightOf(token: string): Option<real> {
    ParseFloat(RemoveSuffix(token, "m"))
  }

  /** The list comprehension over the height tokens: the first token that
      is not a number raises ValueError. */
  function ParseHeights(tokens: seq<string>): (r: Result<seq<real>>)
    ensures r.Ok? <==> forall k :: 0 <= k < |tokens| ==> HeightOf(tokens[k]).Some?
    ensures r.Ok? ==> |r.value| == |tokens|
    ensures r.Ok? ==> forall k :: 0 <= k < |tokens| ==> HeightOf(tokens[k]) == Some(r.value[k])
    ensures r.Err? ==> r.error == ValueError
    decreases |tokens|
  {
    if tokens == [] then Ok([])
    else match HeightOf(tokens[0])
      case None => Err(ValueError)
      case Some(h) =>
        match ParseHeights(tokens[1..])
        case Err(e) => Err(e)
        case Ok(rest) => Ok([h] + rest)
  }

  /** The heights named by a header line: its words after `time` and `dt`
      (`header.split()[2:]`, empty when there are fewer than three words). */
  function Heights(line: string): Result<seq<real>> {
    var words := Words(HeaderText(line));
    ParseHeights(if |words| <= 2 then [] else words[2..])
  }

  /** `f'{int(h)}m'`, the name the stitching step gives a height. */
  function HeightName(h: int): string {
    IntToString(h) + "m"
  }

  function HeightNames(hs: seq<int>): (r: seq<string>)
    ensures |r| == |hs|
    ensures forall k :: 0 <= k < |hs| ==> r[k] == HeightName(hs[k])
  {
    seq(|hs|, k requires 0 <= k < |hs| => HeightName(hs[k]))
  }

  function AsReals(hs: seq<int>): (r: seq<real>)
    ensures |r| == |hs|
    ensures forall k :: 0 <= k < |hs| ==> r[k] == hs[k] as real
  {
    seq(|hs|, k requires 0 <= k < |hs| => hs[k] as real)
  }

  /** The header line the stitching step writes through `np.savetxt`:
      `# time dt <h0>m <h1>m ...` and a newline. */
  function AveragingHeader(hs: seq<int>): string {
    "# " + Join(["time", "dt"] + HeightNames(hs), " ") + "\n"
  }

  lemma {:induction false} NatToStringIsWord(n: nat)
    ensures IsWord(NatToString(n))
  {
    var s := NatToString(n);
    forall i | 0 <= i < |s| ensures !IsSpace(s[i]) {
      assert IsDigit(s[i]);
    }
  }

  lemma HeightNameIsWord(h: int)
    ensures IsWord(HeightName(h))
  {
    var n: nat := if h < 0 then -h else h;
    NatToStringIsWord(n);
    var s := HeightName(h);
    if h < 0 {
      assert s == "-" + NatToString(n) + "m";
      forall i | 0 <= i < |s| ensures !IsSpace(s[i]) {
        if 1 <= i < |s| - 1 {
          assert s[i] == NatToString(n)[i - 1];
        }
      }
    } else {
      assert s == NatToString(n) + "m";
      forall i | 0 <= i < |s| ensures !IsSpace(s[i]) {
        if i < |s| - 1 {
          assert s[i] == NatToString(n)[i];
        }
      }
    }
  }

  lemma HeightOfName(h: int)
    ensures HeightOf(HeightName(h)) == Some(h as real)
  {
    var s := IntToString(h);
    assert EndsWith(s + "m", "m");
    assert RemoveSuffix(s + "m", "m") == s;
    ParseFloatOfInt(h);
  }

  /** Tokens that all parse give exactly their values. */
  lemma ParseHeightsAll(tokens: seq<string>, vals: seq<real>)
    requires |tokens| == |vals|
    requires forall k :: 0 <= k < |tokens| ==> HeightOf(tokens[k]) == Some(vals[k])
    ensures ParseHeights(tokens) == Ok(vals)
  {
    var r := ParseHeights(tokens);
    assert r.Ok?;
    assert r.value == vals;
  }

  lemma ParseHeightNames(hs: seq<int>)
    ensures ParseHeights(HeightNames(hs)) == Ok(AsReals(hs))
  {
    var names, vals := HeightNames(hs), AsReals(hs);
    forall k | 0 <= k < |hs| ensures HeightOf(names[k]) == Some(vals[k]) {
      HeightOfName(hs[k]);
    }
    ParseHeightsAll(names, vals);
  }

  lemma HeaderTextOfLine(text: string)
    ensures HeaderText("# " + text + "\n") == text
  {
    var line := "# " + text + "\n";
    assert StartsWith(line, "# ");
    assert RemovePrefix(line, "# ") == text + "\n";
    assert EndsWith(text + "\n", "\n");
  }

  lemma HeaderWordsAreWords(hs: seq<int>)
    ensures forall k :: 0 <= k < |["time", "dt"] + HeightNames(hs)| ==>
              IsWord((["time", "dt"] + HeightNames(hs))[k])
  {
    var ws := ["time", "dt"] + HeightNames(hs);
    forall k | 0 <= k < |ws| ensures IsWord(ws[k]) {
      if k >= 2 {
        HeightNameIsWord(hs[k - 2]);
      }
    }
  }

  /** The heights read back from the header the stitching step writes are
      the integer heights it was given. */
  lemma HeightsOfAveragingHeader(hs: seq<int>)
    ensures Heights(AveragingHeader(hs)) == Ok(AsReals(hs))
  {
    var ws := ["time", "dt"] + HeightNames(hs);
    HeaderTextOfLine(Join(ws, " "));
    HeaderWordsAreWords(hs);
    WordsJoin(ws);
    assert ws[2..] == HeightNames(hs);
    ParseHeightNames(hs);
    if |hs| == 0 {
      assert ParseHeights([]) == Ok(AsReals(hs));
    }
  }

  // ---------------------------------------------------------------------------
  // Output header

  /** `" ".join(header.split()[:-1])`: the header without its last word. */
  function OutHeader(header: string): (r: string) {
    var w := Words(header);
    if |w| == 0 then "" else Join(w[..|w| - 1], " ")
  }

  /** The output header keeps every word of the input header but the last. */
  lemma OutHeaderWords(header: string)
    ensures var w := Words(header);
            Words(OutHeader(header)) == if |w| == 0 then [] else w[..|w| - 1]
  {
    var w := Words(header);
    if |w| > 0 {
      WordsJoin(w[..|w| - 1]);
    }
  }

  /** A derived table's header names the lower height of every interval:
      for a header written by the stitching step, reading the output header
      back gives all the heights but the highest. */
  lemma OutHeaderHeights(hs: seq<int>)
    requires |hs| >= 1
    ensures Heights("# " + OutHeader(HeaderText(AveragingHeader(hs))) + "\n")
            == Ok(AsReals(hs[..|hs| - 1]))
  {
    var ws := ["time", "dt"] + HeightNames(hs);
    HeaderTextOfLine(Join(ws, " "));
    HeaderWordsAreWords(hs);
    WordsJoin(ws);
    assert ws[..|ws| - 1] == ["time", "dt"] + HeightNames(hs[..|hs| - 1]);
    assert OutHeader(Join(ws, " ")) == AveragingHeader(hs[..|hs| - 1])[2..|AveragingHeader(hs[..|hs| - 1])| - 1];
    assert AveragingHeader(hs[..|hs| - 1]) == "# " + OutHeader(Join(ws, " ")) + "\n";
    HeightsOfAveragingHeader(hs[..|hs| - 1]);
  }

  // ---------------------------------------------------------------------------
  // First-difference gradients

  /** Neighbouring heights differ, so that `z[1:] - z[:-1]` has no zero. */
  ghost predicate DistinctSteps(z: seq<real>) {
    forall k, l :: 0 <= k < l < |z| && l == k + 1 ==> z[k] != z[l]
  }

  /** `len(z[1:] - z[:-1])`. */
  function StepCount(z: seq<real>): nat {
    if |z| == 0 then 0 else |z| - 1
  }

  /** The division `(X[:,3:] - X[:,2:-1]) / dz` broadcasts when the number
      of differences in a row equals the number of height steps, or when
      there is a single step (two heights), which then divides every
      difference. */
  predicate Broadcasts(differences: nat, z: seq<real>) {
    differences == StepCount(z) || StepCount(z) == 1
  }

  /** Which step divides the difference in column 2+k. */
  predicate StepDefined(z: seq<real>, k: int) {
    0 <= k && (|z| == 2 || k + 1 < |z|)
  }

  function Dz(z: seq<real>, k: int): (d: real)
    requires StepDefined(z, k)
    requires DistinctSteps(z)
    ensures d != 0.0
  {
    if |z| == 2 then z[1] - z[0] else z[k + 1] - z[k]
  }

  /** The gradient between the heights of columns 2+k and 3+k of a row. */
  function Slope(row: Row, z: seq<real>, k: int): real
    requires DistinctSteps(z)
    requires StepDefined(z, k) && 3 + k < |row|
  {
    (row[3 + k] - row[2 + k]) / Dz(z, k)
  }

  /** What `np.loadtxt` can return: every row as wide as the first. */
  predicate Loaded(x: Table) {
    forall r :: 0 <= r < |x| ==> |x[r]| == |x[0]|
  }

  /** `np.loadtxt` squeezes a file of fewer than two rows, or of a single
      column, to a one-dimensional array (a file without values to an empty
      one); `x.shape[1]` and `x[:, ...]` of it raise IndexError. */
  predicate FlatRead(x: Table) {
    |x| < 2 || |x[0]| <= 1
  }

  /** A step divides each of the first `w` differences of a row. */
  predicate StepsFor(w: nat, z: seq<real>) {
    forall k :: 0 <= k < w ==> StepDefined(z, k)
  }

  lemma BroadcastSteps(w: nat, z: seq<real>)
    requires Broadcasts(w, z)
    ensures StepsFor(w, z)
  {}

  /** The shape condition under which a gradient block runs to the end. */
  predicate GradientShape(x: Table, z: seq<real>) {
    |x| >= 2 && |x[0]| >= 3 && Broadcasts(|x[0]| - 3, z)
  }

  /** One row of a gradient block: the time and dt columns, then the
      gradient over each of the `w` height steps. */
  function GradientRow(row: Row, z: seq<real>, w: nat): (r: Row)
    requires DistinctSteps(z) && StepsFor(w, z)
    requires |row| == w + 3
    ensures |r| == w + 2
    ensures r[..2] == row[..2]
    ensures forall j :: 2 <= j < w + 2 ==> r[j] == Slope(row, z, j - 2)
  {
    row[..2] + seq(w, k requires 0 <= k < w => Slope(row, z, k))
  }

  /** One gradient block of the script: the time and dt columns are copied
      and column 2+k holds the first difference of columns 2+k and 3+k over
      the height step.  A one-dimensional read raises IndexError at
      `x.shape[1]`; a two-dimensional table too narrow for the heights
      raises ValueError. */
  function Gradient(x: Table, z: seq<real>): (r: Result<Table>)
    requires Loaded(x)
    requires DistinctSteps(z)
    ensures r.Ok? <==> GradientShape(x, z)
    ensures r.Err? ==> (r.error == IndexError <==> FlatRead(x))
    ensures r.Err? ==> r.error in {IndexError, ValueError}
    ensures r.Ok? ==> StepsFor(|x[0]| - 3, z)
    ensures r.Ok? ==> |r.value| == |x|
    ensures r.Ok? ==> forall i :: 0 <= i < |x| ==> r.value[i] == GradientRow(x[i], z, |x[0]| - 3)
  {
    if FlatRead(x) then Err(IndexError)
    else if |x[0]| < 3 || !Broadcasts(|x[0]| - 3, z) then Err(ValueError)
    else
      var w := |x[0]| - 3;
      BroadcastSteps(w, z);
      Ok(seq(|x|, i requires 0 <= i < |x| => GradientRow(x[i], z, w)))
  }

  /** The rise over each height step of a gradient row: gradient times
      step. */
  function Increments(g: Row, z: seq<real>, w: nat): (r: seq<real>)
    requires DistinctSteps(z) && StepsFor(w, z)
    requires |g| == w + 2
    ensures |r| == w
  {
    seq(w, j requires 0 <= j < w => g[2 + j] * Dz(z, j))
  }

  /** Values whose consecutive differences are `incs` are the first value
      plus the sum of the differences below. */
  lemma {:induction false} Telescope(vals: seq<real>, incs: seq<real>, k: nat)
    requires |vals| == |incs| + 1 && k <= |incs|
    requires forall j :: 0 <= j < |incs| ==> incs[j] == vals[j + 1] - vals[j]
    ensures vals[k] == vals[0] + Sum(incs[..k])
    decreases k
  {
    if k > 0 {
      Telescope(vals, incs, k - 1);
      assert incs[..k][..k - 1] == incs[..k - 1];
    }
  }

  /** A gradient times its step is the difference of the two values. */
  lemma SlopeTimesStep(row: Row, z: seq<real>, k: int)
    requires DistinctSteps(z)
    requires StepDefined(z, k) && 3 + k < |row|
    ensures Slope(row, z, k) * Dz(z, k) == row[3 + k] - row[2 + k]
  {}

  /** Column 2+k of a gradient row times its step is the difference of the
      row's columns 3+k and 2+k. */
  lemma GradientTimesStep(row: Row, z: seq<real>, w: nat, k: nat)
    requires DistinctSteps(z) && StepsFor(w, z)
    requires |row| == w + 3 && k < w
    ensures Increments(GradientRow(row, z, w), z, w)[k] == row[k + 3] - row[k + 2]
  {
    assert GradientRow(row, z, w)[k + 2] == Slope(row, z, k);
    SlopeTimesStep(row, z, k);
  }

  /** The gradients integrate back to the profile: the value at column 2+k
      is the lowest value plus gradient times step summed over the k steps
      below it. */
  lemma GradientRowIntegrates(row: Row, z: seq<real>, w: nat, k: nat)
    requires DistinctSteps(z) && StepsFor(w, z)
    requires |row| == w + 3 && k <= w
    ensures row[2 + k] == row[2] + Sum(Increments(GradientRow(row, z, w), z, w)[..k])
  {
    var incs := Increments(GradientRow(row, z, w), z, w);
    var vals := row[2..];
    forall j | 0 <= j < w ensures incs[j] == vals[j + 1] - vals[j] {
      GradientTimesStep(row, z, w, j);
    }
    Telescope(vals, incs, k);
  }

  /** The same for every row of a gradient table. */
  lemma GradientIntegrates(x: Table, z: seq<real>, i: nat, k: nat)
    requires Loaded(x) && DistinctSteps(z)
    requires Gradient(x, z).Ok?
    requires i < |x| && k <= |x[0]| - 3
    ensures StepsFor(|x[0]| - 3, z)
    ensures x[i][2 + k] == x[i][2] + Sum(Increments(Gradient(x, z).value[i], z, |x[0]| - 3)[..k])
  {
    GradientRowIntegrates(x[i], z, |x[0]| - 3, k);
  }

  // ---------------------------------------------------------------------------
  // Gradient Richardson number

  function Shear(du: real, dv: real): real {
    du * du + dv * dv
  }

  /** `(g/theta) * dtheta/dz / ((dU/dz)^2 + (dV/dz)^2)`. */
  function Ri(theta: real, dtheta: real, du: real, dv: real): real
    requires theta != 0.0 && Shear(du, dv) != 0.0
  {
    ((G / theta) * dtheta) / Shear(du, dv)
  }

  /** Where numpy would divide by zero (writing inf or nan) the model has no
      value: in one row the temperatures below the top and the shear must
      be nonzero. */
  ghost predicate RiRowDefined(u: Row, v: Row, t: Row, z: seq<real>)
    requires DistinctSteps(z)
  {
    (forall j :: 2 <= j < |t| - 1 ==> t[j] != 0.0)
    && (forall k :: StepDefined(z, k) && 3 + k < |u| && 3 + k < |v| ==>
          Shear(Slope(u, z, k), Slope(v, z, k)) != 0.0)
  }

  ghost predicate RichardsonDefined(u: Table, v: Table, t: Table, z: seq<real>) {
    DistinctSteps(z)
    && forall i :: 0 <= i < |u| && i < |v| && i < |t| ==> RiRowDefined(u[i], v[i], t[i], z)
  }

  predicate SameShape(a: Table, b: Table) {
    |a| == |b| && (|a| == 0 || |a[0]| == |b[0]|)
  }

  /** One row of `Ri`: the time and dt columns of the U gradient, then Ri
      from the gradient rows and the lower-height temperature. */
  function RiRow(du: Row, dv: Row, dt: Row, t: Row, w: nat): (r: Row)
    requires |du| == w + 2 && |dv| == w + 2 && |dt| == w + 2 && |t| == w + 3
    requires forall j :: 2 <= j < w + 2 ==> t[j] != 0.0 && Shear(du[j], dv[j]) != 0.0
    ensures |r| == w + 2
    ensures r[..2] == du[..2]
    ensures forall j :: 2 <= j < w + 2 ==> r[j] == Ri(t[j], dt[j], du[j], dv[j])
  {
    du[..2] + seq(w, k requires 0 <= k < w => Ri(t[2 + k], dt[2 + k], du[2 + k], dv[2 + k]))
  }

  lemma RiRowReady(u: Row, v: Row, t: Row, z: seq<real>, w: nat)
    requires DistinctSteps(z) && StepsFor(w, z)
    requires |u| == w + 3 && |v| == w + 3 && |t| == w + 3
    requires RiRowDefined(u, v, t, z)
    ensures forall j :: 2 <= j < w + 2 ==>
              t[j] != 0.0 && Shear(GradientRow(u, z, w)[j], GradientRow(v, z, w)[j]) != 0.0
  {
    forall j | 2 <= j < w + 2
      ensures Shear(GradientRow(u, z, w)[j], GradientRow(v, z, w)[j]) != 0.0
    {
      assert Shear(Slope(u, z, j - 2), Slope(v, z, j - 2)) != 0.0;
    }
  }

  /** `precursor_richardson_gradient` from the loaded tables on: gradients
      of U, V and T, then Ri column by column at the lower height, the time
      and dt columns copied.  A one-dimensional read raises IndexError in
      the first gradient that meets it; tables of different shapes raise
      ValueError. */
  function GradientRichardson(u: Table, v: Table, t: Table, z: seq<real>): (r: Result<Table>)
    requires RichardsonDefined(u, v, t, z)
    ensures r.Ok? <==> Loaded(u) && Loaded(v) && Loaded(t)
                       && GradientShape(u, z) && GradientShape(v, z) && GradientShape(t, z)
                       && SameShape(u, v) && SameShape(u, t)
    ensures r.Err? ==> r.error in {IndexError, ValueError}
    ensures Loaded(u) && Loaded(v) && Loaded(t) && FlatRead(u) ==> r == Err(IndexError)
    ensures r == Err(IndexError) ==> FlatRead(u) || FlatRead(v) || FlatRead(t)
    ensures r.Ok? ==> StepsFor(|u[0]| - 3, z) && r.value == RiTable(u, v, t, z, |u[0]| - 3)
  {
    if !Loaded(u) || !Loaded(v) || !Loaded(t) then Err(ValueError)
    else
      match Gradient(u, z)
      case Err(e) => Err(e)
      case Ok(du) =>
        match Gradient(v, z)
        case Err(e) => Err(e)
        case Ok(dv) =>
          match Gradient(t, z)
          case Err(e) => Err(e)
          case Ok(dt) =>
            if !SameShape(u, v) || !SameShape(u, t) then Err(ValueError)
            else
              Ok(RiTable(u, v, t, z, |u[0]| - 3))
  }

  /** The Ri table once U, V and T have the same shape: the time and dt
      columns of U, then Ri at the lower height of each step. */
  function RiTable(u: Table, v: Table, t: Table, z: seq<real>, w: nat): (r: Table)
    requires RichardsonDefined(u, v, t, z) && StepsFor(w, z)
    requires |v| == |u| && |t| == |u|
    requires Rectangular(u, w + 3) && Rectangular(v, w + 3) && Rectangular(t, w + 3)
    ensures |r| == |u| && Rectangular(r, w + 2)
    ensures forall i :: 0 <= i < |u| ==> r[i][..2] == u[i][..2]
    ensures forall i, j {:trigger r[i][j]} :: 0 <= i < |u| && 2 <= j < w + 2 ==>
              t[i][j] != 0.0 && Shear(Slope(u[i], z, j - 2), Slope(v[i], z, j - 2)) != 0.0
              && r[i][j] == Ri(t[i][j], Slope(t[i], z, j - 2), Slope(u[i], z, j - 2), Slope(v[i], z, j - 2))
  {
    seq(|u|, i requires 0 <= i < |u| =>
      RiRowReady(u[i], v[i], t[i], z, w);
      RiRow(GradientRow(u[i], z, w), GradientRow(v[i], z, w), GradientRow(t[i], z, w), t[i], w))
  }

  /** Over a positive temperature Ri has the sign of the temperature
      gradient: positive in a stable layer, zero in a neutral one. */
  lemma RiSign(theta: real, dtheta: real, du: real, dv: real)
    requires theta > 0.0 && Shear(du, dv) != 0.0
    ensures Ri(theta, dtheta, du, dv) > 0.0 <==> dtheta > 0.0
    ensures Ri(theta, dtheta, du, dv) == 0.0 <==> dtheta == 0.0
  {
    var s := Shear(du, dv);
    SquareNonNegative(du);
    SquareNonNegative(dv);
    assert s > 0.0;
    var a := G / theta;
    assert a > 0.0;
    assert Ri(theta, dtheta, du, dv) == (a * dtheta) / s;
    SignOfQuotient(a * dtheta, s);
    SignOfProduct(a, dtheta);
  }

  lemma SquareNonNegative(x: real)
    ensures x * x >= 0.0
  {
    if x < 0.0 { MulPositive(-x, -x); }
  }

  lemma SignOfQuotient(n: real, d: real)
    requires d > 0.0
    ensures n / d > 0.0 <==> n > 0.0
    ensures n / d == 0.0 <==> n == 0.0
  {
    assert (n / d) * d == n;
    if n / d > 0.0 { MulPositive(n / d, d); }
    if n / d < 0.0 { MulPositive(-(n / d), d); }
  }

  lemma MulPositive(a: real, b: real)
    requires a > 0.0 && b > 0.0
    ensures a * b > 0.0
  {}

  lemma SignOfProduct(a: real, x: real)
    requires a > 0.0
    ensures a * x > 0.0 <==> x > 0.0
    ensures a * x == 0.0 <==> x == 0.0
  {
    if x > 0.0 { MulPositive(a, x); }
    if x < 0.0 { MulPositive(a, -x); }
  }

  /** Each cell of a Ri table (see `GradientRichardson`) over a positive
      temperature and increasing heights is positive (stable) exactly where
      the temperature increases with height, and zero (neutral) exactly
      where it is constant. */
  lemma RichardsonStability(u: Row, v: Row, t: Row, z: seq<real>, k: nat)
    requires DistinctSteps(z) && Increasing(z) && StepDefined(z, k)
    requires 3 + k < |u| && 3 + k < |v| && 3 + k < |t|
    requires t[2 + k] > 0.0 && Shear(Slope(u, z, k), Slope(v, z, k)) != 0.0
    ensures Ri(t[2 + k], Slope(t, z, k), Slope(u, z, k), Slope(v, z, k)) > 0.0 <==> t[3 + k] > t[2 + k]
    ensures Ri(t[2 + k], Slope(t, z, k), Slope(u, z, k), Slope(v, z, k)) == 0.0 <==> t[3 + k] == t[2 + k]
  {
    IncreasingStep(z, k);
    SlopeTimesStep(t, z, k);
    RiCellSign(t[2 + k], t[3 + k], Dz(z, k), Slope(t, z, k), Slope(u, z, k), Slope(v, z, k));
  }

  lemma RiCellSign(lower: real, upper: real, d: real, dtheta: real, du: real, dv: real)
    requires lower > 0.0 && d > 0.0 && Shear(du, dv) != 0.0
    requires dtheta * d == upper - lower
    ensures Ri(lower, dtheta, du, dv) > 0.0 <==> upper > lower
    ensures Ri(lower, dtheta, du, dv) == 0.0 <==> upper == lower
  {
    SignOfProduct(d, dtheta);
    RiSign(lower, dtheta, du, dv);
  }

  /** Heights listed from the ground up. */
  ghost predicate Increasing(z: seq<real>) {
    forall k, l :: 0 <= k < l < |z| && l == k + 1 ==> z[k] < z[l]
  }

  lemma IncreasingStep(z: seq<real>, k: int)
    requires Increasing(z) && DistinctSteps(z) && StepDefined(z, k)
    ensures Dz(z, k) > 0.0
  {}

  // ---------------------------------------------------------------------------
  // Flux Richardson number

  /** `u'w' dU/dz + v'w' dV/dz`, the shear production term (with its sign
      reversed). */
  function Production(uw: real, vw: real, du: real, dv: real): real {
    uw * du + vw * dv
  }

  /** `(g/theta) * w'theta' / (u'w' dU/dz + v'w' dV/dz)`. */
  function Rf(theta: real, heatFlux: real, uw: real, vw: real, du: real, dv: real): real
    requires theta != 0.0 && Production(uw, vw, du, dv) != 0.0
  {
    ((G / theta) * heatFlux) / Production(uw, vw, du, dv)
  }

  /** Nonzero temperatures below the top and a nonzero shear term in one
      row, where numpy would otherwise write inf or nan. */
  ghost predicate RfRowDefined(u: Row, v: Row, t: Row, uw: Row, vw: Row, z: seq<real>)
    requires DistinctSteps(z)
  {
    (forall j :: 2 <= j < |t| - 1 ==> t[j] != 0.0)
    && (forall k :: (StepDefined(z, k) && 3 + k < |u| && 3 + k < |v| && 2 + k < |uw| && 2 + k < |vw|) ==>
          Production(uw[2 + k], vw[2 + k], Slope(u, z, k), Slope(v, z, k)) != 0.0)
  }

  ghost predicate FluxDefined(u: Table, v: Table, t: Table, uw: Table, vw: Table, z: seq<real>) {
    DistinctSteps(z)
    && forall i :: 0 <= i < |u| && i < |v| && i < |t| && i < |uw| && i < |vw| ==>
         RfRowDefined(u[i], v[i], t[i], uw[i], vw[i], z)
  }

  /** One row of `Rf`: the time and dt columns of the U gradient, then Rf
      from the gradient rows and the lower-height T, w'theta', u'w', v'w'. */
  function RfRow(du: Row, dv: Row, t: Row, tw: Row, uw: Row, vw: Row, w: nat): (r: Row)
    requires |du| == w + 2 && |dv| == w + 2
    requires |t| == w + 3 && |tw| == w + 3 && |uw| == w + 3 && |vw| == w + 3
    requires forall j :: 2 <= j < w + 2 ==> t[j] != 0.0 && Production(uw[j], vw[j], du[j], dv[j]) != 0.0
    ensures |r| == w + 2
    ensures r[..2] == du[..2]
    ensures forall j :: 2 <= j < w + 2 ==> r[j] == Rf(t[j], tw[j], uw[j], vw[j], du[j], dv[j])
  {
    du[..2] + seq(w, k requires 0 <= k < w =>
      Rf(t[2 + k], tw[2 + k], uw[2 + k], vw[2 + k], du[2 + k], dv[2 + k]))
  }

  lemma RfRowReady(u: Row, v: Row, t: Row, uw: Row, vw: Row, z: seq<real>, w: nat)
    requires DistinctSteps(z) && StepsFor(w, z)
    requires |u| == w + 3 && |v| == w + 3 && |t| == w + 3 && |uw| == w + 3 && |vw| == w + 3
    requires RfRowDefined(u, v, t, uw, vw, z)
    ensures forall j :: 2 <= j < w + 2 ==>
              t[j] != 0.0 && Production(uw[j], vw[j], GradientRow(u, z, w)[j], GradientRow(v, z, w)[j]) != 0.0
  {
    forall j | 2 <= j < w + 2
      ensures Production(uw[j], vw[j], GradientRow(u, z, w)[j], GradientRow(v, z, w)[j]) != 0.0
    {
      assert Production(uw[2 + (j - 2)], vw[2 + (j - 2)], Slope(u, z, j - 2), Slope(v, z, j - 2)) != 0.0;
    }
  }

  /** Every input of the flux script as `np.loadtxt` returns it. */
  predicate AllLoaded(u: Table, v: Table, t: Table, uw: Table, vw: Table, tw: Table) {
    Loaded(u) && Loaded(v) && Loaded(t) && Loaded(uw) && Loaded(vw) && Loaded(tw)
  }

  /** The shapes under which every operand of the Rf expression lines up. */
  predicate FluxShape(u: Table, v: Table, t: Table, uw: Table, vw: Table, tw: Table, z: seq<real>) {
    AllLoaded(u, v, t, uw, vw, tw)
    && GradientShape(u, z) && GradientShape(v, z)
    && SameShape(u, v) && SameShape(u, t) && SameShape(u, tw) && SameShape(u, uw) && SameShape(u, vw)
  }

  /** `precursor_richardson_flux` from the loaded tables on: gradients of U
      and V, then Rf column by column with the lower-height T, w'theta',
      u'w' and v'w'.  Operands are evaluated left to right, so a
      one-dimensional T, Tw, uw or vw raises IndexError, and a shape
      mismatch ValueError, at the first operand that shows it. */
  function FluxRichardson(u: Table, v: Table, t: Table, uw: Table, vw: Table, tw: Table, z: seq<real>): (r: Result<Table>)
    requires FluxDefined(u, v, t, uw, vw, z)
    ensures r.Ok? <==> FluxShape(u, v, t, uw, vw, tw, z)
    ensures r.Err? ==> r.error in {IndexError, ValueError}
    ensures AllLoaded(u, v, t, uw, vw, tw) && FlatRead(u) ==> r == Err(IndexError)
    ensures AllLoaded(u, v, t, uw, vw, tw) && GradientShape(u, z) && GradientShape(v, z) && (FlatRead(t) || FlatRead(tw))
            ==> r == Err(IndexError)
    ensures r == Err(IndexError) ==> FlatRead(u) || FlatRead(v) || FlatRead(t) || FlatRead(tw) || FlatRead(uw) || FlatRead(vw)
    ensures r.Ok? ==> StepsFor(|u[0]| - 3, z) && r.value == RfTable(u, v, t, uw, vw, tw, z, |u[0]| - 3)
  {
    if !AllLoaded(u, v, t, uw, vw, tw) then Err(ValueError)
    else
      match Gradient(u, z)
      case Err(e) => Err(e)
      case Ok(du) =>
        match Gradient(v, z)
        case Err(e) => Err(e)
        case Ok(dv) =>
          if FlatRead(t) || FlatRead(tw) then Err(IndexError)
          else if !SameShape(t, tw) then Err(ValueError)
          else if FlatRead(uw) then Err(IndexError)
          else if !SameShape(uw, u) then Err(ValueError)
          else if FlatRead(vw) then Err(IndexError)
          else if !SameShape(vw, v) || !SameShape(u, v) || !SameShape(t, u) then Err(ValueError)
          else
            Ok(RfTable(u, v, t, uw, vw, tw, z, |u[0]| - 3))
  }

  /** The Rf table once every operand has the shape of U: the time and dt
      columns of U, then Rf at the lower height of each step. */
  function RfTable(u: Table, v: Table, t: Table, uw: Table, vw: Table, tw: Table, z: seq<real>, w: nat): (r: Table)
    requires FluxDefined(u, v, t, uw, vw, z) && StepsFor(w, z)
    requires |v| == |u| && |t| == |u| && |uw| == |u| && |vw| == |u| && |tw| == |u|
    requires Rectangular(u, w + 3) && Rectangular(v, w + 3) && Rectangular(t, w + 3)
    requires Rectangular(uw, w + 3) && Rectangular(vw, w + 3) && Rectangular(tw, w + 3)
    ensures |r| == |u| && Rectangular(r, w + 2)
    ensures forall i :: 0 <= i < |u| ==> r[i][..2] == u[i][..2]
    ensures forall i, j {:trigger r[i][j]} :: 0 <= i < |u| && 2 <= j < w + 2 ==>
              t[i][j] != 0.0 && Production(uw[i][j], vw[i][j], Slope(u[i], z, j - 2), Slope(v[i], z, j - 2)) != 0.0
              && r[i][j] == Rf(t[i][j], tw[i][j], uw[i][j], vw[i][j], Slope(u[i], z, j - 2), Slope(v[i], z, j - 2))
  {
    seq(|u|, i requires 0 <= i < |u| =>
      RfRowReady(u[i], v[i], t[i], uw[i], vw[i], z, w);
      RfRow(GradientRow(u[i], z, w), GradientRow(v[i], z, w), t[i], tw[i], uw[i], vw[i], w))
  }

  /** Over a positive temperature Rf is zero exactly when the heat flux is,
      and positive exactly when the heat flux and the shear term have the
      same sign; with the usual down-gradient momentum flux (a negative
      shear term) Rf is positive in a stable layer, where the heat flux is
      downward. */
  lemma RfSign(theta: real, heatFlux: real, uw: real, vw: real, du: real, dv: real)
    requires theta > 0.0 && Production(uw, vw, du, dv) != 0.0
    ensures Rf(theta, heatFlux, uw, vw, du, dv) == 0.0 <==> heatFlux == 0.0
    ensures Rf(theta, heatFlux, uw, vw, du, dv) > 0.0 <==>
              heatFlux != 0.0 && (heatFlux > 0.0 <==> Production(uw, vw, du, dv) > 0.0)
  {
    var s := Production(uw, vw, du, dv);
    var a := G / theta;
    assert a > 0.0;
    SignOfProduct(a, heatFlux);
    var n := a * heatFlux;
    assert Rf(theta, heatFlux, uw, vw, du, dv) == n / s;
    if s > 0.0 {
      SignOfQuotient(n, s);
    } else {
      SignOfQuotient(-n, -s);
      assert n / s == (-n) / (-s);
    }
  }

  /** For every cell of a computed Rf table over positive temperatures and
      with the usual negative shear term: stable (Rf > 0) exactly where the
      heat flux is downward. */
  lemma FluxStability(u: Table, v: Table, t: Table, uw: Table, vw: Table, tw: Table, z: seq<real>, i: nat, j: nat)
    requires FluxDefined(u, v, t, uw, vw, z)
    requires FluxShape(u, v, t, uw, vw, tw, z)
    requires i < |u| && 2 <= j < |u[0]| - 1
    requires t[i][j] > 0.0
    requires Production(uw[i][j], vw[i][j], Slope(u[i], z, j - 2), Slope(v[i], z, j - 2)) < 0.0
    ensures FluxRichardson(u, v, t, uw, vw, tw, z).value[i][j] > 0.0 <==> tw[i][j] < 0.0
  {
    var f := FluxRichardson(u, v, t, uw, vw, tw, z);
    assert f.Ok?;
    var r := RfTable(u, v, t, uw, vw, tw, z, |u[0]| - 3);
    assert f.value == r;
    assert r[i][j] == Rf(t[i][j], tw[i][j], uw[i][j], vw[i][j], Slope(u[i], z, j - 2), Slope(v[i], z, j - 2));
    RfSign(t[i][j], tw[i][j], uw[i][j], vw[i][j], Slope(u[i], z, j - 2), Slope(v[i], z, j - 2));
  }

  // ---------------------------------------------------------------------------
  // The scripts' skip rules and outcome

  /** The outcome of one call for one case: nothing written, an exception,
      or the file saved with its header and table. */
  datatype Outcome = Skipped | Failed(error: PyError) | Saved(name: string, header: string, table: Table)

  /** `writefile.exists() and overwrite is False`.  On the command line the
      flag is `argparse.BooleanOptionalAction`, which leaves `overwrite` as
      None when neither `--overwrite` nor `--no-overwrite` is given. */
  predicate SkipsExisting(present: bool, overwrite: Option<bool>) {
    present && overwrite == Some(false)
  }

  /** `<case>_<quantity>.gz` in the averaging directory. */
  function AveragingFile(casename: string, quantity: string): string {
    casename + "_" + quantity + ".gz"
  }

  function InputsPresent(casename: string, quantities: seq<string>, files: set<string>): (b: bool)
    ensures b <==> forall k :: 0 <= k < |quantities| ==> AveragingFile(casename, quantities[k]) in files
  {
    forall k :: 0 <= k < |quantities| ==> AveragingFile(casename, quantities[k]) in files
  }

  /** The checks both scripts make before reading: the averaging directory,
      the output file against the overwrite flag, then every input. */
  predicate Skips(casename: string, output: string, quantities: seq<string>,
                  dirExists: bool, files: set<string>, overwrite: Option<bool>) {
    !dirExists
    || SkipsExisting(AveragingFile(casename, output) in files, overwrite)
    || !InputsPresent(casename, quantities, files)
  }

  const RiInputs: seq<string> := ["U_mean", "V_mean", "T_mean"]
  const RfInputs: seq<string> := ["U_mean", "V_mean", "T_mean", "uw_mean", "vw_mean", "Tw_mean"]

  /** Tables read from the averaging directory; `headerLine` is the first
      line of the U file. */
  datatype Inputs = Inputs(headerLine: string, u: Table, v: Table, t: Table, uw: Table, vw: Table, tw: Table)

  /** Where the Richardson arithmetic of a case has a value. */
  ghost predicate RiInputsDefined(inp: Inputs) {
    Heights(inp.headerLine).Ok? ==> RichardsonDefined(inp.u, inp.v, inp.t, Heights(inp.headerLine).value)
  }

  /** `precursor_richardson_gradient(casename, overwrite)`. */
  function RichardsonGradientRun(casename: string, dirExists: bool, files: set<string>,
                                 overwrite: Option<bool>, inp: Inputs): (o: Outcome)
    requires RiInputsDefined(inp)
    ensures o.Skipped? <==> Skips(casename, "Ri", RiInputs, dirExists, files, overwrite)
    ensures o.Saved? ==> o.name == AveragingFile(casename, "Ri")
    ensures o.Saved? ==> o.header == OutHeader(HeaderText(inp.headerLine))
    ensures o.Saved? ==> (Heights(inp.headerLine).Ok?
                          && GradientRichardson(inp.u, inp.v, inp.t, Heights(inp.headerLine).value) == Ok(o.table))
    ensures o.Failed? ==> o.error in {IndexError, ValueError}
  {
    if Skips(casename, "Ri", RiInputs, dirExists, files, overwrite) then Skipped
    else
      match Heights(inp.headerLine)
      case Err(e) => Failed(e)
      case Ok(z) =>
        match GradientRichardson(inp.u, inp.v, inp.t, z)
        case Err(e) => Failed(e)
        case Ok(ri) => Saved(AveragingFile(casename, "Ri"), OutHeader(HeaderText(inp.headerLine)), ri)
  }

  ghost predicate RfInputsDefined(inp: Inputs) {
    Heights(inp.headerLine).Ok? ==> FluxDefined(inp.u, inp.v, inp.t, inp.uw, inp.vw, Heights(inp.headerLine).value)
  }

  /** `precursor_richardson_flux(casename, overwrite)`. */
  function RichardsonFluxRun(casename: string, dirExists: bool, files: set<string>,
                             overwrite: Option<bool>, inp: Inputs): (o: Outcome)
    requires RfInputsDefined(inp)
    ensures o.Skipped? <==> Skips(casename, "Rf", RfInputs, dirExists, files, overwrite)
    ensures o.Saved? ==> o.name == AveragingFile(casename, "Rf")
    ensures o.Saved? ==> o.header == OutHeader(HeaderText(inp.headerLine))
    ensures o.Saved? ==> (Heights(inp.headerLine).Ok?
                          && FluxRichardson(inp.u, inp.v, inp.t, inp.uw, inp.vw, inp.tw, Heights(inp.headerLine).value) == Ok(o.table))
    ensures o.Failed? ==> o.error in {IndexError, ValueError}
  {
    if Skips(casename, "Rf", RfInputs, dirExists, files, overwrite) then Skipped
    else
      match Heights(inp.headerLine)
      case Err(e) => Failed(e)
      case Ok(z) =>
        match FluxRichardson(inp.u, inp.v, inp.t, inp.uw, inp.vw, inp.tw, z)
        case Err(e) => Failed(e)
        case Ok(rf) => Saved(AveragingFile(casename, "Rf"), OutHeader(HeaderText(inp.headerLine)), rf)
  }

  /** Run from the command line without `--overwrite` or `--no-overwrite`,
      the gradient script does not skip an existing output: with every input
      present it goes on and writes over it. */
  lemma DefaultFlagOverwrites(casename: string, files: set<string>, inp: Inputs)
    requires RiInputsDefined(inp)
    requires AveragingFile(casename, "Ri") in files
    requires InputsPresent(casename, RiInputs, files)
    ensures !RichardsonGradientRun(casename, true, files, None, inp).Skipped?
  {}

  /** The rule the help text describes (`not overwrite`): an existing output
      is kept unless overwriting was asked for. */
  predicate IntendedSkipsExisting(present: bool, overwrite: Option<bool>) {
    present && overwrite != Some(true)
  }

  /** Under the intended rule the default flag keeps an existing output, and
      only an explicit `--overwrite` replaces it. */
  lemma IntendedKeepsExisting(overwrite: Option<bool>)
    ensures IntendedSkipsExisting(true, overwrite) <==> overwrite != Some(true)
    ensures IntendedSkipsExisting(true, None) && !SkipsExisting(true, None)
  {}
}
