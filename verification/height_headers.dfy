/** The header lines of the averaging files, as the precursor scripts read
    and write them.

    `np.savetxt(..., header=h)` writes `# h` as the first line.  The readers
    split that line on whitespace, take every second token from position 3
    (`[3::2]`) and read a height from the last `_` field of each; the
    reduced outputs are labelled `time {h}m ...`. */
module HeightHeaders {
  import opened Common
  import opened Strings
  import opened Tables

  /** `s[start::2]`. */
  function EveryOtherFrom<T>(s: seq<T>, start: nat): (r: seq<T>)
    ensures |r| == if |s| <= start then 0 else (|s| - start + 1) / 2
    ensures forall k :: 0 <= k < |r| ==> start + 2 * k < |s| && r[k] == s[start + 2 * k]
    decreases |s| - start
  {
    if |s| <= start then [] else [s[start]] + EveryOtherFrom(s, start + 2)
  }

  /** `file.readline().split()[3::2]`. */
  function HeightTokens(line: string): seq<string> {
    EveryOtherFrom(Words(line), 3)
  }

  /** `int(token.split('_')[-1])`. */
  function TokenHeight(token: string): Option<int> {
    ParseInt(Last(Split(token, "_")))
  }

  /** `np.array([i.split('_')[-1] for i in tokens], dtype=int)`: ValueError
      when some token does not end in an integer field. */
  function ParseHeights(tokens: seq<string>): (r: Result<seq<int>>)
    ensures r.Err? <==> exists k :: 0 <= k < |tokens| && TokenHeight(tokens[k]).None?
    ensures r.Err? ==> r.error == ValueError
    ensures r.Ok? ==> |r.value| == |tokens|
    ensures r.Ok? ==> forall k :: 0 <= k < |tokens| ==> TokenHeight(tokens[k]) == Some(r.value[k])
  {
    if exists k :: 0 <= k < |tokens| && TokenHeight(tokens[k]).None? then Err(ValueError)
    else Ok(seq(|tokens|, k requires 0 <= k < |tokens| => TokenHeight(tokens[k]).value))
  }

  /** The heights named by a header line. */
  function HeaderHeights(line: string): Result<seq<int>> {
    ParseHeights(HeightTokens(line))
  }

  function AsReals(xs: seq<int>): (r: seq<real>)
    ensures |r| == |xs| && forall k :: 0 <= k < |xs| ==> r[k] == xs[k] as real
  {
    seq(|xs|, k requires 0 <= k < |xs| => xs[k] as real)
  }

  /** `[np.argmin(np.abs(heights - h)) for h in keep]`: for each requested
      height the first header height nearest to it; argmin over no heights
      raises ValueError. */
  function NearestHeights(heights: seq<int>, keep: seq<int>): (r: Result<seq<nat>>)
    ensures r.Err? <==> heights == [] && keep != []
    ensures r.Err? ==> r.error == ValueError
    ensures r.Ok? ==> |r.value| == |keep|
    ensures r.Ok? ==> forall j :: 0 <= j < |keep| ==> r.value[j] < |heights|
  {
    if keep == [] then Ok([])
    else if heights == [] then Err(ValueError)
    else
      var hs := AsReals(heights);
      Ok(seq(|keep|, j requires 0 <= j < |keep| => Nearest(hs, keep[j] as real)))
  }

  /** The index chosen for the `j`th requested height is an argmin: no
      header height is nearer, and every earlier one is strictly farther. */
  lemma NearestHeightsArgmin(heights: seq<int>, keep: seq<int>, j: nat)
    requires heights != [] && j < |keep|
    ensures NearestHeights(heights, keep).Ok?
    ensures var i := NearestHeights(heights, keep).value[j];
            && i < |heights|
            && (forall m :: 0 <= m < |heights| ==>
                  Abs((heights[i] - keep[j]) as real) <= Abs((heights[m] - keep[j]) as real))
            && (forall m :: 0 <= m < i ==>
                  Abs((heights[m] - keep[j]) as real) > Abs((heights[i] - keep[j]) as real))
  {
    var hs := AsReals(heights);
    var i := Nearest(hs, keep[j] as real);
    assert NearestHeights(heights, keep).value[j] == i;
    forall m | 0 <= m < |heights|
      ensures Abs((heights[i] - keep[j]) as real) <= Abs((heights[m] - keep[j]) as real)
    {
      assert hs[i] - keep[j] as real == (heights[i] - keep[j]) as real;
      assert hs[m] - keep[j] as real == (heights[m] - keep[j]) as real;
    }
    forall m | 0 <= m < i
      ensures Abs((heights[m] - keep[j]) as real) > Abs((heights[i] - keep[j]) as real)
    {
      assert hs[i] - keep[j] as real == (heights[i] - keep[j]) as real;
      assert hs[m] - keep[j] as real == (heights[m] - keep[j]) as real;
    }
  }

  /** A requested height that is in the header selects its first occurrence. */
  lemma NearestHeightExact(heights: seq<int>, keep: seq<int>, j: nat, m: nat)
    requires j < |keep| && m < |heights| && heights[m] == keep[j]
    requires forall m' :: 0 <= m' < m ==> heights[m'] != keep[j]
    ensures NearestHeights(heights, keep).Ok?
    ensures NearestHeights(heights, keep).value[j] == m
  {
    NearestHeightsArgmin(heights, keep, j);
    var i := NearestHeights(heights, keep).value[j];
    assert Abs((heights[i] - keep[j]) as real) <= Abs((heights[m] - keep[j]) as real) == 0.0;
    assert heights[i] == keep[j];
  }

  /** `f'{h}m'`. */
  function MetreLabel(h: int): string {
    IntToString(h) + "m"
  }

  /** `' '.join(['time'] + [f'{h}m' for h in keep])`. */
  function ReducedHeader(keep: seq<int>): (r: string)
    ensures Words(r) == ["time"] + seq(|keep|, j requires 0 <= j < |keep| => MetreLabel(keep[j]))
  {
    var labels := seq(|keep|, j requires 0 <= j < |keep| => MetreLabel(keep[j]));
    LabelsAreWords(keep);
    WordsJoin(["time"] + labels);
    Join(["time"] + labels, " ")
  }

  lemma LabelsAreWords(keep: seq<int>)
    ensures forall j :: 0 <= j < |keep| ==> IsWord(MetreLabel(keep[j]))
  {
    forall j | 0 <= j < |keep| ensures IsWord(MetreLabel(keep[j])) {
      IntWord(keep[j]);
    }
  }

  /** A formatted integer holds no whitespace. */
  lemma IntWord(h: int)
    ensures IsWord(IntToString(h)) && IsWord(MetreLabel(h))
  {
    var s := IntToString(h);
    assert forall i :: 0 <= i < |s| ==> s[i] == '-' || IsDigit(s[i]);
  }

  /** The line `np.savetxt` writes in front of the rows for header `h`. */
  function SavedHeaderLine(h: string): string {
    "# " + h
  }

  /** The saved header line splits into `#` and the header's own words. */
  lemma SavedHeaderWords(names: seq<string>)
    requires |names| >= 1 && forall k :: 0 <= k < |names| ==> IsWord(names[k])
    ensures Words(SavedHeaderLine(Join(names, " "))) == ["#"] + names
  {
    var j := Join(names, " ");
    JoinCons("#", names, " ");
    assert "#" + " " + j == "# " + j by { assert "#" + " " == "# "; }
    PrefixedWords("#", names);
  }

  lemma PrefixedWords(w: string, names: seq<string>)
    requires IsWord(w) && forall k :: 0 <= k < |names| ==> IsWord(names[k])
    ensures Words(Join([w] + names, " ")) == [w] + names
  {
    var ws := [w] + names;
    forall k | 0 <= k < |ws| ensures IsWord(ws[k]) {
      if k > 0 { assert ws[k] == names[k - 1]; }
    }
    WordsJoin(ws);
  }
}
