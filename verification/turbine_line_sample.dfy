/** `turbineLineSample.py`: splitting OpenFOAM lineSample files (one file per
    line and field type, one column group per field) into one file per line
    and kept quantity, with a distance column in front. */
module LineSample {
  import opened Common
  import opened Tables
  import opened Strings
  import opened Sorting

  const ScalarQuantities: set<string> :=
    {"T", "TAvg", "Tprime", "TTPrime2", "TRMS", "SourceT", "p_rgh", "p_rghAvg", "Q",
     "nuSgs", "nuSGSmean", "kSGS", "kSGSmean", "kResolved",
     "omega", "omegaAvg", "kappat", "epsilonSGSmean"}

  const VectorQuantities: set<string> :=
    {"U", "UAvg", "Uprime", "uRMS", "SourceU", "phi", "bodyForce", "qmean", "qwall"}

  const TensorQuantities: set<string> := {"uuPrime2", "uTPrime2", "Rmean", "Rwall"}

  const QuantitiesToKeep: set<string> := {"UAvg", "Uprime", "uuPrime2", "kResolved"}

  /** Length of a horizontal sample line, in rotor diameters. */
  const HorizontalLineLength: real := 5.0

  // ---------------------------------------------------------------------------
  // File name

  /** The file name without `.xy.gz` (gzipped) or `.xy`. */
  function FileStem(name: string): string {
    if EndsWith(name, ".gz") then RemoveSuffix(name, ".xy.gz") else RemoveSuffix(name, ".xy")
  }

  /** The stem of a sample file, plain or gzipped, is the name it was given. */
  lemma FileStemOfSampleName(stem: string)
    ensures FileStem(stem + ".xy") == stem
    ensures FileStem(stem + ".xy.gz") == stem
  {
    var plain := stem + ".xy";
    assert plain[|plain| - 3..] == ".xy";
    assert !EndsWith(plain, ".gz");
    assert EndsWith(plain, ".xy");
    assert plain[..|plain| - 3] == stem;
    var zipped := stem + ".xy.gz";
    assert zipped[|zipped| - 3..] == ".gz";
    assert zipped[|zipped| - 6..] == ".xy.gz";
    assert zipped[..|zipped| - 6] == stem;
  }

  /** The line name and the field tokens of a file stem split on `_`. */
  datatype LineFields = LineFields(line: string, quantities: seq<string>)

  /** A line at a half diameter (`lineV0_5`) keeps its `_5` in the line
      name; otherwise the line name is the first field.  With a single field
      `fileparts[1]` raises IndexError. */
  function SplitLineName(parts: seq<string>): (r: Result<LineFields>)
    ensures r.Err? <==> |parts| < 2
    ensures r.Ok? ==> Join([r.value.line] + r.value.quantities, "_") == Join(parts, "_")
    ensures r.Ok? ==> |r.value.quantities| == |parts| - (if parts[1] == "5" then 2 else 1)
  {
    if |parts| < 2 then Err(IndexError)
    else if parts[1] == "5" then
      JoinPair(parts);
      Ok(LineFields(parts[0] + "_" + parts[1], parts[2..]))    // '_'.join(fileparts[:2])
    else
      assert [parts[0]] + parts[1..] == parts;
      Ok(LineFields(parts[0], parts[1..]))
  }

  lemma JoinPair(parts: seq<string>)
    requires |parts| >= 2
    ensures Join([parts[0] + "_" + parts[1]] + parts[2..], "_") == Join(parts, "_")
  {
    var x := parts[0] + "_" + parts[1];
    if |parts| == 2 {
      assert [x] + parts[2..] == [x];
      JoinTwo(parts);
    } else {
      var rest := parts[2..];
      JoinCons(x, rest, "_");
      JoinThree(parts, Join(rest, "_"));
    }
  }

  lemma JoinTwo(parts: seq<string>)
    requires |parts| == 2
    ensures Join(parts, "_") == parts[0] + "_" + parts[1]
  {
    assert parts[1..] == [parts[1]];
  }

  lemma JoinThree(parts: seq<string>, j: string)
    requires |parts| >= 3 && j == Join(parts[2..], "_")
    ensures Join(parts, "_") == (parts[0] + "_" + parts[1]) + "_" + j
  {
    var tail := parts[1..];
    assert parts == [parts[0]] + tail;
    JoinCons(parts[0], tail, "_");
    assert tail == [parts[1]] + parts[2..];
    JoinCons(parts[1], parts[2..], "_");
    assert parts[0] + "_" + (parts[1] + "_" + j) == (parts[0] + "_" + parts[1]) + "_" + j;
  }

  // ---------------------------------------------------------------------------
  // The p/rgh merging loop

  /** Tokens `k` and `k + 1` are `p` and a token starting `rgh`. */
  predicate IsPRgh(q: seq<string>, k: nat) {
    k + 1 < |q| && q[k] == "p" && StartsWith(q[k + 1], "rgh")
  }

  /** The first `k >= start` at which `IsPRgh` holds. */
  function FirstPRgh(q: seq<string>, start: nat): (r: Option<nat>)
    ensures r.Some? ==> start <= r.value && IsPRgh(q, r.value)
    ensures r.Some? ==> forall m: nat :: start <= m < r.value ==> !IsPRgh(q, m)
    ensures r.None? ==> forall m: nat :: start <= m ==> !IsPRgh(q, m)
    decreases |q| - start
  {
    if start + 1 >= |q| then None
    else if IsPRgh(q, start) then Some(start)
    else FirstPRgh(q, start + 1)
  }

  lemma FirstPRghIs(q: seq<string>, start: nat, k: nat)
    requires start <= k && IsPRgh(q, k)
    requires forall m: nat :: start <= m < k ==> !IsPRgh(q, m)
    ensures FirstPRgh(q, start) == Some(k)
  {
  }

  /** `q[k] += q[k + 1]; q.pop(k + 1)`. */
  function FuseAt(q: seq<string>, k: nat): (r: seq<string>)
    requires k + 1 < |q|
    ensures |r| == |q| - 1
  {
    q[..k] + [q[k] + q[k + 1]] + q[k + 2..]
  }

  /** The merging loop from state (`q`, `start_idx`, `i`), as written: each
      pass scans from `start_idx` and fuses the first `p`/`rgh…` pair; the
      loop ends when the (possibly stale) `i` equals `len(q) - 2`.  An
      unbound `i` raises NameError (UnboundLocalError), and a pass that
      fuses nothing and does not end repeats forever (NonTermination). */
  function MergeLoop(q: seq<string>, start: nat, i: Option<nat>): (r: Result<seq<string>>)
    requires start <= |q|
    ensures r.Ok? ==> |r.value| >= 2
    ensures r.Err? ==> r.error in {NameError, NonTermination}
    decreases 2 * |q| - start
  {
    match FirstPRgh(q, start)
    case Some(k) =>
      var q' := FuseAt(q, k);
      if k == |q'| - 2 then Ok(q') else MergeLoop(q', k + 1, Some(k))
    case None =>
      var last := if start < |q| - 1 then Some(|q| - 2) else i;
      if last.None? then Err(NameError)
      else if last.value == |q| - 2 then Ok(q)
      else Err(NonTermination)
  }

  /** One pass of the `for` loop: scan from `start` and fuse the first
      `p`/`rgh…` pair, leaving `i` at the last index visited. */
  method FusePass(q: seq<string>, start: nat, i0: Option<nat>)
    returns (q': seq<string>, merged: bool, i: Option<nat>)
    requires start <= |q|
    ensures merged <==> FirstPRgh(q, start).Some?
    ensures merged ==> q' == FuseAt(q, FirstPRgh(q, start).value) && i == Some(FirstPRgh(q, start).value)
    ensures !merged ==> q' == q && i == if start < |q| - 1 then Some(|q| - 2) else i0
  {
    q', merged, i := q, false, i0;
    var k := start;
    while k + 1 < |q|
      invariant start <= k && !merged && q' == q
      invariant k == start ==> i == i0
      invariant k > start ==> i == Some(k - 1) && k < |q|
      invariant forall m: nat :: start <= m < k ==> !IsPRgh(q, m)
      decreases |q| - k
    {
      i := Some(k);
      if q[k] == "p" && StartsWith(q[k + 1], "rgh") {
        q' := FuseAt(q, k);   // q[:k] + [q[k] + q[k+1]] + q[k+2:]
        merged := true;
        FirstPRghIs(q, start, k);
        return;
      }
      k := k + 1;
    }
    assert forall m: nat :: start <= m ==> !IsPRgh(q, m);
    assert FirstPRgh(q, start).None?;
  }

  /** The `while not finished` loop of `turbineLineSample`, entered with
      the loop variable `i` as the previous file left it (`None` for the
      first file).  On success `i` ends at `len(q) - 2`. */
  method MergeTokens(tokens: seq<string>, i0: Option<nat>) returns (r: Result<seq<string>>, i: Option<nat>)
    ensures r == MergeLoop(tokens, 0, i0)
    ensures r.Ok? ==> i == Some(|r.value| - 2)
  {
    var q := tokens;
    var start: nat := 0;
    i := i0;
    var finished := false;
    while !finished
      invariant start <= |q|
      invariant !finished ==> MergeLoop(q, start, i) == MergeLoop(tokens, 0, i0)
      invariant finished ==> MergeLoop(tokens, 0, i0) == Ok(q) && i == Some(|q| - 2)
      decreases 2 * |q| - start + (if finished then 0 else 1)
    {
      var q0, start0, i1 := q, start, i;
      var merged;
      q, merged, i := FusePass(q0, start0, i1);
      if merged {
        start := i.value + 1;
      }
      MergeRound(q0, start0, i1, q, merged, i, start);
      if i.None? {
        return Err(NameError), i;
      }
      if i.value == |q| - 2 {
        finished := true;
      } else if !merged {
        // nothing changed in this pass: the next one is the same, forever
        return Err(NonTermination), i;
      }
    }
    r := Ok(q);
  }

  /** What one pass of the `while` loop decides, given what `FusePass`
      returned: the loop raises, ends, never ends, or goes on from the new
      state. */
  lemma MergeRound(q0: seq<string>, start0: nat, i1: Option<nat>,
                   q: seq<string>, merged: bool, i: Option<nat>, start: nat)
    requires start0 <= |q0|
    requires merged <==> FirstPRgh(q0, start0).Some?
    requires merged ==> q == FuseAt(q0, FirstPRgh(q0, start0).value) && i == Some(FirstPRgh(q0, start0).value)
    requires !merged ==> q == q0 && i == (if start0 < |q0| - 1 then Some(|q0| - 2) else i1)
    requires start == if merged then i.value + 1 else start0
    ensures i.None? ==> MergeLoop(q0, start0, i1) == Err(NameError)
    ensures i.Some? && i.value == |q| - 2 ==> MergeLoop(q0, start0, i1) == Ok(q)
    ensures i.Some? && i.value != |q| - 2 && !merged ==> MergeLoop(q0, start0, i1) == Err(NonTermination)
    ensures i.Some? && i.value != |q| - 2 && merged ==>
              && start <= |q| && 2 * |q| - start < 2 * |q0| - start0
              && MergeLoop(q0, start0, i1) == MergeLoop(q, start, i)
  {
    if merged {
      MergeLoopPass(q0, start0, i1, i.value);
    } else {
      MergeLoopIdle(q0, start0, i1);
    }
  }

  /** The evidently intended merge: every `p` immediately followed by a
      token starting `rgh` is fused with it; every other token is kept, in
      order. */
  function Fuse(q: seq<string>): seq<string>
    decreases |q|
  {
    if |q| < 2 then q
    else if IsPRgh(q, 0) then [q[0] + q[1]] + Fuse(q[2..])
    else [q[0]] + Fuse(q[1..])
  }

  /** The loop fuses the last two tokens. */
  predicate FusesLastPair(q: seq<string>) {
    |q| >= 2 && IsPRgh(q, |q| - 2)
  }

  lemma RghIsNotP(s: string)
    requires StartsWith(s, "rgh")
    ensures s != "p"
  {
    assert s[0] == 'r';
  }

  lemma {:induction false} FuseNoPair(q: seq<string>)
    requires forall m: nat :: !IsPRgh(q, m)
    ensures Fuse(q) == q
    decreases |q|
  {
    if |q| >= 2 {
      assert !IsPRgh(q, 0);
      forall m: nat ensures !IsPRgh(q[1..], m) {
        assert !IsPRgh(q, m + 1);
      }
      FuseNoPair(q[1..]);
      assert [q[0]] + q[1..] == q;
    }
  }

  lemma {:induction false} FuseFirstPair(q: seq<string>, p: nat)
    requires IsPRgh(q, p)
    requires forall m: nat :: m < p ==> !IsPRgh(q, m)
    ensures Fuse(q) == q[..p] + [q[p] + q[p + 1]] + Fuse(q[p + 2..])
    decreases p
  {
    if p > 0 {
      var t := q[1..];
      FuseSkip(q);
      PRghTail(q, p - 1);
      forall m: nat | m < p - 1 ensures !IsPRgh(t, m) {
        PRghTail(q, m);
      }
      FuseFirstPair(t, p - 1);
      TailSlices(q, p);
    }
  }

  /** A first token that does not start a pair is kept as it is. */
  lemma FuseSkip(q: seq<string>)
    requires |q| >= 2 && !IsPRgh(q, 0)
    ensures Fuse(q) == [q[0]] + Fuse(q[1..])
  {
  }

  lemma PRghTail(q: seq<string>, m: nat)
    requires |q| >= 1
    ensures IsPRgh(q[1..], m) <==> IsPRgh(q, m + 1)
  {
    assert q == [q[0]] + q[1..];
    PRghShift([q[0]], q[1..], m);
  }

  lemma TailSlices(q: seq<string>, p: nat)
    requires 1 <= p && p + 1 < |q|
    ensures var t := q[1..];
            [q[0]] + (t[..p - 1] + [t[p - 1] + t[p]] + Fuse(t[p + 1..]))
            == q[..p] + [q[p] + q[p + 1]] + Fuse(q[p + 2..])
  {
    var t := q[1..];
    assert t[p + 1..] == q[p + 2..];
    assert t[p - 1] == q[p] && t[p] == q[p + 1];
    assert [q[0]] + t[..p - 1] == q[..p];
  }

  lemma PRghShift(a: seq<string>, b: seq<string>, m: nat)
    ensures IsPRgh(a + b, |a| + m) <==> IsPRgh(b, m)
  {
    if m + 1 < |b| {
      assert (a + b)[|a| + m] == b[m] && (a + b)[|a| + m + 1] == b[m + 1];
    }
  }

  /** The merging loop started on `a + b` at `|a|`, with `i` as the loop
      leaves it: anything at the start, the last fused index otherwise. */
  lemma {:induction false} MergeLoopFrom(a: seq<string>, b: seq<string>, i: Option<nat>)
    requires |a| >= 1 ==> i == Some(|a| - 1)
    ensures MergeLoop(a + b, |a|, i)
            == if |a| == 0 && |b| < 2 then (if i.None? then Err(NameError) else Err(NonTermination))
               else if |b| == 0 || FusesLastPair(b) then Err(NonTermination)
               else Ok(a + Fuse(b))
    decreases |b|
  {
    match FirstPRgh(a + b, |a|)
    case None =>
      MergeLoopNoPair(a, b, i);
    case Some(k) =>
      var a', b' := MergeStep(a, b, k);
      if |b'| >= 2 {
        MergeLoopFrom(a', b', Some(k));
      }
      MergeLoopFused(a, b, i, k, a', b');
  }

  /** A pass that fuses the pair at `k`, leaving `a' + b'` with `b'` still
      to scan, given what the rest of the loop does on the fused list. */
  lemma MergeLoopFused(a: seq<string>, b: seq<string>, i: Option<nat>, k: nat, a': seq<string>, b': seq<string>)
    requires FirstPRgh(a + b, |a|) == Some(k) && |a| <= k
    requires FuseAt(a + b, k) == a' + b' && |a'| == k + 1
    requires a + Fuse(b) == a' + Fuse(b')
    requires |b'| == 0 ==> FusesLastPair(b)
    requires |b'| == 1 ==> !FusesLastPair(b)
    requires |b'| >= 2 ==> (FusesLastPair(b) <==> FusesLastPair(b'))
    requires |b'| >= 2 ==> (MergeLoop(a' + b', |a'|, Some(k))
                            == if |a'| == 0 && |b'| < 2 then Err(NonTermination)
                               else if |b'| == 0 || FusesLastPair(b') then Err(NonTermination)
                               else Ok(a' + Fuse(b')))
    ensures MergeLoop(a + b, |a|, i)
            == if |b| == 0 || FusesLastPair(b) then Err(NonTermination) else Ok(a + Fuse(b))
  {
    var q' := FuseAt(a + b, k);
    MergeLoopPass(a + b, |a|, i, k);
    assert |b| != 0;
    if |b'| == 0 {
      assert MergeLoop(q', k + 1, Some(k)) == Err(NonTermination);
    } else if |b'| == 1 {
      FuseNoPair(b');
      assert MergeLoop(a + b, |a|, i) == Ok(a' + b');
    } else {
      assert MergeLoop(a + b, |a|, i) == MergeLoop(a' + b', |a'|, Some(k));
    }
  }

  /** One pass of the merging loop that fuses the pair at `k`. */
  lemma MergeLoopPass(q: seq<string>, start: nat, i: Option<nat>, k: nat)
    requires start <= |q| && FirstPRgh(q, start) == Some(k)
    ensures k + 1 < |q|
    ensures MergeLoop(q, start, i)
            == if k == |q| - 3 then Ok(FuseAt(q, k)) else MergeLoop(FuseAt(q, k), k + 1, Some(k))
  {
  }

  /** A pass of the merging loop that fuses nothing. */
  lemma MergeLoopIdle(q: seq<string>, start: nat, i: Option<nat>)
    requires start <= |q| && FirstPRgh(q, start).None?
    ensures var last := if start < |q| - 1 then Some(|q| - 2) else i;
            MergeLoop(q, start, i)
            == if last.None? then Err(NameError)
               else if last.value == |q| - 2 then Ok(q)
               else Err(NonTermination)
  {
  }

  /** A pass that finds nothing to fuse. */
  lemma MergeLoopNoPair(a: seq<string>, b: seq<string>, i: Option<nat>)
    requires FirstPRgh(a + b, |a|).None?
    requires |a| >= 1 ==> i == Some(|a| - 1)
    ensures MergeLoop(a + b, |a|, i)
            == if |a| == 0 && |b| < 2 then (if i.None? then Err(NameError) else Err(NonTermination))
               else if |b| == 0 || FusesLastPair(b) then Err(NonTermination)
               else Ok(a + Fuse(b))
  {
    forall m: nat ensures !IsPRgh(b, m) {
      PRghShift(a, b, m);
    }
    FuseNoPair(b);
  }

  /** One pass that fuses the pair at `k`, seen from the untouched part `a`
      and the rest `b`: afterwards `a'` is settled and `b'` remains. */
  lemma MergeStep(a: seq<string>, b: seq<string>, k: nat) returns (a': seq<string>, b': seq<string>)
    requires FirstPRgh(a + b, |a|) == Some(k)
    ensures |a| <= k && k + 2 <= |a + b|
    ensures FuseAt(a + b, k) == a' + b' && |a'| == k + 1 && |b'| + 2 <= |b|
    ensures a + Fuse(b) == a' + Fuse(b')
    ensures |b'| == 0 ==> FusesLastPair(b)
    ensures |b'| == 1 ==> !FusesLastPair(b)
    ensures |b'| >= 2 ==> (FusesLastPair(b) <==> FusesLastPair(b'))
  {
    var p := k - |a|;
    PRghShift(a, b, p);
    forall m: nat | m < p ensures !IsPRgh(b, m) {
      PRghShift(a, b, m);
    }
    a' := a + b[..p] + [b[p] + b[p + 1]];
    b' := b[p + 2..];
    FuseAtSplit(a, b, k);
    FuseFirstPair(b, p);
    assert a + Fuse(b) == a + (b[..p] + [b[p] + b[p + 1]] + Fuse(b'));
    RghIsNotP(b[p + 1]);
    if |b'| >= 2 {
      assert b'[|b'| - 2] == b[|b| - 2] && b'[|b'| - 1] == b[|b| - 1];
    }
  }

  lemma FuseAtSplit(a: seq<string>, b: seq<string>, k: nat)
    requires |a| <= k && k + 2 <= |a + b|
    ensures var p := k - |a|;
            FuseAt(a + b, k) == a + b[..p] + [b[p] + b[p + 1]] + b[p + 2..]
  {
    var q := a + b;
    var p := k - |a|;
    assert q[..k] == a + b[..p];
    assert q[k + 2..] == b[p + 2..];
    assert q[k] == b[p] && q[k + 1] == b[p + 1];
  }

  /** What the merging loop does, for every token list: with fewer than
      two tokens the `for` body never runs, so `i` is unbound on the first
      file (NameError) and stale afterwards (the loop never ends); fusing the
      final pair also leaves a stale `i` and the loop never ends; otherwise
      the result is `Fuse`. */
  lemma MergeTokensOutcome(q: seq<string>, i: Option<nat>)
    ensures MergeLoop(q, 0, i)
            == if |q| < 2 then (if i.None? then Err(NameError) else Err(NonTermination))
               else if FusesLastPair(q) then Err(NonTermination)
               else Ok(Fuse(q))
  {
    var none: seq<string> := [];
    assert none + q == q;
    assert none + Fuse(q) == Fuse(q);
    MergeLoopFrom(none, q, i);
  }

  /** `lineV1_U.xy`: a single field, so `i` is never bound. */
  lemma SingleTokenUnbound()
    ensures MergeLoop(["U"], 0, None) == Err(NameError)
  {
    MergeTokensOutcome(["U"], None);
  }

  /** `lineV1_T_p_rgh.xy`: the final pair fuses and the loop never ends. */
  lemma FinalPairNeverEnds()
    ensures MergeLoop(["T", "p", "rgh"], 0, None) == Err(NonTermination)
  {
    assert IsPRgh(["T", "p", "rgh"], 1);
    MergeTokensOutcome(["T", "p", "rgh"], None);
  }

  lemma {:induction false} FuseLength(q: seq<string>)
    ensures |q| >= 1 ==> |Fuse(q)| >= 1
    ensures |Fuse(q)| <= |q|
    decreases |q|
  {
    if |q| >= 2 {
      if IsPRgh(q, 0) { FuseLength(q[2..]); } else { FuseLength(q[1..]); }
    }
  }

  /** Fusing is plain concatenation: the characters are kept, in order. */
  lemma {:induction false} FuseKeepsCharacters(q: seq<string>)
    ensures Join(Fuse(q), "") == Join(q, "")
    decreases |q|
  {
    if |q| >= 2 {
      if IsPRgh(q, 0) {
        FuseKeepsCharacters(q[2..]);
        PairJoin(q);
      } else {
        FuseKeepsCharacters(q[1..]);
        SkipJoin(q);
      }
    }
  }

  lemma PairJoin(q: seq<string>)
    requires IsPRgh(q, 0) && Join(Fuse(q[2..]), "") == Join(q[2..], "")
    ensures Join(Fuse(q), "") == Join(q, "")
  {
    assert Fuse(q) == [q[0] + q[1]] + Fuse(q[2..]);
    ConcatCons(q[0] + q[1], Fuse(q[2..]));
    assert q[1..] == [q[1]] + q[2..];
    ConcatCons(q[1], q[2..]);
    assert q == [q[0]] + q[1..];
    ConcatCons(q[0], q[1..]);
  }

  lemma SkipJoin(q: seq<string>)
    requires |q| >= 2 && !IsPRgh(q, 0) && Join(Fuse(q[1..]), "") == Join(q[1..], "")
    ensures Join(Fuse(q), "") == Join(q, "")
  {
    FuseSkip(q);
    ConcatCons(q[0], Fuse(q[1..]));
    assert q == [q[0]] + q[1..];
    ConcatCons(q[0], q[1..]);
  }

  lemma ConcatCons(x: string, rest: seq<string>)
    ensures Join([x] + rest, "") == x + Join(rest, "")
  {
    if rest == [] {
      assert [x] + rest == [x];
    } else {
      assert ([x] + rest)[1..] == rest;
    }
  }

  /** The first token of `Fuse(q)` is `q[0]`, or `q[0] + q[1]` when those
      two fuse. */
  lemma FuseHead(q: seq<string>)
    requires |q| >= 1
    ensures |Fuse(q)| >= 1
    ensures Fuse(q)[0] == (if IsPRgh(q, 0) then q[0] + q[1] else q[0])
  {
  }

  /** `Fuse` leaves no pair to fuse, so fusing twice is fusing once. */
  lemma {:induction false} FuseLeavesNoPair(q: seq<string>, m: nat)
    ensures !IsPRgh(Fuse(q), m)
    decreases |q|
  {
    if |q| >= 2 {
      var rest := if IsPRgh(q, 0) then q[2..] else q[1..];
      var head := if IsPRgh(q, 0) then q[0] + q[1] else q[0];
      assert Fuse(q) == [head] + Fuse(rest);
      if m > 0 {
        FuseLeavesNoPair(rest, m - 1);
        assert IsPRgh(Fuse(q), m) <==> IsPRgh(Fuse(rest), m - 1) by {
          PRghShift([head], Fuse(rest), m - 1);
        }
      } else if |Fuse(rest)| >= 1 && head == "p" {
        assert !IsPRgh(q, 0);
        assert rest == q[1..];
        FuseHead(rest);
        if IsPRgh(rest, 0) {
          assert Fuse(rest)[0][0] == 'p';
        } else {
          assert Fuse(rest)[0] == q[1];
        }
      }
    }
  }

  lemma FuseIdempotent(q: seq<string>)
    ensures Fuse(Fuse(q)) == Fuse(q)
  {
    forall m: nat ensures !IsPRgh(Fuse(q), m) {
      FuseLeavesNoPair(q, m);
    }
    FuseNoPair(Fuse(q));
  }

  // ---------------------------------------------------------------------------
  // Classification and kept quantities

  datatype Kind = Scalar | Vector | Tensor

  function ClassSet(k: Kind): set<string> {
    match k
    case Scalar => ScalarQuantities
    case Vector => VectorQuantities
    case Tensor => TensorQuantities
  }

  /** The class of a file, from its first quantity only: scalar is tried
      first, then vector, then symmetric tensor; `None` leaves all three
      flags False. */
  function Classify(first: string): (r: Option<Kind>)
    ensures r.Some? ==> first in ClassSet(r.value)
    ensures r.None? <==> first !in ScalarQuantities + VectorQuantities + TensorQuantities
    ensures r == Some(Vector) ==> first !in ScalarQuantities
    ensures r == Some(Tensor) ==> first !in ScalarQuantities + VectorQuantities
  {
    if first in ScalarQuantities then Some(Scalar)
    else if first in VectorQuantities then Some(Vector)
    else if first in TensorQuantities then Some(Tensor)
    else None
  }

  /** `QUANTITIES_TO_KEEP & <class set>`, listed in a fixed order; never
      empty, and every listed quantity is both kept and of the class. */
  function KeepFor(k: Kind): (r: seq<string>)
    ensures r != []
    ensures forall x :: x in r ==> x in QuantitiesToKeep && x in ClassSet(k)
  {
    match k
    case Scalar => ["kResolved"]
    case Vector => ["UAvg", "Uprime"]
    case Tensor => ["uuPrime2"]
  }

  /** The kept list is exactly the intersection, without repeats. */
  lemma KeepForIsIntersection(k: Kind)
    ensures Elems(KeepFor(k)) == QuantitiesToKeep * ClassSet(k)
    ensures forall a, b :: 0 <= a < b < |KeepFor(k)| ==> KeepFor(k)[a] != KeepFor(k)[b]
  {
    var e := Elems(KeepFor(k));
    var w := QuantitiesToKeep * ClassSet(k);
    forall x | x in w ensures x in e {
      assert x in QuantitiesToKeep;
    }
    forall x | x in e ensures x in w {
      assert x in KeepFor(k);
    }
  }

  /** Columns per quantity: 1 for a scalar, 3 for a vector, 6 for a
      symmetric tensor. */
  function Width(k: Kind): nat {
    match k
    case Scalar => 1
    case Vector => 3
    case Tensor => 6
  }

  /** `quantities_found.index(quantity)`: the first position of `x`. */
  function IndexOf(q: seq<string>, x: string): (k: nat)
    requires x in q
    ensures k < |q| && q[k] == x
    ensures forall j :: 0 <= j < k ==> q[j] != x
  {
    if q[0] == x then 0 else 1 + IndexOf(q[1..], x)
  }

  // ---------------------------------------------------------------------------
  // Output columns

  /** `np.loadtxt` gives a two-dimensional array for two rows or more of
      two columns or more; one row or one column comes back
      one-dimensional, and no rows as an empty one-dimensional array. */
  predicate Matrix(t: Table) {
    |t| >= 2 && HasColumns(t, 2)
  }

  /** `data.shape[0]`: the rows of a two-dimensional array, the values of a
      one-dimensional one. */
  function Length0(t: Table): nat {
    if |t| == 1 then |t[0]| else |t|
  }

  /** `np.column_stack((distance, data[:, first]))` then the columns
      `first + 1 .. first + w - 1` one by one: IndexError for a
      one-dimensional `data` and for the first missing column, ValueError
      when the distance and the data differ in length. */
  function ColumnsFrom(distance: seq<real>, data: Table, first: nat, w: nat): (r: Result<Table>)
    requires w >= 1
    ensures r.Ok? <==> Matrix(data) && HasColumns(data, first + w) && |distance| == |data|
    ensures r.Err? ==> r.error == (if !Matrix(data) || !HasColumns(data, first + 1) || |distance| == |data|
                                   then IndexError else ValueError)
    ensures r.Ok? ==> |r.value| == |data| && Rectangular(r.value, w + 1)
    ensures r.Ok? ==> forall row :: 0 <= row < |data| ==>
              r.value[row][0] == distance[row] && r.value[row][1..] == data[row][first..first + w]
  {
    if !Matrix(data) || !HasColumns(data, first + 1) then Err(IndexError)
    else if |distance| != |data| then Err(ValueError)
    else if !HasColumns(data, first + w) then Err(IndexError)
    else Ok(seq(|data|, row requires 0 <= row < |data| => [distance[row]] + data[row][first..first + w]))
  }

  /** The column-stacking loop of one quantity. */
  method ColumnStack(distance: seq<real>, data: Table, first: nat, w: nat) returns (r: Result<Table>)
    requires w >= 1
    ensures r == ColumnsFrom(distance, data, first, w)
  {
    if !Matrix(data) || !HasColumns(data, first + 1) {
      return Err(IndexError);
    }
    if |distance| != |data| {
      return Err(ValueError);
    }
    var t := seq(|data|, row requires 0 <= row < |data| => [distance[row], data[row][first]]);
    var j := 1;
    while j < w
      invariant 1 <= j <= w && HasColumns(data, first + j)
      invariant |t| == |data|
      invariant forall row :: 0 <= row < |data| ==> t[row] == [distance[row]] + data[row][first..first + j]
    {
      if !HasColumns(data, first + j + 1) {
        return Err(IndexError);
      }
      forall row | 0 <= row < |data|
        ensures data[row][first..first + j] + [data[row][first + j]] == data[row][first..first + j + 1]
      {
      }
      t := AppendColumn(t, Column(data, first + j));
      j := j + 1;
    }
    r := Ok(t);
    assert r.value == ColumnsFrom(distance, data, first, w).value;
  }

  /** `np.linspace(lo, hi, n)`: `n` evenly spaced values from `lo` to `hi`
      inclusive (`[lo]` when `n == 1`). */
  function Linspace(lo: real, hi: real, n: nat): (xs: seq<real>)
    ensures |xs| == n
    ensures n >= 1 ==> xs[0] == lo
    ensures n >= 2 ==> xs[n - 1] == hi
    ensures n >= 2 ==> forall k :: 0 <= k < n - 1 ==> xs[k + 1] - xs[k] == (hi - lo) / ((n - 1) as real)
  {
    if n == 1 then [lo]
    else
      var step := if n == 0 then 0.0 else (hi - lo) / ((n - 1) as real);
      assert n >= 2 ==> ((n - 1) as real) * step == hi - lo;
      seq(n, k requires 0 <= k < n => lo + (k as real) * step)
  }

  /** The distance column of a line: column 0 for a vertical line (a
      one-dimensional `data` raises IndexError), `data.shape[0]` evenly
      spaced positions across the horizontal line length for a horizontal
      one, and for any other line the value the previous file left (`None`
      when no file has set it yet). */
  function LineDistance(line: string, data: Table, stale: Option<seq<real>>): (r: Result<Option<seq<real>>>)
    ensures r.Err? <==> 'V' in line && !Matrix(data)
    ensures r.Ok? && 'V' in line ==>
              (r.value.Some? && |r.value.value| == |data|
               && forall row :: 0 <= row < |data| ==> r.value.value[row] == data[row][0])
    ensures r.Ok? && 'V' !in line && 'H' in line ==>
              r.value == Some(Linspace(-HorizontalLineLength / 2.0, HorizontalLineLength / 2.0, Length0(data)))
    ensures Matrix(data) ==> Length0(data) == |data|
    ensures 'V' !in line && 'H' !in line ==> r == Ok(stale)
  {
    if 'V' in line then
      if Matrix(data) then Ok(Some(Column(data, 0))) else Err(IndexError)
    else if 'H' in line then Ok(Some(Linspace(-HorizontalLineLength / 2.0, HorizontalLineLength / 2.0, Length0(data))))
    else Ok(stale)
  }

  /** A horizontal line runs from -2.5 to 2.5 diameters. */
  lemma HorizontalEnds(data: Table)
    requires |data| >= 2
    ensures var d := Linspace(-HorizontalLineLength / 2.0, HorizontalLineLength / 2.0, |data|);
            d[0] == -2.5 && d[|data| - 1] == 2.5
  {
  }

  // ---------------------------------------------------------------------------
  // The file loop

  /** The function-level variables that survive from one file to the next,
      and the files written so far (name to table). */
  datatype SampleState = SampleState(
    keep: Option<seq<string>>,     // quantities_to_keep
    distance: Option<seq<real>>,   // distance
    toWrite: Option<Table>,        // data_to_write
    i: Option<nat>,                // the loop variable i
    written: map<string, Table>)

  const Initial: SampleState := SampleState(None, None, None, None, map[])

  /** What one file fixes for its quantity loop. */
  datatype FileCtx = FileCtx(
    line: string, time: string, tokens: seq<string>, data: Table,
    kind: Option<Kind>, overwrite: bool, present: set<string>)

  /** `{linename}_{quantity}_{time}.gz`. */
  function OutputName(line: string, quantity: string, time: string): (name: string)
    ensures |name| == |line| + |quantity| + |time| + 5
    ensures name[..|line| + 1] == line + "_"
  {
    line + "_" + quantity + "_" + time + ".gz"
  }

  /** `writefile.exists()`: present before the run or written by it. */
  predicate Exists(st: SampleState, present: set<string>, name: string) {
    name in present || name in st.written
  }

  /** File `n` is the same in both maps: absent from both, or present in
      both with the same table. */
  predicate Untouched(before: map<string, Table>, after: map<string, Table>, n: string) {
    (n in after <==> n in before) && (n in before ==> after[n] == before[n])
  }

  /** One pass of `for quantity in quantities_to_keep`. */
  function QuantityStep(st: SampleState, c: FileCtx, quantity: string): (r: Result<SampleState>)
    ensures r.Ok? ==> r.value.keep == st.keep && r.value.distance == st.distance
    ensures r.Ok? ==> st.written.Keys <= r.value.written.Keys <= st.written.Keys + {OutputName(c.line, quantity, c.time)}
    ensures r.Ok? ==> forall n :: n in st.written && n != OutputName(c.line, quantity, c.time) ==>
              r.value.written[n] == st.written[n]
    ensures r.Ok? && r.value.written != st.written ==>
              quantity in c.tokens && (c.overwrite || !Exists(st, c.present, OutputName(c.line, quantity, c.time)))
    ensures r.Ok? && r.value.written != st.written && c.kind.Some? ==>
              var k := c.kind.value;
              st.distance.Some?
              && ColumnsFrom(st.distance.value, c.data, Width(k) * IndexOf(c.tokens, quantity) + 1, Width(k))
                 == Ok(r.value.written[OutputName(c.line, quantity, c.time)])
    ensures r.Err? ==> quantity in c.tokens
    ensures r.Ok? && !c.overwrite ==> forall n :: n in c.present ==> Untouched(st.written, r.value.written, n)
  {
    var name := OutputName(c.line, quantity, c.time);
    if Exists(st, c.present, name) && !c.overwrite then Ok(st)
    else if quantity !in c.tokens then Ok(st)
    else match c.kind
      case None =>
        // no branch runs: the data_to_write of an earlier file is saved
        if st.toWrite.None? then Err(NameError)
        else Ok(st.(written := st.written[name := st.toWrite.value]))
      case Some(k) =>
        if st.distance.None? then Err(NameError)
        else
          var cols := ColumnsFrom(st.distance.value, c.data, Width(k) * IndexOf(c.tokens, quantity) + 1, Width(k));
          if cols.Err? then Err(cols.error)
          else Ok(st.(toWrite := Some(cols.value), written := st.written[name := cols.value],
                      i := if k == Scalar then st.i else Some(Width(k) - 1)))
  }

  /** The quantity loop over `keep`, in order. */
  function KeepLoop(st: SampleState, c: FileCtx, keep: seq<string>): Result<SampleState>
    decreases |keep|
  {
    if keep == [] then Ok(st)
    else match QuantityStep(st, c, keep[0])
      case Err(e) => Err(e)
      case Ok(s1) => KeepLoop(s1, c, keep[1..])
  }

  /** The quantity loop writes only `{line}_{q}_{time}.gz` for kept
      quantities `q` found in the file, and never forgets a file. */
  lemma {:induction false} KeepLoopWrites(st: SampleState, c: FileCtx, keep: seq<string>)
    requires KeepLoop(st, c, keep).Ok?
    ensures st.written.Keys <= KeepLoop(st, c, keep).value.written.Keys
    ensures forall name :: name in KeepLoop(st, c, keep).value.written.Keys - st.written.Keys ==>
              exists q :: q in keep && q in c.tokens && name == OutputName(c.line, q, c.time)
    decreases |keep|
  {
    if keep != [] {
      var s1 := QuantityStep(st, c, keep[0]).value;
      KeepLoopWrites(s1, c, keep[1..]);
      var fin := KeepLoop(st, c, keep).value;
      assert fin == KeepLoop(s1, c, keep[1..]).value;
      forall name | name in fin.written.Keys - st.written.Keys
        ensures exists q :: q in keep && q in c.tokens && name == OutputName(c.line, q, c.time)
      {
        if name in s1.written.Keys - st.written.Keys {
          assert s1.written != st.written;
          assert keep[0] in keep;
        } else {
          assert name in fin.written.Keys - s1.written.Keys;
          var q :| q in keep[1..] && q in c.tokens && name == OutputName(c.line, q, c.time);
          assert q in keep;
        }
      }
    }
  }

  lemma {:induction false} KeepLoopKeeps(st: SampleState, c: FileCtx, keep: seq<string>)
    requires KeepLoop(st, c, keep).Ok?
    ensures KeepLoop(st, c, keep).value.keep == st.keep
    decreases |keep|
  {
    if keep != [] {
      KeepLoopKeeps(QuantityStep(st, c, keep[0]).value, c, keep[1..]);
    }
  }

  /** `files_exist`: every kept quantity's output already exists. */
  predicate AllExist(st: SampleState, present: set<string>, line: string, keep: seq<string>, time: string) {
    forall k :: 0 <= k < |keep| ==> Exists(st, present, OutputName(line, keep[k], time))
  }

  /** The line name and the merged tokens of an input file. */
  datatype Parsed = Parsed(line: string, tokens: seq<string>)

  /** The line name of an input file (empty when the stem has one field). */
  function LineOf(name: string): string {
    var f := SplitLineName(Split(FileStem(name), "_"));
    if f.Ok? then f.value.line else ""
  }

  /** Name parsing and the merging loop, from the `i` the last file left. */
  function ParseFile(name: string, i: Option<nat>): (r: Result<Parsed>)
    ensures r.Ok? ==> |r.value.tokens| >= 2 && r.value.line == LineOf(name)
  {
    var fields :- SplitLineName(Split(FileStem(name), "_"));
    var q :- MergeLoop(fields.quantities, 0, i);
    Ok(Parsed(fields.line, q))
  }

  /** One input file, as written: `ParseFile`, then `ClassifiedStep`; the
      merging loop leaves `i` at `len(q) - 2`. */
  function FileStep(st: SampleState, name: string, data: Table, time: string,
                    overwrite: bool, present: set<string>): (r: Result<SampleState>)
    ensures ParseFile(name, st.i).Err? ==> r == Err(ParseFile(name, st.i).error)
    ensures r.Ok? ==> ParseFile(name, st.i).Ok? && st.written.Keys <= r.value.written.Keys
    ensures r.Ok? ==> forall out :: out in r.value.written.Keys - st.written.Keys ==>
              exists q :: q in ParseFile(name, st.i).value.tokens && out == OutputName(LineOf(name), q, time)
  {
    match ParseFile(name, st.i)
    case Err(e) => Err(e)
    case Ok(p) => ClassifiedStep(st, p, data, time, overwrite, present)
  }

  /** The rest of a file once its tokens are merged: `Enter`, the skip
      when every output exists, the distance column and the quantity loop.
      With no kept list yet, the skip test's loop raises NameError; with
      `overwrite` that test is not run, so a vertical line read
      one-dimensional raises IndexError at `data[:,0]` first and the
      NameError comes from the quantity loop. */
  function ClassifiedStep(st: SampleState, p: Parsed, data: Table, time: string,
                          overwrite: bool, present: set<string>): (r: Result<SampleState>)
    requires |p.tokens| >= 2
    ensures Enter(st, p).keep.None? ==>
              r == (if overwrite && LineDistance(p.line, data, st.distance).Err? then Err(IndexError) else Err(NameError))
    ensures r.Ok? ==> r.value.keep == Enter(st, p).keep && st.written.Keys <= r.value.written.Keys
    ensures r.Ok? ==> forall out :: out in r.value.written.Keys - st.written.Keys ==>
              exists q :: q in Enter(st, p).keep.value && q in p.tokens && out == OutputName(p.line, q, time)
  {
    var st1 := Enter(st, p);
    if !overwrite && st1.keep.None? then Err(NameError)
    else if !overwrite && AllExist(st1, present, p.line, st1.keep.value, time) then Ok(st1)
    else match LineDistance(p.line, data, st.distance)
      case Err(e) => Err(e)
      case Ok(d) =>
        if st1.keep.None? then Err(NameError)
        else
          var c := Ctx(p, data, time, overwrite, present);
          var r := KeepLoop(st1.(distance := d), c, st1.keep.value);
          if r.Ok? then
            KeepLoopWrites(st1.(distance := d), c, st1.keep.value);
            KeepLoopKeeps(st1.(distance := d), c, st1.keep.value);
            r
          else r
  }

  /** The state after the merging loop (`i` at `len(q) - 2`) and the
      classification (`quantities_to_keep` keeps its old value for an
      unclassified file). */
  function Enter(st: SampleState, p: Parsed): (st1: SampleState)
    requires |p.tokens| >= 2
    ensures st1.written == st.written && st1.distance == st.distance && st1.toWrite == st.toWrite
    ensures Classify(p.tokens[0]).Some? ==> st1.keep == Some(KeepFor(Classify(p.tokens[0]).value))
    ensures Classify(p.tokens[0]).None? ==> st1.keep == st.keep
  {
    var kind := Classify(p.tokens[0]);
    st.(i := Some(|p.tokens| - 2), keep := if kind.Some? then Some(KeepFor(kind.value)) else st.keep)
  }

  /** What the quantity loop of a file works from. */
  function Ctx(p: Parsed, data: Table, time: string, overwrite: bool, present: set<string>): FileCtx
    requires |p.tokens| >= 1
  {
    FileCtx(p.line, time, p.tokens, data, Classify(p.tokens[0]), overwrite, present)
  }

  /** Every remembered kept quantity is one of `QUANTITIES_TO_KEEP`. */
  predicate KeepsKnown(st: SampleState) {
    st.keep.Some? ==> forall x :: x in st.keep.value ==> x in QuantitiesToKeep
  }

  /** What one file writes: only outputs of its own line and time, for
      quantities in `QUANTITIES_TO_KEEP`; nothing already written is lost,
      and the remembered kept list stays one of the class lists. */
  lemma FileStepWrites(st: SampleState, name: string, data: Table, time: string,
                       overwrite: bool, present: set<string>)
    requires KeepsKnown(st)
    requires FileStep(st, name, data, time, overwrite, present).Ok?
    ensures ParseFile(name, st.i).Ok?
    ensures var fin := FileStep(st, name, data, time, overwrite, present).value;
            KeepsKnown(fin)
            && st.written.Keys <= fin.written.Keys
            && forall out :: out in fin.written.Keys - st.written.Keys ==>
                 exists q :: q in QuantitiesToKeep && out == OutputName(ParseFile(name, st.i).value.line, q, time)
  {
    ClassifiedWrites(st, ParseFile(name, st.i).value, data, time, overwrite, present);
  }

  lemma ClassifiedWrites(st: SampleState, p: Parsed, data: Table, time: string,
                         overwrite: bool, present: set<string>)
    requires |p.tokens| >= 2 && KeepsKnown(st)
    requires ClassifiedStep(st, p, data, time, overwrite, present).Ok?
    ensures var fin := ClassifiedStep(st, p, data, time, overwrite, present).value;
            KeepsKnown(fin)
            && st.written.Keys <= fin.written.Keys
            && forall out :: out in fin.written.Keys - st.written.Keys ==>
                 exists x :: x in QuantitiesToKeep && out == OutputName(p.line, x, time)
  {
    var st1 := Enter(st, p);
    var kind := Classify(p.tokens[0]);
    if kind.Some? {
      KeepForIsIntersection(kind.value);
      forall x | x in st1.keep.value ensures x in QuantitiesToKeep {
        assert x in Elems(KeepFor(kind.value));
      }
    }
    if !(!overwrite && AllExist(st1, present, p.line, st1.keep.value, time)) {
      var d := LineDistance(p.line, data, st.distance).value;
      var c := Ctx(p, data, time, overwrite, present);
      KeepLoopWrites(st1.(distance := d), c, st1.keep.value);
      KeepLoopKeeps(st1.(distance := d), c, st1.keep.value);
    }
  }

  /** One pass of the quantity loop, with the column stacking done by
      `ColumnStack`. */
  method WriteQuantity(st: SampleState, c: FileCtx, quantity: string) returns (r: Result<SampleState>)
    ensures r == QuantityStep(st, c, quantity)
  {
    var name := OutputName(c.line, quantity, c.time);
    if (name in c.present || name in st.written) && !c.overwrite {
      return Ok(st);
    }
    if quantity !in c.tokens {
      return Ok(st);
    }
    if c.kind.None? {
      if st.toWrite.None? {
        return Err(NameError);
      }
      return Ok(st.(written := st.written[name := st.toWrite.value]));
    }
    var k := c.kind.value;
    if st.distance.None? {
      return Err(NameError);
    }
    var idx := Width(k) * IndexOf(c.tokens, quantity) + 1;
    var cols := ColumnStack(st.distance.value, c.data, idx, Width(k));
    if cols.Err? {
      return Err(cols.error);
    }
    var i := st.i;
    if k != Scalar {
      i := Some(Width(k) - 1);   // the `for i in range(1, w)` loop leaves i = w - 1
    }
    r := Ok(st.(toWrite := Some(cols.value), written := st.written[name := cols.value], i := i));
  }

  /** `files_exist`: the loop over the kept quantities. */
  method FilesExist(st: SampleState, present: set<string>, line: string, keep: seq<string>, time: string)
    returns (filesExist: bool)
    ensures filesExist == AllExist(st, present, line, keep, time)
  {
    filesExist := true;
    var k := 0;
    while k < |keep|
      invariant 0 <= k <= |keep|
      invariant filesExist <==> forall j :: 0 <= j < k ==> Exists(st, present, OutputName(line, keep[j], time))
    {
      var writefile := OutputName(line, keep[k], time);
      if !(writefile in present || writefile in st.written) {
        filesExist := false;
      }
      k := k + 1;
    }
  }

  /** `for quantity in quantities_to_keep`. */
  method QuantityLoop(st: SampleState, c: FileCtx, keep: seq<string>) returns (r: Result<SampleState>)
    ensures r == KeepLoop(st, c, keep)
  {
    var cur := st;
    var rest := keep;
    while rest != []
      invariant KeepLoop(cur, c, rest) == KeepLoop(st, c, keep)
      decreases |rest|
    {
      var next := WriteQuantity(cur, c, rest[0]);
      if next.Err? {
        return Err(next.error);
      }
      cur := next.value;
      rest := rest[1..];
    }
    r := Ok(cur);
  }

  /** One input file, step by step. */
  method ProcessFile(st: SampleState, name: string, data: Table, time: string,
                     overwrite: bool, present: set<string>) returns (r: Result<SampleState>)
    ensures r == FileStep(st, name, data, time, overwrite, present)
  {
    var fields := SplitLineName(Split(FileStem(name), "_"));
    if fields.Err? {
      return Err(fields.error);
    }
    var merged, i := MergeTokens(fields.value.quantities, st.i);
    if merged.Err? {
      return Err(merged.error);
    }
    var p := Parsed(fields.value.line, merged.value);
    assert ParseFile(name, st.i) == Ok(p);
    r := ProcessTokens(st, p, data, time, overwrite, present);
  }

  /** A file whose tokens are merged: classification, skip, distance and
      the quantity loop. */
  method ProcessTokens(st: SampleState, p: Parsed, data: Table, time: string,
                       overwrite: bool, present: set<string>) returns (r: Result<SampleState>)
    requires |p.tokens| >= 2
    ensures r == ClassifiedStep(st, p, data, time, overwrite, present)
  {
    var cur := Enter(st, p);
    if !overwrite {
      if cur.keep.None? {
        return Err(NameError);
      }
      var filesExist := FilesExist(cur, present, p.line, cur.keep.value, time);
      if filesExist {
        return Ok(cur);
      }
    }
    var d := LineDistance(p.line, data, st.distance);
    if d.Err? {
      return Err(d.error);
    }
    if cur.keep.None? {
      return Err(NameError);
    }
    r := QuantityLoop(cur.(distance := d.value), Ctx(p, data, time, overwrite, present), cur.keep.value);
  }

  /** `for filepath in filepaths`, in the order the directory lists them;
      the first exception ends the run. */
  function RunFiles(st: SampleState, files: seq<(string, Table)>, time: string,
                    overwrite: bool, present: set<string>): Result<SampleState>
    decreases |files|
  {
    if files == [] then Ok(st)
    else match FileStep(st, files[0].0, files[0].1, time, overwrite, present)
      case Err(e) => Err(e)
      case Ok(st1) => RunFiles(st1, files[1..], time, overwrite, present)
  }

  /** The file loop of `turbineLineSample`, from the state no file has
      touched. */
  method LineSampleFiles(files: seq<(string, Table)>, time: string, overwrite: bool,
                         present: set<string>) returns (r: Result<SampleState>)
    ensures r == RunFiles(Initial, files, time, overwrite, present)
  {
    var st := Initial;
    var rest := files;
    while rest != []
      invariant RunFiles(st, rest, time, overwrite, present) == RunFiles(Initial, files, time, overwrite, present)
      decreases |rest|
    {
      var next := ProcessFile(st, rest[0].0, rest[0].1, time, overwrite, present);
      if next.Err? {
        return Err(next.error);
      }
      st := next.value;
      rest := rest[1..];
    }
    r := Ok(st);
  }

  /** `out` is `{line}_{q}_{time}.gz` for the line of one of `files` and
      a `q` in `QUANTITIES_TO_KEEP`. */
  predicate OutputOf(out: string, files: seq<(string, Table)>, time: string) {
    exists j, x :: 0 <= j < |files| && x in QuantitiesToKeep && out == OutputName(LineOf(files[j].0), x, time)
  }

  /** Every file the run writes is named after one of its input files'
      lines and a kept quantity, and no file written is later lost. */
  lemma {:induction false} RunWrites(st: SampleState, files: seq<(string, Table)>, time: string,
                                     overwrite: bool, present: set<string>)
    requires KeepsKnown(st)
    requires RunFiles(st, files, time, overwrite, present).Ok?
    ensures var fin := RunFiles(st, files, time, overwrite, present).value;
            st.written.Keys <= fin.written.Keys
            && forall out :: out in fin.written.Keys - st.written.Keys ==> OutputOf(out, files, time)
    decreases |files|
  {
    if files != [] {
      var st1 := FileStep(st, files[0].0, files[0].1, time, overwrite, present).value;
      FileStepWrites(st, files[0].0, files[0].1, time, overwrite, present);
      RunWrites(st1, files[1..], time, overwrite, present);
      var fin := RunFiles(st1, files[1..], time, overwrite, present).value;
      assert RunFiles(st, files, time, overwrite, present) == RunFiles(st1, files[1..], time, overwrite, present);
      var line := ParseFile(files[0].0, st.i).value.line;
      assert line == LineOf(files[0].0);
      forall out | out in fin.written.Keys - st.written.Keys
        ensures OutputOf(out, files, time)
      {
        if out in st1.written.Keys {
          assert out in st1.written.Keys - st.written.Keys;
          var x :| x in QuantitiesToKeep && out == OutputName(line, x, time);
          assert out == OutputName(LineOf(files[0].0), x, time);
        } else {
          OutputOfTail(out, files, time);
        }
      }
    }
  }

  lemma OutputOfTail(out: string, files: seq<(string, Table)>, time: string)
    requires files != [] && OutputOf(out, files[1..], time)
    ensures OutputOf(out, files, time)
  {
    var j, x :| 0 <= j < |files[1..]| && x in QuantitiesToKeep
                && out == OutputName(LineOf(files[1..][j].0), x, time);
    assert files[1..][j] == files[j + 1];
  }

  /** With `overwrite` False a run never replaces or removes a file that
      was there before it. */
  lemma {:induction false} RunKeepsPresent(st: SampleState, files: seq<(string, Table)>, time: string,
                                           present: set<string>)
    requires RunFiles(st, files, time, false, present).Ok?
    ensures forall n :: n in present ==> Untouched(st.written, RunFiles(st, files, time, false, present).value.written, n)
    decreases |files|
  {
    if files != [] {
      var st1 := FileStep(st, files[0].0, files[0].1, time, false, present).value;
      FileStepKeepsPresent(st, files[0].0, files[0].1, time, present);
      RunKeepsPresent(st1, files[1..], time, present);
    }
  }

  lemma FileStepKeepsPresent(st: SampleState, name: string, data: Table, time: string, present: set<string>)
    requires FileStep(st, name, data, time, false, present).Ok?
    ensures forall n :: n in present ==> Untouched(st.written, FileStep(st, name, data, time, false, present).value.written, n)
  {
    var p := ParseFile(name, st.i).value;
    var st1 := Enter(st, p);
    if !AllExist(st1, present, p.line, st1.keep.value, time) {
      var d := LineDistance(p.line, data, st.distance).value;
      KeepLoopKeepsPresent(st1.(distance := d), Ctx(p, data, time, false, present), st1.keep.value);
    }
  }

  lemma {:induction false} KeepLoopKeepsPresent(st: SampleState, c: FileCtx, keep: seq<string>)
    requires !c.overwrite
    requires KeepLoop(st, c, keep).Ok?
    ensures forall n :: n in c.present ==> Untouched(st.written, KeepLoop(st, c, keep).value.written, n)
    decreases |keep|
  {
    if keep != [] {
      KeepLoopKeepsPresent(QuantityStep(st, c, keep[0]).value, c, keep[1..]);
    }
  }

  // ---------------------------------------------------------------------------
  // `p_rgh`: the fused token is not the listed name

  /** As written, `p_rgh` becomes `prgh`, which is in none of the class
      sets, so a file whose first field is `p_rgh` is not classified. */
  lemma PRghUnclassified()
    ensures Fuse(["p", "rgh", "kResolved"]) == ["prgh", "kResolved"]
    ensures Classify("prgh").None? && Classify("prghAvg").None?
  {
    assert IsPRgh(["p", "rgh", "kResolved"], 0);
    assert ["p", "rgh", "kResolved"][2..] == ["kResolved"];
    assert "p" + "rgh" == "prgh";
    assert Fuse(["kResolved"]) == ["kResolved"];
  }

  /** A file whose classification leaves a kept list and whose outputs
      may be written runs the quantity loop over that list. */
  lemma ClassifiedStepRunsLoop(st: SampleState, p: Parsed, data: Table, time: string, present: set<string>)
    requires |p.tokens| >= 2 && Enter(st, p).keep.Some?
    requires LineDistance(p.line, data, st.distance).Ok?
    ensures ClassifiedStep(st, p, data, time, true, present)
            == KeepLoop(Enter(st, p).(distance := LineDistance(p.line, data, st.distance).value),
                        Ctx(p, data, time, true, present), Enter(st, p).keep.value)
  {
  }

  /** ... so its quantity loop runs with the kept list and the
      `data_to_write` of the previous file: `kResolved` is saved with the
      previous file's table, not this file's column. */
  lemma PRghFileWritesStaleTable(st: SampleState, data: Table, time: string)
    requires st.keep == Some(KeepFor(Scalar)) && st.toWrite.Some?
    requires |data| >= 2 && HasColumns(data, 3)
    ensures var r := ClassifiedStep(st, Parsed("lineV1", ["prgh", "kResolved"]), data, time, true, {});
            r.Ok? && OutputName("lineV1", "kResolved", time) in r.value.written
            && r.value.written[OutputName("lineV1", "kResolved", time)] == st.toWrite.value
  {
    var p := Parsed("lineV1", ["prgh", "kResolved"]);
    PRghUnclassified();
    var st1 := Enter(st, p);
    assert st1.keep == Some(["kResolved"]);
    assert 'V' in "lineV1";
    var d := Column(data, 0);
    assert LineDistance("lineV1", data, st.distance) == Ok(Some(d));
    ClassifiedStepRunsLoop(st, p, data, time, {});
    var c := Ctx(p, data, time, true, {});
    assert c.kind.None? && "kResolved" in c.tokens;
    var r1 := QuantityStep(st1.(distance := Some(d)), c, "kResolved");
    assert r1 == Ok(st1.(distance := Some(d)).(written := st.written[OutputName("lineV1", "kResolved", time) := st.toWrite.value]));
    assert KeepLoop(st1.(distance := Some(d)), c, ["kResolved"]) == r1;
    assert ClassifiedStep(st, p, data, time, true, {}) == r1;
  }

  /** A first file `lineV1_p_rgh_kResolved.xy` leaves no kept list: without
      `overwrite` the skip test raises NameError; with it, a read of fewer
      than two rows raises IndexError at `data[:,0]` before that. */
  lemma UnclassifiedFirstFile(data: Table, time: string)
    requires |data| < 2
    ensures ClassifiedStep(Initial, Parsed("lineV1", ["prgh", "kResolved"]), data, time, true, {}) == Err(IndexError)
    ensures ClassifiedStep(Initial, Parsed("lineV1", ["prgh", "kResolved"]), data, time, false, {}) == Err(NameError)
  {
    PRghUnclassified();
    assert 'V' in "lineV1";
  }

  /** The evidently intended merge: `p` and `rgh…` joined by `_`, which
      gives back the listed names `p_rgh` and `p_rghAvg`. */
  function FuseUnderscore(q: seq<string>): (r: seq<string>)
    ensures |q| >= 1 ==> |r| >= 1
    ensures |r| <= |q|
    decreases |q|
  {
    if |q| < 2 then q
    else if IsPRgh(q, 0) then [q[0] + "_" + q[1]] + FuseUnderscore(q[2..])
    else [q[0]] + FuseUnderscore(q[1..])
  }

  /** Joining the corrected tokens with `_` gives back the stem's fields. */
  lemma {:induction false} FuseUnderscoreKeepsFields(q: seq<string>)
    ensures Join(FuseUnderscore(q), "_") == Join(q, "_")
    decreases |q|
  {
    if |q| >= 2 {
      if IsPRgh(q, 0) {
        var rest := q[2..];
        FuseUnderscoreKeepsFields(rest);
        if rest == [] {
          assert FuseUnderscore(q) == [q[0] + "_" + q[1]];
          JoinTwo(q);
        } else {
          JoinCons(q[0] + "_" + q[1], FuseUnderscore(rest), "_");
          JoinThree(q, Join(rest, "_"));
        }
      } else {
        FuseUnderscoreKeepsFields(q[1..]);
        JoinCons(q[0], FuseUnderscore(q[1..]), "_");
        JoinCons(q[0], q[1..], "_");
        assert [q[0]] + q[1..] == q;
      }
    }
  }

  /** With the corrected merge both pressure fields classify as scalars. */
  lemma FuseUnderscoreClassifies()
    ensures FuseUnderscore(["p", "rgh", "kResolved"]) == ["p_rgh", "kResolved"]
    ensures FuseUnderscore(["p", "rghAvg", "kResolved"]) == ["p_rghAvg", "kResolved"]
    ensures Classify("p_rgh") == Some(Scalar) && Classify("p_rghAvg") == Some(Scalar)
  {
    assert IsPRgh(["p", "rgh", "kResolved"], 0);
    assert ["p", "rgh", "kResolved"][2..] == ["kResolved"];
    assert "p" + "_" + "rgh" == "p_rgh";
    assert IsPRgh(["p", "rghAvg", "kResolved"], 0);
    assert ["p", "rghAvg", "kResolved"][2..] == ["kResolved"];
    assert "p" + "_" + "rghAvg" == "p_rghAvg";
    assert FuseUnderscore(["kResolved"]) == ["kResolved"];
  }

  /** ... and the same file then saves its own `kResolved` column (field 1,
      so column 2) beside the distance column. */
  lemma IntendedPRghFile(st: SampleState, data: Table, time: string)
    requires |data| >= 2 && HasColumns(data, 3)
    ensures var r := ClassifiedStep(st, Parsed("lineV1", FuseUnderscore(["p", "rgh", "kResolved"])), data, time, true, {});
            r.Ok? && OutputName("lineV1", "kResolved", time) in r.value.written
            && Ok(r.value.written[OutputName("lineV1", "kResolved", time)]) == ColumnsFrom(Column(data, 0), data, 2, 1)
  {
    FuseUnderscoreClassifies();
    var p := Parsed("lineV1", ["p_rgh", "kResolved"]);
    var st1 := Enter(st, p);
    assert st1.keep == Some(["kResolved"]);
    assert 'V' in "lineV1";
    var d := Column(data, 0);
    assert LineDistance("lineV1", data, st.distance) == Ok(Some(d));
    ClassifiedStepRunsLoop(st, p, data, time, {});
    var c := Ctx(p, data, time, true, {});
    assert c.kind == Some(Scalar) && "kResolved" in c.tokens;
    assert IndexOf(c.tokens, "kResolved") == 1;
    var cols := ColumnsFrom(d, data, 2, 1);
    assert cols.Ok?;
    var r1 := QuantityStep(st1.(distance := Some(d)), c, "kResolved");
    assert r1.Ok? && r1.value.written[OutputName("lineV1", "kResolved", time)] == cols.value;
    assert KeepLoop(st1.(distance := Some(d)), c, ["kResolved"]) == r1;
    assert ClassifiedStep(st, p, data, time, true, {}) == r1;
    assert Parsed("lineV1", FuseUnderscore(["p", "rgh", "kResolved"])) == p;
  }
}
