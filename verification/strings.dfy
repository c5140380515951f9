/** The Python `str` operations the scripts use on file names, header lines
    and command-line values: `split`, `join`, `replace`, `removeprefix`,
    `removesuffix`, `startswith`, `endswith`, `in`, `str(int)`, `int(...)`,
    `float(...)` and the code-point order that `np.unique` sorts names by. */
module Strings {
  import opened Common
  import Sorting

  predicate StartsWith(s: string, p: string) {
    |p| <= |s| && s[..|p|] == p
  }

  predicate EndsWith(s: string, p: string) {
    |p| <= |s| && s[|s| - |p|..] == p
  }

  /** Python's `p in s`: `p` occurs at some position of `s`. */
  predicate Contains(s: string, p: string)
    decreases |s|
  {
    StartsWith(s, p) || (s != "" && Contains(s[1..], p))
  }

  function RemovePrefix(s: string, p: string): (r: string)
    ensures StartsWith(s, p) ==> p + r == s
    ensures !StartsWith(s, p) ==> r == s
  {
    if StartsWith(s, p) then s[|p|..] else s
  }

  function RemoveSuffix(s: string, p: string): (r: string)
    ensures EndsWith(s, p) ==> r + p == s
    ensures !EndsWith(s, p) ==> r == s
  {
    if EndsWith(s, p) then s[..|s| - |p|] else s
  }

  // ---------------------------------------------------------------------------
  // str.replace(pat, rep): left-to-right, non-overlapping

  function Replace(s: string, pat: string, rep: string): (r: string)
    requires pat != ""
    decreases |s|
  {
    if StartsWith(s, pat) then rep + Replace(s[|pat|..], pat, rep)
    else if s == "" then ""
    else [s[0]] + Replace(s[1..], pat, rep)
  }

  /** Replacing a string that does not occur leaves the text as it was. */
  lemma {:induction false} ReplaceAbsent(s: string, pat: string, rep: string)
    requires pat != ""
    requires !Contains(s, pat)
    ensures Replace(s, pat, rep) == s
  {
    if s != "" {
      ReplaceAbsent(s[1..], pat, rep);
    }
  }

  /** Replacing every copy of one character by text without it leaves none
      of it. */
  lemma {:induction false} ReplaceCharRemovesIt(s: string, c: char, rep: string)
    requires c !in rep
    ensures c !in Replace(s, [c], rep)
  {
    if s != "" {
      ReplaceCharRemovesIt(s[1..], c, rep);
    }
  }

  /** Deleting a character keeps every other character, in order. */
  lemma {:induction false} DeleteCharKeepsOthers(s: string, c: char)
    ensures Replace(s, [c], "") == Filter(s, c)
  {
    if s != "" {
      DeleteCharKeepsOthers(s[1..], c);
    }
  }

  /** The characters of `s` other than `c`. */
  function Filter(s: string, c: char): string {
    if s == "" then "" else (if s[0] == c then "" else [s[0]]) + Filter(s[1..], c)
  }

  // ---------------------------------------------------------------------------
  // str.split(sep) and str.join

  function Join(parts: seq<string>, sep: string): string {
    if |parts| == 0 then ""
    else if |parts| == 1 then parts[0]
    else parts[0] + sep + Join(parts[1..], sep)
  }

  function SplitFrom(s: string, sep: string, acc: string): (r: seq<string>)
    requires sep != ""
    ensures |r| >= 1
    decreases |s|
  {
    if StartsWith(s, sep) then [acc] + SplitFrom(s[|sep|..], sep, "")
    else if s == "" then [acc]
    else SplitFrom(s[1..], sep, acc + [s[0]])
  }

  /** Python's `s.split(sep)` for a non-empty separator. */
  function Split(s: string, sep: string): (r: seq<string>)
    requires sep != ""
    ensures |r| >= 1
  {
    SplitFrom(s, sep, "")
  }

  lemma {:induction false} JoinSplitFrom(s: string, sep: string, acc: string)
    requires sep != ""
    ensures Join(SplitFrom(s, sep, acc), sep) == acc + s
    decreases |s|
  {
    if StartsWith(s, sep) {
      JoinSplitFrom(s[|sep|..], sep, "");
      assert s == sep + s[|sep|..];
    } else if s != "" {
      JoinSplitFrom(s[1..], sep, acc + [s[0]]);
      assert s == [s[0]] + s[1..];
    }
  }

  /** Joining the pieces of a split with the same separator gives the text back. */
  lemma JoinSplit(s: string, sep: string)
    requires sep != ""
    ensures Join(Split(s, sep), sep) == s
  {
    JoinSplitFrom(s, sep, "");
  }

  /** Text without the separator splits into itself alone. */
  lemma {:induction false} SplitFromAbsent(s: string, sep: string, acc: string)
    requires sep != ""
    requires forall i :: 0 <= i < |s| ==> s[i] != sep[0]
    ensures SplitFrom(s, sep, acc) == [acc + s]
    decreases |s|
  {
    if s != "" {
      assert s[0] != sep[0];
      if |sep| <= |s| { assert s[..|sep|][0] == s[0]; }
      assert !StartsWith(s, sep);
      SplitFromAbsent(s[1..], sep, acc + [s[0]]);
      assert acc + [s[0]] + s[1..] == acc + s;
    } else {
      assert acc + s == acc;
    }
  }

  /** The last field of a split: the text after the final separator. */
  function Last(parts: seq<string>): string
    requires |parts| >= 1
  {
    parts[|parts| - 1]
  }

  // ---------------------------------------------------------------------------
  // str.split() with no argument: runs of whitespace separate, no empty words

  /** `str.isspace()` of one character: the ASCII whitespace, the separators
      0x1C-0x1F, NEL, no-break space and the Unicode space separators. */
  predicate IsSpace(c: char) {
    var n := c as int;
    || 9 <= n <= 13 || 28 <= n <= 32 || n == 0x85 || n == 0xA0 || n == 0x1680
    || 0x2000 <= n <= 0x200A || n == 0x2028 || n == 0x2029 || n == 0x202F || n == 0x205F || n == 0x3000
  }

  predicate IsWord(w: string) {
    w != "" && forall i :: 0 <= i < |w| ==> !IsSpace(w[i])
  }

  /** Space-free text in front of a word leaves a word. */
  lemma WordAfter(a: string, w: string)
    requires forall i :: 0 <= i < |a| ==> !IsSpace(a[i])
    requires IsWord(w)
    ensures IsWord(a + w)
  {
    forall i | 0 <= i < |a + w| ensures !IsSpace((a + w)[i]) {
      if i >= |a| {
        assert (a + w)[i] == w[i - |a|];
      }
    }
  }

  function WordsFrom(s: string, acc: string): (r: seq<string>)
    requires acc == "" || IsWord(acc)
    ensures forall k :: 0 <= k < |r| ==> IsWord(r[k])
    decreases |s|
  {
    if s == "" then (if acc == "" then [] else [acc])
    else if IsSpace(s[0]) then
      (if acc == "" then [] else [acc]) + WordsFrom(s[1..], "")
    else WordsFrom(s[1..], acc + [s[0]])
  }

  /** Python's `s.split()`: the maximal runs of non-whitespace characters. */
  function Words(s: string): (r: seq<string>)
    ensures forall k :: 0 <= k < |r| ==> IsWord(r[k])
  {
    WordsFrom(s, "")
  }

  /** Words joined by single spaces split back into the same words. */
  lemma {:induction false} WordsJoinFrom(ws: seq<string>, acc: string)
    requires acc == "" || IsWord(acc)
    requires forall k :: 0 <= k < |ws| ==> IsWord(ws[k])
    requires |ws| >= 1
    ensures WordsFrom(Join(ws, " "), acc) == [acc + ws[0]] + ws[1..]
    decreases ws
  {
    if |ws| == 1 {
      WordsNoSpace(ws[0], acc);
    } else {
      var rest := Join(ws[1..], " ");
      WordsAppend(ws[0], " " + rest, acc);
      WordsJoinFrom(ws[1..], "");
      assert Join(ws, " ") == ws[0] + (" " + rest);
      assert (" " + rest)[1..] == rest;
      assert "" + ws[1..][0] == ws[1];
      assert ws[1..][1..] == ws[2..];
      assert [acc + ws[0]] + ([ws[1]] + ws[2..]) == [acc + ws[0]] + ws[1..];
    }
  }

  lemma {:induction false} WordsNoSpace(w: string, acc: string)
    requires acc == "" || IsWord(acc)
    requires IsWord(w)
    ensures WordsFrom(w, acc) == [acc + w]
    decreases |w|
  {
    if |w| == 1 {
      assert w[1..] == "";
      assert acc + [w[0]] == acc + w;
    } else {
      WordsNoSpace(w[1..], acc + [w[0]]);
      assert acc + [w[0]] + w[1..] == acc + w;
    }
  }

  lemma {:induction false} WordsAppend(w: string, tail: string, acc: string)
    requires acc == "" || IsWord(acc)
    requires IsWord(w)
    requires |tail| >= 1 && tail[0] == ' '
    ensures WordsFrom(w + tail, acc) == [acc + w] + WordsFrom(tail[1..], "")
    decreases |w|
  {
    assert (w + tail)[1..] == w[1..] + tail;
    if |w| == 1 {
      assert w[1..] + tail == tail;
      assert acc + [w[0]] == acc + w;
      assert tail == [tail[0]] + tail[1..];
    } else {
      WordsAppend(w[1..], tail, acc + [w[0]]);
      assert acc + [w[0]] + w[1..] == acc + w;
    }
  }

  /** Joining words with spaces and splitting on whitespace is the identity. */
  lemma WordsJoin(ws: seq<string>)
    requires forall k :: 0 <= k < |ws| ==> IsWord(ws[k])
    ensures Words(Join(ws, " ")) == ws
  {
    if |ws| >= 1 {
      WordsJoinFrom(ws, "");
      assert "" + ws[0] == ws[0];
      assert [ws[0]] + ws[1..] == ws;
    }
  }

  // ---------------------------------------------------------------------------
  // str(int) and int(str)

  predicate IsDigit(c: char) { '0' <= c <= '9' }

  predicate AllDigits(s: string) {
    forall i :: 0 <= i < |s| ==> IsDigit(s[i])
  }

  function DigitChar(d: nat): char
    requires d < 10
  {
    (('0' as int) + d) as char
  }

  /** Python's `str(n)` for a non-negative integer. */
  function NatToString(n: nat): (r: string)
    ensures r != "" && AllDigits(r)
    decreases n
  {
    if n < 10 then [DigitChar(n)] else NatToString(n / 10) + [DigitChar(n % 10)]
  }

  /** Python's `str(i)` / `f'{i}'` for an integer. */
  function IntToString(i: int): (r: string)
    ensures r != ""
  {
    if i < 0 then "-" + NatToString(-i) else NatToString(i)
  }

  /** The value of a string of decimal digits (most significant first). */
  function DigitsValue(s: string): nat
    requires AllDigits(s)
  {
    if s == "" then 0
    else DigitsValue(s[..|s| - 1]) * 10 + ((s[|s| - 1] as int) - ('0' as int))
  }

  lemma {:induction false} DigitsValueOfNat(n: nat)
    ensures DigitsValue(NatToString(n)) == n
    decreases n
  {
    if n >= 10 {
      DigitsValueOfNat(n / 10);
      var s := NatToString(n);
      assert s[..|s| - 1] == NatToString(n / 10);
    }
  }

  /** Python's `int(s)`: an optional sign and one or more ASCII digits;
      anything else raises ValueError. */
  function ParseInt(s: string): (r: Option<int>)
    ensures r.Some? ==> s != ""
  {
    if |s| >= 2 && (s[0] == '-' || s[0] == '+') && AllDigits(s[1..]) then
      var v: int := DigitsValue(s[1..]);
      Some(if s[0] == '-' then -v else v)
    else if s != "" && AllDigits(s) then Some(DigitsValue(s))
    else None
  }

  /** `int(str(i)) == i`: the formatter and the parser agree. */
  lemma ParseIntToString(i: int)
    ensures ParseInt(IntToString(i)) == Some(i)
  {
    if i < 0 {
      DigitsValueOfNat(-i);
      assert IntToString(i)[1..] == NatToString(-i);
    } else {
      DigitsValueOfNat(i);
      assert !IsDigit('-') && !IsDigit('+');
      assert IntToString(i)[0] != '-' && IntToString(i)[0] != '+';
    }
  }

  function Pow10(k: nat): (r: nat)
    ensures r >= 1
  {
    if k == 0 then 1 else 10 * Pow10(k - 1)
  }

  /** An unsigned decimal: digits, optionally a point and more digits, with
      at least one digit in all. */
  function ParseUnsignedDecimal(s: string): (r: Option<real>)
    ensures r.Some? ==> s != "" && r.value >= 0.0
  {
    var parts := Split(s, ".");
    if |parts| == 1 && s != "" && AllDigits(s) then
      Some(DigitsValue(s) as real)
    else if |parts| == 2 && AllDigits(parts[0]) && AllDigits(parts[1])
            && (parts[0] != "" || parts[1] != "") then
      Some(DigitsValue(parts[0]) as real
           + DigitsValue(parts[1]) as real / Pow10(|parts[1]|) as real)
    else None
  }

  /** The index of the first `e` or `E` in `s`, or `|s|` when there is none. */
  function ExponentAt(s: string): (k: nat)
    ensures k <= |s|
    ensures k < |s| ==> s[k] == 'e' || s[k] == 'E'
    ensures forall i :: 0 <= i < k ==> s[i] != 'e' && s[i] != 'E'
  {
    if s == "" || s[0] == 'e' || s[0] == 'E' then 0 else 1 + ExponentAt(s[1..])
  }

  /** `m` times ten to the power `e`. */
  function Scaled(m: real, e: int): (r: real)
    ensures e >= 0 ==> r == m * Pow10(e) as real
    ensures e < 0 ==> r * Pow10(-e) as real == m
  {
    if e >= 0 then m * Pow10(e) as real else m / Pow10(-e) as real
  }

  /** An unsigned decimal, optionally followed by `e` or `E` and a signed
      integer exponent. */
  function ParseUnsignedFloat(s: string): (r: Option<real>)
    ensures r.Some? ==> s != "" && r.value >= 0.0
  {
    var k := ExponentAt(s);
    if k == |s| then ParseUnsignedDecimal(s)
    else match (ParseUnsignedDecimal(s[..k]), ParseInt(s[k + 1..]))
      case (Some(m), Some(e)) => Some(Scaled(m, e))
      case _ => None
  }

  /** Python's `float(s)` for decimal and exponent notation: an optional
      sign, then an unsigned float; anything else raises ValueError.  The
      empty text never parses, and the sign alone decides the sign of the
      value. */
  function ParseFloat(s: string): (r: Option<real>)
    ensures r.Some? ==> s != ""
    ensures r.Some? && s[0] == '-' ==> r.value <= 0.0
    ensures r.Some? && s[0] != '-' ==> r.value >= 0.0
  {
    if s != "" && (s[0] == '-' || s[0] == '+') then
      match ParseUnsignedFloat(s[1..])
      case None => None
      case Some(v) => Some(if s[0] == '-' then -v else v)
    else ParseUnsignedFloat(s)
  }

  /** Without an `e` or `E`, `float` reads a plain decimal. */
  lemma {:induction false} ExponentAbsent(s: string)
    requires forall i :: 0 <= i < |s| ==> s[i] != 'e' && s[i] != 'E'
    ensures ExponentAt(s) == |s|
    ensures ParseUnsignedFloat(s) == ParseUnsignedDecimal(s)
  {
    if s != "" { ExponentAbsent(s[1..]); }
  }

  /** `float("1.5e-3")`: a mantissa and an exponent read as one number. */
  lemma ExponentNotation(m: string, x: string, e: string)
    requires ParseUnsignedDecimal(m).Some? && ParseInt(e).Some?
    requires forall i :: 0 <= i < |m| ==> m[i] != 'e' && m[i] != 'E'
    requires x == "e" || x == "E"
    ensures ParseUnsignedFloat(m + x + e)
            == Some(Scaled(ParseUnsignedDecimal(m).value, ParseInt(e).value))
  {
    var s := m + x + e;
    ExponentAbsent(m);
    assert s == m + (x + e);
    assert ExponentAt(x + e) == 0;
    ExponentPrefix(m, x + e);
    assert s[..|m|] == m && s[|m| + 1..] == e;
  }

  lemma {:induction false} ExponentPrefix(m: string, t: string)
    requires forall i :: 0 <= i < |m| ==> m[i] != 'e' && m[i] != 'E'
    ensures ExponentAt(m + t) == |m| + ExponentAt(t)
  {
    if m != "" {
      assert (m + t)[0] == m[0];
      assert (m + t)[1..] == m[1..] + t;
      ExponentPrefix(m[1..], t);
    } else {
      assert m + t == t;
    }
  }

  /** `float(str(i)) == i`: an integer written by the scripts reads back. */
  lemma ParseFloatOfInt(i: int)
    ensures ParseFloat(IntToString(i)) == Some(i as real)
  {
    var n: nat := if i < 0 then -i else i;
    ParseFloatOfDigits(n);
    if i < 0 {
      assert IntToString(i)[1..] == NatToString(n);
    } else {
      assert !IsDigit('-') && !IsDigit('+');
    }
  }

  lemma ParseFloatOfDigits(n: nat)
    ensures ParseUnsignedFloat(NatToString(n)) == Some(n as real)
  {
    var digits := NatToString(n);
    DigitsValueOfNat(n);
    assert forall k :: 0 <= k < |digits| ==> digits[k] != "."[0];
    SplitFromAbsent(digits, ".", "");
    assert "" + digits == digits;
    assert forall k :: 0 <= k < |digits| ==> digits[k] != 'e' && digits[k] != 'E';
    ExponentAbsent(digits);
  }

  // ---------------------------------------------------------------------------
  // Code-point order of names (numpy sorts string arrays this way)

  predicate Less(a: string, b: string) {
    if a == "" then b != ""
    else if b == "" then false
    else if a[0] != b[0] then a[0] < b[0]
    else Less(a[1..], b[1..])
  }

  lemma {:induction false} LessIrreflexive(a: string)
    ensures !Less(a, a)
  {
    if a != "" { LessIrreflexive(a[1..]); }
  }

  lemma {:induction false} LessTransitive(a: string, b: string, c: string)
    requires Less(a, b) && Less(b, c)
    ensures Less(a, c)
  {
    if a != "" && b != "" && c != "" && a[0] == b[0] && b[0] == c[0] {
      LessTransitive(a[1..], b[1..], c[1..]);
    }
  }

  lemma {:induction false} LessTotal(a: string, b: string)
    requires a != b
    ensures Less(a, b) || Less(b, a)
  {
    if a != "" && b != "" && a[0] == b[0] {
      assert a == [a[0]] + a[1..] && b == [b[0]] + b[1..];
      LessTotal(a[1..], b[1..]);
    }
  }

  /** The code-point order on names is a strict total order, so
      `np.unique` on names is well defined. */
  lemma LessIsStrictTotalOrder()
    ensures Sorting.StrictTotalOrder(Less)
  {
    forall x ensures !Less(x, x) { LessIrreflexive(x); }
    forall x, y, z | Less(x, y) && Less(y, z) ensures Less(x, z) {
      LessTransitive(x, y, z);
    }
    forall x, y | x != y ensures Less(x, y) || Less(y, x) { LessTotal(x, y); }
  }

  /** `np.unique` applied to an array of names. */
  function UniqueNames(s: seq<string>): (r: seq<string>)
    ensures Sorting.StrictlySorted(r, Less)
    ensures Sorting.Elems(r) == Sorting.Elems(s)
  {
    LessIsStrictTotalOrder();
    Sorting.SortedUnique(s, Less)
  }

  // ---------------------------------------------------------------------------
  // pathlib: Path(name).stem

  /** `name.rfind(c)`: the last position holding `c`, if any. */
  function LastIndexOf(s: string, c: char): (r: Option<nat>)
    ensures r.Some? ==> r.value < |s| && s[r.value] == c &&
                        forall k :: r.value < k < |s| ==> s[k] != c
    ensures r.None? ==> forall k :: 0 <= k < |s| ==> s[k] != c
    decreases |s|
  {
    if s == [] then None
    else if s[|s| - 1] == c then Some(|s| - 1)
    else LastIndexOf(s[..|s| - 1], c)
  }

  /** `Path(name).stem`: the name without its final suffix, where a suffix
      starts at the last dot, that dot being neither the first nor the last
      character. */
  function PathStem(name: string): (r: string)
    ensures |r| <= |name| && r == name[..|r|]
  {
    match LastIndexOf(name, '.')
    case Some(i) => if 0 < i < |name| - 1 then name[..i] else name
    case None => name
  }

  /** A stem followed by a dot and an extension without dots has that stem. */
  lemma PathStemOfSuffixed(stem: string, ext: string)
    requires stem != "" && ext != ""
    requires forall k :: 0 <= k < |ext| ==> ext[k] != '.'
    ensures PathStem(stem + "." + ext) == stem
  {
    var name := stem + "." + ext;
    var i := LastIndexOf(name, '.');
    assert name[|stem|] == '.';
    assert forall k :: |stem| < k < |name| ==> name[k] == ext[k - |stem| - 1];
    assert i.Some? && i.value == |stem|;
    assert name[..|stem|] == stem;
  }

  // ---------------------------------------------------------------------------
  // Names built from fields

  predicate NoChar(s: string, c: char) {
    forall k :: 0 <= k < |s| ==> s[k] != c
  }

  /** A name without a dot is its own stem. */
  lemma PathStemNoDot(name: string)
    requires NoChar(name, '.')
    ensures PathStem(name) == name
  {
  }

  /** One more part joined at the end. */
  lemma {:induction false} JoinSnoc(parts: seq<string>, x: string, sep: string)
    requires parts != []
    ensures Join(parts + [x], sep) == Join(parts, sep) + sep + x
    decreases |parts|
  {
    if |parts| == 1 {
      assert (parts + [x])[1..] == [x];
    } else {
      assert (parts + [x])[1..] == parts[1..] + [x];
      JoinSnoc(parts[1..], x, sep);
    }
  }

  lemma JoinCons(a: string, rest: seq<string>, sep: string)
    requires rest != []
    ensures Join([a] + rest, sep) == a + sep + Join(rest, sep)
  {
    assert ([a] + rest)[1..] == rest;
  }

  /** Fields free of `c` joined by another character are free of `c`. */
  lemma {:induction false} JoinNoChar(fields: seq<string>, sep: char, c: char)
    requires c != sep && |fields| >= 1
    requires forall j :: 0 <= j < |fields| ==> NoChar(fields[j], c)
    ensures NoChar(Join(fields, [sep]), c)
    decreases |fields|
  {
    if |fields| > 1 {
      JoinNoChar(fields[1..], sep, c);
      assert Join(fields, [sep]) == fields[0] + [sep] + Join(fields[1..], [sep]);
    }
  }

  /** Splitting separator-free fields joined by the separator gives the
      fields back. */
  lemma SplitOfJoin(fields: seq<string>, sep: char)
    requires |fields| >= 1
    requires forall j :: 0 <= j < |fields| ==> NoChar(fields[j], sep)
    ensures Split(Join(fields, [sep]), [sep]) == fields
  {
    SplitFromJoin(fields, sep, "");
    assert "" + fields[0] == fields[0];
    assert [fields[0]] + fields[1..] == fields;
  }

  lemma {:induction false} SplitFromJoin(fields: seq<string>, sep: char, acc: string)
    requires |fields| >= 1
    requires forall j :: 0 <= j < |fields| ==> NoChar(fields[j], sep)
    ensures SplitFrom(Join(fields, [sep]), [sep], acc) == [acc + fields[0]] + fields[1..]
    decreases |fields|
  {
    if |fields| == 1 {
      SplitFromAbsent(fields[0], [sep], acc);
    } else {
      var rest := Join(fields[1..], [sep]);
      assert Join(fields, [sep]) == fields[0] + ([sep] + rest);
      SplitFromWord(fields[0], [sep] + rest, sep, acc);
      assert StartsWith([sep] + rest, [sep]);
      assert ([sep] + rest)[1..] == rest;
      SplitFromJoin(fields[1..], sep, "");
      assert "" + fields[1] == fields[1];
      assert [fields[1]] + fields[2..] == fields[1..];
    }
  }

  /** A separator-free word moves whole into the field being collected. */
  lemma {:induction false} SplitFromWord(w: string, tail: string, sep: char, acc: string)
    requires NoChar(w, sep)
    ensures SplitFrom(w + tail, [sep], acc) == SplitFrom(tail, [sep], acc + w)
    decreases |w|
  {
    if w != "" {
      var s := w + tail;
      assert s[0] == w[0] && s[0] != sep;
      assert !StartsWith(s, [sep]);
      assert s[1..] == w[1..] + tail;
      SplitFromWord(w[1..], tail, sep, acc + [w[0]]);
      assert acc + [w[0]] + w[1..] == acc + w;
    } else {
      assert w + tail == tail;
      assert acc + w == acc;
    }
  }

  /** The last field of `a + sep + b` split on `sep` is `b` when `b` holds
      no separator, whatever `a` holds. */
  lemma LastFieldAfter(a: string, b: string, sep: char)
    requires NoChar(b, sep)
    ensures Last(Split(a + [sep] + b, [sep])) == b
  {
    LastFieldFrom(a, b, sep, "");
  }

  lemma {:induction false} LastFieldFrom(a: string, b: string, sep: char, acc: string)
    requires NoChar(b, sep)
    ensures Last(SplitFrom(a + [sep] + b, [sep], acc)) == b
    decreases |a|
  {
    var s := a + [sep] + b;
    if a == [] {
      assert s == [sep] + b && StartsWith(s, [sep]) && s[1..] == b;
      SplitFromAbsent(b, [sep], "");
      assert "" + b == b;
    } else {
      assert s[1..] == a[1..] + [sep] + b;
      if StartsWith(s, [sep]) {
        LastFieldFrom(a[1..], b, sep, "");
      } else {
        LastFieldFrom(a[1..], b, sep, acc + [s[0]]);
      }
    }
  }

  /** A string splits in one way only at a separator after which no
      separator follows. */
  lemma LastSeparatorUnique(a: string, x: string, b: string, y: string, sep: char)
    requires NoChar(x, sep) && NoChar(y, sep) && a + [sep] + x == b + [sep] + y
    ensures a == b && x == y
  {
    var s := a + [sep] + x;
    assert s[|a|] == sep && s[|b|] == sep;
    assert forall k :: |a| < k < |s| ==> s[k] == x[k - |a| - 1];
    assert forall k :: |b| < k < |s| ==> s[k] == y[k - |b| - 1];
    assert |a| == |b|;
    assert a == s[..|a|] && b == s[..|b|];
    assert x == s[|a| + 1..] && y == s[|b| + 1..];
  }

  /** A formatted integer holds only a sign and digits. */
  lemma IntToStringChars(i: int)
    ensures forall k :: 0 <= k < |IntToString(i)| ==> IntToString(i)[k] == '-' || IsDigit(IntToString(i)[k])
  {
  }
}
