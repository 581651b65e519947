/** Splitting the planner's text into subtasks (client/convex/workflow.ts):
    `text.split(/\n\d+\.\s/).map(item => item.trim()).filter(item => item.length > 0)`.
    The split follows ECMAScript's `String.prototype.split` with a regular
    expression: scan left to right, cut at each match, keep the text between. */
module SubtaskSplit {

  import opened Results
  import opened Text

  /** The strings the regular expression `\n\d+\.\s` matches in full:
      a line feed, one or more digits, a dot, one whitespace character. */
  predicate IsSeparator(t: string) {
    && |t| >= 4
    && t[0] == '\n'
    && (forall i :: 1 <= i < |t| - 2 ==> IsDigit(t[i]))
    && t[|t| - 2] == '.'
    && IsSpace(t[|t| - 1])
  }

  /** No factor of `t` is a separator. */
  predicate NoSeparatorIn(t: string) {
    forall a, b :: 0 <= a <= b <= |t| ==> !IsSeparator(t[a..b])
  }

  /** One past the run of digits starting at `i`. */
  function DigitRunEnd(s: string, i: nat): (j: nat)
    requires i <= |s|
    ensures i <= j <= |s|
    ensures forall k :: i <= k < j ==> IsDigit(s[k])
    ensures j == |s| || !IsDigit(s[j])
    decreases |s| - i
  {
    if i < |s| && IsDigit(s[i]) then DigitRunEnd(s, i + 1) else i
  }

  /** Where a match of the separator starting at `k` ends, if there is one.
      `\d+` is greedy, and since a dot is not a digit the only match takes
      the whole digit run. */
  function SepEnd(s: string, k: nat): (r: Option<nat>)
    ensures r.Some? ==> k + 4 <= r.value <= |s|
  {
    if k < |s| && s[k] == '\n' then
      var j := DigitRunEnd(s, k + 1);
      if j > k + 1 && j + 1 < |s| && s[j] == '.' && IsSpace(s[j + 1]) then Some(j + 2) else None
    else None
  }

  /** The matcher finds only separators ... */
  lemma SepEndSound(s: string, k: nat)
    requires SepEnd(s, k).Some?
    ensures IsSeparator(s[k..SepEnd(s, k).value])
  {
  }

  /** ... and finds every separator that starts at `k`. */
  lemma SepEndComplete(s: string, k: nat, e: nat)
    requires k <= e <= |s| && IsSeparator(s[k..e])
    ensures SepEnd(s, k) == Some(e)
  {
    var t := s[k..e];
    assert s[k] == t[0];
    assert forall i :: k + 1 <= i < e - 2 ==> IsDigit(s[i]) by {
      forall i | k + 1 <= i < e - 2 ensures IsDigit(s[i]) { assert s[i] == t[i - k]; }
    }
    assert s[e - 2] == t[|t| - 2] && s[e - 1] == t[|t| - 1];
    var j := DigitRunEnd(s, k + 1);
    assert j == e - 2;
  }

  /** The pieces and the separators between them, in order. */
  datatype Cut = Cut(pieces: seq<string>, separators: seq<string>)

  /** Glues the pieces back together with the separators between them. */
  function Interleave(pieces: seq<string>, seps: seq<string>): string
    requires |pieces| == |seps| + 1
    decreases |seps|
  {
    if |seps| == 0 then pieces[0]
    else pieces[0] + seps[0] + Interleave(pieces[1..], seps[1..])
  }

  /** The split loop: the current piece is `s[..q]` and matches are tried
      from `q` on; a match from `q` to `e` closes the piece, and splitting
      carries on over the text after the match. */
  function Scan(s: string, q: nat): (r: Cut)
    requires q <= |s|
    ensures |r.pieces| == |r.separators| + 1
    decreases |s| - q
  {
    if q == |s| then Cut([s], [])
    else match SepEnd(s, q)
      case Some(e) =>
        var rest := Scan(s[e..], 0);
        Cut([s[..q]] + rest.pieces, [s[q..e]] + rest.separators)
      case None => Scan(s, q + 1)
  }

  /** The scan cuts only at separators. */
  lemma {:induction false} ScanCutsAtSeparators(s: string, q: nat)
    requires q <= |s|
    ensures var r := Scan(s, q);
      forall i :: 0 <= i < |r.separators| ==> IsSeparator(r.separators[i])
    decreases |s| - q
  {
    if q < |s| {
      match SepEnd(s, q)
      case Some(e) =>
        SepEndSound(s, q);
        var t := s[e..];
        ScanCutsAtSeparators(t, 0);
        assert forall i :: 0 <= i < |Scan(t, 0).separators| ==> IsSeparator(Scan(t, 0).separators[i]);
        var r := Scan(s, q);
        var rest := Scan(t, 0);
        assert r.separators == [s[q..e]] + rest.separators;
        forall i | 0 <= i < |r.separators| ensures IsSeparator(r.separators[i]) {
          if i > 0 { assert r.separators[i] == rest.separators[i - 1]; }
        }
      case None =>
        ScanCutsAtSeparators(s, q + 1);
        assert Scan(s, q) == Scan(s, q + 1);
    }
  }

  /** When no match starts before `q`, no piece holds a separator. */
  lemma {:induction false} ScanPiecesClean(s: string, q: nat)
    requires q <= |s|
    requires forall k :: 0 <= k < q ==> SepEnd(s, k).None?
    ensures var r := Scan(s, q);
      forall i :: 0 <= i < |r.pieces| ==> NoSeparatorIn(r.pieces[i])
    decreases |s| - q
  {
    if q == |s| {
      NoMatchNoSeparator(s, q);
      assert s[..q] == s;
    } else {
      match SepEnd(s, q)
      case Some(e) =>
        NoMatchNoSeparator(s, q);
        var t := s[e..];
        ScanPiecesClean(t, 0);
        assert forall i :: 0 <= i < |Scan(t, 0).pieces| ==> NoSeparatorIn(Scan(t, 0).pieces[i]);
        var r := Scan(s, q);
        var rest := Scan(t, 0);
        assert r.pieces == [s[..q]] + rest.pieces;
        forall i | 0 <= i < |r.pieces| ensures NoSeparatorIn(r.pieces[i]) {
          if i > 0 { assert r.pieces[i] == rest.pieces[i - 1]; }
        }
      case None =>
        ScanPiecesClean(s, q + 1);
        assert Scan(s, q) == Scan(s, q + 1);
    }
  }

  /** A text cut at `q..e`, whose remainder the cut `rest` glues back to,
      is glued back by the piece, the separator and `rest`. */
  lemma GlueAtMatch(s: string, q: nat, e: nat, rest: Cut)
    requires q <= e <= |s|
    requires |rest.pieces| == |rest.separators| + 1
    requires Interleave(rest.pieces, rest.separators) == s[e..]
    ensures Interleave([s[..q]] + rest.pieces, [s[q..e]] + rest.separators) == s
  {
    assert ([s[..q]] + rest.pieces)[1..] == rest.pieces;
    assert ([s[q..e]] + rest.separators)[1..] == rest.separators;
    assert s == s[..q] + s[q..e] + s[e..];
  }

  /** Gluing the scan's pieces and separators back together gives the text. */
  lemma {:induction false} ScanLosesNothing(s: string, q: nat)
    requires q <= |s|
    ensures var r := Scan(s, q);
      Interleave(r.pieces, r.separators) == s
    decreases |s| - q
  {
    if q < |s| {
      match SepEnd(s, q)
      case Some(e) =>
        ScanLosesNothing(s[e..], 0);
        GlueAtMatch(s, q, e, Scan(s[e..], 0));
      case None =>
        ScanLosesNothing(s, q + 1);
    }
  }

  /** A prefix where no match starts holds no separator. */
  lemma NoMatchNoSeparator(s: string, q: nat)
    requires q <= |s|
    requires forall k :: 0 <= k < q ==> SepEnd(s, k).None?
    ensures NoSeparatorIn(s[..q])
  {
    var t := s[..q];
    forall a, b | 0 <= a <= b <= |t|
      ensures !IsSeparator(t[a..b])
    {
      assert t[a..b] == s[a..b];
      if IsSeparator(s[a..b]) {
        SepEndComplete(s, a, b);
      }
    }
  }

  /** `text.split(/\n\d+\.\s/)`, with the separators it cut at: it cuts
      exactly at separators, leaves none inside a piece, and loses nothing,
      since the pieces and separators glue back to the text. */
  function Split(s: string): (r: Cut)
    ensures |r.pieces| == |r.separators| + 1
    ensures forall i :: 0 <= i < |r.separators| ==> IsSeparator(r.separators[i])
    ensures forall i :: 0 <= i < |r.pieces| ==> NoSeparatorIn(r.pieces[i])
    ensures Interleave(r.pieces, r.separators) == s
  {
    ScanCutsAtSeparators(s, 0);
    ScanPiecesClean(s, 0);
    ScanLosesNothing(s, 0);
    Scan(s, 0)
  }

  /** The scan passes over positions where no match starts. */
  lemma {:induction false} ScanSkips(s: string, q: nat, q': nat)
    requires q <= q' <= |s|
    requires forall k :: q <= k < q' ==> SepEnd(s, k).None?
    ensures Scan(s, q) == Scan(s, q')
    decreases q' - q
  {
    if q < q' {
      ScanSkips(s, q + 1, q');
    }
  }

  /** Where no factor of `s` is a separator, no match starts. */
  lemma NoSeparatorNoMatch(s: string, k: nat)
    requires NoSeparatorIn(s)
    ensures SepEnd(s, k).None?
  {
    if SepEnd(s, k).Some? {
      SepEndSound(s, k);
    }
  }

  /** Text without a separator is not cut. */
  lemma SplitNoSeparator(s: string)
    requires NoSeparatorIn(s)
    ensures Split(s).pieces == [s]
  {
    forall k | 0 <= k < |s| ensures SepEnd(s, k).None? {
      NoSeparatorNoMatch(s, k);
    }
    ScanSkips(s, 0, |s|);
  }

  /** Cutting at the first separator: everything before it is the first
      piece, and the rest is split on its own. A match can end on the line
      feed that opens the next separator, which is why `a + "\n"` must be
      free of separators. */
  lemma SplitAtFirstSeparator(a: string, sep: string, b: string)
    requires NoSeparatorIn(a + "\n")
    requires IsSeparator(sep)
    ensures Split(a + sep + b).pieces == [a] + Split(b).pieces
  {
    var s := a + sep + b;
    var e := |a| + |sep|;
    forall k | 0 <= k < |a|
      ensures SepEnd(s, k).None?
    {
      NoEarlyMatch(a, sep, b, k);
    }
    ScanSkips(s, 0, |a|);
    assert s[|a|..e] == sep;
    SepEndComplete(s, |a|, e);
    assert s[..|a|] == a;
    assert s[e..] == b;
  }

  /** A match starting inside `a` ends by the line feed that opens `sep`. */
  lemma NoEarlyMatch(a: string, sep: string, b: string, k: nat)
    requires NoSeparatorIn(a + "\n")
    requires IsSeparator(sep)
    requires k < |a|
    ensures SepEnd(a + sep + b, k).None?
  {
    var s := a + sep + b;
    var j := DigitRunEnd(s, k + 1);
    assert s[|a|] == '\n';
    assert j <= |a|;
    if SepEnd(s, k).Some? {
      assert s[k..j + 2] == (a + "\n")[k..j + 2];
      SepEndSound(s, k);
    }
  }

  /** Trims every piece. */
  function TrimAll(xs: seq<string>): (r: seq<string>)
    ensures |r| == |xs|
    ensures forall i :: 0 <= i < |r| ==> Trimmed(r[i])
    decreases |xs|
  {
    if |xs| == 0 then [] else [Trim(xs[0])] + TrimAll(xs[1..])
  }

  /** `filter(item => item.length > 0)`: the non-empty items, in order. */
  function NonEmpty(xs: seq<string>): (r: seq<string>)
    ensures |r| <= |xs|
    ensures forall x :: x in r <==> x in xs && |x| > 0
    decreases |xs|
  {
    if |xs| == 0 then []
    else if |xs[0]| > 0 then [xs[0]] + NonEmpty(xs[1..])
    else NonEmpty(xs[1..])
  }

  /** Filtering works piece by piece, so it keeps the order. */
  lemma {:induction false} NonEmptyConcat(xs: seq<string>, ys: seq<string>)
    ensures NonEmpty(xs + ys) == NonEmpty(xs) + NonEmpty(ys)
    decreases |xs|
  {
    if |xs| == 0 {
      assert xs + ys == ys;
    } else {
      assert (xs + ys)[1..] == xs[1..] + ys;
      NonEmptyConcat(xs[1..], ys);
    }
  }

  /** `map(item => item.trim()).filter(item => item.length > 0)`. */
  function Clean(pieces: seq<string>): (r: seq<string>)
    ensures forall i :: 0 <= i < |r| ==> |r[i]| > 0 && Trimmed(r[i])
    ensures |r| <= |pieces|
  {
    var r := NonEmpty(TrimAll(pieces));
    forall i | 0 <= i < |r| ensures |r[i]| > 0 && Trimmed(r[i]) {
      assert r[i] in r;
    }
    r
  }

  /** Cleaning works piece by piece. */
  lemma CleanConcat(x: string, ps: seq<string>)
    ensures Clean([x] + ps) == NonEmpty([Trim(x)]) + Clean(ps)
  {
    assert ([x] + ps)[1..] == ps;
    assert TrimAll([x]) == [Trim(x)];
    NonEmptyConcat([Trim(x)], TrimAll(ps));
  }

  /** The subtasks in a piece of planner text: each trimmed and non-empty,
      at most one more than the separators cut at. */
  function Subtasks(s: string): (r: seq<string>)
    ensures forall i :: 0 <= i < |r| ==> |r[i]| > 0 && Trimmed(r[i])
    ensures |r| <= |Split(s).separators| + 1
  {
    Clean(Split(s).pieces)
  }

  /** Text with no separator gives its trimmed self, or nothing when blank. */
  lemma SubtasksNoSeparator(s: string)
    requires NoSeparatorIn(s)
    ensures AllSpace(s) ==> Subtasks(s) == []
    ensures !AllSpace(s) ==> Subtasks(s) == [Trim(s)]
  {
    SplitNoSeparator(s);
    TrimBlank(s);
    assert TrimAll([s]) == [Trim(s)];
  }

  /** Subtasks before the first separator come first, then those after it. */
  lemma SubtasksAtFirstSeparator(a: string, sep: string, b: string)
    requires NoSeparatorIn(a + "\n")
    requires IsSeparator(sep)
    ensures Subtasks(a + sep + b) == NonEmpty([Trim(a)]) + Subtasks(b)
  {
    SplitAtFirstSeparator(a, sep, b);
    CleanConcat(a, Split(b).pieces);
  }

  /** A numbered list whose first item sits at the very start keeps its
      `1. `: only numbers after a line feed are cut. */
  lemma LeadingNumberKept()
    ensures Subtasks("1. a\n2. b") == ["1. a", "b"]
  {
    var a, sep, b := "1. a", "\n2. ", "b";
    assert a + sep + b == "1. a\n2. b";
    ExampleHasNoSeparator();
    SubtasksAtFirstSeparator(a, sep, b);
    SubtasksNoSeparator(b);
    ExampleTrimmed();
  }

  lemma ExampleHasNoSeparator()
    ensures NoSeparatorIn("1. a\n") && NoSeparatorIn("b") && IsSeparator("\n2. ")
  {
    var t := "1. a\n";
    forall x, y | 0 <= x <= y <= |t| ensures !IsSeparator(t[x..y]) {
      if y - x >= 4 { assert t[x] != '\n'; }
    }
  }

  lemma ExampleTrimmed()
    ensures NonEmpty([Trim("1. a")]) == ["1. a"] && !AllSpace("b") && Trim("b") == "b"
  {
    TrimFixpoint("1. a");
    TrimFixpoint("b");
    assert !IsSpace("b"[0]);
  }
}
