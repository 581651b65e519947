/** JavaScript string primitives the core relies on: the `\s` character
    class, `String.prototype.trim`, and lower-casing (ASCII letters only). */
module Text {

  /** ECMAScript WhiteSpace or LineTerminator: exactly the characters the
      regular-expression class `\s` matches and `trim` removes. */
  predicate IsSpace(c: char) {
    || c == '\t' || c == '\n' || c == '\U{000B}' || c == '\U{000C}' || c == '\r'
    || c == ' ' || c == '\U{00A0}' || c == '\U{1680}'
    || ('\U{2000}' <= c <= '\U{200A}')
    || c == '\U{2028}' || c == '\U{2029}' || c == '\U{202F}' || c == '\U{205F}'
    || c == '\U{3000}' || c == '\U{FEFF}'
  }

  /** The regular-expression class `\d`. */
  predicate IsDigit(c: char) {
    '0' <= c <= '9'
  }

  /** Every character of `s[lo..hi]` is whitespace. */
  predicate SpacesIn(s: string, lo: nat, hi: nat) {
    forall i :: lo <= i < hi && i < |s| ==> IsSpace(s[i])
  }

  predicate AllSpace(s: string) {
    SpacesIn(s, 0, |s|)
  }

  predicate NoSpace(s: string) {
    forall i :: 0 <= i < |s| ==> !IsSpace(s[i])
  }

  /** Neither end of `s` is whitespace. */
  predicate Trimmed(s: string) {
    |s| == 0 || (!IsSpace(s[0]) && !IsSpace(s[|s| - 1]))
  }

  /** Index of the first non-whitespace character of `s`, or `|s|`. */
  function FirstNonSpace(s: string, from: nat := 0): (k: nat)
    requires from <= |s|
    requires SpacesIn(s, 0, from)
    ensures from <= k <= |s|
    ensures SpacesIn(s, 0, k)
    ensures k == |s| || !IsSpace(s[k])
    decreases |s| - from
  {
    if from < |s| && IsSpace(s[from]) then FirstNonSpace(s, from + 1) else from
  }

  /** The first non-whitespace position is the only one with whitespace
      before it and none at it. */
  lemma {:induction false} FirstNonSpaceIs(s: string, from: nat, k: nat)
    requires from <= k <= |s|
    requires SpacesIn(s, 0, k)
    requires k == |s| || !IsSpace(s[k])
    ensures FirstNonSpace(s, from) == k
    decreases k - from
  {
    if from < k {
      FirstNonSpaceIs(s, from + 1, k);
    }
  }

  /** Concatenation keeps strings free of whitespace. */
  lemma NoSpaceConcat(x: string, y: string)
    requires NoSpace(x) && NoSpace(y)
    ensures NoSpace(x + y)
  {
    forall i | 0 <= i < |x + y| ensures !IsSpace((x + y)[i]) {
      if i >= |x| { assert (x + y)[i] == y[i - |x|]; }
    }
  }

  /** One past the last non-whitespace character of `s`, or 0. */
  function EndNonSpace(s: string, to: nat): (k: nat)
    requires to <= |s|
    requires SpacesIn(s, to, |s|)
    ensures k <= to
    ensures SpacesIn(s, k, |s|)
    ensures k == 0 || !IsSpace(s[k - 1])
  {
    if to > 0 && IsSpace(s[to - 1]) then EndNonSpace(s, to - 1) else to
  }

  /** `s.trim()`: `s` with leading and trailing whitespace cut off. */
  function Trim(s: string): (r: string)
    ensures Trimmed(r)
    ensures |r| == 0 ==> AllSpace(s)
    ensures |r| > 0 ==>
      var lo := FirstNonSpace(s);
      && lo + |r| <= |s|
      && r == s[lo..lo + |r|]
      && SpacesIn(s, lo + |r|, |s|)
  {
    var lo := FirstNonSpace(s);
    if lo == |s| then "" else
      var hi := EndNonSpace(s, |s|);
      s[lo..hi]
  }

  /** The cut Trim makes is the only one that leaves whitespace on both sides
      and non-whitespace at both ends of the middle. */
  lemma TrimUnique(s: string, lo: nat, hi: nat)
    requires lo <= hi <= |s|
    requires SpacesIn(s, 0, lo) && SpacesIn(s, hi, |s|)
    requires lo == hi || (!IsSpace(s[lo]) && !IsSpace(s[hi - 1]))
    ensures Trim(s) == s[lo..hi]
  {
    var k := FirstNonSpace(s);
    if lo == hi {
      assert AllSpace(s);
      assert k == |s|;
    } else {
      assert k == lo;
      assert EndNonSpace(s, |s|) == hi;
    }
  }

  /** Trimming changes a string exactly when one of its ends is whitespace. */
  lemma TrimFixpoint(s: string)
    ensures Trim(s) == s <==> Trimmed(s)
  {
    if Trimmed(s) {
      TrimUnique(s, 0, |s|);
    }
  }

  lemma TrimIdempotent(s: string)
    ensures Trim(Trim(s)) == Trim(s)
  {
    TrimFixpoint(Trim(s));
  }

  /** `trim()` yields the empty string exactly for blank input. */
  lemma TrimBlank(s: string)
    ensures |Trim(s)| == 0 <==> AllSpace(s)
  {
    if AllSpace(s) {
      TrimUnique(s, 0, 0);
    }
  }

  /** ASCII lower-casing of one character. */
  function LowerChar(c: char): char {
    if 'A' <= c <= 'Z' then (c as int + 32) as char else c
  }

  predicate IsUpper(c: char) {
    'A' <= c <= 'Z'
  }

  /** `s.toLowerCase()` restricted to ASCII letters: position-preserving,
      so the length never changes. */
  function Lower(s: string): (r: string)
    ensures |r| == |s|
    ensures forall i :: 0 <= i < |s| ==> !IsUpper(r[i])
    ensures forall i :: 0 <= i < |s| ==> (IsSpace(r[i]) <==> IsSpace(s[i]))
    ensures forall i :: 0 <= i < |s| && !IsUpper(s[i]) ==> r[i] == s[i]
    ensures forall i :: 0 <= i < |s| && IsUpper(s[i]) ==> r[i] as int == s[i] as int + 32
  {
    seq(|s|, i requires 0 <= i < |s| => LowerChar(s[i]))
  }

  /** Lower-casing works character by character, so it distributes over
      concatenation. */
  lemma LowerConcat(x: string, y: string)
    ensures Lower(x + y) == Lower(x) + Lower(y)
  {
    forall i | 0 <= i < |x + y| ensures Lower(x + y)[i] == (Lower(x) + Lower(y))[i] {
      if i < |x| {
        assert (x + y)[i] == x[i];
      } else {
        assert (x + y)[i] == y[i - |x|];
      }
    }
  }
}
