/** The file name the page offers for the report download
    (client/src/app/page.tsx): `research-<slug>.md`. */
module DownloadName {

  import opened Text

  /** `s.replace(/\s+/g, '-')`: every maximal run of whitespace becomes one `-`. */
  function CollapseSpaces(s: string): (r: string)
    ensures NoSpace(r)
    ensures |r| <= |s|
    decreases |s|
  {
    if |s| == 0 then ""
    else if IsSpace(s[0]) then
      var k := FirstNonSpace(s);
      "-" + CollapseSpaces(s[k..])
    else [s[0]] + CollapseSpaces(s[1..])
  }

  /** A string without whitespace is left as it is. */
  lemma {:induction false} CollapseNoSpace(s: string)
    requires NoSpace(s)
    ensures CollapseSpaces(s) == s
    decreases |s|
  {
    if |s| > 0 {
      CollapseNoSpace(s[1..]);
    }
  }

  /** A non-empty whitespace run becomes a single `-`. */
  lemma CollapseRun(w: string)
    requires |w| > 0 && AllSpace(w)
    ensures CollapseSpaces(w) == "-"
  {
    assert FirstNonSpace(w) == |w|;
  }

  /** Where the first run of `a + b` ends, when `a` starts with whitespace
      and the boundary does not split a run. */
  lemma LeadingRunOfConcat(a: string, b: string)
    requires |a| > 0 && IsSpace(a[0])
    requires |b| == 0 || !IsSpace(a[|a| - 1]) || !IsSpace(b[0])
    ensures var k := FirstNonSpace(a + b);
      && (k < |a| ==> FirstNonSpace(a) == k)
      && (k >= |a| ==> AllSpace(a) && k == |a|)
  {
    var k := FirstNonSpace(a);
    if k < |a| {
      assert FirstNonSpace(a + b) == k by {
        PrefixSpaces(a, b, k);
        assert (a + b)[k] == a[k];
        FirstNonSpaceIs(a + b, 0, k);
      }
    } else {
      assert FirstNonSpace(a + b) == |a| by {
        PrefixSpaces(a, b, |a|);
        if |b| > 0 {
          assert (a + b)[|a|] == b[0];
        }
        FirstNonSpaceIs(a + b, 0, |a|);
      }
    }
  }

  /** Whitespace at the front of `a` is whitespace at the front of `a + b`. */
  lemma PrefixSpaces(a: string, b: string, k: nat)
    requires k <= |a| && SpacesIn(a, 0, k)
    ensures SpacesIn(a + b, 0, k)
  {
    forall i | 0 <= i < k ensures IsSpace((a + b)[i]) {
      assert (a + b)[i] == a[i];
    }
  }

  /** One step of `CollapseConcat` past a non-space character. */
  lemma ConcatPastChar(a: string, b: string)
    requires |a| > 0 && !IsSpace(a[0])
    requires CollapseSpaces(a[1..] + b) == CollapseSpaces(a[1..]) + CollapseSpaces(b)
    ensures CollapseSpaces(a + b) == CollapseSpaces(a) + CollapseSpaces(b)
  {
    assert (a + b)[0] == a[0];
    assert (a + b)[1..] == a[1..] + b;
  }

  /** One step of `CollapseConcat` past a leading run that ends inside `a`. */
  lemma ConcatPastRun(a: string, b: string, k: nat)
    requires |a| > 0 && IsSpace(a[0])
    requires k < |a| && FirstNonSpace(a) == k && FirstNonSpace(a + b) == k
    requires CollapseSpaces(a[k..] + b) == CollapseSpaces(a[k..]) + CollapseSpaces(b)
    ensures CollapseSpaces(a + b) == CollapseSpaces(a) + CollapseSpaces(b)
  {
    var ab := a + b;
    assert ab[0] == a[0];
    assert ab[k..] == a[k..] + b;
    assert CollapseSpaces(a) == "-" + CollapseSpaces(a[k..]);
    assert CollapseSpaces(ab) == "-" + CollapseSpaces(ab[k..]);
  }

  /** The last step of `CollapseConcat`: `a` is one whole run. */
  lemma ConcatPastAll(a: string, b: string)
    requires |a| > 0 && AllSpace(a) && FirstNonSpace(a + b) == |a|
    ensures CollapseSpaces(a + b) == CollapseSpaces(a) + CollapseSpaces(b)
  {
    assert (a + b)[0] == a[0];
    assert (a + b)[|a|..] == b;
    CollapseRun(a);
  }

  /** Replacement works run by run: cutting where no run is split commutes
      with it. */
  lemma {:induction false} CollapseConcat(a: string, b: string)
    requires |a| == 0 || |b| == 0 || !IsSpace(a[|a| - 1]) || !IsSpace(b[0])
    ensures CollapseSpaces(a + b) == CollapseSpaces(a) + CollapseSpaces(b)
    decreases |a|
  {
    if |a| == 0 {
      assert a + b == b;
    } else if !IsSpace(a[0]) {
      CollapseConcat(a[1..], b);
      ConcatPastChar(a, b);
    } else {
      LeadingRunOfConcat(a, b);
      var k := FirstNonSpace(a + b);
      if k < |a| {
        CollapseConcat(a[k..], b);
        ConcatPastRun(a, b, k);
      } else {
        ConcatPastAll(a, b);
      }
    }
  }

  /** `topic.slice(0, 30).toLowerCase().replace(/\s+/g, '-')`. */
  function Slug(topic: string): (r: string)
    ensures |r| <= 30
    ensures NoSpace(r)
    ensures forall i :: 0 <= i < |r| ==> !IsUpper(r[i])
  {
    var head := if |topic| <= 30 then topic else topic[..30];
    var lower := Lower(head);
    var r := CollapseSpaces(lower);
    assert forall i :: 0 <= i < |r| ==> !IsUpper(r[i]) by {
      CollapseKeepsLower(lower);
    }
    r
  }

  /** Collapsing introduces no letters: it only ever adds `-`. */
  lemma {:induction false} CollapseKeepsLower(s: string)
    requires forall i :: 0 <= i < |s| ==> !IsUpper(s[i])
    ensures forall i :: 0 <= i < |CollapseSpaces(s)| ==> !IsUpper(CollapseSpaces(s)[i])
    decreases |s|
  {
    if |s| > 0 {
      if IsSpace(s[0]) {
        CollapseKeepsLower(s[FirstNonSpace(s)..]);
      } else {
        CollapseKeepsLower(s[1..]);
      }
    }
  }

  const Prefix := "research-"
  const Suffix := ".md"

  /** Where the parts of a download name sit, for any slug. */
  lemma NameShape(slug: string)
    requires NoSpace(slug)
    ensures var r := Prefix + slug + Suffix;
      && |r| == |Prefix| + |slug| + |Suffix|
      && r[..|Prefix|] == Prefix && r[|r| - |Suffix|..] == Suffix
      && r[|Prefix|..|r| - |Suffix|] == slug
      && NoSpace(r)
  {
    var r := Prefix + slug + Suffix;
    assert r[..|Prefix|] == Prefix;
    assert r[|Prefix|..|r| - |Suffix|] == slug;
    assert r[|r| - |Suffix|..] == Suffix;
    assert NoSpace(Prefix) && NoSpace(Suffix);
    NoSpaceConcat(Prefix, slug);
    NoSpaceConcat(Prefix + slug, Suffix);
  }

  /** The download name: fixed prefix and suffix around the slug, and no
      whitespace anywhere. */
  function FileName(topic: string): (r: string)
    ensures |Prefix| + |Suffix| <= |r| <= |Prefix| + 30 + |Suffix|
    ensures r[..|Prefix|] == Prefix && r[|r| - |Suffix|..] == Suffix
    ensures r[|Prefix|..|r| - |Suffix|] == Slug(topic)
    ensures NoSpace(r)
  {
    var slug := Slug(topic);
    NameShape(slug);
    Prefix + slug + Suffix
  }

  /** A short topic with no whitespace and no capitals is used verbatim. */
  lemma SlugOfPlainTopic(topic: string)
    requires |topic| <= 30 && NoSpace(topic)
    requires forall i :: 0 <= i < |topic| ==> !IsUpper(topic[i])
    ensures Slug(topic) == topic
  {
    assert Lower(topic) == topic;
    CollapseNoSpace(topic);
  }

  /** A short topic without white space becomes its own lower-case form:
      each capital turns into the matching small letter, nothing else changes. */
  lemma SlugLowersWord(topic: string)
    requires |topic| <= 30 && NoSpace(topic)
    ensures Slug(topic) == Lower(topic)
  {
    CollapseNoSpace(Lower(topic));
  }

  /** Inside the first 30 characters, a white-space run between two words
      becomes a single `-`, and both words are lower-cased. */
  lemma SlugJoinsWords(a: string, w: string, b: string)
    requires |a| + |w| + |b| <= 30
    requires NoSpace(a) && NoSpace(b)
    requires |w| > 0 && AllSpace(w)
    ensures Slug(a + w + b) == Lower(a) + "-" + Lower(b)
  {
    LowerSplitsWords(a, w, b);
    CollapseJoin(Lower(a), Lower(w), Lower(b));
  }

  /** Lower-casing keeps the split into words and white-space runs. */
  lemma LowerSplitsWords(a: string, w: string, b: string)
    requires NoSpace(a) && NoSpace(b) && AllSpace(w)
    ensures Lower(a + w + b) == Lower(a) + Lower(w) + Lower(b)
    ensures NoSpace(Lower(a)) && NoSpace(Lower(b))
    ensures |Lower(w)| == |w| && AllSpace(Lower(w))
  {
    LowerConcat(a + w, b);
    LowerConcat(a, w);
  }

  /** A white-space run between two words without white space collapses to
      one `-`. */
  lemma CollapseJoin(a: string, w: string, b: string)
    requires NoSpace(a) && NoSpace(b)
    requires |w| > 0 && AllSpace(w)
    ensures CollapseSpaces(a + w + b) == a + "-" + b
  {
    var tail := w + b;
    assert CollapseSpaces(tail) == "-" + b by {
      assert |b| == 0 || !IsSpace(b[0]);
      CollapseConcat(w, b);
      CollapseRun(w);
      CollapseNoSpace(b);
    }
    assert a + w + b == a + tail;
    assert CollapseSpaces(a + tail) == a + CollapseSpaces(tail) by {
      assert |a| == 0 || !IsSpace(a[|a| - 1]);
      CollapseConcat(a, tail);
      CollapseNoSpace(a);
    }
  }


  /** Only the first 30 characters matter. */
  lemma SlugIgnoresTail(topic: string, tail: string)
    requires |topic| >= 30
    ensures Slug(topic + tail) == Slug(topic)
  {
    var head := if |topic| <= 30 then topic else topic[..30];
    assert head == topic[..30];
    var head' := if |topic + tail| <= 30 then topic + tail else (topic + tail)[..30];
    assert head' == (topic + tail)[..30] == topic[..30];
  }
}
