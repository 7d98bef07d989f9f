/**
  The two pieces of Python string semantics the function app relies on:
  the negative-index slice `s[:-k]` and `str.replace`, which replaces every
  non-overlapping occurrence, scanning from the left.
 */
module PyStr {

  /** `s` ends with `suffix`. */
  predicate EndsWith(s: string, suffix: string)
  {
    |suffix| <= |s| && s[|s| - |suffix|..] == suffix
  }

  /** Python's `s[:-k]` for a positive `k`: all but the last `k` characters,
      and the empty string when `s` has no more than `k` of them. */
  function DropLast(s: string, k: nat): (r: string)
    requires k > 0
    ensures |r| == if |s| > k then |s| - k else 0
    ensures r == s[..|r|]
  {
    if |s| > k then s[..|s| - k] else ""
  }

  /** Dropping the last `k` characters gives a non-empty `p` exactly when
      `s` is `p` followed by `k` more characters. */
  lemma DropLastIsPrefix(s: string, k: nat, p: string)
    requires k > 0 && p != ""
    ensures DropLast(s, k) == p <==> |s| == |p| + k && s[..|p|] == p
  {
  }

  /** Dropping `|t|` characters undoes appending `t`. */
  lemma DropLastOfAppend(p: string, t: string)
    requires t != []
    ensures DropLast(p + t, |t|) == p
  {
  }

  /** `pat` occurs in `s` starting at index `i`. */
  ghost predicate OccursAt(s: string, i: nat, pat: string)
  {
    i + |pat| <= |s| && s[i..i + |pat|] == pat
  }

  /** `pat` occurs nowhere in `s`. */
  ghost predicate NoOccurrence(s: string, pat: string)
  {
    forall i: nat :: !OccursAt(s, i, pat)
  }

  /** Python's `pat in s`. */
  predicate Contains(s: string, pat: string)
    decreases |s|
  {
    |pat| <= |s| && (s[..|pat|] == pat || Contains(s[1..], pat))
  }

  /** `pat` occurring at no index makes `pat in s` false. */
  lemma {:induction false} NoOccurrenceNotContains(s: string, pat: string)
    requires NoOccurrence(s, pat)
    ensures !Contains(s, pat)
    decreases |s|
  {
    if |pat| <= |s| {
      assert !OccursAt(s, 0, pat);
      NoOccurrenceInTail(s, pat);
      NoOccurrenceNotContains(s[1..], pat);
    }
  }

  /** `pat in s` holds only when `pat` occurs at some index: with
      NoOccurrenceNotContains, `Contains` and `NoOccurrence` are each other's
      negation. */
  lemma {:induction false} ContainsOccurs(s: string, pat: string)
    requires Contains(s, pat)
    ensures exists i: nat :: OccursAt(s, i, pat)
    decreases |s|
  {
    if s[..|pat|] == pat {
      assert OccursAt(s, 0, pat);
    } else {
      ContainsOccurs(s[1..], pat);
      var i: nat :| OccursAt(s[1..], i, pat);
      OccursInTail(s, i, pat);
      assert OccursAt(s, i + 1, pat);
    }
  }

  /** Python's `s.replace(pat, rep)` for a non-empty `pat`; a string that
      does not contain `pat` is left unchanged. */
  function Replace(s: string, pat: string, rep: string): (r: string)
    requires pat != ""
    ensures !Contains(s, pat) ==> r == s
    decreases |s|
  {
    if |s| < |pat| then s
    else if s[..|pat|] == pat then rep + Replace(s[|pat|..], pat, rep)
    else
      assert [s[0]] + s[1..] == s;
      [s[0]] + Replace(s[1..], pat, rep)
  }

  /** An occurrence in `s[1..]` is an occurrence in `s`, one place further on. */
  lemma OccursInTail(s: string, i: nat, pat: string)
    requires |s| > 0
    ensures OccursAt(s[1..], i, pat) <==> OccursAt(s, i + 1, pat)
  {
  }

  /** A string without `pat` has a tail without `pat`. */
  lemma NoOccurrenceInTail(s: string, pat: string)
    requires |s| > 0
    ensures NoOccurrence(s, pat) ==> NoOccurrence(s[1..], pat)
  {
    forall i: nat ensures OccursAt(s[1..], i, pat) ==> OccursAt(s, i + 1, pat) {
      OccursInTail(s, i, pat);
    }
  }

  /** The first occurrence of `pat` is replaced, what comes before it is kept
      and the scan goes on after it: together with the contract of Replace
      this says that every occurrence, left to right, is replaced. */
  lemma {:induction false} ReplaceFirstOccurrence(a: string, pat: string, b: string, rep: string)
    requires pat != ""
    requires forall i: nat :: i < |a| ==> !OccursAt(a + pat + b, i, pat)
    ensures Replace(a + pat + b, pat, rep) == a + rep + Replace(b, pat, rep)
    decreases |a|
  {
    var s := a + pat + b;
    if a == [] {
      assert s[..|pat|] == pat && s[|pat|..] == b;
      ReplaceAtOccurrence(s, pat, rep);
    } else {
      assert !OccursAt(s, 0, pat);
      FirstOccurrenceInTail(a, pat, b);
      ReplaceFirstOccurrence(a[1..], pat, b, rep);
      ReplaceSkipsChar(s, pat, rep);
      var t := Replace(b, pat, rep);
      calc {
        Replace(s, pat, rep);
        [s[0]] + Replace(a[1..] + pat + b, pat, rep);
        [a[0]] + (a[1..] + rep + t);
        a + rep + t;
      }
    }
  }

  /** Dropping the first character of `a` keeps `pat` from starting before
      the end of what is left of `a`. */
  lemma FirstOccurrenceInTail(a: string, pat: string, b: string)
    requires a != []
    requires forall i: nat :: i < |a| ==> !OccursAt(a + pat + b, i, pat)
    ensures (a + pat + b)[1..] == a[1..] + pat + b
    ensures forall i: nat :: i < |a[1..]| ==> !OccursAt(a[1..] + pat + b, i, pat)
  {
    var s := a + pat + b;
    assert s[1..] == a[1..] + pat + b;
    forall i: nat | i < |a[1..]| ensures !OccursAt(a[1..] + pat + b, i, pat) {
      OccursInTail(s, i, pat);
    }
  }

  /** Where `pat` starts, Replace puts `rep` in its place and goes on after it. */
  lemma ReplaceAtOccurrence(s: string, pat: string, rep: string)
    requires pat != "" && |s| >= |pat| && s[..|pat|] == pat
    ensures Replace(s, pat, rep) == rep + Replace(s[|pat|..], pat, rep)
  {
  }

  /** Where `pat` does not start, Replace keeps the first character and goes on. */
  lemma ReplaceSkipsChar(s: string, pat: string, rep: string)
    requires pat != "" && |s| >= |pat| && !OccursAt(s, 0, pat)
    ensures Replace(s, pat, rep) == [s[0]] + Replace(s[1..], pat, rep)
  {
    assert s[..|pat|] != pat;
  }

  /** When `pat` occurs exactly once, at the end of `a`, the result is `a`,
      then `rep`, then `b`. */
  lemma ReplaceSingleOccurrence(a: string, pat: string, b: string, rep: string)
    requires pat != ""
    requires forall i: nat :: i != |a| ==> !OccursAt(a + pat + b, i, pat)
    ensures Replace(a + pat + b, pat, rep) == a + rep + b
  {
    NoOccurrenceAfter(a, pat, b);
    NoOccurrenceNotContains(b, pat);
    ReplaceFirstOccurrence(a, pat, b, rep);
  }

  /** An occurrence in `b` is an occurrence in `a + pat + b`, further on. */
  lemma NoOccurrenceAfter(a: string, pat: string, b: string)
    requires pat != ""
    requires forall i: nat :: i != |a| ==> !OccursAt(a + pat + b, i, pat)
    ensures NoOccurrence(b, pat)
  {
    var s := a + pat + b;
    forall j: nat ensures !OccursAt(b, j, pat) {
      var k := |a| + |pat| + j;
      assert !OccursAt(s, k, pat);
      if j + |pat| <= |b| {
        assert s[k..k + |pat|] == b[j..j + |pat|];
      }
    }
  }
}
