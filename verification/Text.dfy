/** First-occurrence search over strings, with the facts the router needs about overlapping matches. */
module Text {

  predicate OccursAt(s: string, t: string, i: int) {
    0 <= i <= |s| - |t| && s[i..i + |t|] == t
  }

  ghost predicate Contains(s: string, t: string) {
    exists i :: OccursAt(s, t, i)
  }

  /** The first position at or after `i` where `t` occurs, or -1. */
  function IndexFrom(s: string, t: string, i: nat): (r: int)
    requires i <= |s|
    ensures r < 0 ==> forall j :: i <= j ==> !OccursAt(s, t, j)
    ensures r >= 0 ==> i <= r && OccursAt(s, t, r) && forall j :: i <= j < r ==> !OccursAt(s, t, j)
    decreases |s| - i
  {
    if OccursAt(s, t, i) then i
    else if i == |s| then -1
    else IndexFrom(s, t, i + 1)
  }

  function IndexOf(s: string, t: string): (r: int)
    ensures r < 0 <==> !Contains(s, t)
    ensures r >= 0 ==> OccursAt(s, t, r) && forall j :: j < r ==> !OccursAt(s, t, j)
  {
    IndexFrom(s, t, 0)
  }

  predicate HasPrefix(s: string, t: string) {
    OccursAt(s, t, 0)
  }

  predicate HasSuffix(s: string, t: string) {
    OccursAt(s, t, |s| - |t|)
  }

  function TrimPrefix(s: string, t: string): string {
    if HasPrefix(s, t) then s[|t|..] else s
  }

  /** Two strings equal over a window agree at each of its positions. */
  lemma OccurrenceChars(s: string, t: string, i: int)
    requires OccursAt(s, t, i)
    ensures forall k :: 0 <= k < |t| ==> s[i + k] == t[k]
  {
    assert forall k :: 0 <= k < |t| ==> s[i..i + |t|][k] == t[k];
  }

  lemma OccurrenceChar(s: string, t: string, i: int, k: nat)
    requires OccursAt(s, t, i) && k < |t|
    ensures s[i + k] == t[k]
  {
    OccurrenceChars(s, t, i);
  }

  /** The first character of `n` reappears in it at most as its last one. */
  predicate NarrowBorder(n: string) {
    |n| > 1 && forall k :: 0 < k < |n| - 1 ==> n[k] != n[0]
  }

  /** Two occurrences share at most one character. */
  lemma NarrowOverlap(s: string, n: string, i: nat, j: nat)
    requires NarrowBorder(n) && i < j && OccursAt(s, n, i) && OccursAt(s, n, j)
    ensures i + |n| <= j + 1
  {
    if j - i < |n| {
      OccurrenceChar(s, n, i, j - i);
      OccurrenceChar(s, n, j, 0);
    }
  }

  /**
   * A separator is found where it was written exactly when the text before it,
   * extended by the separator's first character, does not contain it already.
   */
  lemma FirstSeparator(before: string, n: string, after: string)
    requires NarrowBorder(n)
    ensures IndexOf(before + n + after, n) == |before| <==> !Contains(before + n[..1], n)
  {
    var s, b := before + n + after, before + n[..1];
    assert OccursAt(s, n, |before|);
    if Contains(b, n) {
      var i :| OccursAt(b, n, i);
      assert s[..|b|] == b;
      assert s[i..i + |n|] == b[i..i + |n|];
      assert OccursAt(s, n, i);
    }
    var j := IndexOf(s, n);
    if j != |before| {
      NarrowOverlap(s, n, j, |before|);
      assert s[..|b|] == b;
      assert s[j..j + |n|] == b[j..j + |n|];
      assert OccursAt(b, n, j);
    }
  }

  lemma ShiftOccurrence(lead: string, s: string, n: string, i: nat)
    ensures OccursAt(lead + s, n, i + |lead|) <==> OccursAt(s, n, i)
  {
    if i + |n| <= |s| {
      assert (lead + s)[i + |lead|..i + |lead| + |n|] == s[i..i + |n|];
    }
  }

  /** Text that lacks the last character of `n` cannot complete an occurrence of it. */
  lemma TailAddsNothing(s: string, tail: string, n: string)
    requires n != "" && n[|n| - 1] !in tail
    ensures Contains(s + tail, n) <==> Contains(s, n)
  {
    var w := s + tail;
    if Contains(w, n) {
      var i :| OccursAt(w, n, i);
      OccurrenceChars(w, n, i);
      assert w[i + (|n| - 1)] !in tail;
      assert w[i..i + |n|] == s[i..i + |n|];
      assert OccursAt(s, n, i);
    }
    if Contains(s, n) {
      var i :| OccursAt(s, n, i);
      assert w[i..i + |n|] == s[i..i + |n|];
      assert OccursAt(w, n, i);
    }
  }

  /** The same for a separator whose first character never reappears in it. */
  lemma FirstBorderless(before: string, n: string, after: string)
    requires NarrowBorder(n) && n[|n| - 1] != n[0]
    ensures IndexOf(before + n + after, n) == |before| <==> !Contains(before, n)
  {
    FirstSeparator(before, n, after);
    TailAddsNothing(before, n[..1], n);
  }

  lemma OwnSuffix(s: string, n: string)
    ensures HasSuffix(s + n, n)
    ensures Contains(s + n, n)
  {
    assert OccursAt(s + n, n, |s|);
  }

  lemma InfixContained(a: string, n: string, b: string)
    ensures Contains(a + n + b, n)
  {
    assert OccursAt(a + n + b, n, |a|);
  }

  /** Strings with different last characters do not end alike. */
  lemma OtherSuffix(s: string, t: string, n: string)
    requires t != "" && n != "" && t[|t| - 1] != n[|n| - 1]
    ensures !HasSuffix(s + t, n)
  {
    var w := s + t;
    if HasSuffix(w, n) {
      OccurrenceChars(w, n, |w| - |n|);
    }
  }
}
