/**
 * Literal, global text substitution as done by JavaScript's
 * `String.prototype.replaceAll` with a string pattern: the text is scanned
 * left to right, each occurrence of the pattern is replaced, and scanning
 * resumes after the replaced occurrence (matches never overlap).
 */
module Substitution {

  /** `pat` occurs in `s` at position `k`. */
  predicate OccursAt(s: string, pat: string, k: int)
  {
    0 <= k && k + |pat| <= |s| && s[k..k + |pat|] == pat
  }

  /** `pat` occurs somewhere in `s`. */
  predicate Occurs(s: string, pat: string)
  {
    exists k | 0 <= k <= |s| - |pat| :: OccursAt(s, pat, k)
  }

  /** No occurrence of `pat` in `a + b` crosses the seam between `a` and `b`. */
  predicate NoStraddle(a: string, b: string, pat: string)
  {
    forall k | 0 <= k < |a| < k + |pat| :: !OccursAt(a + b, pat, k)
  }

  /**
   * A cheap sufficient condition for `NoStraddle`, looking only at the
   * characters next to the seam: one of them is foreign to the pattern, or
   * the seam sits between two characters that cannot both belong to an
   * occurrence crossing it.
   */
  predicate Seam(a: string, b: string, pat: string)
  {
    || (|a| > 0 && a[|a| - 1] !in pat)
    || (|b| > 0 && b[0] !in pat)
    || (|a| > 1 && |pat| > 0 && a[|a| - 2] !in pat && a[|a| - 1] != pat[0])
    || (|b| > 1 && |pat| > 0 && b[1] !in pat && b[0] != pat[|pat| - 1])
  }

  /** Replace every occurrence of `pat` in `text` by `rep`, scanning left to right. */
  function ReplaceAll(text: string, pat: string, rep: string): string
    requires pat != []
    decreases |text|
  {
    if |text| < |pat| then text
    else if text[..|pat|] == pat then rep + ReplaceAll(text[|pat|..], pat, rep)
    else [text[0]] + ReplaceAll(text[1..], pat, rep)
  }

  /** Text in which the pattern does not occur is left as it is. */
  lemma {:induction false} ReplaceAllAbsent(text: string, pat: string, rep: string)
    requires pat != []
    requires !Occurs(text, pat)
    ensures ReplaceAll(text, pat, rep) == text
    decreases |text|
  {
    if |text| >= |pat| {
      assert !OccursAt(text, pat, 0);
      assert text[..|pat|] != pat;
      forall k | OccursAt(text[1..], pat, k)
        ensures false
      {
        assert text[1..][k..k + |pat|] == text[k + 1..k + 1 + |pat|];
        assert OccursAt(text, pat, k + 1);
      }
      ReplaceAllAbsent(text[1..], pat, rep);
      assert text == [text[0]] + text[1..];
    }
  }

  /** A character of the pattern that the text lacks rules out every occurrence. */
  lemma MissingCharacter(text: string, pat: string, c: char)
    requires c in pat && c !in text
    ensures !Occurs(text, pat)
  {
    forall k | 0 <= k <= |text| - |pat|
      ensures !OccursAt(text, pat, k)
    {
      assert c !in text[k..k + |pat|];
    }
  }

  /** The pattern alone is replaced by the replacement. */
  lemma ReplaceAllPattern(pat: string, rep: string)
    requires pat != []
    ensures ReplaceAll(pat, pat, rep) == rep
  {
    assert pat[..|pat|] == pat;
    assert pat[|pat|..] == [];
  }

  /** Text shorter than the pattern cannot contain it. */
  lemma ShorterThanPattern(text: string, pat: string)
    requires |text| < |pat|
    ensures !Occurs(text, pat)
  {
  }

  /** One step of the scan when the pattern is not at the front. */
  lemma ReplaceAllCopy(text: string, pat: string, rep: string)
    requires pat != [] && text != []
    requires !OccursAt(text, pat, 0)
    ensures ReplaceAll(text, pat, rep) == [text[0]] + ReplaceAll(text[1..], pat, rep)
  {
    if |text| < |pat| {
      assert text == [text[0]] + text[1..];
    }
  }

  /** One step of the scan when the pattern is at the front. */
  lemma ReplaceAllMatch(text: string, pat: string, rep: string)
    requires pat != []
    requires OccursAt(text, pat, 0)
    ensures ReplaceAll(text, pat, rep) == rep + ReplaceAll(text[|pat|..], pat, rep)
  {
  }

  /**
   * Substitution distributes over a concatenation whose seam no occurrence
   * crosses: the scan reaches the seam exactly and carries on in `b`.
   */
  lemma {:induction false} ReplaceAllConcat(a: string, b: string, pat: string, rep: string)
    requires pat != []
    requires NoStraddle(a, b, pat)
    ensures ReplaceAll(a + b, pat, rep) == ReplaceAll(a, pat, rep) + ReplaceAll(b, pat, rep)
    decreases |a|
  {
    if a == [] {
      assert a + b == b;
    } else if OccursAt(a, pat, 0) {
      assert (a + b)[..|pat|] == a[..|pat|];
      assert (a + b)[|pat|..] == a[|pat|..] + b;
      ReplaceAllMatch(a, pat, rep);
      ReplaceAllMatch(a + b, pat, rep);
      ShiftNoStraddle(a, b, pat, |pat|);
      ReplaceAllConcat(a[|pat|..], b, pat, rep);
    } else {
      NoFrontMatch(a, b, pat);
      assert (a + b)[1..] == a[1..] + b;
      ReplaceAllCopy(a, pat, rep);
      ReplaceAllCopy(a + b, pat, rep);
      ShiftNoStraddle(a, b, pat, 1);
      ReplaceAllConcat(a[1..], b, pat, rep);
    }
  }

  /** A match at the front of `a + b` would lie in `a` or cross the seam. */
  lemma NoFrontMatch(a: string, b: string, pat: string)
    requires a != [] && !OccursAt(a, pat, 0)
    requires NoStraddle(a, b, pat)
    ensures !OccursAt(a + b, pat, 0)
  {
    if |a| >= |pat| {
      assert (a + b)[..|pat|] == a[..|pat|];
    }
  }

  /** Dropping a prefix of `a` keeps the seam free of crossing occurrences. */
  lemma ShiftNoStraddle(a: string, b: string, pat: string, n: nat)
    requires n <= |a|
    requires NoStraddle(a, b, pat)
    ensures NoStraddle(a[n..], b, pat)
  {
    forall k | 0 <= k < |a[n..]| < k + |pat| && OccursAt(a[n..] + b, pat, k)
      ensures false
    {
      assert a[n..] + b == (a + b)[n..];
      assert (a + b)[n..][k..k + |pat|] == (a + b)[k + n..k + n + |pat|];
      assert OccursAt(a + b, pat, k + n);
    }
  }

  /** The local seam condition rules out crossing occurrences, whatever surrounds `a` and `b`. */
  lemma SeamNoStraddle(a: string, b: string, pat: string, before: string, after: string)
    requires Seam(a, b, pat)
    ensures NoStraddle(before + a, b + after, pat)
  {
    var l, r := before + a, b + after;
    forall k | 0 <= k < |l| < k + |pat|
      ensures !OccursAt(l + r, pat, k)
    {
      if k + |pat| <= |l + r| {
        var w := (l + r)[k..k + |pat|];
        // position, inside the candidate occurrence, of the last character of `l`
        var j := |l| - 1 - k;
        if |a| > 0 && a[|a| - 1] !in pat {
          assert w[j] == a[|a| - 1];
        } else if |b| > 0 && b[0] !in pat {
          assert w[j + 1] == b[0];
        } else if |a| > 1 && |pat| > 0 && a[|a| - 2] !in pat && a[|a| - 1] != pat[0] {
          assert w[j] == a[|a| - 1];
          if j > 0 {
            assert w[j - 1] == a[|a| - 2];
          }
        } else {
          assert w[j + 1] == b[0];
          if j + 2 < |pat| {
            assert w[j + 2] == b[1];
          }
        }
      }
    }
  }

  /** Distribution over a concatenation, from the local seam condition. */
  lemma ReplaceAllSeam(a: string, b: string, pat: string, rep: string)
    requires pat != []
    requires Seam(a, b, pat)
    ensures ReplaceAll(a + b, pat, rep) == ReplaceAll(a, pat, rep) + ReplaceAll(b, pat, rep)
  {
    SeamNoStraddle(a, b, pat, [], []);
    assert [] + a == a && b + [] == b;
    ReplaceAllConcat(a, b, pat, rep);
  }

  /** Two texts free of the pattern, joined at a seam no occurrence crosses, are free of it too. */
  lemma AbsentSeam(a: string, b: string, pat: string)
    requires !Occurs(a, pat) && !Occurs(b, pat)
    requires Seam(a, b, pat)
    ensures !Occurs(a + b, pat)
  {
    SeamNoStraddle(a, b, pat, [], []);
    assert [] + a == a && b + [] == b;
    forall k | 0 <= k <= |a + b| - |pat|
      ensures !OccursAt(a + b, pat, k)
    {
      if k + |pat| <= |a| {
        assert (a + b)[k..k + |pat|] == a[k..k + |pat|];
        assert !OccursAt(a, pat, k);
      } else if |a| <= k {
        assert (a + b)[k..k + |pat|] == b[k - |a|..k - |a| + |pat|];
        assert !OccursAt(b, pat, k - |a|);
      }
    }
  }

  /** Text lacking a character of the pattern is left as it is. */
  lemma ReplaceAllMissing(text: string, pat: string, rep: string, c: char)
    requires c in pat && c !in text
    ensures ReplaceAll(text, pat, rep) == text
  {
    MissingCharacter(text, pat, c);
    ReplaceAllAbsent(text, pat, rep);
  }

  /** Text `p` whose end no occurrence of `pat` can run across. */
  predicate SafeBefore(p: string, pat: string)
  {
    || (|p| > 0 && p[|p| - 1] !in pat)
    || (|p| > 1 && |pat| > 0 && p[|p| - 2] !in pat && p[|p| - 1] != pat[0])
  }

  /** Text `p` whose start no occurrence of `pat` can run across. */
  predicate SafeAfter(p: string, pat: string)
  {
    |p| > 0 && p[0] !in pat
  }

  /** Whatever precedes it, text that is safe at its end leaves a seam no occurrence crosses. */
  lemma SafeBeforeSeam(x: string, p: string, y: string, pat: string)
    requires SafeBefore(p, pat)
    ensures Seam(x + p, y, pat)
  {
    var xp := x + p;
    assert xp[|xp| - 1] == p[|p| - 1];
    if |p| > 1 {
      assert xp[|xp| - 2] == p[|p| - 2];
    }
  }

  /**
   * Substitution in a text made of four slots between five fixed parts,
   * each fixed part left alone by the substitution and safe at the seams it
   * shares with a slot, acts on the slots only.
   */
  lemma ReplaceAllSlots(p0: string, s1: string, p1: string, s2: string, p2: string,
                        s3: string, p3: string, s4: string, p4: string, pat: string, rep: string)
    requires pat != []
    requires SafeBefore(p0, pat) && SafeBefore(p1, pat) && SafeBefore(p2, pat) && SafeBefore(p3, pat)
    requires SafeAfter(p1, pat) && SafeAfter(p2, pat) && SafeAfter(p3, pat) && SafeAfter(p4, pat)
    requires ReplaceAll(p0, pat, rep) == p0 && ReplaceAll(p1, pat, rep) == p1
    requires ReplaceAll(p2, pat, rep) == p2 && ReplaceAll(p3, pat, rep) == p3
    requires ReplaceAll(p4, pat, rep) == p4
    ensures ReplaceAll(p0 + s1 + p1 + s2 + p2 + s3 + p3 + s4 + p4, pat, rep)
         == p0 + ReplaceAll(s1, pat, rep) + p1 + ReplaceAll(s2, pat, rep) + p2
            + ReplaceAll(s3, pat, rep) + p3 + ReplaceAll(s4, pat, rep) + p4
  {
    var x1 := p0 + s1;
    var x2 := x1 + p1;
    var x3 := x2 + s2;
    var x4 := x3 + p2;
    var x5 := x4 + s3;
    var x6 := x5 + p3;
    var x7 := x6 + s4;
    ReplaceAllSeam(x7, p4, pat, rep);
    SafeBeforeSeam(x5, p3, s4, pat);
    ReplaceAllSeam(x6, s4, pat, rep);
    ReplaceAllSeam(x5, p3, pat, rep);
    SafeBeforeSeam(x3, p2, s3, pat);
    ReplaceAllSeam(x4, s3, pat, rep);
    ReplaceAllSeam(x3, p2, pat, rep);
    SafeBeforeSeam(x1, p1, s2, pat);
    ReplaceAllSeam(x2, s2, pat, rep);
    ReplaceAllSeam(x1, p1, pat, rep);
    SafeBeforeSeam([], p0, s1, pat);
    assert [] + p0 == p0;
    ReplaceAllSeam(p0, s1, pat, rep);
  }
}
