/**
 * The file-name stem derived from a title: trim, lower-case, turn each run
 * of characters other than `a`-`z` and `0`-`9` into one hyphen, drop one
 * leading and one trailing hyphen, keep the first 60 characters.
 *
 * Besides the step-by-step definition, the module gives an independent
 * description of the result (the title's alphanumeric words joined by single
 * hyphens, cut to 60 characters) and proves the two equal.
 */
module Slug {

  /** The length the slug is cut to. */
  const MaxLength := 60

  /** The whitespace and line terminators that JavaScript's `trim` removes. */
  predicate IsTrimmable(c: char)
  {
    || c == '\t' || c == '\n' || c == '\U{000B}' || c == '\U{000C}' || c == '\r'
    || c == ' ' || c == '\U{00A0}' || c == '\U{1680}' || '\U{2000}' <= c <= '\U{200A}'
    || c == '\U{2028}' || c == '\U{2029}' || c == '\U{202F}' || c == '\U{205F}'
    || c == '\U{3000}' || c == '\U{FEFF}'
  }

  /** Letters and digits as the pattern `[a-z0-9]` sees them. */
  predicate IsAlnum(c: char)
  {
    'a' <= c <= 'z' || '0' <= c <= '9'
  }

  /** ASCII letters of either case and digits: what lower-casing maps into `[a-z0-9]`. */
  predicate IsAsciiAlnum(c: char)
  {
    'a' <= c <= 'z' || 'A' <= c <= 'Z' || '0' <= c <= '9'
  }

  predicate IsSlugChar(c: char)
  {
    IsAlnum(c) || c == '-'
  }

  function TrimStart(s: string): (r: string)
    ensures |r| <= |s|
  {
    if s != [] && IsTrimmable(s[0]) then TrimStart(s[1..]) else s
  }

  function TrimEnd(s: string): (r: string)
    ensures |r| <= |s|
  {
    if s != [] && IsTrimmable(s[|s| - 1]) then TrimEnd(s[..|s| - 1]) else s
  }

  /** `s.trim()` */
  function Trim(s: string): string
  {
    TrimEnd(TrimStart(s))
  }

  /** Lower-casing, restricted to ASCII. */
  function LowerChar(c: char): (r: char)
    ensures IsAlnum(r) <==> IsAsciiAlnum(c)
    ensures IsTrimmable(c) ==> r == c
  {
    if 'A' <= c <= 'Z' then (c as int + 32) as char else c
  }

  /** `s.toLowerCase()`, restricted to ASCII. */
  function Lower(s: string): (r: string)
    ensures |r| == |s|
    ensures forall i | 0 <= i < |s| :: r[i] == LowerChar(s[i])
  {
    if s == [] then [] else [LowerChar(s[0])] + Lower(s[1..])
  }

  /** Drops the leading characters that are not letters or digits. */
  function SkipSeparators(s: string): (r: string)
    ensures |r| <= |s|
    ensures r == [] || IsAlnum(r[0])
  {
    if s != [] && !IsAlnum(s[0]) then SkipSeparators(s[1..]) else s
  }

  /** `s.replace(/[^a-z0-9]+/g, "-")`: every maximal run of separators becomes one hyphen. */
  function Collapse(s: string): string
    decreases |s|
  {
    if s == [] then []
    else if IsAlnum(s[0]) then [s[0]] + Collapse(s[1..])
    else "-" + Collapse(SkipSeparators(s[1..]))
  }

  /** `s.replace(/(^-|-$)/g, "")`: one leading and one trailing hyphen go. */
  function StripHyphens(s: string): string
  {
    var t := if s != [] && s[0] == '-' then s[1..] else s;
    if t != [] && t[|t| - 1] == '-' then t[..|t| - 1] else t
  }

  /** `s.slice(0, 60)` */
  function Truncate(s: string): string
  {
    if |s| <= MaxLength then s else s[..MaxLength]
  }

  /** The stem `new` gives the contract and entry files of a title. */
  function Slugify(title: string): string
  {
    Truncate(StripHyphens(Collapse(Lower(Trim(title)))))
  }

  // ---------------------------------------------------------------------
  // Reference description: the words of the title joined by hyphens

  predicate IsWord(w: string)
  {
    w != [] && forall i | 0 <= i < |w| :: IsAlnum(w[i])
  }

  /** The longest prefix made of letters and digits. */
  function TakeWord(s: string): (w: string)
    ensures |w| <= |s|
    ensures s != [] && IsAlnum(s[0]) ==> w != []
  {
    if s != [] && IsAlnum(s[0]) then [s[0]] + TakeWord(s[1..]) else []
  }

  /** The maximal runs of letters and digits, in order. */
  function Words(s: string): seq<string>
    decreases |s|
  {
    var t := SkipSeparators(s);
    if t == [] then []
    else
      var w := TakeWord(t);
      [w] + Words(t[|w|..])
  }

  function JoinWords(ws: seq<string>): string
  {
    if ws == [] then []
    else if |ws| == 1 then ws[0]
    else ws[0] + "-" + JoinWords(ws[1..])
  }

  /** Only slug characters, no two hyphens in a row, letters or digits at both ends. */
  predicate IsJoined(s: string)
  {
    && (forall i | 0 <= i < |s| :: IsSlugChar(s[i]))
    && (forall i | 0 <= i < |s| - 1 :: s[i] != '-' || s[i + 1] != '-')
    && (s == [] || (IsAlnum(s[0]) && IsAlnum(s[|s| - 1])))
  }

  // Facts about the helpers, kept out of their contracts so that they are
  // brought in only where a proof needs them.

  lemma {:induction false} TrimStartFacts(s: string)
    ensures var r := TrimStart(s);
      && r == s[|s| - |r|..]
      && (forall i | 0 <= i < |s| - |r| :: IsTrimmable(s[i]))
    decreases |s|
  {
    if s != [] && IsTrimmable(s[0]) {
      TrimStartFacts(s[1..]);
    }
  }

  lemma {:induction false} TrimEndFacts(s: string)
    ensures var r := TrimEnd(s);
      && r == s[..|r|]
      && (forall i | |r| <= i < |s| :: IsTrimmable(s[i]))
    decreases |s|
  {
    if s != [] && IsTrimmable(s[|s| - 1]) {
      TrimEndFacts(s[..|s| - 1]);
    }
  }

  lemma {:induction false} SkipSeparatorsFacts(s: string)
    ensures var r := SkipSeparators(s);
      && r == s[|s| - |r|..]
      && (forall i | 0 <= i < |s| - |r| :: !IsAlnum(s[i]))
    decreases |s|
  {
    if s != [] && !IsAlnum(s[0]) {
      SkipSeparatorsFacts(s[1..]);
    }
  }

  lemma SkipSeparatorsFixed(s: string)
    requires s == [] || IsAlnum(s[0])
    ensures SkipSeparators(s) == s
  {
  }

  lemma {:induction false} TakeWordFacts(s: string)
    ensures var w := TakeWord(s);
      && w == s[..|w|]
      && (forall i | 0 <= i < |w| :: IsAlnum(s[i]))
      && (|w| == |s| || !IsAlnum(s[|w|]))
    decreases |s|
  {
    if s != [] && IsAlnum(s[0]) {
      TakeWordFacts(s[1..]);
    }
  }

  lemma {:induction false} WordsAreWords(s: string)
    ensures forall i | 0 <= i < |Words(s)| :: IsWord(Words(s)[i])
    decreases |s|
  {
    var t := SkipSeparators(s);
    if t != [] {
      var w := TakeWord(t);
      TakeWordFacts(t);
      WordsAreWords(t[|w|..]);
      var rest := Words(t[|w|..]);
      assert Words(s) == [w] + rest;
      assert IsWord(w) by {
        forall j | 0 <= j < |w|
          ensures IsAlnum(w[j])
        {
          assert w[j] == t[j];
        }
      }
      forall i | 0 <= i < |Words(s)|
        ensures IsWord(Words(s)[i])
      {
        if i > 0 {
          assert Words(s)[i] == rest[i - 1];
        }
      }
    }
  }

  lemma WordsSkip(x: string)
    ensures Words(x) == Words(SkipSeparators(x))
  {
    SkipSeparatorsFixed(SkipSeparators(x));
  }

  /** Joining alphanumeric words by hyphens gives a well-shaped string, empty only for no words. */
  lemma {:induction false} JoinWordsShape(ws: seq<string>)
    requires forall i | 0 <= i < |ws| :: IsWord(ws[i])
    ensures IsJoined(JoinWords(ws))
    ensures JoinWords(ws) == [] <==> ws == []
  {
    if |ws| > 1 {
      JoinWordsShape(ws[1..]);
      var w, rest := ws[0], JoinWords(ws[1..]);
      assert IsWord(w);
      var s := w + "-" + rest;
      assert s == JoinWords(ws);
      forall i | 0 <= i < |s|
        ensures IsSlugChar(s[i])
      {
        if i < |w| {
          assert s[i] == w[i];
        } else if i > |w| {
          assert s[i] == rest[i - |w| - 1];
        }
      }
      forall i | 0 <= i < |s| - 1
        ensures s[i] != '-' || s[i + 1] != '-'
      {
        if i < |w| - 1 {
          assert s[i] == w[i] && s[i + 1] == w[i + 1];
        } else if i == |w| - 1 {
          assert s[i] == w[|w| - 1];
        } else if i == |w| {
          assert s[i + 1] == rest[0];
        } else {
          assert s[i] == rest[i - |w| - 1] && s[i + 1] == rest[i - |w|];
        }
      }
    } else if |ws| == 1 {
      assert IsWord(ws[0]);
    }
  }

  // ---------------------------------------------------------------------
  // The regular-expression steps compute the joined words

  /** True when `s` ends with a character other than a letter or digit. */
  predicate EndsWithSeparator(s: string)
  {
    s != [] && !IsAlnum(s[|s| - 1])
  }

  lemma {:induction false} CollapseWord(x: string)
    ensures Collapse(x) == TakeWord(x) + Collapse(x[|TakeWord(x)|..])
    decreases |x|
  {
    if x != [] && IsAlnum(x[0]) {
      CollapseWord(x[1..]);
      var w := TakeWord(x[1..]);
      assert x[1..][|w|..] == x[|w| + 1..];
    }
  }

  /** After a word, a nonempty remainder starts with separators that collapse to one hyphen. */
  lemma CollapseAfterWord(x: string)
    requires x != [] && IsAlnum(x[0])
    requires |TakeWord(x)| < |x|
    ensures var rest := x[|TakeWord(x)|..];
      && Collapse(rest) == "-" + Collapse(SkipSeparators(rest))
      && Words(rest) == Words(SkipSeparators(rest))
      && (SkipSeparators(rest) == [] ==> EndsWithSeparator(x))
      && (SkipSeparators(rest) != [] ==> x[|x| - 1] == SkipSeparators(rest)[|SkipSeparators(rest)| - 1])
  {
    var w := TakeWord(x);
    TakeWordFacts(x);
    var rest := x[|w|..];
    assert !IsAlnum(rest[0]);
    var y := SkipSeparators(rest);
    assert y == SkipSeparators(rest[1..]);
    assert Collapse(rest) == "-" + Collapse(y);
    SkipSeparatorsFacts(rest);
    WordsSkip(rest);
    if y == [] {
      assert x[|x| - 1] == rest[|rest| - 1];
    } else {
      assert x[|x| - 1] == rest[|rest| - 1] == y[|y| - 1];
    }
  }

  lemma JoinCons(w: string, ws: seq<string>, tail: string)
    requires ws != []
    ensures w + ("-" + (JoinWords(ws) + tail)) == JoinWords([w] + ws) + tail
  {
    assert ([w] + ws)[1..] == ws;
  }

  /** For text starting with a letter or digit, collapsing gives the joined words and a hyphen for trailing separators. */
  lemma {:induction false} CollapseIsJoin(x: string)
    requires x == [] || IsAlnum(x[0])
    ensures Collapse(x) == JoinWords(Words(x)) + Tail(x)
    decreases |x|
  {
    if x != [] {
      SkipSeparatorsFixed(x);
      var w := TakeWord(x);
      var rest := x[|w|..];
      CollapseWord(x);
      assert Words(x) == [w] + Words(rest);
      if rest == [] {
        TakeWordFacts(x);
        assert x == w;
        assert Words(x) == [w];
      } else {
        CollapseAfterWord(x);
        var y := SkipSeparators(rest);
        if y == [] {
          assert Words(x) == [w];
        } else {
          CollapseIsJoin(y);
          assert Tail(x) == Tail(y);
          JoinCons(w, Words(y), Tail(y));
        }
      }
    }
  }

  /** The marker hyphen collapsing leaves after trailing separators. */
  function Tail(x: string): string
  {
    if EndsWithSeparator(x) then "-" else ""
  }

  /** Stripping the edge hyphens from the joined words, with or without a trailing marker. */
  lemma StripJoinedTail(j: string, tail: string)
    requires IsJoined(j) && j != []
    requires tail == [] || tail == "-"
    ensures StripHyphens(j + tail) == j
  {
    assert (j + tail)[0] == j[0];
    if tail != [] {
      assert (j + tail)[..|j|] == j;
    } else {
      assert j + tail == j;
    }
  }

  /** The same after a leading hyphen. */
  lemma StripJoinedLeadTail(j: string, tail: string)
    requires IsJoined(j) && j != []
    requires tail == [] || tail == "-"
    ensures StripHyphens("-" + (j + tail)) == j
  {
    assert ("-" + (j + tail))[1..] == j + tail;
    if tail != [] {
      assert (j + tail)[..|j|] == j;
    } else {
      assert j + tail == j;
    }
  }

  lemma CollapseLeadingSeparator(x: string)
    requires x != [] && !IsAlnum(x[0])
    ensures Collapse(x) == "-" + Collapse(SkipSeparators(x))
  {
  }

  /** Collapsing and stripping the edge hyphens yields exactly the joined words. */
  lemma StripCollapseIsJoin(x: string)
    ensures StripHyphens(Collapse(x)) == JoinWords(Words(x))
  {
    var y := SkipSeparators(x);
    WordsSkip(x);
    if y == [] {
      if x != [] {
        CollapseLeadingSeparator(x);
        assert Collapse(x) == "-";
      }
    } else {
      WordsAreWords(y);
      JoinWordsShape(Words(y));
      var j := JoinWords(Words(y));
      CollapseIsJoin(y);
      assert Collapse(y) == j + Tail(y);
      if IsAlnum(x[0]) {
        StripJoinedTail(j, Tail(y));
      } else {
        CollapseLeadingSeparator(x);
        StripJoinedLeadTail(j, Tail(y));
      }
    }
  }

  // ---------------------------------------------------------------------
  // Trimming changes nothing: trimmed characters are separators anyway

  lemma {:induction false} SkipSeparatorsPrefix(p: string, m: string)
    requires forall i | 0 <= i < |p| :: !IsAlnum(p[i])
    ensures SkipSeparators(p + m) == SkipSeparators(m)
    decreases |p|
  {
    if p != [] {
      assert (p + m)[1..] == p[1..] + m;
      SkipSeparatorsPrefix(p[1..], m);
    } else {
      assert p + m == m;
    }
  }

  lemma {:induction false} SkipSeparatorsSuffix(m: string, q: string)
    requires SkipSeparators(m) != []
    ensures SkipSeparators(m + q) == SkipSeparators(m) + q
    decreases |m|
  {
    if !IsAlnum(m[0]) {
      assert (m + q)[1..] == m[1..] + q;
      SkipSeparatorsSuffix(m[1..], q);
    }
  }

  lemma SkipSeparatorsAll(m: string, q: string)
    requires SkipSeparators(m) == []
    requires forall i | 0 <= i < |q| :: !IsAlnum(q[i])
    ensures SkipSeparators(m + q) == []
  {
    SkipSeparatorsFacts(m);
    SkipSeparatorsPrefix(m + q, []);
    assert m + q + [] == m + q;
  }

  lemma {:induction false} TakeWordSuffix(y: string, q: string)
    requires q == [] || !IsAlnum(q[0])
    ensures TakeWord(y + q) == TakeWord(y)
    decreases |y|
  {
    if y == [] {
      assert y + q == q;
    } else if IsAlnum(y[0]) {
      assert (y + q)[1..] == y[1..] + q;
      TakeWordSuffix(y[1..], q);
    }
  }

  lemma {:induction false} WordsSuffix(m: string, q: string)
    requires forall i | 0 <= i < |q| :: !IsAlnum(q[i])
    ensures Words(m + q) == Words(m)
    decreases |m|
  {
    var y := SkipSeparators(m);
    if y == [] {
      SkipSeparatorsAll(m, q);
    } else {
      SkipSeparatorsSuffix(m, q);
      var w := TakeWord(y);
      TakeWordSuffix(y, q);
      assert (y + q)[|w|..] == y[|w|..] + q;
      WordsSuffix(y[|w|..], q);
    }
  }

  lemma WordsPrefix(p: string, m: string)
    requires forall i | 0 <= i < |p| :: !IsAlnum(p[i])
    ensures Words(p + m) == Words(m)
  {
    SkipSeparatorsPrefix(p, m);
  }

  lemma LowerSplit(a: string, b: string)
    ensures Lower(a + b) == Lower(a) + Lower(b)
  {
  }

  lemma LowerTrimmable(p: string)
    requires forall i | 0 <= i < |p| :: IsTrimmable(p[i])
    ensures forall i | 0 <= i < |Lower(p)| :: !IsAlnum(Lower(p)[i])
  {
    forall i | 0 <= i < |Lower(p)|
      ensures !IsAlnum(Lower(p)[i])
    {
      assert Lower(p)[i] == LowerChar(p[i]);
    }
  }

  lemma TrimStartSplit(s: string)
    ensures var p := s[..|s| - |TrimStart(s)|];
      && s == p + TrimStart(s)
      && forall i | 0 <= i < |p| :: IsTrimmable(p[i])
  {
    TrimStartFacts(s);
  }

  lemma TrimEndSplit(s: string)
    ensures var q := s[|TrimEnd(s)|..];
      && s == TrimEnd(s) + q
      && forall i | 0 <= i < |q| :: IsTrimmable(q[i])
  {
    TrimEndFacts(s);
  }

  /** Words are unchanged by separators added in front and behind. */
  lemma WordsFrame(p: string, m: string, q: string)
    requires forall i | 0 <= i < |p| :: !IsAlnum(p[i])
    requires forall i | 0 <= i < |q| :: !IsAlnum(q[i])
    ensures Words(p + (m + q)) == Words(m)
  {
    WordsPrefix(p, m + q);
    WordsSuffix(m, q);
  }

  /** Trimming the title does not change its words. */
  lemma TrimKeepsWords(title: string)
    ensures Words(Lower(Trim(title))) == Words(Lower(title))
  {
    var s := TrimStart(title);
    var m := TrimEnd(s);
    var p := title[..|title| - |s|];
    var q := s[|m|..];
    TrimStartSplit(title);
    TrimEndSplit(s);
    LowerSplit(p, s);
    LowerSplit(m, q);
    LowerTrimmable(p);
    LowerTrimmable(q);
    WordsFrame(Lower(p), Lower(m), Lower(q));
  }

  // ---------------------------------------------------------------------
  // What the source promises about the slug

  /** The slug is the title's lower-cased ASCII words, joined by single hyphens, cut to 60 characters. */
  lemma SlugifyIsJoinedWords(title: string)
    ensures Slugify(title) == Truncate(JoinWords(Words(Lower(title))))
  {
    StripCollapseIsJoin(Lower(Trim(title)));
    TrimKeepsWords(title);
  }

  /** A prefix of well-shaped joined words keeps the alphabet, the single hyphens and the first character. */
  lemma JoinedPrefix(j: string, n: nat)
    requires IsJoined(j) && n <= |j|
    ensures forall i | 0 <= i < n :: IsSlugChar(j[..n][i])
    ensures forall i | 0 <= i < n - 1 :: j[..n][i] != '-' || j[..n][i + 1] != '-'
    ensures n == 0 || j[..n][0] != '-'
  {
    forall i | 0 <= i < n - 1
      ensures j[..n][i] != '-' || j[..n][i + 1] != '-'
    {
      assert j[..n][i] == j[i] && j[..n][i + 1] == j[i + 1];
    }
  }

  /**
   * The slug uses only `a`-`z`, `0`-`9` and `-`, is at most 60 characters long,
   * never holds two hyphens in a row and never starts with a hyphen.
   */
  lemma SlugifyShape(title: string)
    ensures |Slugify(title)| <= MaxLength
    ensures forall i | 0 <= i < |Slugify(title)| :: IsSlugChar(Slugify(title)[i])
    ensures forall i | 0 <= i < |Slugify(title)| - 1 :: Slugify(title)[i] != '-' || Slugify(title)[i + 1] != '-'
    ensures Slugify(title) == [] || Slugify(title)[0] != '-'
  {
    SlugifyIsJoinedWords(title);
    var ws := Words(Lower(title));
    WordsAreWords(Lower(title));
    JoinWordsShape(ws);
    var j := JoinWords(ws);
    var n := if |j| <= MaxLength then |j| else MaxLength;
    assert j[..|j|] == j;
    assert Slugify(title) == j[..n];
    JoinedPrefix(j, n);
  }

  /**
   * The slug ends with a hyphen exactly when the 60-character cut lands just
   * after a hyphen of the joined words; without a cut it never does.
   */
  lemma SlugifyTrailingHyphen(title: string)
    ensures var j := JoinWords(Words(Lower(title)));
      && (Slugify(title) != [] && Slugify(title)[|Slugify(title)| - 1] == '-'
          <==> |j| > MaxLength && j[MaxLength - 1] == '-')
      && (|j| <= MaxLength ==> Slugify(title) == j)
  {
    SlugifyIsJoinedWords(title);
    WordsAreWords(Lower(title));
    JoinWordsShape(Words(Lower(title)));
  }

  lemma WordsEmpty(s: string)
    ensures Words(s) == [] <==> forall i | 0 <= i < |s| :: !IsAlnum(s[i])
  {
    var t := SkipSeparators(s);
    SkipSeparatorsFacts(s);
    assert Words(s) == [] <==> t == [];
    if t != [] {
      var k := |s| - |t|;
      assert s[k] == t[0] && IsAlnum(s[k]);
    }
  }

  /** The slug is empty exactly when the title holds no ASCII letter or digit. */
  lemma SlugifyEmpty(title: string)
    ensures Slugify(title) == [] <==> forall i | 0 <= i < |title| :: !IsAsciiAlnum(title[i])
  {
    SlugifyIsJoinedWords(title);
    var ws := Words(Lower(title));
    WordsAreWords(Lower(title));
    JoinWordsShape(ws);
    WordsEmpty(Lower(title));
    if Slugify(title) == [] {
      forall i | 0 <= i < |title|
        ensures !IsAsciiAlnum(title[i])
      {
        assert Lower(title)[i] == LowerChar(title[i]);
      }
    } else {
      assert ws != [];
    }
  }
}
