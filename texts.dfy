/**
 * The fixed texts of the two default templates `init` writes, each held as
 * the list of its pieces (a line, or part of a long line) so that facts
 * about their characters can be proved piece by piece.
 */
module TemplateTexts {
  import opened Substitution

  /** The pieces joined, in order. */
  function Concat(parts: seq<string>): string
  {
    if parts == [] then [] else Concat(parts[..|parts| - 1]) + parts[|parts| - 1]
  }

  /** No character of `s` is `a`, `b` or `c`. */
  predicate NoneOf(s: string, a: char, b: char, c: char)
  {
    forall i | 0 <= i < |s| :: s[i] != a && s[i] != b && s[i] != c
  }

  /** `s` ends with a line break. */
  predicate EndsLine(s: string)
  {
    |s| > 0 && s[|s| - 1] == '\n'
  }

  /**
   * The contract template from the quote closing the date to the quote
   * opening the entry link.
   */
  const ContractBodyParts: seq<string> := [
    "\"\n",
    "author: \"your name or handle\"\n",
    "\n",
    "intent:\n",
    "  summary: \"One sentence: ",
    "what is supposed to change.\"\n",
    "  reason: \"Why this change ",
    "is happening.\"\n",
    "  risk_level: \"low\" ",
    "# low | medium | high\n",
    "\n",
    "scope:\n",
    "  expected:\n",
    "    - \"src/**\"\n",
    "  forbidden:\n",
    "    - \"infra/**\"\n",
    "    - \"auth/**\"\n",
    "\n",
    "verification:\n",
    "  expected_tests:\n",
    "    - \"pnpm test\"\n",
    "    - \"pnpm lint\"\n",
    "  manual_checks:\n",
    "    - \"Describe any ",
    "manual checks expected\"\n",
    "\n",
    "review:\n",
    "  requires_human_approval: true\n",
    "\n",
    "links:\n",
    "  entry: \""
  ]

  /** The entry template after the contract link, one line per piece. */
  const EntryRestParts: seq<string> := [
    "\n",
    "\n",
    "## Intent summary\n",
    "One sentence.\n",
    "\n",
    "## Actual changes\n",
    "What changed in reality.\n",
    "\n",
    "## Files changed\n",
    "- path/to/file\n",
    "\n",
    "## Scope drift\n",
    "- drift: no\n",
    "- notes: \"\"\n",
    "\n",
    "## Verification performed\n",
    "- tests run:\n",
    "  - \"\"\n",
    "- manual checks:\n",
    "  - \"\"\n",
    "\n",
    "## Approval\n",
    "- required: true\n",
    "- approved_by: \"\"\n",
    "- approved_at: \"\"\n"
  ]

  /** The position of the one piece of the entry sections holding an `S`. */
  const DriftHeading := 11

  // ---------------------------------------------------------------------
  // Facts about joined pieces
  // ---------------------------------------------------------------------

  lemma {:induction false} ConcatNoneOf(parts: seq<string>, a: char, b: char, c: char)
    requires forall k | 0 <= k < |parts| :: NoneOf(parts[k], a, b, c)
    ensures NoneOf(Concat(parts), a, b, c)
    decreases |parts|
  {
    if parts != [] {
      ConcatNoneOf(parts[..|parts| - 1], a, b, c);
    }
  }

  lemma {:induction false} ConcatFirst(parts: seq<string>)
    requires parts != [] && parts[0] != []
    ensures |Concat(parts)| > 0 && Concat(parts)[0] == parts[0][0]
    decreases |parts|
  {
    if |parts| > 1 {
      ConcatFirst(parts[..|parts| - 1]);
    } else {
      assert Concat(parts) == [] + parts[0];
    }
  }

  /**
   * Pieces free of `pat`, each safe at its end, join into text free of
   * `pat` that is itself safe at its end.
   */
  lemma {:induction false} ConcatAbsent(parts: seq<string>, pat: string)
    requires pat != []
    requires forall k | 0 <= k < |parts| :: !Occurs(parts[k], pat) && SafeBefore(parts[k], pat)
    ensures !Occurs(Concat(parts), pat)
    ensures parts != [] ==> SafeBefore(Concat(parts), pat)
    decreases |parts|
  {
    if parts != [] {
      var init, last := parts[..|parts| - 1], parts[|parts| - 1];
      assert !Occurs(last, pat) && SafeBefore(last, pat);
      ConcatAbsent(init, pat);
      if init == [] {
        assert Concat(parts) == [] + last == last;
      } else {
        var front := Concat(init[..|init| - 1]);
        assert Concat(init) == front + init[|init| - 1];
        SafeBeforeSeam(front, init[|init| - 1], last, pat);
        AbsentSeam(Concat(init), last, pat);
      }
      var whole := Concat(parts);
      assert whole[|whole| - 1] == last[|last| - 1];
      if |last| > 1 {
        assert whole[|whole| - 2] == last[|last| - 2];
      }
    }
  }

  // ---------------------------------------------------------------------
  // The pieces, a few at a time
  // ---------------------------------------------------------------------

  lemma ContractPieces0()
    ensures forall k | 0 <= k < 4 :: NoneOf(ContractBodyParts[k], 'A', 'Y', 'S')
  {
  }

  lemma ContractPieces4()
    ensures forall k | 4 <= k < 6 :: NoneOf(ContractBodyParts[k], 'A', 'Y', 'S')
  {
  }

  lemma ContractPieces6()
    ensures forall k | 6 <= k < 8 :: NoneOf(ContractBodyParts[k], 'A', 'Y', 'S')
  {
  }

  lemma ContractPieces8()
    ensures forall k | 8 <= k < 13 :: NoneOf(ContractBodyParts[k], 'A', 'Y', 'S')
  {
  }

  lemma ContractPieces13()
    ensures forall k | 13 <= k < 18 :: NoneOf(ContractBodyParts[k], 'A', 'Y', 'S')
  {
  }

  lemma ContractPieces18()
    ensures forall k | 18 <= k < 21 :: NoneOf(ContractBodyParts[k], 'A', 'Y', 'S')
  {
  }

  lemma ContractPieces21()
    ensures forall k | 21 <= k < 24 :: NoneOf(ContractBodyParts[k], 'A', 'Y', 'S')
  {
  }

  lemma ContractPieces24()
    ensures forall k | 24 <= k < 26 :: NoneOf(ContractBodyParts[k], 'A', 'Y', 'S')
  {
  }

  lemma ContractPieces26()
    ensures forall k | 26 <= k < 31 :: NoneOf(ContractBodyParts[k], 'A', 'Y', 'S')
  {
  }

  lemma EntryPieces0()
    ensures forall k | 0 <= k < 4 :: NoneOf(EntryRestParts[k], '0', 'Y', 'S') && EndsLine(EntryRestParts[k])
  {
  }

  lemma EntryPieces4()
    ensures forall k | 4 <= k < 7 :: NoneOf(EntryRestParts[k], '0', 'Y', 'S') && EndsLine(EntryRestParts[k])
  {
  }

  lemma EntryPieces7()
    ensures forall k | 7 <= k < 11 :: NoneOf(EntryRestParts[k], '0', 'Y', 'S') && EndsLine(EntryRestParts[k])
  {
  }

  /** The heading lacks `0` and `Y`; its `S` is the only one of the sections. */
  lemma EntryHeadingPiece()
    ensures NoneOf(EntryRestParts[DriftHeading], '0', 'Y', 'Y') && EndsLine(EntryRestParts[DriftHeading])
    ensures |EntryRestParts[DriftHeading]| == 15
  {
  }

  lemma EntryPieces12()
    ensures forall k | 12 <= k < 15 :: NoneOf(EntryRestParts[k], '0', 'Y', 'S') && EndsLine(EntryRestParts[k])
  {
  }

  lemma EntryPieces15()
    ensures forall k | 15 <= k < 18 :: NoneOf(EntryRestParts[k], '0', 'Y', 'S') && EndsLine(EntryRestParts[k])
  {
  }

  lemma EntryPieces18()
    ensures forall k | 18 <= k < 22 :: NoneOf(EntryRestParts[k], '0', 'Y', 'S') && EndsLine(EntryRestParts[k])
  {
  }

  lemma EntryPieces22()
    ensures forall k | 22 <= k < 25 :: NoneOf(EntryRestParts[k], '0', 'Y', 'S') && EndsLine(EntryRestParts[k])
  {
  }
}
