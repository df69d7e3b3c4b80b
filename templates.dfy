/**
 * The two default templates `init` writes, and the placeholder substitution
 * `new` applies to them.
 *
 * Each default template is a fixed text with four slots (id, title, date,
 * link to the companion file); `ContractText` and `EntryText` build the text
 * from the slot values, and the default templates are those functions applied
 * to the placeholders. Substitution then acts slot by slot, which is what the
 * theorems below make precise.
 */
module Templates {
  import opened Substitution
  import opened Layout
  import opened TemplateTexts
  import Slug

  const IdToken := "AILE-0001"
  const DateToken := "YYYY-MM-DD"
  const TitleToken := "Short descriptive title"
  const EntryLinkToken := ".ai-ledger/entries/" + DateToken + "-slug.md"
  const ContractLinkToken := ".ai-ledger/contracts/" + DateToken + "-slug.contract.yaml"

  // ---------------------------------------------------------------------
  // The contract template (YAML)
  // ---------------------------------------------------------------------

  const IdOpen := "id: \""
  const TitleOpen := "\"\ntitle: \""
  const DateOpen := "\"\ndate: \""
  /** The default body: everything between the date value and the entry link. */
  const ContractBody := Concat(ContractBodyParts)
  const ContractClose := "\"\n"

  /**
   * A contract in the default layout: the id, title and date lines, then
   * `body`, which ends by opening the quoted entry link.
   */
  function ContractText(body: string, id: string, title: string, date: string, link: string): string
  {
    IdOpen + id + TitleOpen + title + DateOpen + date + body + link + ContractClose
  }

  /**
   * The shape of `ContractBody` the theorems below rely on: it is quoted at
   * both ends and has none of the letters `A`, `Y` and `S`, so no placeholder
   * can occur in it.
   */
  predicate ContractBodyShape(body: string)
  {
    && |body| > 0 && body[0] == '"' && body[|body| - 1] == '"'
    && 'A' !in body && 'Y' !in body && 'S' !in body
  }

  const ContractTemplate := ContractText(ContractBody, IdToken, TitleToken, DateToken, EntryLinkToken)

  // ---------------------------------------------------------------------
  // The entry template (Markdown)
  // ---------------------------------------------------------------------

  const EntryHead := "# AI Ledger Entry\n\n- id: "
  const TitleLine := "\n- title: "
  const DateLine := "\n- date: "
  const ContractLine := "\n- contract: "
  /** The default sections: everything after the contract link. */
  const EntryRest := Concat(EntryRestParts)

  /**
   * An entry in the default layout: heading, the id, title, date and
   * contract lines, then the sections `rest`.
   */
  function EntryText(rest: string, id: string, title: string, date: string, link: string): string
  {
    EntryHead + id + TitleLine + title + DateLine + date + ContractLine + link + rest
  }

  /**
   * The shape of `EntryRest` the theorems below rely on: it starts a line,
   * has neither `0` nor `Y`, and the title placeholder does not occur in it.
   */
  predicate EntryRestShape(rest: string)
  {
    |rest| > 0 && rest[0] == '\n' && '0' !in rest && 'Y' !in rest && !Occurs(rest, TitleToken)
  }

  const EntryTemplate := EntryText(EntryRest, IdToken, TitleToken, DateToken, ContractLinkToken)

  // ---------------------------------------------------------------------
  // Facts about the placeholders and the short fixed texts
  // ---------------------------------------------------------------------

  /** The letters the chains rely on to tell the placeholders apart. */
  lemma PlaceholderLetters()
    ensures 'A' in IdToken && '0' in IdToken && 'Y' in DateToken && 'S' in TitleToken
    ensures 'A' !in TitleToken && 'A' !in DateToken && 'Y' !in TitleToken
  {
    assert IdToken[0] == 'A' && IdToken[5] == '0' && DateToken[0] == 'Y' && TitleToken[0] == 'S';
    TitleTokenLetters();
  }

  lemma TitleTokenLetters()
    ensures 'A' !in TitleToken && 'Y' !in TitleToken
  {
    assert TitleToken == "Short " + "descriptive " + "title";
  }

  /** The link placeholders hold the date placeholder between a directory and `-slug`. */
  lemma LinkPlaceholderLetters()
    ensures 'Y' in EntryLinkToken && 'Y' in ContractLinkToken
    ensures 'A' !in EntryLinkToken && 'A' !in ContractLinkToken
  {
    assert EntryLinkToken[19] == 'Y' && ContractLinkToken[21] == 'Y';
    assert 'A' !in ".ai-ledger/entries/" && 'A' !in "-slug.md";
    assert 'A' !in ".ai-ledger/contracts/" && 'A' !in "-slug.contract.yaml";
  }

  /** None of the placeholders has a quote, a line break or a colon, or starts with a space. */
  lemma PlaceholderPunctuation()
    ensures '"' !in IdToken && '"' !in DateToken && '"' !in TitleToken && '"' !in EntryLinkToken
    ensures '\n' !in IdToken && '\n' !in DateToken && '\n' !in TitleToken && '\n' !in ContractLinkToken
    ensures ':' !in IdToken && ':' !in DateToken && ':' !in TitleToken && ':' !in ContractLinkToken
    ensures IdToken[0] != ' ' && DateToken[0] != ' ' && TitleToken[0] != ' ' && ContractLinkToken[0] != ' '
  {
    ShortPlaceholderPunctuation();
    TitlePunctuation();
    LinkPunctuation();
  }

  lemma ShortPlaceholderPunctuation()
    ensures '"' !in IdToken && '\n' !in IdToken && ':' !in IdToken
    ensures '"' !in DateToken && '\n' !in DateToken && ':' !in DateToken
  {
  }

  lemma TitlePunctuation()
    ensures '"' !in TitleToken && '\n' !in TitleToken && ':' !in TitleToken
  {
  }

  lemma LinkPunctuation()
    ensures '"' !in EntryLinkToken && '\n' !in ContractLinkToken && ':' !in ContractLinkToken
  {
    assert '"' !in ".ai-ledger/entries/" && '"' !in "-slug.md";
    ContractLinkPunctuation();
  }

  lemma ContractLinkPunctuation()
    ensures '\n' !in ContractLinkToken && ':' !in ContractLinkToken
  {
    assert '\n' !in ".ai-ledger/contracts/" && ':' !in ".ai-ledger/contracts/";
    assert '\n' !in "-slug.contract.yaml" && ':' !in "-slug.contract.yaml";
  }

  /** The link placeholders are longer than the other three. */
  lemma PlaceholderLengths()
    ensures |IdToken| < |EntryLinkToken| && |TitleToken| < |EntryLinkToken| && |DateToken| < |EntryLinkToken|
    ensures |IdToken| < |ContractLinkToken| && |TitleToken| < |ContractLinkToken| && |DateToken| < |ContractLinkToken|
  {
  }

  /** The short fixed parts of the contract are quoted at the slots and lack `A`, `Y` and `S`. */
  lemma ContractFrameFacts()
    ensures IdOpen[|IdOpen| - 1] == '"' && ContractClose[0] == '"'
    ensures TitleOpen[0] == '"' && TitleOpen[|TitleOpen| - 1] == '"'
    ensures DateOpen[0] == '"' && DateOpen[|DateOpen| - 1] == '"'
    ensures 'A' !in IdOpen && 'Y' !in IdOpen && 'S' !in IdOpen
    ensures 'A' !in TitleOpen && 'Y' !in TitleOpen && 'S' !in TitleOpen
    ensures 'A' !in DateOpen && 'Y' !in DateOpen && 'S' !in DateOpen
    ensures 'A' !in ContractClose && 'Y' !in ContractClose && 'S' !in ContractClose
  {
  }

  /** The labels of the entry end in `: ` and, but for the heading, start a line. */
  lemma EntryLabelSeams()
    ensures EntryHead[|EntryHead| - 2] == ':' && EntryHead[|EntryHead| - 1] == ' '
    ensures TitleLine[0] == '\n' && TitleLine[|TitleLine| - 2] == ':' && TitleLine[|TitleLine| - 1] == ' '
    ensures DateLine[0] == '\n' && DateLine[|DateLine| - 2] == ':' && DateLine[|DateLine| - 1] == ' '
    ensures ContractLine[0] == '\n' && ContractLine[|ContractLine| - 2] == ':' && ContractLine[|ContractLine| - 1] == ' '
  {
  }

  /** The heading of the entry lacks `0`, `Y` and `S`. */
  lemma EntryHeadLetters()
    ensures '0' !in EntryHead && 'Y' !in EntryHead && 'S' !in EntryHead
  {
  }

  /** The line labels of the entry lack `0`, `Y` and `S`. */
  lemma EntryLabelLetters()
    ensures '0' !in TitleLine && 'Y' !in TitleLine && 'S' !in TitleLine
    ensures '0' !in DateLine && 'Y' !in DateLine && 'S' !in DateLine
    ensures '0' !in ContractLine && 'Y' !in ContractLine && 'S' !in ContractLine
  {
  }

  // ---------------------------------------------------------------------
  // The default texts have the shapes the theorems rely on
  // ---------------------------------------------------------------------

  /** The contract body `init` writes has the shape the theorems below assume. */
  lemma ContractBodyShaped()
    ensures ContractBodyShape(ContractBody)
  {
    ContractPieces0();
    ContractPieces4();
    ContractPieces6();
    ContractPieces8();
    ContractPieces13();
    ContractPieces18();
    ContractPieces21();
    ContractPieces24();
    ContractPieces26();
    ConcatNoneOf(ContractBodyParts, 'A', 'Y', 'S');
    ConcatFirst(ContractBodyParts);
    var last := ContractBodyParts[|ContractBodyParts| - 1];
    assert ContractBody[|ContractBody| - 1] == last[|last| - 1];
  }

  /** The sections `init` writes into the entry template have the shape the theorems below assume. */
  lemma EntryRestShaped()
    ensures EntryRestShape(EntryRest)
  {
    EntryPieces0();
    EntryPieces4();
    EntryPieces7();
    EntryHeadingPiece();
    EntryPieces12();
    EntryPieces15();
    EntryPieces18();
    EntryPieces22();
    ConcatNoneOf(EntryRestParts, '0', 'Y', 'Y');
    ConcatFirst(EntryRestParts);
    assert TitleToken[0] == 'S' && |TitleToken| > 15;
    assert '\n' !in TitleToken by {
      TitlePunctuation();
    }
    forall k | 0 <= k < |EntryRestParts|
      ensures !Occurs(EntryRestParts[k], TitleToken) && SafeBefore(EntryRestParts[k], TitleToken)
    {
      if k == DriftHeading {
        ShorterThanPattern(EntryRestParts[k], TitleToken);
      } else {
        MissingCharacter(EntryRestParts[k], TitleToken, 'S');
      }
    }
    ConcatAbsent(EntryRestParts, TitleToken);
  }

  // ---------------------------------------------------------------------
  // Substitution acts slot by slot
  // ---------------------------------------------------------------------

  /**
   * A pattern without quotes that contains `A`, `Y` or `S` is substituted
   * inside the four slots of a contract only.
   */
  lemma ContractTextReplace(body: string, pat: string, rep: string, c: char,
                            id: string, title: string, date: string, link: string)
    requires ContractBodyShape(body)
    requires '"' !in pat && c in pat && (c == 'A' || c == 'Y' || c == 'S')
    ensures ReplaceAll(ContractText(body, id, title, date, link), pat, rep)
         == ContractText(body, ReplaceAll(id, pat, rep), ReplaceAll(title, pat, rep),
                         ReplaceAll(date, pat, rep), ReplaceAll(link, pat, rep))
  {
    ContractFrameFacts();
    ReplaceAllMissing(IdOpen, pat, rep, c);
    ReplaceAllMissing(TitleOpen, pat, rep, c);
    ReplaceAllMissing(DateOpen, pat, rep, c);
    ReplaceAllMissing(body, pat, rep, c);
    ReplaceAllMissing(ContractClose, pat, rep, c);
    ReplaceAllSlots(IdOpen, id, TitleOpen, title, DateOpen, date, body, link, ContractClose, pat, rep);
  }

  /**
   * A pattern without line breaks or colons, not starting with a space,
   * containing `0`, `Y` or `S` and absent from the sections, is substituted
   * inside the four slots of an entry only.
   */
  lemma EntryTextReplace(rest: string, pat: string, rep: string, c: char,
                         id: string, title: string, date: string, link: string)
    requires |rest| > 0 && rest[0] == '\n' && !Occurs(rest, pat)
    requires '\n' !in pat && ':' !in pat && c in pat && pat[0] != ' ' && (c == '0' || c == 'Y' || c == 'S')
    ensures ReplaceAll(EntryText(rest, id, title, date, link), pat, rep)
         == EntryText(rest, ReplaceAll(id, pat, rep), ReplaceAll(title, pat, rep),
                      ReplaceAll(date, pat, rep), ReplaceAll(link, pat, rep))
  {
    EntryLabelSeams();
    EntryHeadLetters();
    EntryLabelLetters();
    ReplaceAllMissing(EntryHead, pat, rep, c);
    ReplaceAllMissing(TitleLine, pat, rep, c);
    ReplaceAllMissing(DateLine, pat, rep, c);
    ReplaceAllMissing(ContractLine, pat, rep, c);
    ReplaceAllAbsent(rest, pat, rep);
    ReplaceAllSlots(EntryHead, id, TitleLine, title, DateLine, date, ContractLine, link, rest, pat, rep);
  }

  /** The slot-wise action of each placeholder on a contract. */
  lemma ContractTextReplaceToken(body: string, pat: string, rep: string,
                                 id: string, title: string, date: string, link: string)
    requires ContractBodyShape(body)
    requires pat == IdToken || pat == DateToken || pat == TitleToken || pat == EntryLinkToken
    ensures ReplaceAll(ContractText(body, id, title, date, link), pat, rep)
         == ContractText(body, ReplaceAll(id, pat, rep), ReplaceAll(title, pat, rep),
                         ReplaceAll(date, pat, rep), ReplaceAll(link, pat, rep))
  {
    PlaceholderLetters();
    LinkPlaceholderLetters();
    PlaceholderPunctuation();
    if pat == IdToken {
      ContractTextReplace(body, pat, rep, 'A', id, title, date, link);
    } else if pat == TitleToken {
      ContractTextReplace(body, pat, rep, 'S', id, title, date, link);
    } else {
      ContractTextReplace(body, pat, rep, 'Y', id, title, date, link);
    }
  }

  /** The slot-wise action of each placeholder on an entry. */
  lemma EntryTextReplaceToken(rest: string, pat: string, rep: string,
                              id: string, title: string, date: string, link: string)
    requires EntryRestShape(rest)
    requires pat == IdToken || pat == DateToken || pat == TitleToken || pat == ContractLinkToken
    ensures ReplaceAll(EntryText(rest, id, title, date, link), pat, rep)
         == EntryText(rest, ReplaceAll(id, pat, rep), ReplaceAll(title, pat, rep),
                      ReplaceAll(date, pat, rep), ReplaceAll(link, pat, rep))
  {
    PlaceholderLetters();
    LinkPlaceholderLetters();
    PlaceholderPunctuation();
    if pat == IdToken {
      MissingCharacter(rest, pat, '0');
      EntryTextReplace(rest, pat, rep, '0', id, title, date, link);
    } else if pat == TitleToken {
      EntryTextReplace(rest, pat, rep, 'S', id, title, date, link);
    } else {
      MissingCharacter(rest, pat, 'Y');
      EntryTextReplace(rest, pat, rep, 'Y', id, title, date, link);
    }
  }

  /** Replacing the date placeholder inside a link placeholder leaves its ends. */
  lemma DateInLink(prefix: string, suffix: string, d: string)
    requires |prefix| > 0 && prefix[|prefix| - 1] == '/' && 'Y' !in prefix
    requires |suffix| > 1 && suffix[0] == '-' && suffix[1] == 's' && 'Y' !in suffix
    ensures ReplaceAll(prefix + DateToken + suffix, DateToken, d) == prefix + d + suffix
  {
    ReplaceAllSeam(prefix + DateToken, suffix, DateToken, d);
    ReplaceAllSeam(prefix, DateToken, DateToken, d);
    ReplaceAllMissing(prefix, DateToken, d, 'Y');
    ReplaceAllPattern(DateToken, d);
    ReplaceAllMissing(suffix, DateToken, d, 'Y');
  }

  // ---------------------------------------------------------------------
  // The substitution chains of `new`
  // ---------------------------------------------------------------------

  /** The link `new` writes into a contract: the path of the entry file. */
  function EntryLink(d: string, slug: string): string
  {
    ".ai-ledger/entries/" + d + "-" + slug + ".md"
  }

  /** The link `new` writes into an entry: the path of the contract file. */
  function ContractLink(d: string, slug: string): string
  {
    ".ai-ledger/contracts/" + d + "-" + slug + ".contract.yaml"
  }

  /** The contract chain as written: id, date, title, then the link placeholder. */
  function FillContractAsWritten(tpl: string, id: string, d: string, title: string, slug: string): string
  {
    var t1 := ReplaceAll(tpl, IdToken, id);
    var t2 := ReplaceAll(t1, DateToken, d);
    var t3 := ReplaceAll(t2, TitleToken, title);
    ReplaceAll(t3, EntryLinkToken, EntryLink(d, slug))
  }

  /** The entry chain as written: id, date, title, then the link placeholder. */
  function FillEntryAsWritten(tpl: string, id: string, d: string, title: string, slug: string): string
  {
    var t1 := ReplaceAll(tpl, IdToken, id);
    var t2 := ReplaceAll(t1, DateToken, d);
    var t3 := ReplaceAll(t2, TitleToken, title);
    ReplaceAll(t3, ContractLinkToken, ContractLink(d, slug))
  }

  /** The link placeholder once the date step has run: the date filled in, the word `slug` kept. */
  function StaleLink(prefix: string, d: string, suffix: string): string
  {
    prefix + d + "-slug" + suffix
  }

  lemma IsoDateChars(d: string)
    requires IsIsoDate(d)
    ensures 'A' !in d && 'Y' !in d && 'S' !in d && '/' !in d
  {
  }

  lemma SlugTextChars(slug: string)
    requires IsSlugText(slug)
    ensures 'A' !in slug && 'Y' !in slug && 'S' !in slug
  {
  }

  /** The date step turns the link placeholder of the contract into a stale link. */
  lemma StaleEntryLink(d: string)
    ensures ReplaceAll(EntryLinkToken, DateToken, d) == StaleLink(".ai-ledger/entries/", d, ".md")
  {
    DateInLink(".ai-ledger/entries/", "-slug.md", d);
  }

  /** The date step turns the link placeholder of the entry into a stale link. */
  lemma StaleContractLink(d: string)
    ensures ReplaceAll(ContractLinkToken, DateToken, d) == StaleLink(".ai-ledger/contracts/", d, ".contract.yaml")
  {
    DateInLink(".ai-ledger/contracts/", "-slug.contract.yaml", d);
  }

  /** Neither the stale links nor the real ones hold a placeholder letter. */
  lemma LinkLetters(d: string, slug: string)
    requires IsIsoDate(d) && IsSlugText(slug)
    ensures 'A' !in EntryLink(d, slug) && 'Y' !in EntryLink(d, slug) && 'S' !in EntryLink(d, slug)
    ensures 'A' !in ContractLink(d, slug) && 'Y' !in ContractLink(d, slug) && 'S' !in ContractLink(d, slug)
    ensures 'Y' !in StaleLink(".ai-ledger/entries/", d, ".md") && 'S' !in StaleLink(".ai-ledger/entries/", d, ".md")
    ensures 'Y' !in StaleLink(".ai-ledger/contracts/", d, ".contract.yaml")
    ensures 'S' !in StaleLink(".ai-ledger/contracts/", d, ".contract.yaml")
  {
    IsoDateChars(d);
    SlugTextChars(slug);
  }

  /** The id step on a template in the default layout whose link slot lacks `A`. */
  lemma ContractIdStep(body: string, id: string, link: string)
    requires ContractBodyShape(body) && 'A' !in link
    ensures ReplaceAll(ContractText(body, IdToken, TitleToken, DateToken, link), IdToken, id)
         == ContractText(body, id, TitleToken, DateToken, link)
  {
    PlaceholderLetters();
    ContractTextReplaceToken(body, IdToken, id, IdToken, TitleToken, DateToken, link);
    ReplaceAllPattern(IdToken, id);
    ReplaceAllMissing(TitleToken, IdToken, id, 'A');
    ReplaceAllMissing(DateToken, IdToken, id, 'A');
    ReplaceAllMissing(link, IdToken, id, 'A');
  }

  /** The date step: the date slot gets the date, the link slot is searched too. */
  lemma ContractDateStep(body: string, id: string, d: string, link: string)
    requires ContractBodyShape(body)
    ensures ReplaceAll(ContractText(body, id, TitleToken, DateToken, link), DateToken, d)
         == ContractText(body, ReplaceAll(id, DateToken, d), TitleToken, d, ReplaceAll(link, DateToken, d))
  {
    PlaceholderLetters();
    ContractTextReplaceToken(body, DateToken, d, id, TitleToken, DateToken, link);
    ReplaceAllMissing(TitleToken, DateToken, d, 'Y');
    ReplaceAllPattern(DateToken, d);
  }

  /** The title step: the title slot gets the title verbatim. */
  lemma ContractTitleStep(body: string, id: string, title: string, d: string, link: string)
    requires ContractBodyShape(body) && 'S' !in d && 'S' !in link
    ensures ReplaceAll(ContractText(body, id, TitleToken, d, link), TitleToken, title)
         == ContractText(body, ReplaceAll(id, TitleToken, title), title, d, link)
  {
    PlaceholderLetters();
    ContractTextReplaceToken(body, TitleToken, title, id, TitleToken, d, link);
    ReplaceAllPattern(TitleToken, title);
    ReplaceAllMissing(d, TitleToken, title, 'S');
    ReplaceAllMissing(link, TitleToken, title, 'S');
  }

  /** The link step once no link placeholder is left in the date and link slots. */
  lemma ContractLinkStep(body: string, id: string, title: string, d: string, link: string, rep: string)
    requires ContractBodyShape(body) && 'Y' !in d && 'Y' !in link
    ensures ReplaceAll(ContractText(body, id, title, d, link), EntryLinkToken, rep)
         == ContractText(body, ReplaceAll(id, EntryLinkToken, rep), ReplaceAll(title, EntryLinkToken, rep), d, link)
  {
    LinkPlaceholderLetters();
    ContractTextReplaceToken(body, EntryLinkToken, rep, id, title, d, link);
    ReplaceAllMissing(d, EntryLinkToken, rep, 'Y');
    ReplaceAllMissing(link, EntryLinkToken, rep, 'Y');
  }

  /** The entry's id step, as `ContractIdStep`. */
  lemma EntryIdStep(rest: string, id: string, link: string)
    requires EntryRestShape(rest) && 'A' !in link
    ensures ReplaceAll(EntryText(rest, IdToken, TitleToken, DateToken, link), IdToken, id)
         == EntryText(rest, id, TitleToken, DateToken, link)
  {
    PlaceholderLetters();
    EntryTextReplaceToken(rest, IdToken, id, IdToken, TitleToken, DateToken, link);
    ReplaceAllPattern(IdToken, id);
    ReplaceAllMissing(TitleToken, IdToken, id, 'A');
    ReplaceAllMissing(DateToken, IdToken, id, 'A');
    ReplaceAllMissing(link, IdToken, id, 'A');
  }

  /** The entry's date step, as `ContractDateStep`. */
  lemma EntryDateStep(rest: string, id: string, d: string, link: string)
    requires EntryRestShape(rest)
    ensures ReplaceAll(EntryText(rest, id, TitleToken, DateToken, link), DateToken, d)
         == EntryText(rest, ReplaceAll(id, DateToken, d), TitleToken, d, ReplaceAll(link, DateToken, d))
  {
    PlaceholderLetters();
    EntryTextReplaceToken(rest, DateToken, d, id, TitleToken, DateToken, link);
    ReplaceAllMissing(TitleToken, DateToken, d, 'Y');
    ReplaceAllPattern(DateToken, d);
  }

  /** The entry's title step, as `ContractTitleStep`. */
  lemma EntryTitleStep(rest: string, id: string, title: string, d: string, link: string)
    requires EntryRestShape(rest) && 'S' !in d && 'S' !in link
    ensures ReplaceAll(EntryText(rest, id, TitleToken, d, link), TitleToken, title)
         == EntryText(rest, ReplaceAll(id, TitleToken, title), title, d, link)
  {
    PlaceholderLetters();
    EntryTextReplaceToken(rest, TitleToken, title, id, TitleToken, d, link);
    ReplaceAllPattern(TitleToken, title);
    ReplaceAllMissing(d, TitleToken, title, 'S');
    ReplaceAllMissing(link, TitleToken, title, 'S');
  }

  /** The entry's link step, as `ContractLinkStep`. */
  lemma EntryLinkStep(rest: string, id: string, title: string, d: string, link: string, rep: string)
    requires EntryRestShape(rest) && 'Y' !in d && 'Y' !in link
    ensures ReplaceAll(EntryText(rest, id, title, d, link), ContractLinkToken, rep)
         == EntryText(rest, ReplaceAll(id, ContractLinkToken, rep), ReplaceAll(title, ContractLinkToken, rep), d, link)
  {
    LinkPlaceholderLetters();
    EntryTextReplaceToken(rest, ContractLinkToken, rep, id, title, d, link);
    ReplaceAllMissing(d, ContractLinkToken, rep, 'Y');
    ReplaceAllMissing(link, ContractLinkToken, rep, 'Y');
  }

  /**
   * What the as-written chain makes of a contract in the default layout for
   * a calendar date: the date slot holds the date, the title slot the title
   * (only the link placeholder is still looked for in it), the id slot the id
   * with the later placeholders replaced, and the link slot the placeholder
   * path with the date filled in but the literal word `slug` in place of the
   * slug, because the date step already changed the link placeholder.
   */
  lemma ContractAsWritten(body: string, id: string, d: string, title: string, slug: string)
    requires ContractBodyShape(body) && IsIsoDate(d) && IsSlugText(slug)
    ensures FillContractAsWritten(ContractText(body, IdToken, TitleToken, DateToken, EntryLinkToken), id, d, title, slug)
         == ContractText(body,
              ReplaceAll(ReplaceAll(ReplaceAll(id, DateToken, d), TitleToken, title), EntryLinkToken, EntryLink(d, slug)),
              ReplaceAll(title, EntryLinkToken, EntryLink(d, slug)),
              d,
              StaleLink(".ai-ledger/entries/", d, ".md"))
  {
    IsoDateChars(d);
    LinkLetters(d, slug);
    LinkPlaceholderLetters();
    var stale := StaleLink(".ai-ledger/entries/", d, ".md");
    var i2 := ReplaceAll(id, DateToken, d);
    ContractIdStep(body, id, EntryLinkToken);
    ContractDateStep(body, id, d, EntryLinkToken);
    StaleEntryLink(d);
    ContractTitleStep(body, i2, title, d, stale);
    ContractLinkStep(body, ReplaceAll(i2, TitleToken, title), title, d, stale, EntryLink(d, slug));
  }

  /** The same for an entry in the default layout and its contract link. */
  lemma EntryAsWritten(rest: string, id: string, d: string, title: string, slug: string)
    requires EntryRestShape(rest) && IsIsoDate(d) && IsSlugText(slug)
    ensures FillEntryAsWritten(EntryText(rest, IdToken, TitleToken, DateToken, ContractLinkToken), id, d, title, slug)
         == EntryText(rest,
              ReplaceAll(ReplaceAll(ReplaceAll(id, DateToken, d), TitleToken, title), ContractLinkToken, ContractLink(d, slug)),
              ReplaceAll(title, ContractLinkToken, ContractLink(d, slug)),
              d,
              StaleLink(".ai-ledger/contracts/", d, ".contract.yaml"))
  {
    IsoDateChars(d);
    LinkLetters(d, slug);
    LinkPlaceholderLetters();
    var stale := StaleLink(".ai-ledger/contracts/", d, ".contract.yaml");
    var i2 := ReplaceAll(id, DateToken, d);
    EntryIdStep(rest, id, ContractLinkToken);
    EntryDateStep(rest, id, d, ContractLinkToken);
    StaleContractLink(d);
    EntryTitleStep(rest, i2, title, d, stale);
    EntryLinkStep(rest, ReplaceAll(i2, TitleToken, title), title, d, stale, ContractLink(d, slug));
  }

  /**
   * The discrepancy: whenever the slug is not the word `slug` itself, the
   * link left in each default template names no file `new` creates.
   */
  lemma StaleLinksMissTheFiles(d: string, slug: string)
    requires IsIsoDate(d) && slug != "slug"
    ensures StaleLink(".ai-ledger/entries/", d, ".md") != PathText(EntryPath(d, slug))
    ensures StaleLink(".ai-ledger/contracts/", d, ".contract.yaml") != PathText(ContractPath(d, slug))
  {
    GeneratedPaths(d, slug);
    var e := StaleLink(".ai-ledger/entries/", d, ".md");
    var e' := PathText(EntryPath(d, slug));
    if |e'| == |e| {
      assert e[30..34] == "slug" && e'[30..34] == slug;
    }
    var c := StaleLink(".ai-ledger/contracts/", d, ".contract.yaml");
    var c' := PathText(ContractPath(d, slug));
    if |c'| == |c| {
      assert c[32..36] == "slug" && c'[32..36] == slug;
    }
  }

  /** The discrepancy on one input: a title slugged `fix-auth`, created on 2026-10-15. */
  lemma StaleLinkExample()
    ensures StaleLink(".ai-ledger/entries/", "2026-10-15", ".md") == ".ai-ledger/entries/2026-10-15-slug.md"
    ensures StaleLink(".ai-ledger/entries/", "2026-10-15", ".md") != PathText(EntryPath("2026-10-15", "fix-auth"))
  {
    assert IsIsoDate("2026-10-15");
    StaleLinksMissTheFiles("2026-10-15", "fix-auth");
  }

  // ---------------------------------------------------------------------
  // The corrected chains: link placeholder first
  // ---------------------------------------------------------------------

  /** The contract chain with the link placeholder replaced before the date is. */
  function FillContract(tpl: string, id: string, d: string, title: string, slug: string): string
  {
    var t0 := ReplaceAll(tpl, EntryLinkToken, EntryLink(d, slug));
    var t1 := ReplaceAll(t0, IdToken, id);
    var t2 := ReplaceAll(t1, DateToken, d);
    ReplaceAll(t2, TitleToken, title)
  }

  /** The entry chain with the link placeholder replaced before the date is. */
  function FillEntry(tpl: string, id: string, d: string, title: string, slug: string): string
  {
    var t0 := ReplaceAll(tpl, ContractLinkToken, ContractLink(d, slug));
    var t1 := ReplaceAll(t0, IdToken, id);
    var t2 := ReplaceAll(t1, DateToken, d);
    ReplaceAll(t2, TitleToken, title)
  }

  /** Replacing the link placeholder first fills the link slot of a contract. */
  lemma ContractLinkFirst(body: string, link: string)
    requires ContractBodyShape(body)
    ensures ReplaceAll(ContractText(body, IdToken, TitleToken, DateToken, EntryLinkToken), EntryLinkToken, link)
         == ContractText(body, IdToken, TitleToken, DateToken, link)
  {
    PlaceholderLengths();
    ContractTextReplaceToken(body, EntryLinkToken, link, IdToken, TitleToken, DateToken, EntryLinkToken);
    ShorterThanPattern(IdToken, EntryLinkToken);
    ReplaceAllAbsent(IdToken, EntryLinkToken, link);
    ShorterThanPattern(TitleToken, EntryLinkToken);
    ReplaceAllAbsent(TitleToken, EntryLinkToken, link);
    ShorterThanPattern(DateToken, EntryLinkToken);
    ReplaceAllAbsent(DateToken, EntryLinkToken, link);
    ReplaceAllPattern(EntryLinkToken, link);
  }

  /** Replacing the link placeholder first fills the link slot of an entry. */
  lemma EntryLinkFirst(rest: string, link: string)
    requires EntryRestShape(rest)
    ensures ReplaceAll(EntryText(rest, IdToken, TitleToken, DateToken, ContractLinkToken), ContractLinkToken, link)
         == EntryText(rest, IdToken, TitleToken, DateToken, link)
  {
    PlaceholderLengths();
    EntryTextReplaceToken(rest, ContractLinkToken, link, IdToken, TitleToken, DateToken, ContractLinkToken);
    ShorterThanPattern(IdToken, ContractLinkToken);
    ReplaceAllAbsent(IdToken, ContractLinkToken, link);
    ShorterThanPattern(TitleToken, ContractLinkToken);
    ReplaceAllAbsent(TitleToken, ContractLinkToken, link);
    ShorterThanPattern(DateToken, ContractLinkToken);
    ReplaceAllAbsent(DateToken, ContractLinkToken, link);
    ReplaceAllPattern(ContractLinkToken, link);
  }

  /**
   * With the link first, a contract in the default layout gets the path of
   * the entry file in its link slot and the title verbatim in its title slot.
   */
  lemma ContractFilled(body: string, id: string, d: string, title: string, slug: string)
    requires ContractBodyShape(body) && IsIsoDate(d) && IsSlugText(slug)
    ensures FillContract(ContractText(body, IdToken, TitleToken, DateToken, EntryLinkToken), id, d, title, slug)
         == ContractText(body, ReplaceAll(ReplaceAll(id, DateToken, d), TitleToken, title), title, d,
                         PathText(EntryPath(d, slug)))
  {
    IsoDateChars(d);
    LinkLetters(d, slug);
    GeneratedPaths(d, slug);
    var link := EntryLink(d, slug);
    ContractLinkFirst(body, link);
    ContractIdStep(body, id, link);
    ContractDateStep(body, id, d, link);
    PlaceholderLetters();
    ReplaceAllMissing(link, DateToken, d, 'Y');
    ContractTitleStep(body, ReplaceAll(id, DateToken, d), title, d, link);
  }

  /**
   * With the link first, an entry in the default layout gets the path of the
   * contract file in its link slot and the title verbatim in its title slot.
   */
  lemma EntryFilled(rest: string, id: string, d: string, title: string, slug: string)
    requires EntryRestShape(rest) && IsIsoDate(d) && IsSlugText(slug)
    ensures FillEntry(EntryText(rest, IdToken, TitleToken, DateToken, ContractLinkToken), id, d, title, slug)
         == EntryText(rest, ReplaceAll(ReplaceAll(id, DateToken, d), TitleToken, title), title, d,
                      PathText(ContractPath(d, slug)))
  {
    IsoDateChars(d);
    LinkLetters(d, slug);
    GeneratedPaths(d, slug);
    var link := ContractLink(d, slug);
    EntryLinkFirst(rest, link);
    EntryIdStep(rest, id, link);
    EntryDateStep(rest, id, d, link);
    PlaceholderLetters();
    ReplaceAllMissing(link, DateToken, d, 'Y');
    EntryTitleStep(rest, ReplaceAll(id, DateToken, d), title, d, link);
  }

  /** A template in which no placeholder occurs is copied unchanged, by the chains as written and corrected. */
  lemma FillWithoutPlaceholders(tpl: string, id: string, d: string, title: string, slug: string)
    requires !Occurs(tpl, IdToken) && !Occurs(tpl, DateToken) && !Occurs(tpl, TitleToken)
    requires !Occurs(tpl, EntryLinkToken) && !Occurs(tpl, ContractLinkToken)
    ensures FillContractAsWritten(tpl, id, d, title, slug) == tpl
    ensures FillEntryAsWritten(tpl, id, d, title, slug) == tpl
    ensures FillContract(tpl, id, d, title, slug) == tpl
    ensures FillEntry(tpl, id, d, title, slug) == tpl
  {
    ReplaceAllAbsent(tpl, EntryLinkToken, EntryLink(d, slug));
    ReplaceAllAbsent(tpl, ContractLinkToken, ContractLink(d, slug));
    ReplaceAllAbsent(tpl, IdToken, id);
    ReplaceAllAbsent(tpl, DateToken, d);
    ReplaceAllAbsent(tpl, TitleToken, title);
  }
}
