# ai-ledger CLI in Dafny

A model of the `ai-ledger` reference command-line tool and proofs about it.
The tool keeps an append-only ledger of AI-assisted changes in a hidden
`.ai-ledger` folder of the working directory, with three commands:

- `init` creates the folders `contracts/`, `entries/` and `templates/` under
  `.ai-ledger`. It then writes the two default templates and `config.json`,
  each only where nothing exists yet.
- `new --title T [--id I]` derives a slug from the title and reads both
  templates. It replaces the id, date and title placeholders, then searches
  for the link placeholder. The date step has already rewritten that
  placeholder, so the link keeps the word `slug` (see Findings). It writes
  `contracts/<date>-<slug>.contract.yaml` and `entries/<date>-<slug>.md`.
- `check` passes when `contracts/` and `entries/` exist and each lists at
  least one name that does not start with a dot.

The project has six modules, one per concern of `packages/cli/src/index.ts`:

- `Substitution` (substitution.dfy) is JavaScript's `String.prototype.replaceAll` with a
  string pattern. It scans left to right and does not overlap matches.
  It proves how substitution behaves on text assembled from fixed parts and
  slots.
- `Slug` (slug.dfy) is `slugify`: trim, lower-case, collapse separator runs
  into one hyphen, strip one leading and one trailing hyphen, cut to 60
  characters. It also gives an independent description of the result, the
  title's words joined by hyphens, and proves the two equal.
- `Layout` (layout.dfy) holds the ledger's paths and the file names `new`
  derives from a date and a slug.
- `TemplateTexts` (texts.dfy) holds the fixed text of the two default
  templates, as lists of short pieces, and proves facts about their
  characters piece by piece.
- `Templates` (templates.dfy) holds the two default templates as texts with
  four slots. It has the placeholder chains of `new`, both as the source
  writes them and in corrected form (see Findings).
- `Ledger` (ledger.dfy) models the working directory as a set of directories
  and a map from file paths to contents. Each command is a function from the
  directory before to the directory after plus an exit status. The class
  `Disk` performs the same steps in place, in the commands' order, and is
  proved to reach the state and status the functions give.

An uncaught file-system error is modelled as a failure `Crashed(path)`, and
an explicit `process.exit(1)` as a failure with its reason. Both give exit
status 1.

## Model

| member | source | states |
|---|---|---|
| Substitution.ReplaceAll | packages/cli/src/index.ts:160-170 | definition of `replaceAll` with a string pattern: the text is scanned left to right and each match is replaced, without overlapping; its properties are the lemmas below |
| Substitution.ReplaceAllAbsent | packages/cli/src/index.ts:160-170 | a text in which the placeholder does not occur is returned unchanged |
| Substitution.ReplaceAllPattern | packages/cli/src/index.ts:161 | the placeholder on its own becomes the replacement |
| Substitution.ReplaceAllMissing | packages/cli/src/index.ts:160-170 | a text lacking any character of the placeholder is returned unchanged |
| Substitution.ReplaceAllConcat | packages/cli/src/index.ts:160-170 | substitution distributes over a concatenation whose seam no occurrence crosses |
| Substitution.AbsentSeam | packages/cli/src/index.ts:160-170 | two texts free of a placeholder, joined at a seam no occurrence crosses, are free of it too |
| Substitution.ReplaceAllSeam | packages/cli/src/index.ts:160-170 | the same, from a local condition on the characters next to the seam |
| Substitution.ReplaceAllSlots | packages/cli/src/index.ts:160-170 | in a text of five fixed parts and four slots, when the fixed parts are untouched and safe at their seams, substitution acts on each slot separately |
| Slug.Trim | packages/cli/src/index.ts:26 | definition of `trim`: whitespace and line terminators go from both ends |
| Slug.LowerChar | packages/cli/src/index.ts:27 | lower-casing maps exactly the ASCII letters and digits into `[a-z0-9]` and leaves whitespace alone |
| Slug.Lower | packages/cli/src/index.ts:27 | lower-casing keeps the length and acts character by character |
| Slug.Collapse | packages/cli/src/index.ts:28 | definition of `replace(/[^a-z0-9]+/g, "-")`: each maximal run of characters outside `[a-z0-9]` becomes one hyphen; `Slug.CollapseIsJoin` states its result |
| Slug.StripHyphens | packages/cli/src/index.ts:29 | definition of the second `replace`, whose pattern matches a hyphen at the start or at the end: one leading and one trailing hyphen are dropped |
| Slug.Truncate | packages/cli/src/index.ts:30 | definition of `slice(0, 60)`: the first 60 characters, or the whole text when shorter |
| Slug.Slugify | packages/cli/src/index.ts:24-31 | definition of `slugify` as the five steps in order; `Slug.SlugifyIsJoinedWords` and `Slug.SlugifyShape` state its result |
| Slug.SkipSeparators | packages/cli/src/index.ts:28 | what is left after skipping separators is empty or starts with a letter or digit |
| Slug.TrimKeepsWords | packages/cli/src/index.ts:26 | trimming the title does not change its words, so it cannot change the slug |
| Slug.CollapseIsJoin | packages/cli/src/index.ts:28 | on text starting with a letter or digit, collapsing separator runs gives the words joined by single hyphens, plus one hyphen if the text ends in separators |
| Slug.StripCollapseIsJoin | packages/cli/src/index.ts:28-29 | collapsing, then stripping one hyphen at each edge, gives exactly the words joined by single hyphens |
| Slug.JoinWordsShape | packages/cli/src/index.ts:28-29 | joined words use only slug characters, never hold two hyphens in a row, start and end with a letter or digit, and are empty only when there are no words |
| Slug.SlugifyIsJoinedWords | packages/cli/src/index.ts:24-31 | the slug equals the lower-cased words of the title joined by hyphens and cut to 60 characters |
| Slug.SlugifyShape | packages/cli/src/index.ts:24-31 | the slug is at most 60 characters of `a`-`z`, `0`-`9` and `-`, with no two hyphens in a row and no leading hyphen |
| Slug.SlugifyTrailingHyphen | packages/cli/src/index.ts:29-30 | the slug ends with a hyphen exactly when the 60-character cut falls just after a hyphen; without a cut the slug is the joined words |
| Slug.SlugifyEmpty | packages/cli/src/index.ts:24-31 | the slug is empty exactly when the title has no ASCII letter or digit |
| Layout.GeneratedPaths | packages/cli/src/index.ts:157-158 | the contract is written at `.ai-ledger/contracts/<d>-<slug>.contract.yaml` and the entry at `.ai-ledger/entries/<d>-<slug>.md`; the two share their stem |
| Layout.GeneratedNamesDistinct | packages/cli/src/index.ts:157-158 | for calendar dates, the generated paths determine date and slug; a contract path never equals an entry path; neither equals a template or the configuration; each name starts with a digit |
| TemplateTexts.ConcatAbsent | packages/cli/src/index.ts:51-117 | pieces free of a placeholder, each ending where no occurrence can start, join into a text free of it |
| Templates.ContractBodyShaped | packages/cli/src/index.ts:53-79 | the built-in contract text outside its four slots starts with a quote, holds no `A`, `Y` or `S` and ends with a quote, the shape the substitution theorems rely on |
| Templates.EntryRestShaped | packages/cli/src/index.ts:93-118 | the built-in entry sections start a line and hold no `0` or `Y` and no title placeholder |
| Templates.ContractText | packages/cli/src/index.ts:51-80 | the default contract template with its four slots (id, title, date, entry link) as parameters; `ContractTemplate` fills them with the placeholders |
| Templates.EntryText | packages/cli/src/index.ts:88-118 | the default entry template with its four slots (id, title, date, contract link) as parameters; `EntryTemplate` fills them with the placeholders |
| Templates.FillContractAsWritten | packages/cli/src/index.ts:160-164 | definition of the contract chain in the program's order: id, date, title, then the entry link; `Templates.ContractAsWritten` states its result |
| Templates.FillEntryAsWritten | packages/cli/src/index.ts:166-170 | definition of the entry chain in the program's order: id, date, title, then the contract link; `Templates.EntryAsWritten` states its result |
| Templates.ContractTextReplaceToken | packages/cli/src/index.ts:160-164 | each placeholder acts slot by slot on a contract in the default layout |
| Templates.EntryTextReplaceToken | packages/cli/src/index.ts:166-170 | each placeholder acts slot by slot on an entry in the default layout |
| Templates.DateInLink | packages/cli/src/index.ts:162 | the date step rewrites the date inside a link placeholder and keeps its two ends |
| Templates.StaleEntryLink | packages/cli/src/index.ts:162-164 | after the date step, the contract's link placeholder has become `.ai-ledger/entries/<d>-slug.md` |
| Templates.StaleContractLink | packages/cli/src/index.ts:168-170 | after the date step, the entry's link placeholder has become `.ai-ledger/contracts/<d>-slug.contract.yaml` |
| Templates.ContractAsWritten | packages/cli/src/index.ts:160-164 | the chain as written fills id, title and date, but leaves the link with the literal word `slug` |
| Templates.EntryAsWritten | packages/cli/src/index.ts:166-170 | the same for the entry and its contract link |
| Templates.StaleLinksMissTheFiles | packages/cli/src/index.ts:157-170 | for any slug other than `slug`, the link left in each file differs from the path of the companion file |
| Templates.StaleLinkExample | packages/cli/src/index.ts:157-164 | with the date 2026-10-15 and the slug `fix-auth`, the contract's link reads `.ai-ledger/entries/2026-10-15-slug.md`, not the entry's path |
| Templates.ContractLinkFirst | packages/cli/src/index.ts:164 | replacing the link placeholder first fills exactly the link slot of the contract |
| Templates.EntryLinkFirst | packages/cli/src/index.ts:170 | replacing the link placeholder first fills exactly the link slot of the entry |
| Templates.ContractFilled | packages/cli/src/index.ts:160-164 | the corrected chain yields the contract with the id, the title, the date and the path of the entry file in their slots |
| Templates.EntryFilled | packages/cli/src/index.ts:166-170 | the corrected chain yields the entry with the id, the title, the date and the path of the contract file in their slots |
| Templates.FillWithoutPlaceholders | packages/cli/src/index.ts:160-170 | a template containing no placeholder is written unchanged, by the chains as written and by the corrected ones |
| Ledger.MkdirFrom | packages/cli/src/index.ts:15-17 | definition of a recursive `mkdirSync`: the prefixes of the path are made outermost first, and a file at a prefix stops it with an error |
| Ledger.EnsureDirsResult | packages/cli/src/index.ts:14-18 | `ensureDirs` in closed form: the first ledger directory that is a file stops it, with the directories before it made; otherwise all four exist |
| Ledger.InitResult | packages/cli/src/index.ts:41-140 | definition of `init`: `ensureDirs`, then each of the three default files written only where nothing exists |
| Ledger.DefaultId | packages/cli/src/index.ts:156 | definition of the clock-based id `AILE-` followed by the clock in decimal |
| Ledger.ChosenId | packages/cli/src/index.ts:156 | definition of the id `new` uses: `--id` when given, even when empty, the clock-based id otherwise |
| Ledger.NewWriting | packages/cli/src/index.ts:147-178 | definition of `new` for any way of filling the two templates: refuse without `.ai-ledger`, `ensureDirs`, read both templates, write the contract, then the entry |
| Ledger.NewResult | packages/cli/src/index.ts:147-178 | definition of `new` with the chains as the program writes them; `Ledger.NewEffect` and `Ledger.NewFillsTemplates` state its result |
| Ledger.NewResultCorrected | packages/cli/src/index.ts:155-173 | `new` with the corrected chains, which replace the link placeholder first; `Ledger.NewCorrectedFillsTemplates` states its result |
| Ledger.CheckResult | packages/cli/src/index.ts:183-195 | definition of `check`: both folders must exist, reading one that is a file crashes, and each must list a name not starting with a dot; `Ledger.CheckPasses` states it as an if-and-only-if |
| Ledger.MkdirTwo | packages/cli/src/index.ts:15 | recursive `mkdir` of a two-level path makes the missing levels outermost first; a file in the way stops it after the levels made so far |
| Ledger.EnsureDirsByMkdir | packages/cli/src/index.ts:14-18 | the three recursive `mkdir` calls in order amount to the closed form `EnsureDirsResult` |
| Ledger.EnsureDirsEffect | packages/cli/src/index.ts:14-18 | `ensureDirs` touches no file; it succeeds exactly when none of the four ledger directories is a file, and then it adds exactly those four; a failure names one of them |
| Ledger.EnsureDirsWellFormed | packages/cli/src/index.ts:14-18 | `ensureDirs` keeps the working directory a tree |
| Ledger.WriteIfAbsentEffect | packages/cli/src/index.ts:48-50 | a write guarded by `existsSync` creates the file only where nothing exists, and keeps every existing entry |
| Ledger.InitEffect | packages/cli/src/index.ts:41-137 | `init` succeeds exactly when no ledger directory is a file; it then adds the four directories, keeps every existing file byte for byte, writes only default files at free paths, and leaves every default path existing; on failure no file changes |
| Ledger.InitIdempotent | packages/cli/src/index.ts:41-137 | running `init` a second time changes nothing and ends as the first run did, whatever its outcome: a success is repeated, and a failure recurs at the same directory with the same tree |
| Ledger.InitWellFormed | packages/cli/src/index.ts:41-137 | `init` keeps the working directory a tree |
| Ledger.InitThenCheck | packages/cli/src/index.ts:183-193 | in an empty directory `init` succeeds, and `check` then fails with empty folders |
| Ledger.Decimal | packages/cli/src/index.ts:156 | the printed clock value is a non-empty string of decimal digits |
| Ledger.DecimalRoundTrip | packages/cli/src/index.ts:156 | those digits read back as the clock value |
| Ledger.DefaultIdVerbatim | packages/cli/src/index.ts:156-170 | the clock-based id holds no placeholder, so the date, title and link steps of both files copy it unchanged |
| Ledger.NewWithoutLedger | packages/cli/src/index.ts:148-151 | without `.ai-ledger`, `new` exits with status 1 and changes nothing |
| Ledger.NewEffect | packages/cli/src/index.ts:147-173 | `new` succeeds exactly when the ledger exists, no ledger directory is a file, both templates are files and neither target is a directory; it then adds the four directories and writes exactly the two filled files, replacing earlier ones |
| Ledger.NewFrame | packages/cli/src/index.ts:152-173 | whatever the outcome, `new` changes no file but the two it writes and makes no directory outside the ledger's four |
| Ledger.NewWellFormed | packages/cli/src/index.ts:152-173 | `new` keeps the working directory a tree |
| Ledger.NewThenCheck | packages/cli/src/index.ts:172-194 | after a successful `new` on a calendar date, `check` passes |
| Ledger.NewSameSlugOverwrites | packages/cli/src/index.ts:157-173 | a second `new` on the same day with a title of the same slug ends exactly as if the first had not run |
| Ledger.NewFillsTemplates | packages/cli/src/index.ts:155-173 | from templates in the default layout, the contract written holds the id and the title (each searched for the link placeholder after the earlier steps) and the date, but a link that keeps the word `slug`; for any other slug that link names no file `new` writes; the entry likewise |
| Ledger.NewCorrectedFillsTemplates | packages/cli/src/index.ts:155-173 | with the corrected chains, the contract written holds the id, title, date and the path of the entry written beside it, and the entry links back to the contract |
| Ledger.InitFresh | packages/cli/src/index.ts:41-84 | in an empty directory `init` succeeds, makes exactly the ledger's directories and writes both templates |
| Ledger.NewAfterInit | packages/cli/src/index.ts:147-173 | `new` succeeds in a ledger holding its directories and both templates, whatever the title and date |
| Ledger.InitThenNewFrom | packages/cli/src/index.ts:41-173 | for any default texts of the built-in shape, `init` then `new` in an empty directory succeeds and writes the filled files with stale links |
| Ledger.InitThenNew | packages/cli/src/index.ts:41-173 | with the built-in texts, `init` then `new` in an empty directory succeeds and writes the built-in contract and entry with id, title and date filled and the links left stale |
| Ledger.CheckPasses | packages/cli/src/index.ts:183-195 | `check` passes exactly when `contracts/` and `entries/` are directories that each list a name not starting with a dot |
| Ledger.HiddenOnlyFails | packages/cli/src/index.ts:188-193 | hidden names alone, such as `.gitkeep`, do not make `contracts/` pass |
| Ledger.Disk.Mkdir | packages/cli/src/index.ts:15-17 | the in-place recursive `mkdir` ends in the state and status `MkdirResult` gives |
| Ledger.Disk.EnsureDirs | packages/cli/src/index.ts:14-18 | the three calls in place end in the state and status of `EnsureDirsResult` |
| Ledger.Disk.Init | packages/cli/src/index.ts:41-140 | `init` performed in place ends in the state and status `InitResult` gives for the built-in defaults |
| Ledger.Disk.New | packages/cli/src/index.ts:147-178 | `new` performed in place, with the chains as written, ends in the state and status `NewResult` gives |
| Ledger.Disk.Check | packages/cli/src/index.ts:183-195 | `check` changes nothing and returns the status `CheckResult` gives |

## Left out

- Argument parsing by `commander` is not modelled: the required `--title`, the optional `--id`, `--version` and help output. `new` receives the title and an optional id directly.
- Console output is not modelled. `process.exit(1)` and uncaught exceptions become a failed status with exit code 1.
- The clock is a parameter. `today()` is the date `d` and `Date.now()` is `now`; the proofs that need a calendar date assume `d` has the `YYYY-MM-DD` shape.
- File-system errors are modelled only as far as the tree shape decides them:
  - a file where a directory must be made;
  - a missing template;
  - a directory where a file must be written;
  - `check` reading a folder that is a file.

  Permissions, disk space, symbolic links and partial writes are not modelled. Neither is the file that `writeFileSync` truncates before it fails.
- Paths are lists of components relative to the working directory. `path.join` normalisation is not modelled because every joined part is a fixed name or a slug, and those hold no `/` or `..`.
- Slug.Lower: only ASCII letters are lower-cased. `toLowerCase` on other characters is not modelled. Here every non-ASCII character counts as a separator. JavaScript lower-cases the Kelvin sign to `k`, and `İ` to `i` followed by the combining dot U+0307. So the program slugs `İx` as `i-x`, where the model gives `x`.
- Substitution.ReplaceAll: the replacement is inserted literally. JavaScript's `$&`, `$$`, `` $` `` and `$'` replacement patterns in a title or id are not modelled.
- Substitution.ReplaceAll: the empty pattern is excluded. Every placeholder is non-empty.
- Ledger.InitEffect and the other `init` lemmas hold for any three default texts. Only `Disk.Init` fixes them to the built-in `ContractTemplate`, `EntryTemplate` and `DefaultConfig`. The configuration text is written out as `JSON.stringify` would print it, not computed.
- Ledger.NewEffect and the other lemmas about `NewWriting` hold for any way of filling the templates. `NewResult` supplies the chains as the command writes them, and `NewFillsTemplates` says what they produce.

## Findings

| source | as written | input that shows it | evidently intended | confidence | as-written member | corrected member |
|---|---|---|---|---|---|---|
| packages/cli/src/index.ts:160-170 | the date placeholder is replaced before the link placeholder. The date step rewrites the `YYYY-MM-DD` inside `.ai-ledger/entries/YYYY-MM-DD-slug.md`, so the last `replaceAll` no longer finds the link placeholder. The link keeps the literal word `slug`; the entry link suffers the same. | `new --title "Fix auth"` on 2026-10-15: the contract links `.ai-ledger/entries/2026-10-15-slug.md`, but the entry is written at `.ai-ledger/entries/2026-10-15-fix-auth.md` | each file links to the companion file `new` writes beside it | high, by proof; not executed | Templates.ContractAsWritten, Templates.StaleLinkExample | Templates.ContractFilled |
| packages/cli/src/index.ts:166-170 | as above, for the entry's link to its contract | the same command: the entry links `.ai-ledger/contracts/2026-10-15-slug.contract.yaml` | the entry links to `.ai-ledger/contracts/2026-10-15-fix-auth.contract.yaml` | high, by proof; not executed | Templates.EntryAsWritten, Templates.StaleLinksMissTheFiles | Templates.EntryFilled |

The corrected chains `Templates.FillContract` and `Templates.FillEntry` replace the link placeholder first, then the id, the date and the title. `Ledger.NewResult` and `Ledger.Disk.New` follow the command as written. `Ledger.NewResultCorrected` is the command with the corrected chains, and `Ledger.NewCorrectedFillsTemplates` proves that its two files link to each other.
