/**
 * The three commands of the CLI over a model of the working directory.
 *
 * The file system is a set of directories and a map from file paths to
 * contents (`Tree`). Each command is first defined as a function from the
 * tree before to the tree after and the exit status (`InitResult`,
 * `NewResult`, `CheckResult`); the class `Disk` then carries out the same
 * steps in place, in the order the command performs them, and is proved to
 * end in the state and status the function gives. The lemmas state what the
 * commands promise.
 */
module Ledger {
  import opened Layout
  import opened Slug
  import opened Templates
  import opened Substitution

  datatype Option<T> = None | Some(value: T)

  /** A snapshot of the working directory. */
  datatype Tree = Tree(dirs: set<Path>, files: map<Path, string>)

  /** Why a command ends with exit status 1. */
  datatype Failure =
    | LedgerMissing          // `new` without `.ai-ledger`
    | FoldersMissing         // `check` without contracts/ or entries/
    | FoldersEmpty           // `check` with nothing visible in one of them
    | Crashed(path: Path)    // an uncaught file-system error at `path`

  datatype Status = Success | Failed(why: Failure)

  datatype Outcome = Outcome(tree: Tree, status: Status)

  function ExitCode(s: Status): (code: int)
    ensures code == 0 <==> s == Success
    ensures code == 0 || code == 1
  {
    if s.Success? then 0 else 1
  }

  const EmptyTree := Tree({[]}, map[])

  /** The configuration `init` writes: two-space indented JSON and a newline. */
  const DefaultConfig :=
    "{\n  \"version\": \"0.1\",\n  \"defaultRiskLevel\": \"low\",\n  \"requireHumanApproval\": true\n}\n"

  /** The four directories `ensureDirs` creates. */
  const LedgerDirs: set<Path> := {Base, ContractsDir, EntriesDir, TemplatesDir}

  predicate Exists(t: Tree, p: Path)
  {
    p in t.dirs || p in t.files
  }

  /**
   * The working directory is a tree: every directory above an entry exists,
   * and no path is both a file and a directory.
   */
  predicate WellFormed(t: Tree)
  {
    && [] in t.dirs
    && (forall p, i | p in t.dirs && 0 <= i <= |p| :: p[..i] in t.dirs)
    && (forall p | p in t.files :: p != [] && p !in t.dirs && forall i | 0 <= i < |p| :: p[..i] in t.dirs)
  }

  // ---------------------------------------------------------------------
  // File-system primitives
  // ---------------------------------------------------------------------

  /**
   * `mkdirSync(p, { recursive: true })` from the `i`-th prefix of `p` on:
   * missing directories are created outermost first; a file in the way
   * stops it with an error, leaving the directories made so far.
   */
  function MkdirFrom(t: Tree, p: Path, i: nat): Outcome
    requires 1 <= i
    decreases |p| + 1 - i
  {
    if i > |p| then Outcome(t, Success)
    else if p[..i] in t.files then Outcome(t, Failed(Crashed(p[..i])))
    else MkdirFrom(t.(dirs := t.dirs + {p[..i]}), p, i + 1)
  }

  function MkdirResult(t: Tree, p: Path): Outcome
  {
    MkdirFrom(t, p, 1)
  }

  /** The three `mkdirSync` calls of `ensureDirs`, one after the other, stopping at the first error. */
  function EnsureDirsSteps(t: Tree): Outcome
  {
    var o1 := MkdirResult(t, ContractsDir);
    if o1.status.Failed? then o1
    else
      var o2 := MkdirResult(o1.tree, EntriesDir);
      if o2.status.Failed? then o2
      else MkdirResult(o2.tree, TemplatesDir)
  }

  /**
   * What `ensureDirs` does, stated outright: the first of `.ai-ledger`,
   * contracts/, entries/ and templates/ that is a file stops it, with the
   * directories before it made; otherwise all four exist afterwards.
   */
  function EnsureDirsResult(t: Tree): Outcome
  {
    if Base in t.files then Outcome(t, Failed(Crashed(Base)))
    else if ContractsDir in t.files then Outcome(t.(dirs := t.dirs + {Base}), Failed(Crashed(ContractsDir)))
    else if EntriesDir in t.files then Outcome(t.(dirs := t.dirs + {Base, ContractsDir}), Failed(Crashed(EntriesDir)))
    else if TemplatesDir in t.files then
      Outcome(t.(dirs := t.dirs + {Base, ContractsDir, EntriesDir}), Failed(Crashed(TemplatesDir)))
    else Outcome(t.(dirs := t.dirs + LedgerDirs), Success)
  }

  /** The names `readdirSync(dir)` lists: files and directories directly inside `dir`. */
  function Names(t: Tree, dir: Path): set<string>
  {
    set p | p in t.dirs + t.files.Keys && |p| == |dir| + 1 && p[..|dir|] == dir :: p[|dir|]
  }

  predicate IsHidden(name: string)
  {
    |name| > 0 && name[0] == '.'
  }

  /** The listing filtered as `check` filters it: names not starting with a dot. */
  function VisibleNames(t: Tree, dir: Path): set<string>
  {
    set n | n in Names(t, dir) && !IsHidden(n)
  }

  /** `existsSync(p) ? skip : writeFileSync(p, text)`, where the directory of `p` exists. */
  function WriteIfAbsent(t: Tree, p: Path, text: string): Tree
  {
    if Exists(t, p) then t else t.(files := t.files[p := text])
  }

  /** `writeFileSync(p, text)`, where the directory of `p` exists: fails on a directory, replaces a file. */
  function Write(t: Tree, p: Path, text: string): Outcome
  {
    if p in t.dirs then Outcome(t, Failed(Crashed(p)))
    else Outcome(t.(files := t.files[p := text]), Success)
  }

  // ---------------------------------------------------------------------
  // The commands, as functions of the working directory
  // ---------------------------------------------------------------------

  /** The three texts `init` writes: the contract template, the entry template and the configuration. */
  datatype Defaults = Defaults(contract: string, entry: string, config: string)

  const BuiltIn := Defaults(ContractTemplate, EntryTemplate, DefaultConfig)

  /**
   * `init`: make the directories, then write each default file that does
   * not exist yet. The command writes `BuiltIn`; the texts are a parameter
   * here so that what is proved about `init` holds whatever they say.
   */
  function InitResult(t: Tree, defs: Defaults): Outcome
  {
    var o := EnsureDirsResult(t);
    if o.status.Failed? then o
    else
      var t1 := WriteIfAbsent(o.tree, ContractTemplatePath, defs.contract);
      var t2 := WriteIfAbsent(t1, EntryTemplatePath, defs.entry);
      Outcome(WriteIfAbsent(t2, ConfigPath, defs.config), Success)
  }

  /** Decimal digits of a natural number, as JavaScript prints an integer. */
  function Decimal(n: nat): (s: string)
    ensures |s| > 0 && forall i | 0 <= i < |s| :: IsDigit(s[i])
  {
    if n < 10 then ['0' + n as char] else Decimal(n / 10) + ['0' + (n % 10) as char]
  }

  /** The number a string of decimal digits denotes. */
  function DecimalValue(s: string): nat
    requires forall i | 0 <= i < |s| :: IsDigit(s[i])
  {
    if s == [] then 0
    else
      var last := s[|s| - 1];
      assert IsDigit(last);
      DecimalValue(s[..|s| - 1]) * 10 + (last as int - '0' as int)
  }

  /** The id `new` uses without `--id`: `AILE-` and the clock in milliseconds. */
  function DefaultId(now: nat): string
  {
    "AILE-" + Decimal(now)
  }

  /** `--id` when given, even when empty; the clock-based id otherwise. */
  function ChosenId(id: Option<string>, now: nat): string
  {
    if id.Some? then id.value else DefaultId(now)
  }

  /**
   * `new`: refuse without `.ai-ledger`; make the directories; read both
   * templates; fill them with the chains as the command writes them; write
   * the contract, then the entry. `now` is what `Date.now()` returned and
   * `d` what `today()` returned; the command reads the clock twice, so the
   * two are separate inputs.
   */
  function NewResult(t: Tree, title: string, id: Option<string>, now: nat, d: string): Outcome
  {
    var slug := Slugify(title);
    var theId := ChosenId(id, now);
    NewWriting(t, d, slug,
               tpl => FillContractAsWritten(tpl, theId, d, title, slug),
               tpl => FillEntryAsWritten(tpl, theId, d, title, slug))
  }

  /** `new` with the corrected chains, which replace the link placeholder first. */
  function NewResultCorrected(t: Tree, title: string, id: Option<string>, now: nat, d: string): Outcome
  {
    var slug := Slugify(title);
    var theId := ChosenId(id, now);
    NewWriting(t, d, slug,
               tpl => FillContract(tpl, theId, d, title, slug),
               tpl => FillEntry(tpl, theId, d, title, slug))
  }

  /**
   * The file-system steps of `new`, for the files of date `d` and slug
   * `slug`; `fillContract` and `fillEntry` turn each template into the file.
   */
  function NewWriting(t: Tree, d: string, slug: string,
                      fillContract: string -> string, fillEntry: string -> string): Outcome
  {
    if !Exists(t, Base) then Outcome(t, Failed(LedgerMissing))
    else
      var o := EnsureDirsResult(t);
      if o.status.Failed? then o
      else if ContractTemplatePath !in o.tree.files then Outcome(o.tree, Failed(Crashed(ContractTemplatePath)))
      else if EntryTemplatePath !in o.tree.files then Outcome(o.tree, Failed(Crashed(EntryTemplatePath)))
      else
        var contract := fillContract(o.tree.files[ContractTemplatePath]);
        var entry := fillEntry(o.tree.files[EntryTemplatePath]);
        var w := Write(o.tree, ContractPath(d, slug), contract);
        if w.status.Failed? then w else Write(w.tree, EntryPath(d, slug), entry)
  }

  /** `check`: both folders exist and each lists at least one visible name. */
  function CheckResult(t: Tree): Status
  {
    if !Exists(t, ContractsDir) || !Exists(t, EntriesDir) then Failed(FoldersMissing)
    else if ContractsDir in t.files then Failed(Crashed(ContractsDir))
    else if EntriesDir in t.files then Failed(Crashed(EntriesDir))
    else if VisibleNames(t, ContractsDir) == {} || VisibleNames(t, EntriesDir) == {} then Failed(FoldersEmpty)
    else Success
  }

  // ---------------------------------------------------------------------
  // Layout and file-system primitives
  // ---------------------------------------------------------------------

  /** How the fixed paths nest and differ. */
  lemma LayoutShape()
    ensures |Base| == 1 && |ConfigPath| == 2
    ensures |ContractsDir| == 2 && |EntriesDir| == 2 && |TemplatesDir| == 2
    ensures |ContractTemplatePath| == 3 && |EntryTemplatePath| == 3
    ensures ContractsDir[..1] == Base && EntriesDir[..1] == Base && TemplatesDir[..1] == Base
    ensures ConfigPath[..1] == Base
    ensures ContractTemplatePath[..2] == TemplatesDir && EntryTemplatePath[..2] == TemplatesDir
    ensures ContractsDir != EntriesDir && ContractsDir != TemplatesDir && EntriesDir != TemplatesDir
    ensures ConfigPath != ContractsDir && ConfigPath != EntriesDir && ConfigPath != TemplatesDir
    ensures ContractTemplatePath != EntryTemplatePath
  {
    assert ContractsDir[1] == "contracts" && EntriesDir[1] == "entries" && TemplatesDir[1] == "templates";
    assert ConfigPath[1] == "config.json";
    assert ContractTemplatePath[2] == "contract.yaml" && EntryTemplatePath[2] == "entry.md";
  }

  /** Where `new` writes: one level below contracts/ and entries/, never a fixed path. */
  lemma GeneratedShape(d: string, slug: string)
    ensures |ContractPath(d, slug)| == 3 && ContractPath(d, slug)[..2] == ContractsDir
    ensures |EntryPath(d, slug)| == 3 && EntryPath(d, slug)[..2] == EntriesDir
    ensures ContractPath(d, slug) != EntryPath(d, slug)
    ensures ContractPath(d, slug) !in {ContractTemplatePath, EntryTemplatePath}
    ensures EntryPath(d, slug) !in {ContractTemplatePath, EntryTemplatePath}
  {
    LayoutShape();
    var cp, ep := ContractPath(d, slug), EntryPath(d, slug);
    assert cp[..2] == ContractsDir && ep[..2] == EntriesDir;
    assert ContractTemplatePath[..2] == TemplatesDir && EntryTemplatePath[..2] == TemplatesDir;
  }

  /** Creating a two-level directory. */
  lemma MkdirTwo(t: Tree, p: Path)
    requires |p| == 2
    ensures MkdirResult(t, p) ==
      if p[..1] in t.files then Outcome(t, Failed(Crashed(p[..1])))
      else if p in t.files then Outcome(t.(dirs := t.dirs + {p[..1]}), Failed(Crashed(p)))
      else Outcome(t.(dirs := t.dirs + {p[..1], p}), Success)
  {
    assert p[..2] == p;
    var t1 := t.(dirs := t.dirs + {p[..1]});
    if p[..1] !in t.files {
      assert MkdirResult(t, p) == MkdirFrom(t1, p, 2);
      if p !in t.files {
        var t2 := t1.(dirs := t1.dirs + {p});
        assert MkdirFrom(t1, p, 2) == MkdirFrom(t2, p, 3);
        assert MkdirFrom(t2, p, 3) == Outcome(t2, Success);
        assert t1.dirs + {p} == t.dirs + {p[..1], p};
      }
    }
  }

  /** The three recursive `mkdirSync` calls amount to `EnsureDirsResult`. */
  lemma EnsureDirsByMkdir(t: Tree)
    ensures EnsureDirsSteps(t) == EnsureDirsResult(t)
  {
    LayoutShape();
    MkdirTwo(t, ContractsDir);
    var o1 := MkdirResult(t, ContractsDir);
    MkdirTwo(o1.tree, EntriesDir);
    var o2 := MkdirResult(o1.tree, EntriesDir);
    MkdirTwo(o2.tree, TemplatesDir);
    if o1.status == Success && o2.status == Success {
      assert o2.tree.dirs + {Base, TemplatesDir} == t.dirs + LedgerDirs;
    }
  }

  /**
   * `ensureDirs` never touches a file; it succeeds exactly when none of the
   * four directories is a file, and then it has added exactly those four.
   * When it fails, the uncaught error names one of them.
   */
  lemma EnsureDirsEffect(t: Tree)
    ensures EnsureDirsResult(t).tree.files == t.files
    ensures EnsureDirsResult(t).status == Success <==> forall q | q in LedgerDirs :: q !in t.files
    ensures EnsureDirsResult(t).status == Success ==> EnsureDirsResult(t).tree.dirs == t.dirs + LedgerDirs
    ensures EnsureDirsResult(t).status.Failed? ==>
              EnsureDirsResult(t).status.why.Crashed? && EnsureDirsResult(t).status.why.path in LedgerDirs
    ensures EnsureDirsResult(t).tree.dirs - t.dirs <= LedgerDirs
  {
  }

  /** Directories made from an existing parent keep the tree well formed. */
  lemma {:induction false} MkdirFromWellFormed(t: Tree, p: Path, i: nat)
    requires 1 <= i && WellFormed(t) && (i <= |p| ==> p[..i - 1] in t.dirs)
    ensures WellFormed(MkdirFrom(t, p, i).tree)
    decreases |p| + 1 - i
  {
    if i <= |p| && p[..i] !in t.files {
      var q := p[..i];
      var t1 := t.(dirs := t.dirs + {q});
      forall j | 0 <= j <= |q|
        ensures q[..j] in t1.dirs
      {
        if j < |q| {
          assert q[..j] == p[..i - 1][..j];
        } else {
          assert q[..j] == q;
        }
      }
      if i + 1 <= |p| {
        assert p[..i] in t1.dirs;
      }
      MkdirFromWellFormed(t1, p, i + 1);
    }
  }

  lemma EnsureDirsWellFormed(t: Tree)
    requires WellFormed(t)
    ensures WellFormed(EnsureDirsResult(t).tree)
  {
    EnsureDirsByMkdir(t);
    assert ContractsDir[..0] == [];
    MkdirFromWellFormed(t, ContractsDir, 1);
    var o1 := MkdirResult(t, ContractsDir);
    assert EntriesDir[..0] == [];
    MkdirFromWellFormed(o1.tree, EntriesDir, 1);
    var o2 := MkdirResult(o1.tree, EntriesDir);
    assert TemplatesDir[..0] == [];
    MkdirFromWellFormed(o2.tree, TemplatesDir, 1);
  }

  /** Writing a file inside an existing directory keeps the tree well formed. */
  lemma WriteWellFormed(t: Tree, p: Path, text: string)
    requires WellFormed(t) && p != [] && p[..|p| - 1] in t.dirs
    ensures WellFormed(WriteIfAbsent(t, p, text))
    ensures WellFormed(Write(t, p, text).tree)
    ensures WriteIfAbsent(t, p, text).dirs == t.dirs && Write(t, p, text).tree.dirs == t.dirs
  {
    forall i | 0 <= i < |p|
      ensures p[..i] in t.dirs
    {
      assert p[..i] == p[..|p| - 1][..i];
    }
  }

  /** A file that does not exist is written; anything that exists stays as it was. */
  lemma WriteIfAbsentEffect(t: Tree, p: Path, text: string)
    ensures WriteIfAbsent(t, p, text).dirs == t.dirs
    ensures forall q | q in t.files :: q in WriteIfAbsent(t, p, text).files && WriteIfAbsent(t, p, text).files[q] == t.files[q]
    ensures forall q | q in WriteIfAbsent(t, p, text).files && q !in t.files ::
              q == p && !Exists(t, p) && WriteIfAbsent(t, p, text).files[q] == text
    ensures Exists(WriteIfAbsent(t, p, text), p)
  {
  }

  // ---------------------------------------------------------------------
  // init
  // ---------------------------------------------------------------------

  /** The file `init` writes at `p`, if any. */
  predicate IsDefaultFile(defs: Defaults, p: Path, text: string)
  {
    || (p == ContractTemplatePath && text == defs.contract)
    || (p == EntryTemplatePath && text == defs.entry)
    || (p == ConfigPath && text == defs.config)
  }

  /**
   * `init` succeeds exactly when none of the four directories is a file.
   * Then it has made those directories, kept every existing file as it was,
   * and written only default files, each at a path where nothing existed;
   * afterwards every default path exists. When it fails, no file changed.
   */
  lemma InitEffect(t: Tree, defs: Defaults)
    ensures InitResult(t, defs).status == Success <==> forall q | q in LedgerDirs :: q !in t.files
    ensures InitResult(t, defs).status.Failed? ==> InitResult(t, defs).tree.files == t.files
    ensures InitResult(t, defs).status == Success ==>
              var r := InitResult(t, defs).tree;
              && r.dirs == t.dirs + LedgerDirs
              && (forall q | q in t.files :: q in r.files && r.files[q] == t.files[q])
              && (forall q | q in r.files && q !in t.files :: !Exists(t, q) && IsDefaultFile(defs, q, r.files[q]))
              && Exists(r, ContractTemplatePath) && Exists(r, EntryTemplatePath) && Exists(r, ConfigPath)
  {
    EnsureDirsEffect(t);
    var o := EnsureDirsResult(t);
    if o.status == Success {
      LayoutShape();
      var t1 := WriteIfAbsent(o.tree, ContractTemplatePath, defs.contract);
      var t2 := WriteIfAbsent(t1, EntryTemplatePath, defs.entry);
      WriteIfAbsentEffect(o.tree, ContractTemplatePath, defs.contract);
      WriteIfAbsentEffect(t1, EntryTemplatePath, defs.entry);
      WriteIfAbsentEffect(t2, ConfigPath, defs.config);
    }
  }

  /**
   * Running `init` again changes nothing and ends as the first run did:
   * after a success it succeeds again, and after a failure it fails again
   * at the same place.
   */
  lemma InitIdempotent(t: Tree, defs: Defaults)
    ensures InitResult(InitResult(t, defs).tree, defs) == InitResult(t, defs)
    ensures InitResult(t, defs).status == Success ==>
              InitResult(InitResult(t, defs).tree, defs) == Outcome(InitResult(t, defs).tree, Success)
  {
    var r := InitResult(t, defs).tree;
    LayoutShape();
    EnsureDirsEffect(t);
    EnsureDirsEffect(r);
    if InitResult(t, defs).status == Success {
      InitEffect(t, defs);
      forall q | q in LedgerDirs
        ensures q !in r.files
      {
        assert q !in t.files;
      }
      assert r.dirs + LedgerDirs == r.dirs;
      assert EnsureDirsResult(r) == Outcome(r, Success);
    }
  }

  /** `init` keeps the working directory a tree. */
  lemma InitWellFormed(t: Tree, defs: Defaults)
    requires WellFormed(t)
    ensures WellFormed(InitResult(t, defs).tree)
  {
    EnsureDirsWellFormed(t);
    EnsureDirsEffect(t);
    var o := EnsureDirsResult(t);
    if o.status == Success {
      LayoutShape();
      var t1 := WriteIfAbsent(o.tree, ContractTemplatePath, defs.contract);
      WriteWellFormed(o.tree, ContractTemplatePath, defs.contract);
      var t2 := WriteIfAbsent(t1, EntryTemplatePath, defs.entry);
      WriteWellFormed(t1, EntryTemplatePath, defs.entry);
      WriteWellFormed(t2, ConfigPath, defs.config);
    }
  }

  /** A directory with no entry one level below it lists no names. */
  lemma NoNames(t: Tree, dir: Path)
    requires forall p | p in t.dirs + t.files.Keys && |p| == |dir| + 1 :: p[..|dir|] != dir
    ensures VisibleNames(t, dir) == {}
  {
  }

  /** A visible name one level below `dir` makes its listing non-empty. */
  lemma SomeName(t: Tree, dir: Path, p: Path)
    requires p in t.dirs + t.files.Keys && |p| == |dir| + 1 && p[..|dir|] == dir && !IsHidden(p[|dir|])
    ensures VisibleNames(t, dir) != {}
  {
    assert p[|dir|] in Names(t, dir);
    assert p[|dir|] in VisibleNames(t, dir);
  }

  /** In an empty directory `init` succeeds, and `check` then fails for empty folders. */
  lemma InitThenCheck(defs: Defaults)
    ensures InitResult(EmptyTree, defs).status == Success
    ensures CheckResult(InitResult(EmptyTree, defs).tree) == Failed(FoldersEmpty)
  {
    InitEffect(EmptyTree, defs);
    LayoutShape();
    var r := InitResult(EmptyTree, defs).tree;
    assert r.dirs == {[], Base, ContractsDir, EntriesDir, TemplatesDir};
    forall p | p in r.dirs + r.files.Keys && |p| == 3
      ensures p[..2] != ContractsDir
    {
      assert p == ContractTemplatePath || p == EntryTemplatePath;
    }
    NoNames(r, ContractsDir);
    assert ContractsDir !in r.files && EntriesDir !in r.files;
  }

  // ---------------------------------------------------------------------
  // new
  // ---------------------------------------------------------------------

  /** Without `.ai-ledger`, `new` exits with status 1 and changes nothing. */
  lemma NewWithoutLedger(t: Tree, title: string, id: Option<string>, now: nat, d: string)
    requires !Exists(t, Base)
    ensures NewResult(t, title, id, now, d) == Outcome(t, Failed(LedgerMissing))
    ensures ExitCode(NewResult(t, title, id, now, d).status) == 1
  {
  }

  /**
   * `new` succeeds exactly when the ledger exists, none of its directories
   * is a file, both templates are files, and neither target path is a
   * directory. Then it has made the four directories and written exactly
   * two files, the contract and the entry named after the date and the
   * slug, each filled from its template; every other file is as it was,
   * and an earlier file at either path is replaced.
   */
  lemma NewEffect(t: Tree, d: string, slug: string, fc: string -> string, fe: string -> string)
    ensures NewWriting(t, d, slug, fc, fe).status == Success <==>
      && Exists(t, Base)
      && (forall q | q in LedgerDirs :: q !in t.files)
      && ContractTemplatePath in t.files && EntryTemplatePath in t.files
      && ContractPath(d, slug) !in t.dirs && EntryPath(d, slug) !in t.dirs
    ensures NewWriting(t, d, slug, fc, fe).status == Success ==>
      NewWriting(t, d, slug, fc, fe).tree ==
        Tree(t.dirs + LedgerDirs,
             t.files[ContractPath(d, slug) := fc(t.files[ContractTemplatePath])]
                    [EntryPath(d, slug) := fe(t.files[EntryTemplatePath])])
  {
    EnsureDirsEffect(t);
    LayoutShape();
    GeneratedShape(d, slug);
  }

  /**
   * Whatever the outcome, `new` changes no file other than the two it
   * writes, and makes no directory other than the four of the ledger.
   */
  lemma NewFrame(t: Tree, d: string, slug: string, fc: string -> string, fe: string -> string)
    ensures NewWriting(t, d, slug, fc, fe).tree.dirs - t.dirs <= LedgerDirs
    ensures forall q | q in t.files && q != ContractPath(d, slug) && q != EntryPath(d, slug) ::
              q in NewWriting(t, d, slug, fc, fe).tree.files && NewWriting(t, d, slug, fc, fe).tree.files[q] == t.files[q]
    ensures NewWriting(t, d, slug, fc, fe).tree.files.Keys <= t.files.Keys + {ContractPath(d, slug), EntryPath(d, slug)}
  {
    EnsureDirsEffect(t);
  }

  /** Writing the contract and then the entry inside existing folders keeps the tree well formed. */
  lemma WriteBothWellFormed(u: Tree, cp: Path, contract: string, ep: Path, entry: string)
    requires WellFormed(u) && cp != [] && cp[..|cp| - 1] in u.dirs && ep != [] && ep[..|ep| - 1] in u.dirs
    ensures
      var w := Write(u, cp, contract);
      WellFormed(w.tree) && WellFormed(Write(w.tree, ep, entry).tree)
  {
    WriteWellFormed(u, cp, contract);
    WriteWellFormed(Write(u, cp, contract).tree, ep, entry);
  }

  /** `new` keeps the working directory a tree. */
  lemma NewWellFormed(t: Tree, d: string, slug: string, fc: string -> string, fe: string -> string)
    requires WellFormed(t)
    ensures WellFormed(NewWriting(t, d, slug, fc, fe).tree)
  {
    if Exists(t, Base) {
      EnsureDirsWellFormed(t);
      EnsureDirsEffect(t);
      var o := EnsureDirsResult(t);
      if o.status == Success && ContractTemplatePath in o.tree.files && EntryTemplatePath in o.tree.files {
        var cp, ep := ContractPath(d, slug), EntryPath(d, slug);
        GeneratedShape(d, slug);
        LayoutShape();
        WriteBothWellFormed(o.tree, cp, fc(o.tree.files[ContractTemplatePath]), ep, fe(o.tree.files[EntryTemplatePath]));
      }
    }
  }

  /** After a successful `new` on a calendar date, `check` passes. */
  lemma NewThenCheck(t: Tree, d: string, slug: string, fc: string -> string, fe: string -> string)
    requires IsIsoDate(d)
    requires NewWriting(t, d, slug, fc, fe).status == Success
    ensures CheckResult(NewWriting(t, d, slug, fc, fe).tree) == Success
  {
    NewEffect(t, d, slug, fc, fe);
    LayoutShape();
    var r := NewWriting(t, d, slug, fc, fe).tree;
    var cp, ep := ContractPath(d, slug), EntryPath(d, slug);
    GeneratedShape(d, slug);
    GeneratedNamesDistinct(d, slug, d, slug);
    assert cp in r.files && ep in r.files;
    assert cp[2] == ContractFileName(d, slug) && ep[2] == EntryFileName(d, slug);
    SomeName(r, ContractsDir, cp);
    SomeName(r, EntriesDir, ep);
    assert ContractsDir !in t.files && EntriesDir !in t.files;
    assert ContractsDir != cp && ContractsDir != ep && EntriesDir != cp && EntriesDir != ep;
  }

  /**
   * Two `new` runs on the same day for the same slug write the same two
   * paths: the second run ends exactly as if the first had not happened.
   */
  lemma NewSameSlugOverwrites(t: Tree, d: string, slug: string, fc1: string -> string, fe1: string -> string,
                              fc2: string -> string, fe2: string -> string)
    requires NewWriting(t, d, slug, fc1, fe1).status == Success
    ensures NewWriting(NewWriting(t, d, slug, fc1, fe1).tree, d, slug, fc2, fe2) == NewWriting(t, d, slug, fc2, fe2)
  {
    var r1 := NewWriting(t, d, slug, fc1, fe1).tree;
    NewEffect(t, d, slug, fc1, fe1);
    LayoutShape();
    var cp, ep := ContractPath(d, slug), EntryPath(d, slug);
    GeneratedShape(d, slug);
    assert r1.files[ContractTemplatePath] == t.files[ContractTemplatePath];
    assert r1.files[EntryTemplatePath] == t.files[EntryTemplatePath];
    forall q | q in LedgerDirs
      ensures q !in r1.files
    {
      assert |q| < 3;
    }
    NewEffect(r1, d, slug, fc2, fe2);
    NewEffect(t, d, slug, fc2, fe2);
    assert r1.dirs + LedgerDirs == t.dirs + LedgerDirs;
    var c2 := fc2(t.files[ContractTemplatePath]);
    var e2 := fe2(t.files[EntryTemplatePath]);
    assert r1.files[cp := c2][ep := e2] == t.files[cp := c2][ep := e2];
  }

  /**
   * From templates of the shape `init` writes, `new` writes a contract with
   * the date in its date slot and the title in its title slot (searched only
   * for the link placeholder), but with the link placeholder turned into a
   * stale link that keeps the word `slug`: for any other slug it names no
   * file `new` writes. The entry likewise.
   */
  lemma NewFillsTemplates(t: Tree, title: string, id: Option<string>, now: nat, d: string,
                          body: string, rest: string)
    requires IsIsoDate(d) && ContractBodyShape(body) && EntryRestShape(rest)
    requires ContractTemplatePath in t.files && t.files[ContractTemplatePath] == ContractText(body, IdToken, TitleToken, DateToken, EntryLinkToken)
    requires EntryTemplatePath in t.files && t.files[EntryTemplatePath] == EntryText(rest, IdToken, TitleToken, DateToken, ContractLinkToken)
    requires NewResult(t, title, id, now, d).status == Success
    ensures
      var slug := Slugify(title);
      var r := NewResult(t, title, id, now, d).tree;
      var i2 := ReplaceAll(ReplaceAll(ChosenId(id, now), DateToken, d), TitleToken, title);
      && r.files[ContractPath(d, slug)]
           == ContractText(body, ReplaceAll(i2, EntryLinkToken, EntryLink(d, slug)),
                           ReplaceAll(title, EntryLinkToken, EntryLink(d, slug)), d,
                           StaleLink(".ai-ledger/entries/", d, ".md"))
      && r.files[EntryPath(d, slug)]
           == EntryText(rest, ReplaceAll(i2, ContractLinkToken, ContractLink(d, slug)),
                        ReplaceAll(title, ContractLinkToken, ContractLink(d, slug)), d,
                        StaleLink(".ai-ledger/contracts/", d, ".contract.yaml"))
    ensures
      var slug := Slugify(title);
      slug != "slug" ==>
        && StaleLink(".ai-ledger/entries/", d, ".md") != PathText(EntryPath(d, slug))
        && StaleLink(".ai-ledger/contracts/", d, ".contract.yaml") != PathText(ContractPath(d, slug))
  {
    var slug := Slugify(title);
    var theId := ChosenId(id, now);
    var fc := tpl => FillContractAsWritten(tpl, theId, d, title, slug);
    var fe := tpl => FillEntryAsWritten(tpl, theId, d, title, slug);
    NewEffect(t, d, slug, fc, fe);
    SlugifyShape(title);
    GeneratedShape(d, slug);
    ContractAsWritten(body, theId, d, title, slug);
    EntryAsWritten(rest, theId, d, title, slug);
    if slug != "slug" {
      StaleLinksMissTheFiles(d, slug);
    }
  }

  /** In an empty directory `init` makes the ledger and writes the given templates. */
  lemma InitFresh(defs: Defaults)
    ensures
      var o := InitResult(EmptyTree, defs);
      && o.status == Success
      && o.tree.dirs == {[]} + LedgerDirs
      && (forall q | q in LedgerDirs :: q !in o.tree.files)
      && ContractTemplatePath in o.tree.files && o.tree.files[ContractTemplatePath] == defs.contract
      && EntryTemplatePath in o.tree.files && o.tree.files[EntryTemplatePath] == defs.entry
  {
    InitEffect(EmptyTree, defs);
    LayoutShape();
  }

  /** `new` succeeds in a ledger holding only its directories and both templates. */
  lemma NewAfterInit(t: Tree, title: string, id: Option<string>, now: nat, d: string)
    requires IsIsoDate(d) && t.dirs == {[]} + LedgerDirs
    requires forall q | q in LedgerDirs :: q !in t.files
    requires ContractTemplatePath in t.files && EntryTemplatePath in t.files
    ensures NewResult(t, title, id, now, d).status == Success
  {
    var slug := Slugify(title);
    var theId := ChosenId(id, now);
    LayoutShape();
    GeneratedShape(d, slug);
    NewEffect(t, d, slug, tpl => FillContractAsWritten(tpl, theId, d, title, slug),
              tpl => FillEntryAsWritten(tpl, theId, d, title, slug));
  }

  /** `InitThenNew` for any default texts of the built-in layout. */
  lemma InitThenNewFrom(defs: Defaults, body: string, rest: string,
                        title: string, id: Option<string>, now: nat, d: string)
    requires IsIsoDate(d) && ContractBodyShape(body) && EntryRestShape(rest)
    requires defs.contract == ContractText(body, IdToken, TitleToken, DateToken, EntryLinkToken)
    requires defs.entry == EntryText(rest, IdToken, TitleToken, DateToken, ContractLinkToken)
    ensures
      var t := InitResult(EmptyTree, defs).tree;
      var o := NewResult(t, title, id, now, d);
      var slug := Slugify(title);
      var i2 := ReplaceAll(ReplaceAll(ChosenId(id, now), DateToken, d), TitleToken, title);
      && o.status == Success
      && ContractPath(d, slug) in o.tree.files && EntryPath(d, slug) in o.tree.files
      && o.tree.files[ContractPath(d, slug)]
           == ContractText(body, ReplaceAll(i2, EntryLinkToken, EntryLink(d, slug)),
                           ReplaceAll(title, EntryLinkToken, EntryLink(d, slug)), d,
                           StaleLink(".ai-ledger/entries/", d, ".md"))
      && o.tree.files[EntryPath(d, slug)]
           == EntryText(rest, ReplaceAll(i2, ContractLinkToken, ContractLink(d, slug)),
                        ReplaceAll(title, ContractLinkToken, ContractLink(d, slug)), d,
                        StaleLink(".ai-ledger/contracts/", d, ".contract.yaml"))
  {
    var t := InitResult(EmptyTree, defs).tree;
    InitFresh(defs);
    NewAfterInit(t, title, id, now, d);
    NewFillsTemplates(t, title, id, now, d, body, rest);
  }

  /**
   * In an empty directory, `init` followed by `new` on a calendar date
   * succeeds, and the two files hold the built-in texts with the id, title
   * and date in their slots and the stale links in place of the companion
   * paths.
   */
  lemma InitThenNew(title: string, id: Option<string>, now: nat, d: string)
    requires IsIsoDate(d)
    ensures
      var t := InitResult(EmptyTree, BuiltIn).tree;
      var o := NewResult(t, title, id, now, d);
      var slug := Slugify(title);
      var i2 := ReplaceAll(ReplaceAll(ChosenId(id, now), DateToken, d), TitleToken, title);
      && o.status == Success
      && ContractPath(d, slug) in o.tree.files && EntryPath(d, slug) in o.tree.files
      && o.tree.files[ContractPath(d, slug)]
           == ContractText(ContractBody, ReplaceAll(i2, EntryLinkToken, EntryLink(d, slug)),
                           ReplaceAll(title, EntryLinkToken, EntryLink(d, slug)), d,
                           StaleLink(".ai-ledger/entries/", d, ".md"))
      && o.tree.files[EntryPath(d, slug)]
           == EntryText(EntryRest, ReplaceAll(i2, ContractLinkToken, ContractLink(d, slug)),
                        ReplaceAll(title, ContractLinkToken, ContractLink(d, slug)), d,
                        StaleLink(".ai-ledger/contracts/", d, ".contract.yaml"))
  {
    ContractBodyShaped();
    EntryRestShaped();
    InitThenNewFrom(BuiltIn, ContractBody, EntryRest, title, id, now, d);
  }

  /**
   * With the corrected chains, the contract written holds the id, title,
   * date and the path of the entry written beside it, and the entry links
   * back to the contract.
   */
  lemma NewCorrectedFillsTemplates(t: Tree, title: string, id: Option<string>, now: nat, d: string,
                                   body: string, rest: string)
    requires IsIsoDate(d) && ContractBodyShape(body) && EntryRestShape(rest)
    requires ContractTemplatePath in t.files && t.files[ContractTemplatePath] == ContractText(body, IdToken, TitleToken, DateToken, EntryLinkToken)
    requires EntryTemplatePath in t.files && t.files[EntryTemplatePath] == EntryText(rest, IdToken, TitleToken, DateToken, ContractLinkToken)
    requires NewResultCorrected(t, title, id, now, d).status == Success
    ensures
      var slug := Slugify(title);
      var shownId := ReplaceAll(ReplaceAll(ChosenId(id, now), DateToken, d), TitleToken, title);
      var r := NewResultCorrected(t, title, id, now, d).tree;
      && r.files[ContractPath(d, slug)] == ContractText(body, shownId, title, d, PathText(EntryPath(d, slug)))
      && r.files[EntryPath(d, slug)] == EntryText(rest, shownId, title, d, PathText(ContractPath(d, slug)))
  {
    var slug := Slugify(title);
    var theId := ChosenId(id, now);
    var fc := tpl => FillContract(tpl, theId, d, title, slug);
    var fe := tpl => FillEntry(tpl, theId, d, title, slug);
    NewEffect(t, d, slug, fc, fe);
    SlugifyShape(title);
    GeneratedShape(d, slug);
    ContractFilled(body, theId, d, title, slug);
    EntryFilled(rest, theId, d, title, slug);
  }

  /** Digits read back as the number they were printed from. */
  lemma {:induction false} DecimalRoundTrip(n: nat)
    ensures DecimalValue(Decimal(n)) == n
  {
    var s := Decimal(n);
    if n < 10 {
      assert s[..|s| - 1] == [];
    } else {
      assert s[..|s| - 1] == Decimal(n / 10);
      DecimalRoundTrip(n / 10);
    }
  }

  /**
   * The clock-based id holds no placeholder, so the chains copy it verbatim
   * into the id slot of both files.
   */
  lemma DefaultIdVerbatim(now: nat, d: string, title: string, link: string)
    ensures ReplaceAll(ReplaceAll(DefaultId(now), DateToken, d), TitleToken, title) == DefaultId(now)
    ensures ReplaceAll(DefaultId(now), EntryLinkToken, link) == DefaultId(now)
    ensures ReplaceAll(DefaultId(now), ContractLinkToken, link) == DefaultId(now)
  {
    var s := DefaultId(now);
    assert 'Y' !in s && 'S' !in s by {
      assert 'Y' !in Decimal(now) && 'S' !in Decimal(now);
    }
    PlaceholderLetters();
    LinkPlaceholderLetters();
    ReplaceAllMissing(s, DateToken, d, 'Y');
    ReplaceAllMissing(s, TitleToken, title, 'S');
    ReplaceAllMissing(s, EntryLinkToken, link, 'Y');
    ReplaceAllMissing(s, ContractLinkToken, link, 'Y');
  }

  // ---------------------------------------------------------------------
  // check
  // ---------------------------------------------------------------------

  /** `check` passes exactly when both folders are directories listing a visible name. */
  lemma CheckPasses(t: Tree)
    ensures CheckResult(t) == Success <==>
      && ContractsDir in t.dirs && ContractsDir !in t.files
      && EntriesDir in t.dirs && EntriesDir !in t.files
      && (exists n :: n in Names(t, ContractsDir) && !IsHidden(n))
      && (exists n :: n in Names(t, EntriesDir) && !IsHidden(n))
  {
    if CheckResult(t) == Success {
      var c :| c in VisibleNames(t, ContractsDir);
      var e :| e in VisibleNames(t, EntriesDir);
      assert c in Names(t, ContractsDir) && !IsHidden(c);
      assert e in Names(t, EntriesDir) && !IsHidden(e);
    } else if ContractsDir in t.dirs && ContractsDir !in t.files && EntriesDir in t.dirs && EntriesDir !in t.files {
      if c :| c in Names(t, ContractsDir) && !IsHidden(c) {
        assert c in VisibleNames(t, ContractsDir);
        if e :| e in Names(t, EntriesDir) && !IsHidden(e) {
          assert e in VisibleNames(t, EntriesDir);
        }
      }
    }
  }

  /** Hidden files alone, such as `.gitkeep`, do not make a folder pass. */
  lemma HiddenOnlyFails(t: Tree)
    requires forall n | n in Names(t, ContractsDir) :: IsHidden(n)
    ensures CheckResult(t).Failed?
  {
    assert VisibleNames(t, ContractsDir) == {};
  }

  // ---------------------------------------------------------------------
  // The working directory, changed in place
  // ---------------------------------------------------------------------

  class Disk {
    var dirs: set<Path>
    var files: map<Path, string>

    function State(): Tree
      reads this
    {
      Tree(dirs, files)
    }

    /** An empty working directory. */
    constructor ()
      ensures State() == EmptyTree
    {
      dirs := {[]};
      files := map[];
    }

    /** `mkdirSync(p, { recursive: true })`. */
    method Mkdir(p: Path) returns (status: Status)
      modifies this
      ensures Outcome(State(), status) == MkdirResult(old(State()), p)
    {
      var i := 1;
      while i <= |p|
        invariant 1 <= i <= |p| + 1
        invariant MkdirFrom(State(), p, i) == MkdirResult(old(State()), p)
        decreases |p| + 1 - i
      {
        if p[..i] in files {
          return Failed(Crashed(p[..i]));
        }
        dirs := dirs + {p[..i]};
        i := i + 1;
      }
      status := Success;
    }

    method EnsureDirs() returns (status: Status)
      modifies this
      ensures Outcome(State(), status) == EnsureDirsResult(old(State()))
    {
      EnsureDirsByMkdir(State());
      status := Mkdir(ContractsDir);
      if status.Failed? {
        return;
      }
      status := Mkdir(EntriesDir);
      if status.Failed? {
        return;
      }
      status := Mkdir(TemplatesDir);
    }

    method Init() returns (status: Status)
      modifies this
      ensures Outcome(State(), status) == InitResult(old(State()), BuiltIn)
    {
      status := EnsureDirs();
      if status.Failed? {
        return;
      }
      if ContractTemplatePath !in dirs && ContractTemplatePath !in files {
        files := files[ContractTemplatePath := ContractTemplate];
      }
      if EntryTemplatePath !in dirs && EntryTemplatePath !in files {
        files := files[EntryTemplatePath := EntryTemplate];
      }
      if ConfigPath !in dirs && ConfigPath !in files {
        files := files[ConfigPath := DefaultConfig];
      }
    }

    method New(title: string, id: Option<string>, now: nat, d: string) returns (status: Status)
      modifies this
      ensures Outcome(State(), status) == NewResult(old(State()), title, id, now, d)
    {
      if Base !in dirs && Base !in files {
        return Failed(LedgerMissing);
      }
      status := EnsureDirs();
      if status.Failed? {
        return;
      }
      var slug := Slugify(title);
      var theId := ChosenId(id, now);
      var cp := ContractPath(d, slug);
      var ep := EntryPath(d, slug);
      if ContractTemplatePath !in files {
        return Failed(Crashed(ContractTemplatePath));
      }
      var contract := FillContractAsWritten(files[ContractTemplatePath], theId, d, title, slug);
      if EntryTemplatePath !in files {
        return Failed(Crashed(EntryTemplatePath));
      }
      var entry := FillEntryAsWritten(files[EntryTemplatePath], theId, d, title, slug);
      if cp in dirs {
        return Failed(Crashed(cp));
      }
      files := files[cp := contract];
      if ep in dirs {
        return Failed(Crashed(ep));
      }
      files := files[ep := entry];
    }

    method Check() returns (status: Status)
      ensures status == CheckResult(State())
    {
      if !(ContractsDir in dirs || ContractsDir in files) || !(EntriesDir in dirs || EntriesDir in files) {
        return Failed(FoldersMissing);
      }
      if ContractsDir in files {
        return Failed(Crashed(ContractsDir));
      }
      if EntriesDir in files {
        return Failed(Crashed(EntriesDir));
      }
      var c := VisibleNames(State(), ContractsDir);
      var e := VisibleNames(State(), EntriesDir);
      if |c| == 0 || |e| == 0 {
        return Failed(FoldersEmpty);
      }
      status := Success;
    }
  }
}
