/**
 * The on-disk layout of the ledger, relative to the working directory, and
 * the names `new` derives from a date and a slug.
 *
 * A path is the list of its components; the working directory is `[]`.
 */
module Layout {
  import opened Slug

  type Path = seq<string>

  const Base: Path := [".ai-ledger"]
  const ContractsDir: Path := Base + ["contracts"]
  const EntriesDir: Path := Base + ["entries"]
  const TemplatesDir: Path := Base + ["templates"]
  const ContractTemplatePath: Path := TemplatesDir + ["contract.yaml"]
  const EntryTemplatePath: Path := TemplatesDir + ["entry.md"]
  const ConfigPath: Path := Base + ["config.json"]

  /** The path as text, components separated by `/`. */
  function PathText(p: Path): string
  {
    if p == [] then []
    else if |p| == 1 then p[0]
    else PathText(p[..|p| - 1]) + "/" + p[|p| - 1]
  }

  predicate IsDigit(c: char)
  {
    '0' <= c <= '9'
  }

  /** The shape of the UTC calendar date `today()` yields: `YYYY-MM-DD`. */
  predicate IsIsoDate(d: string)
  {
    && |d| == 10
    && d[4] == '-' && d[7] == '-'
    && forall i | 0 <= i < 10 && i != 4 && i != 7 :: IsDigit(d[i])
  }

  /** Text made of slug characters only, as `slugify` returns. */
  predicate IsSlugText(s: string)
  {
    forall i | 0 <= i < |s| :: IsSlugChar(s[i])
  }

  /** The common stem of both files a `new` creates. */
  function Stem(d: string, slug: string): string
  {
    d + "-" + slug
  }

  const ContractSuffix := ".contract.yaml"
  const EntrySuffix := ".md"

  function ContractFileName(d: string, slug: string): string
  {
    Stem(d, slug) + ContractSuffix
  }

  function EntryFileName(d: string, slug: string): string
  {
    Stem(d, slug) + EntrySuffix
  }

  function ContractPath(d: string, slug: string): Path
  {
    ContractsDir + [ContractFileName(d, slug)]
  }

  function EntryPath(d: string, slug: string): Path
  {
    EntriesDir + [EntryFileName(d, slug)]
  }

  /** The entry file name that goes with a contract file name: same stem, other suffix. */
  function EntryNameFor(contractName: string): (r: string)
    requires |contractName| >= |ContractSuffix|
  {
    contractName[..|contractName| - |ContractSuffix|] + EntrySuffix
  }

  /** Both generated paths are the documented ones and share the stem `<date>-<slug>`. */
  lemma GeneratedPaths(d: string, slug: string)
    ensures PathText(ContractPath(d, slug)) == ".ai-ledger/contracts/" + d + "-" + slug + ".contract.yaml"
    ensures PathText(EntryPath(d, slug)) == ".ai-ledger/entries/" + d + "-" + slug + ".md"
    ensures EntryNameFor(ContractFileName(d, slug)) == EntryFileName(d, slug)
  {
    assert PathText(Base) == ".ai-ledger";
    assert PathText(ContractsDir) == ".ai-ledger/contracts" by {
      assert ContractsDir[..1] == Base;
    }
    assert PathText(EntriesDir) == ".ai-ledger/entries" by {
      assert EntriesDir[..1] == Base;
    }
    var cp := ContractPath(d, slug);
    assert cp[..2] == ContractsDir;
    var ep := EntryPath(d, slug);
    assert ep[..2] == EntriesDir;
    var c := ContractFileName(d, slug);
    assert c[..|c| - |ContractSuffix|] == Stem(d, slug);
  }

  /**
   * Generated names never collide across different days or slugs, never
   * clash with the templates or the configuration, and for a calendar date
   * are not hidden names (they start with a digit).
   */
  lemma GeneratedNamesDistinct(d1: string, s1: string, d2: string, s2: string)
    requires IsIsoDate(d1) && IsIsoDate(d2)
    ensures ContractPath(d1, s1) == ContractPath(d2, s2) ==> d1 == d2 && s1 == s2
    ensures EntryPath(d1, s1) == EntryPath(d2, s2) ==> d1 == d2 && s1 == s2
    ensures ContractPath(d1, s1) != EntryPath(d2, s2)
    ensures ContractPath(d1, s1) !in {ContractTemplatePath, EntryTemplatePath, ConfigPath}
    ensures EntryPath(d1, s1) !in {ContractTemplatePath, EntryTemplatePath, ConfigPath}
    ensures IsDigit(ContractFileName(d1, s1)[0]) && IsDigit(EntryFileName(d1, s1)[0])
  {
    assert ContractsDir != EntriesDir by {
      assert ContractsDir[1] != EntriesDir[1];
    }
    if ContractPath(d1, s1) == ContractPath(d2, s2) {
      var c1, c2 := ContractFileName(d1, s1), ContractFileName(d2, s2);
      assert c1 == ContractPath(d1, s1)[2] == c2;
      assert d1 == c1[..10] == c2[..10] == d2;
      assert s1 == c1[11..|c1| - |ContractSuffix|] == c2[11..|c2| - |ContractSuffix|] == s2;
    }
    if EntryPath(d1, s1) == EntryPath(d2, s2) {
      var e1, e2 := EntryFileName(d1, s1), EntryFileName(d2, s2);
      assert e1 == EntryPath(d1, s1)[2] == e2;
      assert d1 == e1[..10] == e2[..10] == d2;
      assert s1 == e1[11..|e1| - |EntrySuffix|] == e2[11..|e2| - |EntrySuffix|] == s2;
    }
    assert ContractPath(d1, s1)[1] == "contracts" && EntryPath(d2, s2)[1] == "entries";
    assert ContractPath(d1, s1)[1] != ContractTemplatePath[1];
    assert EntryPath(d1, s1)[1] != ContractTemplatePath[1];
    assert ContractFileName(d1, s1)[0] == d1[0];
    assert EntryFileName(d1, s1)[0] == d1[0];
  }
}
