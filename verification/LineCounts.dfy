/**
 The line budget over a source tree: each file's effective lines split into
 production, unit and integration lines, summed once by architectural category and
 once by package directory. A path is its components below the repository root.
 */
module LineCounts {
  import opened Scanner
  import opened TestRanges
  import opened Text
  import opened Wrappers

  datatype Counts = Counts(total: nat, production: nat, unit: nat, integration: nat)

  const ZERO := Counts(0, 0, 0, 0)

  function Add(a: Counts, b: Counts): Counts {
    Counts(a.total + b.total, a.production + b.production, a.unit + b.unit, a.integration + b.integration)
  }

  datatype SourceFile = SourceFile(path: seq<string>, lines: seq<string>)

  // ------------------------------------------------------------------ paths

  /** Splits a component at backslashes, as reading them as separators does. */
  function SplitBackslash(name: string, word: string): seq<string> {
    if name == "" then KeepPart(word)
    else if name[0] == '\\' then KeepPart(word) + SplitBackslash(name[1..], "")
    else SplitBackslash(name[1..], word + [name[0]])
  }

  function KeepPart(word: string): seq<string> {
    if word == "" || word == "." then [] else [word]
  }

  /** `PurePosixPath(path.replace("\\", "/")).parts` */
  function Parts(path: seq<string>): seq<string> {
    if path == [] then [] else SplitBackslash(path[0], "") + Parts(path[1..])
  }

  predicate IsComponent(name: string) {
    name != "" && name != "." && '/' !in name
  }

  /** A Rust source file below `crates`. */
  predicate IsCrateSource(path: seq<string>) {
    && |path| >= 2
    && path[0] == "crates"
    && (forall i :: 0 <= i < |path| ==> IsComponent(path[i]))
    && EndsWith(path[|path| - 1], ".rs")
  }

  predicate EndsWith(text: string, suffix: string) {
    |suffix| <= |text| && text[|text| - |suffix|..] == suffix
  }

  lemma {:induction false} PlainComponent(name: string, word: string)
    requires '\\' !in name && word + name != "" && word + name != "."
    ensures SplitBackslash(name, word) == [word + name]
  {
    if name == "" {
      assert word + name == word;
    } else {
      assert (word + [name[0]]) + name[1..] == word + name;
      PlainComponent(name[1..], word + [name[0]]);
    }
  }

  // ------------------------------------------------------------- one file

  function LastDot(name: string): int {
    if name == "" then -1
    else if name[|name| - 1] == '.' then |name| - 1
    else LastDot(name[..|name| - 1])
  }

  lemma {:induction false} LastDotInRange(name: string)
    ensures -1 <= LastDot(name) < |name|
  {
    if name != "" && name[|name| - 1] != '.' {
      LastDotInRange(name[..|name| - 1]);
    }
  }

  function Stem(name: string): string {
    LastDotInRange(name);
    var dot := LastDot(name);
    if 0 < dot < |name| - 1 then name[..dot] else name
  }

  predicate IsUnitTestFile(parts: seq<string>) {
    |parts| > 0 && (EndsWith(Stem(parts[|parts| - 1]), "_tests") || Stem(parts[|parts| - 1]) == "tests")
  }

  function TestLineSet(lines: seq<string>): set<nat> {
    LinesOf(RangesFrom(lines, 0))
  }

  function SourceCounts(path: seq<string>, lines: seq<string>): Counts {
    var parts, total := Parts(path), |EffectiveLines(lines)|;
    if "tests" in parts then Counts(total, 0, 0, total)
    else if IsUnitTestFile(parts) then Counts(total, 0, total, 0)
    else
      var unit := |EffectiveLines(lines) * TestLineSet(lines)|;
      SplitSize(EffectiveLines(lines), TestLineSet(lines));
      Counts(total, total - unit, unit, 0)
  }

  lemma SplitSize(a: set<nat>, b: set<nat>)
    ensures |a| == |a * b| + |a - b|
  {
    assert a == (a * b) + (a - b);
  }

  /** The counting of one file, with the sets the passes over its lines return. */
  method CountSource(path: seq<string>, lines: seq<string>) returns (counts: Counts)
    ensures counts == SourceCounts(path, lines)
  {
    var parts := Parts(path);
    var effective := EffectiveCodeLineIndices(lines);
    var total := |effective|;
    if "tests" in parts {
      return Counts(total, 0, 0, total);
    }
    if IsUnitTestFile(parts) {
      return Counts(total, 0, total, 0);
    }
    var ranges := TestLines(lines);
    var unitLines := |effective * ranges|;
    SplitSize(effective, ranges);
    counts := Counts(total, total - unitLines, unitLines, 0);
  }

  /** Each effective line is counted once, as production, unit or integration. */
  lemma FileCountsPartition(path: seq<string>, lines: seq<string>)
    ensures var c := SourceCounts(path, lines);
            && c.total == |EffectiveLines(lines)|
            && c.total == c.production + c.unit + c.integration
            && (c.integration == 0 && !IsUnitTestFile(Parts(path)) && "tests" !in Parts(path) ==>
                  && c.unit == |EffectiveLines(lines) * TestLineSet(lines)|
                  && c.production == |EffectiveLines(lines) - TestLineSet(lines)|)
  {
    SplitSize(EffectiveLines(lines), TestLineSet(lines));
  }

  lemma {:induction false} StemBefore(base: string, suffix: string)
    requires base != "" && |suffix| >= 2 && suffix[0] == '.' && '.' !in suffix[1..]
    ensures Stem(base + suffix) == base
  {
    LastDotIs(base + suffix, |base|);
    assert (base + suffix)[..|base|] == base;
  }

  lemma {:induction false} LastDotIs(name: string, dot: nat)
    requires dot < |name| && name[dot] == '.' && forall k :: dot < k < |name| ==> name[k] != '.'
    ensures LastDot(name) == dot
  {
    if dot < |name| - 1 {
      LastDotIs(name[..|name| - 1], dot);
    }
  }

  lemma {:induction false} PlainParts(path: seq<string>)
    requires forall i :: 0 <= i < |path| ==> IsComponent(path[i]) && '\\' !in path[i]
    ensures Parts(path) == path
  {
    if path != [] {
      assert "" + path[0] == path[0];
      PlainComponent(path[0], "");
      PlainParts(path[1..]);
    }
  }

  /**
   All of a Rust file's effective lines are integration lines below a directory `tests`, and unit
   lines in a file `tests.rs` or `..._tests.rs`; elsewhere exactly those in test ranges are unit
   lines, and no others.
   */
  lemma LinesAreSplitByPath(path: seq<string>, base: string, lines: seq<string>)
    requires path != [] && forall i :: 0 <= i < |path| ==> IsComponent(path[i]) && '\\' !in path[i]
    requires base != "" && path[|path| - 1] == base + ".rs"
    ensures var c, effective := SourceCounts(path, lines), EffectiveLines(lines);
            if "tests" in path then c.integration == |effective| && c.production == c.unit == 0
            else if base == "tests" || (|base| >= 6 && base[|base| - 6..] == "_tests") then
              c.unit == |effective| && c.production == c.integration == 0
            else
              && c.unit == |set k | k in effective && k in TestLineSet(lines)|
              && c.production == |set k | k in effective && k !in TestLineSet(lines)|
              && c.integration == 0
  {
    PlainParts(path);
    StemBefore(base, ".rs");
    assert IsUnitTestFile(path) <==> base == "tests" || (|base| >= 6 && base[|base| - 6..] == "_tests");
    MembersBothWays(EffectiveLines(lines), TestLineSet(lines));
  }

  lemma MembersBothWays(a: set<nat>, b: set<nat>)
    ensures |a| == |a * b| + |a - b|
    ensures (set k | k in a && k in b) == a * b && (set k | k in a && k !in b) == a - b
  {
    SplitSize(a, b);
  }

  // ----------------------------------------------------------- categories

  datatype Category = ExecutionKernel | HostControlPlane | CapabilityControlPlane | CapabilityProvider | Cli

  const KERNEL_PACKAGES: seq<string> := ["mini-agent-core", "mini-agent-protocol"]
  const HOST_PACKAGES: seq<string> :=
    ["mini-agent-host", "mini-agent-app-server", "mini-agent-app-server-protocol"]
  const CAPABILITIES := "mini-agent-capabilities"
  const CLI := "mini-agent-cli"

  const RELEASE_PACKAGES: seq<string> :=
    ["mini-agent-core", "mini-agent-protocol", "mini-agent-capabilities", "mini-agent-host",
     "mini-agent-app-server", "mini-agent-app-server-protocol"]
  const RUNTIME_PACKAGES: seq<string> :=
    ["mini-agent-core", "mini-agent-protocol", "mini-agent-host", "mini-agent-app-server",
     "mini-agent-app-server-protocol"]

  const CAPABILITY_CONTROL_PLANE_TAILS: seq<seq<string>> :=
    [["path_policy.rs"], ["result_store.rs"], ["sandbox.rs"], ["security.rs"], ["session.rs"],
     ["session", "storage.rs"], ["workspace.rs"], ["workspace", "approval.rs"], ["workspace", "files.rs"],
     ["workspace", "patch.rs"], ["workspace", "shell.rs"], ["workspace_tests.rs"]]

  predicate IsCapabilityControlPath(parts: seq<string>) {
    exists i :: 0 <= i < |CAPABILITY_CONTROL_PLANE_TAILS|
                && parts == ["crates", CAPABILITIES, "src"] + CAPABILITY_CONTROL_PLANE_TAILS[i]
  }

  function IndexOf(parts: seq<string>, name: string): (i: nat)
    ensures i <= |parts| && (i < |parts| ==> parts[i] == name)
  {
    if parts == [] || parts[0] == name then 0 else 1 + IndexOf(parts[1..], name)
  }

  function PackageOf(parts: seq<string>): Option<string> {
    var i := IndexOf(parts, "crates");
    if i + 1 < |parts| then Some(parts[i + 1]) else None
  }

  function SourceCategory(path: seq<string>): Option<Category> {
    CategoryOf(Parts(path))
  }

  function CategoryOf(parts: seq<string>): Option<Category> {
    match PackageOf(parts)
    case None => None
    case Some(package) =>
      if package in KERNEL_PACKAGES then Some(ExecutionKernel)
      else if package in HOST_PACKAGES then Some(HostControlPlane)
      else if package == CAPABILITIES then
        if IsCapabilityControlPath(parts) then Some(CapabilityControlPlane) else Some(CapabilityProvider)
      else if package == CLI then Some(Cli)
      else None
  }

  predicate AllClassified(files: seq<SourceFile>) {
    forall i :: 0 <= i < |files| ==> SourceCategory(files[i].path).Some?
  }

  function CategorySum(files: seq<SourceFile>, category: Category): Counts {
    if files == [] then ZERO
    else
      var last := files[|files| - 1];
      var rest := CategorySum(files[..|files| - 1], category);
      if SourceCategory(last.path) == Some(category) then Add(rest, SourceCounts(last.path, last.lines)) else rest
  }

  /** The paths of the sources without a category, in tree order. */
  function Unclassified(files: seq<SourceFile>): seq<seq<string>> {
    if files == [] then []
    else
      var last := files[|files| - 1];
      var rest := Unclassified(files[..|files| - 1]);
      if SourceCategory(last.path).None? then rest + [last.path] else rest
  }

  /** The failed report names exactly the sources without a category. */
  lemma {:induction false} UnclassifiedNames(files: seq<SourceFile>, p: seq<string>)
    ensures p in Unclassified(files) <==>
            exists i :: 0 <= i < |files| && files[i].path == p && SourceCategory(p).None?
  {
    if files != [] {
      var last := |files| - 1;
      UnclassifiedNames(files[..last], p);
      assert forall i :: 0 <= i < last ==> files[i] == files[..last][i];
    }
  }

  lemma {:induction false} NoneUnclassifiedIff(files: seq<SourceFile>)
    ensures Unclassified(files) == [] <==> AllClassified(files)
  {
    if files != [] {
      var last := |files| - 1;
      NoneUnclassifiedIff(files[..last]);
      assert forall i :: 0 <= i < last ==> files[i] == files[..last][i];
    }
  }

  lemma SumStep(files: seq<SourceFile>, i: nat, c: Category)
    requires i < |files|
    ensures var value := SourceCounts(files[i].path, files[i].lines);
            CategorySum(files[..i + 1], c)
            == if SourceCategory(files[i].path) == Some(c) then Add(CategorySum(files[..i], c), value)
               else CategorySum(files[..i], c)
    ensures Unclassified(files[..i + 1])
            == if SourceCategory(files[i].path).None? then Unclassified(files[..i]) + [files[i].path]
               else Unclassified(files[..i])
  {
    assert files[..i + 1][..i] == files[..i];
  }

  predicate AreSums(counts: map<Category, Counts>, files: seq<SourceFile>) {
    forall c: Category :: c in counts && counts[c] == CategorySum(files, c)
  }

  lemma ZeroSums(counts: map<Category, Counts>)
    requires counts == map[ExecutionKernel := ZERO, HostControlPlane := ZERO, CapabilityControlPlane := ZERO,
                           CapabilityProvider := ZERO, Cli := ZERO]
    ensures AreSums(counts, [])
  {
    forall c: Category
      ensures c in counts && counts[c] == ZERO
    {
      match c
      case ExecutionKernel =>
      case HostControlPlane =>
      case CapabilityControlPlane =>
      case CapabilityProvider =>
      case Cli =>
    }
  }

  lemma SumsGrow(counts: map<Category, Counts>, files: seq<SourceFile>, i: nat)
    requires i < |files| && AreSums(counts, files[..i])
    ensures var category, value := SourceCategory(files[i].path), SourceCounts(files[i].path, files[i].lines);
            && AreSums(if category.Some? then counts[category.value := Add(counts[category.value], value)] else counts,
                       files[..i + 1])
            && Unclassified(files[..i + 1])
               == if category.None? then Unclassified(files[..i]) + [files[i].path] else Unclassified(files[..i])
  {
    forall c: Category {
      SumStep(files, i, c);
    }
  }

  /** One pass over the tree; any unclassified source fails the whole report. */
  method CategoryCounts(files: seq<SourceFile>)
    returns (report: Result<map<Category, Counts>, seq<seq<string>>>)
    ensures report.Ok? <==> AllClassified(files)
    ensures report.Ok? ==> forall c: Category :: c in report.value && report.value[c] == CategorySum(files, c)
    ensures report.Err? ==> report.error == Unclassified(files)
  {
    var counts := map[ExecutionKernel := ZERO, HostControlPlane := ZERO, CapabilityControlPlane := ZERO,
                      CapabilityProvider := ZERO, Cli := ZERO];
    assert files[..0] == [];
    ZeroSums(counts);
    var unclassified: seq<seq<string>> := [];
    var i := 0;
    while i < |files|
      invariant 0 <= i <= |files|
      invariant AreSums(counts, files[..i])
      invariant unclassified == Unclassified(files[..i])
    {
      SumsGrow(counts, files, i);
      var category := SourceCategory(files[i].path);
      if category.None? {
        unclassified := unclassified + [files[i].path];
      } else {
        var value := CountSource(files[i].path, files[i].lines);
        counts := counts[category.value := Add(counts[category.value], value)];
      }
      i := i + 1;
    }
    assert files[..|files|] == files;
    NoneUnclassifiedIff(files);
    report := if unclassified != [] then Err(unclassified) else Ok(counts);
  }

  // -------------------------------------------------------------- packages

  /** Files found below `crates/<package>`, by directory and with no path rewriting. */
  predicate InPackage(path: seq<string>, package: string) {
    |path| >= 3 && path[0] == "crates" && path[1] == package
  }

  function PackageSum(files: seq<SourceFile>, package: string): Counts {
    if files == [] then ZERO
    else
      var last := files[|files| - 1];
      var rest := PackageSum(files[..|files| - 1], package);
      if InPackage(last.path, package) then Add(rest, SourceCounts(last.path, last.lines)) else rest
  }

  function LayerSum(files: seq<SourceFile>, packages: seq<string>): Counts {
    if packages == [] then ZERO
    else Add(LayerSum(files, packages[..|packages| - 1]), PackageSum(files, packages[|packages| - 1]))
  }

  function Runtime(files: seq<SourceFile>): nat {
    CategorySum(files, ExecutionKernel).total + CategorySum(files, HostControlPlane).total
  }

  function Release(files: seq<SourceFile>): nat {
    Runtime(files) + CategorySum(files, CapabilityControlPlane).total
    + CategorySum(files, CapabilityProvider).total
  }

  predicate InPackages(path: seq<string>, packages: seq<string>) {
    |path| >= 3 && path[0] == "crates" && path[1] in packages
  }

  lemma {:induction false} LayerOfNothing(files: seq<SourceFile>, packages: seq<string>)
    requires files == []
    ensures LayerSum(files, packages) == ZERO
  {
    if packages != [] {
      LayerOfNothing(files, packages[..|packages| - 1]);
      assert PackageSum(files, packages[|packages| - 1]) == ZERO;
    }
  }

  /** A file adds its lines to a layer once, when its directory is one of the layer's. */
  lemma {:induction false} LayerStep(files: seq<SourceFile>, packages: seq<string>)
    requires files != [] && Distinct(packages)
    ensures var before, last := files[..|files| - 1], files[|files| - 1];
            LayerSum(files, packages).total
            == LayerSum(before, packages).total
               + (if InPackages(last.path, packages) then SourceCounts(last.path, last.lines).total else 0)
  {
    if packages != [] {
      var front, package := packages[..|packages| - 1], packages[|packages| - 1];
      LayerStep(files, front);
      assert packages == front + [package];
      assert forall a :: 0 <= a < |front| ==> front[a] == packages[a] != package;
    }
  }

  lemma PackagesAreDistinct()
    ensures Distinct(RUNTIME_PACKAGES) && Distinct(RELEASE_PACKAGES)
  {
    assert |"mini-agent-core"| == 15 && |"mini-agent-protocol"| == 19 && |"mini-agent-capabilities"| == 23;
    assert |"mini-agent-host"| == 15 && |"mini-agent-app-server"| == 21;
    assert |"mini-agent-app-server-protocol"| == 30;
    assert "mini-agent-core"[11] != "mini-agent-host"[11];
  }

  lemma PackageNamesAreNotFiles(package: string)
    requires package in RELEASE_PACKAGES || package == CLI
    ensures !EndsWith(package, ".rs")
  {
    var tail := package[|package| - 3..];
    assert tail[0] != ".rs"[0];
  }

  lemma CategoryNamesPackage(parts: seq<string>)
    requires |parts| >= 2 && parts[0] == "crates" && CategoryOf(parts).Some?
    ensures parts[1] in RUNTIME_PACKAGES <==> CategoryOf(parts).value in {ExecutionKernel, HostControlPlane}
    ensures parts[1] in RELEASE_PACKAGES <==> CategoryOf(parts).value != Cli
    ensures parts[1] in RELEASE_PACKAGES || parts[1] == CLI
  {
    assert PackageOf(parts) == Some(parts[1]);
  }

  lemma PackageNamesArePlain(package: string)
    requires package in RELEASE_PACKAGES
    ensures '\\' !in package
  {
  }

  lemma DirectoryIsSecondPart(path: seq<string>)
    requires IsCrateSource(path) && '\\' !in path[1]
    ensures |Parts(path)| >= 2 && Parts(path)[0] == "crates" && Parts(path)[1] == path[1]
  {
    assert "" + path[0] == path[0] && "" + path[1] == path[1];
    PlainComponent(path[0], "");
    PlainComponent(path[1], "");
    assert Parts(path) == [path[0]] + Parts(path[1..]);
    assert Parts(path[1..]) == [path[1]] + Parts(path[1..][1..]);
  }

  /**
   A classified source lies in the directory of a package of its category exactly when the
   component below `crates` holds no backslash; the others are classified by what follows it.
   */
  lemma CategoryIsDirectory(path: seq<string>)
    requires IsCrateSource(path) && SourceCategory(path).Some?
    ensures InPackages(path, RUNTIME_PACKAGES)
            <==> SourceCategory(path).value in {ExecutionKernel, HostControlPlane} && '\\' !in path[1]
    ensures InPackages(path, RELEASE_PACKAGES) <==> SourceCategory(path).value != Cli && '\\' !in path[1]
  {
    if '\\' in path[1] {
      if path[1] in RELEASE_PACKAGES {
        PackageNamesArePlain(path[1]);
      }
      RuntimeIsReleased(path[1]);
    } else {
      DirectoryIsSecondPart(path);
      CategoryNamesPackage(Parts(path));
      PackageNamesAreNotFiles(path[1]);
    }
  }

  lemma RuntimeIsReleased(package: string)
    ensures package in RUNTIME_PACKAGES ==> package in RELEASE_PACKAGES
  {
    assert forall i :: 0 <= i < |RUNTIME_PACKAGES| ==> RUNTIME_PACKAGES[i] in RELEASE_PACKAGES;
  }

  /** The category of a source without a backslash right below `crates` is that of its package. */
  lemma CategoryIsOfPackage(path: seq<string>)
    requires IsCrateSource(path) && '\\' !in path[1]
    ensures var category := SourceCategory(path);
            && (category == Some(ExecutionKernel) <==> path[1] in {"mini-agent-core", "mini-agent-protocol"})
            && (category == Some(HostControlPlane)
                <==> path[1] in {"mini-agent-host", "mini-agent-app-server", "mini-agent-app-server-protocol"})
            && (category in {Some(CapabilityControlPlane), Some(CapabilityProvider)}
                <==> path[1] == "mini-agent-capabilities")
            && (category == Some(CapabilityControlPlane) ==> IsCapabilityControlPath(Parts(path)))
            && (category == Some(CapabilityProvider) ==> !IsCapabilityControlPath(Parts(path)))
            && (category == Some(Cli) <==> path[1] == "mini-agent-cli")
  {
    DirectoryIsSecondPart(path);
    assert PackageOf(Parts(path)) == Some(path[1]);
    PackagesDiffer();
  }

  lemma PackagesDiffer()
    ensures CAPABILITIES !in KERNEL_PACKAGES && CAPABILITIES !in HOST_PACKAGES
    ensures CLI !in KERNEL_PACKAGES && CLI !in HOST_PACKAGES && CLI != CAPABILITIES
    ensures forall i :: 0 <= i < |KERNEL_PACKAGES| ==> KERNEL_PACKAGES[i] !in HOST_PACKAGES
  {
    PackagesAreDistinct();
    assert forall i :: 0 <= i < |RUNTIME_PACKAGES| ==> RUNTIME_PACKAGES[i] != CAPABILITIES;
    assert |CLI| == 14 && |CAPABILITIES| == 23;
  }

  function Sum<T>(items: seq<T>, f: T -> nat): nat {
    if items == [] then 0 else Sum(items[..|items| - 1], f) + f(items[|items| - 1])
  }

  lemma {:induction false} SumIsZeroIff<T>(items: seq<T>, f: T -> nat)
    ensures Sum(items, f) == 0 <==> forall i :: 0 <= i < |items| ==> f(items[i]) == 0
  {
    if items != [] {
      SumIsZeroIff(items[..|items| - 1], f);
      assert forall i :: 0 <= i < |items| - 1 ==> items[i] == items[..|items| - 1][i];
    }
  }

  lemma SumOfOne<T>(item: T, f: T -> nat)
    ensures Sum([item], f) == f(item)
  {
    assert Sum([item], f) == Sum([item][..0], f) + f(item);
  }

  /** A field of a file's counts, if the file is of the category. */
  function FieldIn(file: SourceFile, category: Category, field: Counts -> nat): nat {
    if SourceCategory(file.path) == Some(category) then field(SourceCounts(file.path, file.lines)) else 0
  }

  /** Each field of a category's counts is the sum of that field over the category's files. */
  lemma {:induction false} CategoryFieldsAreSums(files: seq<SourceFile>, category: Category)
    ensures var c := CategorySum(files, category);
            && c.total == Sum(files, file => FieldIn(file, category, (f: Counts) => f.total))
            && c.production == Sum(files, file => FieldIn(file, category, (f: Counts) => f.production))
            && c.unit == Sum(files, file => FieldIn(file, category, (f: Counts) => f.unit))
            && c.integration == Sum(files, file => FieldIn(file, category, (f: Counts) => f.integration))
  {
    if files != [] {
      CategoryFieldsAreSums(files[..|files| - 1], category);
    }
  }

  /** The lines a report counts by category although they lie in no package directory. */
  function StrayLines(files: seq<SourceFile>, categories: set<Category>): nat {
    Sum(files, file => StrayTotal(file, categories))
  }

  function StrayTotal(file: SourceFile, categories: set<Category>): nat {
    if IsStray(file, categories) then SourceCounts(file.path, file.lines).total else 0
  }

  predicate IsStray(file: SourceFile, categories: set<Category>) {
    && |file.path| >= 2 && '\\' in file.path[1]
    && SourceCategory(file.path).Some? && SourceCategory(file.path).value in categories
  }

  predicate StraysAreEmpty(files: seq<SourceFile>, categories: set<Category>) {
    forall i :: 0 <= i < |files| ==> StrayTotal(files[i], categories) == 0
  }

  const RUNTIME_CATEGORIES: set<Category> := {ExecutionKernel, HostControlPlane}
  const RELEASE_CATEGORIES: set<Category> :=
    {ExecutionKernel, HostControlPlane, CapabilityControlPlane, CapabilityProvider}

  predicate IsClassifiedTree(files: seq<SourceFile>) {
    AllClassified(files) && forall i :: 0 <= i < |files| ==> IsCrateSource(files[i].path)
  }

  /** The report's sums exceed the package sums by exactly the stray lines. */
  lemma {:induction false} ReportExceedsPackagesByStrays(files: seq<SourceFile>)
    requires IsClassifiedTree(files)
    ensures Runtime(files) == LayerSum(files, RUNTIME_PACKAGES).total + StrayLines(files, RUNTIME_CATEGORIES)
    ensures Release(files) == LayerSum(files, RELEASE_PACKAGES).total + StrayLines(files, RELEASE_CATEGORIES)
  {
    if files == [] {
      LayerOfNothing(files, RUNTIME_PACKAGES);
      LayerOfNothing(files, RELEASE_PACKAGES);
    } else {
      ReportExceedsPackagesByStrays(files[..|files| - 1]);
      PackagesAreDistinct();
      LayerStep(files, RUNTIME_PACKAGES);
      LayerStep(files, RELEASE_PACKAGES);
      CategoryIsDirectory(files[|files| - 1].path);
      SumsStep(files);
    }
  }

  /** One more file adds its lines to the sums of its own category. */
  lemma SumsStep(files: seq<SourceFile>)
    requires files != [] && SourceCategory(files[|files| - 1].path).Some?
    ensures var before, last := files[..|files| - 1], files[|files| - 1];
            var category, total := SourceCategory(last.path).value, SourceCounts(last.path, last.lines).total;
            && Runtime(files) == Runtime(before) + (if category in RUNTIME_CATEGORIES then total else 0)
            && Release(files) == Release(before) + (if category in RELEASE_CATEGORIES then total else 0)
  {
  }

  lemma NoStrayLinesIff(files: seq<SourceFile>, categories: set<Category>)
    ensures StrayLines(files, categories) == 0 <==> StraysAreEmpty(files, categories)
  {
    SumIsZeroIff(files, file => StrayTotal(file, categories));
  }

  /**
   For every classified tree each assertion of the report holds exactly when every source of
   its categories whose component below `crates` holds a backslash has no effective line.
   */
  lemma ReportAssertionsHoldIff(files: seq<SourceFile>)
    requires IsClassifiedTree(files)
    ensures Runtime(files) == LayerSum(files, RUNTIME_PACKAGES).total
            <==> StraysAreEmpty(files, RUNTIME_CATEGORIES)
    ensures Release(files) == LayerSum(files, RELEASE_PACKAGES).total
            <==> StraysAreEmpty(files, RELEASE_CATEGORIES)
  {
    ReportExceedsPackagesByStrays(files);
    NoStrayLinesIff(files, RUNTIME_CATEGORIES);
    NoStrayLinesIff(files, RELEASE_CATEGORIES);
  }

  /** Both assertions hold for every classified tree without a backslash right below `crates`. */
  lemma ReportAssertionsHold(files: seq<SourceFile>)
    requires IsClassifiedTree(files)
    requires forall i :: 0 <= i < |files| ==> '\\' !in files[i].path[1]
    ensures Runtime(files) == LayerSum(files, RUNTIME_PACKAGES).total
    ensures Release(files) == LayerSum(files, RELEASE_PACKAGES).total
  {
    ReportAssertionsHoldIff(files);
  }

  const ODD_PATH := ["crates", "mini-agent-core\\src", "lib.rs"]

  lemma OddPathParts()
    ensures Parts(ODD_PATH) == ["crates", "mini-agent-core", "src", "lib.rs"]
  {
    assert "mini-agent-core\\src" == "mini-agent-core" + ("\\" + "src");
    SplitAtBackslash("mini-agent-core", "src", "");
    PlainComponent("crates", "");
    PlainComponent("src", "");
    PlainComponent("lib.rs", "");
    assert "" + "crates" == "crates" && "" + "src" == "src" && "" + "lib.rs" == "lib.rs";
    assert "" + "mini-agent-core" == "mini-agent-core";
    assert ODD_PATH[1..] == ["mini-agent-core\\src", "lib.rs"];
    assert ["mini-agent-core\\src", "lib.rs"][1..] == ["lib.rs"] && ["lib.rs"][1..] == [];
  }

  lemma LetterIsEffective()
    ensures EffectiveLines(["x"]) == {0}
  {
    var line := "x";
    assert !MatchesAt(line, "//", 0) && !MatchesAt(line, "/*", 0);
    assert RawOpener(line, 0).None?;
    assert Next(line, 0, Code) == Code;
    assert Lex(line, 1, Code).out == "";
    assert Lex(line, 0, Code).out == ['x'] + "";
    assert CodeOfLine(["x"], 0) == ['x'];
  }

  const ODD_FILE := SourceFile(ODD_PATH, ["x"])

  lemma OddFileIsStray()
    ensures IsCrateSource(ODD_PATH) && SourceCategory(ODD_PATH) == Some(ExecutionKernel)
    ensures IsStray(ODD_FILE, RUNTIME_CATEGORIES) && IsStray(ODD_FILE, RELEASE_CATEGORIES)
  {
    OddPathParts();
    OddDirectory();
    assert ODD_PATH[1][15] == '\\';
  }

  lemma OddFileCountsOne()
    ensures SourceCounts(ODD_PATH, ["x"]).total == 1
  {
    LetterIsEffective();
    FileCountsPartition(ODD_PATH, ["x"]);
  }

  lemma OneFileSums(file: SourceFile, categories: set<Category>)
    ensures StrayLines([file], categories) == StrayTotal(file, categories)
  {
    SumOfOne(file, f => StrayTotal(f, categories));
  }

  lemma OutsiderAddsNothing(file: SourceFile, packages: seq<string>)
    requires Distinct(packages) && !InPackages(file.path, packages)
    ensures LayerSum([file], packages).total == 0
  {
    assert [file][..0] == [];
    LayerStep([file], packages);
    LayerOfNothing([file][..0], packages);
  }

  /** A directory named with a backslash is counted by category but not by package. */
  lemma BackslashBreaksTheReport()
    ensures IsClassifiedTree([ODD_FILE])
    ensures Release([ODD_FILE]) == 1 && LayerSum([ODD_FILE], RELEASE_PACKAGES).total == 0
    ensures Runtime([ODD_FILE]) == 1 && LayerSum([ODD_FILE], RUNTIME_PACKAGES).total == 0
  {
    OddFileIsStray();
    OddFileCountsOne();
    OneFileSums(ODD_FILE, RUNTIME_CATEGORIES);
    OneFileSums(ODD_FILE, RELEASE_CATEGORIES);
    PackagesAreDistinct();
    CategoryIsDirectory(ODD_PATH);
    OutsiderAddsNothing(ODD_FILE, RUNTIME_PACKAGES);
    OutsiderAddsNothing(ODD_FILE, RELEASE_PACKAGES);
    ReportExceedsPackagesByStrays([ODD_FILE]);
  }

  lemma OddDirectory()
    ensures IsCrateSource(ODD_PATH) && !InPackages(ODD_PATH, RELEASE_PACKAGES)
  {
    assert ODD_PATH[2][3..] == ".rs";
    assert |ODD_PATH[1]| == 19 && ODD_PATH[1][15] == '\\';
  }

  lemma {:induction false} SplitAtBackslash(name: string, rest: string, word: string)
    requires '\\' !in name && word + name != "" && word + name != "."
    ensures SplitBackslash(name + ("\\" + rest), word) == [word + name] + SplitBackslash(rest, "")
  {
    var whole := name + ("\\" + rest);
    if name == "" {
      assert whole == "\\" + rest && whole[1..] == rest && word + name == word;
    } else {
      assert whole[1..] == name[1..] + ("\\" + rest);
      assert (word + [name[0]]) + name[1..] == word + name;
      SplitAtBackslash(name[1..], rest, word + [name[0]]);
    }
  }
}
