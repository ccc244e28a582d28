/** `CGoGenSource`: the rule that runs `cgo` over a package's cgo sources and
    names the files it generates, per source `<stem>.cgo1.go` and
    `<stem>.cgo2.c` plus three fixed files, all directly under `genDir`. */
module CGoGen {
  import opened Optional
  import opened BuildRules

  const CGO1_GO_SUFFIX: string := ".cgo1.go"
  const CGO2_C_SUFFIX: string := ".cgo2.c"
  const EXPORT_C: string := "_cgo_export.c"
  const MAIN_C: string := "_cgo_main.c"
  const GOTYPES_GO: string := "_cgo_gotypes.go"
  const EXPORT_H: string := "_cgo_export.h"

  // ---------------------------------------------------------------------------
  // String operations of the constructor

  /** `String.lastIndexOf(c)`: the last position holding `c`, or -1. */
  function LastIndexOf(s: string, c: char): (i: int)
    ensures -1 <= i < |s|
    ensures i == -1 <==> c !in s
    ensures 0 <= i ==> s[i] == c && c !in s[i + 1..]
  {
    if s == [] then -1
    else if s[|s| - 1] == c then |s| - 1
    else
      var i := LastIndexOf(s[..|s| - 1], c);
      assert s == s[..|s| - 1] + [s[|s| - 1]];
      if 0 <= i then
        assert s[i + 1..] == s[..|s| - 1][i + 1..] + [s[|s| - 1]];
        i
      else i
  }

  /** `String.replace(from, to)` on characters. */
  function ReplaceChar(s: string, from: char, to: char): (r: string)
    ensures |r| == |s|
    ensures from != to ==> from !in r
    ensures forall i :: 0 <= i < |s| && s[i] != from ==> r[i] == s[i]
    ensures forall i :: 0 <= i < |s| && s[i] == from ==> r[i] == to
  {
    seq(|s|, i requires 0 <= i < |s| => if s[i] == from then to else s[i])
  }

  /** The name cgo gives a source: the path before its last `.`, with the
      separator replaced by `_`. A path with no `.` has none: `lastIndexOf`
      gives -1 and `substring(0, -1)` throws. */
  function Stem(path: string): (r: Option<string>)
    ensures r.None? <==> '.' !in path
    ensures r.Some? ==> |r.value| == LastIndexOf(path, '.') && SEPARATOR !in r.value
  {
    var dot := LastIndexOf(path, '.');
    if dot < 0 then None else Some(ReplaceChar(path[..dot], SEPARATOR, '_'))
  }

  /** The stem cuts at the LAST dot: whatever precedes the final extension, as
      written with the separator replaced, is the stem. */
  lemma StemOfExtended(base: string, ext: string)
    requires '.' !in ext
    ensures Stem(base + "." + ext) == Some(ReplaceChar(base, SEPARATOR, '_'))
  {
    var p := base + "." + ext;
    var i := LastIndexOf(p, '.');
    assert p[|base|] == '.';
    assert p[|base| + 1..] == ext;
    assert p[..|base|] == base;
  }

  /** Two sources whose paths differ only by a separator turned underscore
      get the same stem, so their generated files share a name. */
  lemma StemsCanCollide()
    ensures Stem("a/b.go") == Stem("a_b.go") == Some("a_b")
  {
    StemOfExtended("a/b", "go");
    StemOfExtended("a_b", "go");
    assert "a/b" + "." + "go" == "a/b.go";
    assert "a_b" + "." + "go" == "a_b.go";
    assert ReplaceChar("a/b", SEPARATOR, '_') == "a_b";
    assert ReplaceChar("a_b", SEPARATOR, '_') == "a_b";
  }

  // ---------------------------------------------------------------------------
  // The derived file lists

  predicate AllHaveExtension(relPaths: seq<string>) {
    forall i :: 0 <= i < |relPaths| ==> '.' in relPaths[i]
  }

  /** The stems of the sources, in iteration order. */
  function Stems(relPaths: seq<string>): (stems: seq<string>)
    requires AllHaveExtension(relPaths)
    ensures |stems| == |relPaths|
    ensures forall i :: 0 <= i < |relPaths| ==> Some(stems[i]) == Stem(relPaths[i])
  {
    seq(|relPaths|, i requires 0 <= i < |relPaths| => Stem(relPaths[i]).value)
  }

  /** A file of the target's rule directly under `genDir`. */
  function GenFile(target: BuildTarget, genDir: string, name: string): SourcePath {
    ExplicitBuildTargetSourcePath(target, Resolve(genDir, name))
  }

  /** One generated file per stem, `<stem><suffix>`, in order. */
  function PerStemFiles(target: BuildTarget, genDir: string, stems: seq<string>, suffix: string): seq<SourcePath> {
    seq(|stems|, i requires 0 <= i < |stems| => GenFile(target, genDir, stems[i] + suffix))
  }

  /** `goFiles`: the `.cgo1.go` files, then `_cgo_gotypes.go`. */
  function GoFilesOf(target: BuildTarget, genDir: string, stems: seq<string>): seq<SourcePath> {
    PerStemFiles(target, genDir, stems, CGO1_GO_SUFFIX) + [GenFile(target, genDir, GOTYPES_GO)]
  }

  /** `cFiles`: the `.cgo2.c` files, then `_cgo_export.c`. */
  function CFilesOf(target: BuildTarget, genDir: string, stems: seq<string>): seq<SourcePath> {
    PerStemFiles(target, genDir, stems, CGO2_C_SUFFIX) + [GenFile(target, genDir, EXPORT_C)]
  }

  /** `cgoFiles`: `_cgo_main.c` alone. */
  function CgoFilesOf(target: BuildTarget, genDir: string): seq<SourcePath> {
    [GenFile(target, genDir, MAIN_C)]
  }

  /** The shape of the lists: one entry per source in order, then the fixed file. */
  lemma FileListsShape(target: BuildTarget, genDir: string, relPaths: seq<string>)
    requires AllHaveExtension(relPaths)
    ensures var stems, n := Stems(relPaths), |relPaths|;
      && |GoFilesOf(target, genDir, stems)| == n + 1
      && |CFilesOf(target, genDir, stems)| == n + 1
      && GoFilesOf(target, genDir, stems)[n] == GenFile(target, genDir, GOTYPES_GO)
      && CFilesOf(target, genDir, stems)[n] == GenFile(target, genDir, EXPORT_C)
      && (forall i :: 0 <= i < n ==>
            && Stem(relPaths[i]).Some?
            && GoFilesOf(target, genDir, stems)[i] == GenFile(target, genDir, Stem(relPaths[i]).value + CGO1_GO_SUFFIX)
            && CFilesOf(target, genDir, stems)[i] == GenFile(target, genDir, Stem(relPaths[i]).value + CGO2_C_SUFFIX))
  {
  }

  /** A file name directly under `genDir`: no separator in it. */
  ghost predicate DirectlyUnder(genDir: string, f: SourcePath) {
    f.ExplicitBuildTargetSourcePath? && exists name :: f.path == Resolve(genDir, name) && SEPARATOR !in name
  }

  lemma StemFileDirectlyUnder(target: BuildTarget, genDir: string, stem: string, suffix: string)
    requires SEPARATOR !in stem && SEPARATOR !in suffix
    ensures DirectlyUnder(genDir, GenFile(target, genDir, stem + suffix))
  {
    assert SEPARATOR !in stem + suffix;
  }

  /** Every generated file lies directly under `genDir`: the stems' separator
      replacement flattens the source tree. */
  lemma GeneratedFilesFlat(target: BuildTarget, genDir: string, relPaths: seq<string>)
    requires AllHaveExtension(relPaths)
    ensures forall f :: f in GoFilesOf(target, genDir, Stems(relPaths)) ==> DirectlyUnder(genDir, f)
    ensures forall f :: f in CFilesOf(target, genDir, Stems(relPaths)) ==> DirectlyUnder(genDir, f)
    ensures forall f :: f in CgoFilesOf(target, genDir) ==> DirectlyUnder(genDir, f)
  {
    var stems := Stems(relPaths);
    forall i | 0 <= i < |stems|
      ensures DirectlyUnder(genDir, GenFile(target, genDir, stems[i] + CGO1_GO_SUFFIX))
      ensures DirectlyUnder(genDir, GenFile(target, genDir, stems[i] + CGO2_C_SUFFIX))
    {
      StemFileDirectlyUnder(target, genDir, stems[i], CGO1_GO_SUFFIX);
      StemFileDirectlyUnder(target, genDir, stems[i], CGO2_C_SUFFIX);
    }
    StemFileDirectlyUnder(target, genDir, GOTYPES_GO, "");
    StemFileDirectlyUnder(target, genDir, EXPORT_C, "");
    StemFileDirectlyUnder(target, genDir, MAIN_C, "");
    assert GOTYPES_GO + "" == GOTYPES_GO && EXPORT_C + "" == EXPORT_C && MAIN_C + "" == MAIN_C;
  }

  /** The export header is none of the generated sources: its name ends in
      `h`, theirs in `c` or `o`. */
  lemma ExportHeaderIsNotGenerated(target: BuildTarget, genDir: string, relPaths: seq<string>)
    requires AllHaveExtension(relPaths)
    ensures GenFile(target, genDir, EXPORT_H) !in GoFilesOf(target, genDir, Stems(relPaths))
    ensures GenFile(target, genDir, EXPORT_H) !in CFilesOf(target, genDir, Stems(relPaths))
    ensures GenFile(target, genDir, EXPORT_H) !in CgoFilesOf(target, genDir)
  {
    var stems := Stems(relPaths);
    var h := GenFile(target, genDir, EXPORT_H);
    forall f | f in GoFilesOf(target, genDir, stems) ensures f != h {
      var k :| 0 <= k < |GoFilesOf(target, genDir, stems)| && GoFilesOf(target, genDir, stems)[k] == f;
      if k < |stems| {
        var name := stems[k] + CGO1_GO_SUFFIX;
        assert name[|name| - 1] == 'o';
        NotExportHeader(target, genDir, name);
      } else {
        NotExportHeader(target, genDir, GOTYPES_GO);
      }
    }
    forall f | f in CFilesOf(target, genDir, stems) ensures f != h {
      var k :| 0 <= k < |CFilesOf(target, genDir, stems)| && CFilesOf(target, genDir, stems)[k] == f;
      if k < |stems| {
        var name := stems[k] + CGO2_C_SUFFIX;
        assert name[|name| - 1] == 'c';
        NotExportHeader(target, genDir, name);
      } else {
        NotExportHeader(target, genDir, EXPORT_C);
      }
    }
    NotExportHeader(target, genDir, MAIN_C);
  }

  /** A generated name that does not end in `h` is not the export header. */
  lemma NotExportHeader(target: BuildTarget, genDir: string, name: string)
    requires name != [] && name[|name| - 1] != 'h'
    ensures GenFile(target, genDir, EXPORT_H) != GenFile(target, genDir, name)
  {
    if GenFile(target, genDir, EXPORT_H) == GenFile(target, genDir, name) {
      ResolveInjective(genDir, EXPORT_H, name);
    }
  }

  // ---------------------------------------------------------------------------
  // The rule

  /** The steps `getBuildSteps` returns. The cleaning of a directory is what
      `MakeCleanDirectoryStep.of` returns for it, a list of steps of its own;
      the compile step's tool environment, command prefix and platform are not
      part of this model. */
  datatype Step =
    | CleanDirectoryStep(dir: string, index: nat)
    | CGoCompileStep(
        target: BuildTarget, workingDir: string, flags: seq<string>, srcs: seq<string>, outputDir: string)

  class CGoGenSource {
    const buildTarget: BuildTarget
    const cgoSrcs: seq<SourcePath>
    const cgoCompilerFlags: seq<string>
    const genDir: string
    const buildDeps: seq<BuildRule>
    const cFiles: seq<SourcePath>
    const cgoFiles: seq<SourcePath>
    const goFiles: seq<SourcePath>
    /** Each source's path relative to the target's package, as computed by
        the file system and path resolver. */
    ghost const relPaths: seq<string>
    /** The tool's deps together with the rules the sources are outputs of. */
    ghost const depRules: set<BuildRule>

    /** The file lists are those derived from the sources. */
    ghost predicate Valid() {
      && |relPaths| == |cgoSrcs|
      && (forall i, j :: 0 <= i < j < |cgoSrcs| ==> cgoSrcs[i] != cgoSrcs[j])
      && AllHaveExtension(relPaths)
      && goFiles == GoFilesOf(buildTarget, genDir, Stems(relPaths))
      && cFiles == CFilesOf(buildTarget, genDir, Stems(relPaths))
      && cgoFiles == CgoFilesOf(buildTarget, genDir)
      && buildDeps == SortedRules(depRules)
    }

    /** Derives the three lists by one pass over the sources, and the build
        deps as the sorted union of the tool's deps and the sources' rule
        inputs. Every source path must contain a `.` (otherwise `substring`
        is given -1 and throws). */
    constructor (
      buildTarget: BuildTarget,
      cgoSrcs: seq<SourcePath>,
      relativePath: SourcePath -> string,
      cgoCompilerFlags: seq<string>,
      genDir: string,
      toolDeps: set<BuildRule>,
      sourceRuleInputs: set<BuildRule>)
      requires forall i :: 0 <= i < |cgoSrcs| ==> '.' in relativePath(cgoSrcs[i])
      requires forall i, j :: 0 <= i < j < |cgoSrcs| ==> cgoSrcs[i] != cgoSrcs[j]
      ensures Valid()
      ensures this.buildTarget == buildTarget && this.cgoSrcs == cgoSrcs
      ensures this.cgoCompilerFlags == cgoCompilerFlags && this.genDir == genDir
      ensures relPaths == seq(|cgoSrcs|, i requires 0 <= i < |cgoSrcs| => relativePath(cgoSrcs[i]))
      ensures depRules == toolDeps + sourceRuleInputs
    {
      this.buildTarget := buildTarget;
      this.cgoSrcs := cgoSrcs;
      this.cgoCompilerFlags := cgoCompilerFlags;
      this.genDir := genDir;
      var paths := seq(|cgoSrcs|, i requires 0 <= i < |cgoSrcs| => relativePath(cgoSrcs[i]));
      this.relPaths := paths;
      var cBuilder: seq<SourcePath> := [];
      var goBuilder: seq<SourcePath> := [];
      for i := 0 to |cgoSrcs|
        invariant cBuilder == PerStemFiles(buildTarget, genDir, Stems(paths[..i]), CGO2_C_SUFFIX)
        invariant goBuilder == PerStemFiles(buildTarget, genDir, Stems(paths[..i]), CGO1_GO_SUFFIX)
      {
        var path := relativePath(cgoSrcs[i]);
        var filename := ReplaceChar(path[..LastIndexOf(path, '.')], SEPARATOR, '_');
        assert Stems(paths[..i + 1]) == Stems(paths[..i]) + [filename];
        goBuilder := goBuilder + [GenFile(buildTarget, genDir, filename + CGO1_GO_SUFFIX)];
        cBuilder := cBuilder + [GenFile(buildTarget, genDir, filename + CGO2_C_SUFFIX)];
      }
      assert paths[..|cgoSrcs|] == paths;
      this.cFiles := cBuilder + [GenFile(buildTarget, genDir, EXPORT_C)];
      this.cgoFiles := [GenFile(buildTarget, genDir, MAIN_C)];
      this.goFiles := goBuilder + [GenFile(buildTarget, genDir, GOTYPES_GO)];
      this.depRules := toolDeps + sourceRuleInputs;
      this.buildDeps := SortedRules(toolDeps + sourceRuleInputs);
    }

    /** `getCFiles()`: one `.cgo2.c` per source, in order, then `_cgo_export.c`. */
    function GetCFiles(): (fs: seq<SourcePath>)
      requires Valid()
      ensures |fs| == |cgoSrcs| + 1
      ensures fs[|cgoSrcs|] == GenFile(buildTarget, genDir, EXPORT_C)
      ensures forall i :: 0 <= i < |cgoSrcs| ==>
        Stem(relPaths[i]).Some? && fs[i] == GenFile(buildTarget, genDir, Stem(relPaths[i]).value + CGO2_C_SUFFIX)
    {
      FileListsShape(buildTarget, genDir, relPaths);
      cFiles
    }

    /** `getCgoFiles()`: `_cgo_main.c` alone, whatever the sources. */
    function GetCgoFiles(): (fs: seq<SourcePath>)
      requires Valid()
      ensures fs == [GenFile(buildTarget, genDir, MAIN_C)]
    {
      cgoFiles
    }

    /** `getGoFiles()`: one `.cgo1.go` per source, in order, then `_cgo_gotypes.go`. */
    function GetGoFiles(): (fs: seq<SourcePath>)
      requires Valid()
      ensures |fs| == |cgoSrcs| + 1
      ensures fs[|cgoSrcs|] == GenFile(buildTarget, genDir, GOTYPES_GO)
      ensures forall i :: 0 <= i < |cgoSrcs| ==>
        Stem(relPaths[i]).Some? && fs[i] == GenFile(buildTarget, genDir, Stem(relPaths[i]).value + CGO1_GO_SUFFIX)
    {
      FileListsShape(buildTarget, genDir, relPaths);
      goFiles
    }

    /** `getBuildDeps()`: every dep exactly once, in natural order. */
    function GetBuildDeps(): (ds: seq<BuildRule>)
      requires Valid()
      ensures StrictlySorted(ds)
      ensures forall r :: r in ds <==> r in depRules
      ensures |ds| == |depRules|
    {
      buildDeps
    }

    /** `getSourcePathToOutput()`: the generated directory itself, which holds
        every generated file and the export header directly. */
    function GetSourcePathToOutput(): (p: SourcePath)
      requires Valid()
      ensures p.ExplicitBuildTargetSourcePath? && p.target == buildTarget
      ensures forall f :: f in cFiles || f in goFiles || f in cgoFiles ==> DirectlyUnder(p.path, f)
      ensures DirectlyUnder(p.path, GenFile(buildTarget, genDir, EXPORT_H))
    {
      GeneratedFilesFlat(buildTarget, genDir, relPaths);
      StemFileDirectlyUnder(buildTarget, genDir, EXPORT_H, "");
      assert EXPORT_H + "" == EXPORT_H;
      ExplicitBuildTargetSourcePath(buildTarget, genDir)
    }

    /** `getExportHeader()`: `_cgo_export.h` in the generated directory, a
        file none of the lists holds. */
    function GetExportHeader(): (p: SourcePath)
      requires Valid()
      ensures p == GenFile(buildTarget, genDir, EXPORT_H)
      ensures p !in cFiles && p !in goFiles && p !in cgoFiles
      ensures DirectlyUnder(genDir, p)
    {
      ExportHeaderIsNotGenerated(buildTarget, genDir, relPaths);
      StemFileDirectlyUnder(buildTarget, genDir, EXPORT_H, "");
      assert EXPORT_H + "" == EXPORT_H;
      GenFile(buildTarget, genDir, EXPORT_H)
    }

    /** `getBuildSteps`: the steps that clean `genDir`, then the single
        compile step, run in the target's package directory, over the
        sources' absolute paths into `genDir`; records `genDir` as the
        artifact. `projectPath` is the file system's absolute path of a
        project-relative one. */
    method GetBuildSteps(
      cleanStepCount: nat,
      absolutePath: SourcePath -> string,
      projectPath: string -> string,
      context: BuildableContext) returns (steps: seq<Step>)
      modifies context
      ensures |steps| == cleanStepCount + 1
      ensures forall i :: 0 <= i < cleanStepCount ==> steps[i] == CleanDirectoryStep(genDir, i)
      ensures steps[cleanStepCount] == CGoCompileStep(buildTarget, projectPath(buildTarget.basePath),
        cgoCompilerFlags, seq(|cgoSrcs|, i requires 0 <= i < |cgoSrcs| => absolutePath(cgoSrcs[i])),
        projectPath(genDir))
      ensures context.artifacts == old(context.artifacts) + [genDir]
    {
      steps := seq(cleanStepCount, i requires 0 <= i < cleanStepCount => CleanDirectoryStep(genDir, i));
      var srcs := seq(|cgoSrcs|, i requires 0 <= i < |cgoSrcs| => absolutePath(cgoSrcs[i]));
      steps := steps + [CGoCompileStep(buildTarget, projectPath(buildTarget.basePath), cgoCompilerFlags,
        srcs, projectPath(genDir))];
      context.RecordArtifact(genDir);
    }
  }
}
