/** `CxxPythonExtensionDescription`, its self-contained part: the `.so` naming
    rule, the library-type flavors, the dispatch of `createBuildRule`, the
    platform deps, and the placeholder rule that remembers every extension it
    hands out so they can be re-added when it comes back from a cache. The
    rule builders, the rule resolver and the platform domains are inputs. */
module CxxPythonExtension {
  import opened Optional
  import opened BuildRules

  // ---------------------------------------------------------------------------
  // Naming

  const EXTENSION_SUFFIX: string := ".so"

  /** `getExtensionName(m)`: `.so` on every platform, OS X included. */
  function ExtensionName(moduleName: string): (n: string)
    ensures |n| == |moduleName| + |EXTENSION_SUFFIX|
    ensures n[..|moduleName|] == moduleName && n[|moduleName|..] == EXTENSION_SUFFIX
  {
    moduleName + EXTENSION_SUFFIX
  }

  /** Distinct modules get distinct extension names. */
  lemma ExtensionNameInjective(a: string, b: string)
    requires ExtensionName(a) == ExtensionName(b)
    ensures a == b
  {
    assert |a| == |b|;
    assert a == ExtensionName(a)[..|a|];
  }

  /** The constructor arguments this model reads. */
  datatype ExtensionArgs = ExtensionArgs(baseModule: Option<string>, moduleName: Option<string>)

  /** The module name: the `module_name` argument when given, else the
      target's short name. */
  function ModuleName(args: ExtensionArgs, target: BuildTarget): (m: string)
    ensures args.moduleName.Some? ==> m == args.moduleName.value
    ensures args.moduleName.None? ==> m == target.shortName
  {
    args.moduleName.GetOr(target.shortName)
  }

  /** The placeholder's module path: the extension name under the base module. */
  function ModulePath(baseModule: string, args: ExtensionArgs, target: BuildTarget): (p: string)
    ensures p == Resolve(baseModule, ExtensionName(ModuleName(args, target)))
  {
    Resolve(baseModule, ExtensionName(args.moduleName.GetOr(target.shortName)))
  }

  // ---------------------------------------------------------------------------
  // Library types and flavor domains

  /** `Type`: the kinds of rule a flavored target can ask for. */
  datatype LibraryType = EXTENSION | SANDBOX_TREE | COMPILATION_DATABASE

  const SHARED_FLAVOR: Flavor := "shared"
  const SANDBOX_TREE_FLAVOR: Flavor := "sandbox"
  const COMPILATION_DATABASE_FLAVOR: Flavor := "compilation-database"

  /** `Type.getFlavor()`. */
  function TypeFlavor(t: LibraryType): (f: Flavor)
    ensures t == EXTENSION ==> f == SHARED_FLAVOR
  {
    match t
    case EXTENSION => SHARED_FLAVOR
    case SANDBOX_TREE => SANDBOX_TREE_FLAVOR
    case COMPILATION_DATABASE => COMPILATION_DATABASE_FLAVOR
  }

  /** Each type has its own flavor, so a flavor names at most one type. */
  lemma TypeFlavorInjective(a: LibraryType, b: LibraryType)
    requires TypeFlavor(a) == TypeFlavor(b)
    ensures a == b
  {
  }

  /** Why a flavor domain lookup throws, with the domain's name. */
  datatype FlavorDomainError = MultipleFlavors(domain: string) | MissingFlavor(domain: string)

  /** `FlavorDomain<T>`: named values, each reached by its flavor. */
  datatype FlavorDomain<T(==)> = FlavorDomain(name: string, entries: seq<(Flavor, T)>) {
    function Flavors(): (fs: set<Flavor>)
      ensures forall f :: f in fs <==> exists i :: 0 <= i < |entries| && entries[i].0 == f
    {
      set i | 0 <= i < |entries| :: entries[i].0
    }

    /** `getValue(target)`: none when no flavor of the target is in the
        domain, the value of the one that is, an error when several are. */
    function GetValue(target: BuildTarget): (r: Result<Option<T>, FlavorDomainError>)
      ensures r.Failure? <==> |target.flavors * Flavors()| > 1
      ensures r.Failure? ==> r.error == MultipleFlavors(name)
      ensures r == Success(None) <==> target.flavors * Flavors() == {}
      ensures r.Success? && r.value.Some? ==>
        exists i :: 0 <= i < |entries| && entries[i].0 in target.flavors && entries[i].1 == r.value.value
    {
      var matching := target.flavors * Flavors();
      var k := FirstMatchIndex(entries, target.flavors);
      assert k.Some? ==> entries[k.value].0 in matching;
      if |matching| > 1 then Failure(MultipleFlavors(name))
      else if k.None? then Success(None)
      else Success(Some(entries[k.value].1))
    }

    /** `getRequiredValue(target)`: as `getValue`, and none is an error too. */
    function GetRequiredValue(target: BuildTarget): (r: Result<T, FlavorDomainError>)
      ensures r.Success? <==> |target.flavors * Flavors()| == 1
      ensures target.flavors * Flavors() == {} ==> r == Failure(MissingFlavor(name))
      ensures |target.flavors * Flavors()| > 1 ==> r == Failure(MultipleFlavors(name))
      ensures r.Success? ==>
        exists i :: 0 <= i < |entries| && entries[i].0 in target.flavors && entries[i].1 == r.value
    {
      match GetValue(target)
      case Failure(e) => Failure(e)
      case Success(None) => Failure(MissingFlavor(name))
      case Success(Some(v)) => Success(v)
    }
  }

  /** The first entry whose flavor the target has. */
  function FirstMatchIndex<T>(entries: seq<(Flavor, T)>, flavors: set<Flavor>): (k: Option<nat>)
    ensures k.Some? <==> exists i :: 0 <= i < |entries| && entries[i].0 in flavors
    ensures k.Some? ==> k.value < |entries| && entries[k.value].0 in flavors
    ensures k.Some? ==> forall j :: 0 <= j < k.value ==> entries[j].0 !in flavors
  {
    if entries == [] then None
    else if entries[0].0 in flavors then Some(0)
    else
      var k := FirstMatchIndex(entries[1..], flavors);
      assert forall i :: 1 <= i < |entries| ==> entries[i] == entries[1..][i - 1];
      if k.None? then None else Some(k.value + 1)
  }

  const LIBRARY_TYPE_NAME: string := "C/C++ Library Type"

  /** `LIBRARY_TYPE`: the domain of the three types, in declaration order. */
  const LIBRARY_TYPE: FlavorDomain<LibraryType> := FlavorDomain(LIBRARY_TYPE_NAME, [
    (TypeFlavor(EXTENSION), EXTENSION),
    (TypeFlavor(SANDBOX_TREE), SANDBOX_TREE),
    (TypeFlavor(COMPILATION_DATABASE), COMPILATION_DATABASE)])

  /** A target carrying exactly one type flavor asks for that type. */
  lemma LibraryTypeOfFlavor(target: BuildTarget, t: LibraryType)
    requires target.flavors * LIBRARY_TYPE.Flavors() == {TypeFlavor(t)}
    ensures LIBRARY_TYPE.GetValue(target) == Success(Some(t))
  {
    var r := LIBRARY_TYPE.GetValue(target);
    var i :| 0 <= i < |LIBRARY_TYPE.entries| && LIBRARY_TYPE.entries[i].0 in target.flavors
      && LIBRARY_TYPE.entries[i].1 == r.value.value;
    LibraryTypeEntries(i);
    assert LIBRARY_TYPE.entries[i].0 in target.flavors * LIBRARY_TYPE.Flavors();
    TypeFlavorInjective(LIBRARY_TYPE.entries[i].1, t);
  }

  /** Each entry of `LIBRARY_TYPE` is a type under its own flavor. */
  lemma LibraryTypeEntries(i: int)
    requires 0 <= i < |LIBRARY_TYPE.entries|
    ensures LIBRARY_TYPE.entries[i].0 == TypeFlavor(LIBRARY_TYPE.entries[i].1)
  {
  }

  /** A set of at most one element that holds `x` is `{x}`. */
  lemma SingletonOf<T>(m: set<T>, x: T)
    requires x in m && |m| <= 1
    ensures m == {x}
  {
    assert |m - {x}| == 0;
  }

  // ---------------------------------------------------------------------------
  // The dispatch of createBuildRule

  /** A Python platform: its flavor and the C/C++ library it may declare. */
  datatype PythonPlatform = PythonPlatform(flavor: Flavor, cxxLibrary: Option<BuildTarget>)

  datatype CxxPlatform = CxxPlatform(flavor: Flavor)

  /** Which rule `createBuildRule` builds, with the platforms it resolved. */
  datatype Choice =
    | BuildSandboxTree(cxx: CxxPlatform)
    | BuildExtension(python: PythonPlatform, cxx: CxxPlatform)
    | BuildCompilationDatabase(python: PythonPlatform, cxx: CxxPlatform)
    | MakePlaceholder(modulePath: string)
  {
    function Kind(): Option<LibraryType> {
      match this
      case BuildSandboxTree(_) => Some(SANDBOX_TREE)
      case BuildExtension(_, _) => Some(EXTENSION)
      case BuildCompilationDatabase(_, _) => Some(COMPILATION_DATABASE)
      case MakePlaceholder(_) => None
    }
  }

  /** The decision of `createBuildRule`: the type flavor picks a builder and
      the platforms it needs (Python before C/C++), and no type flavor makes
      the placeholder at the module path under `baseModule`. */
  function Dispatch(
    target: BuildTarget, args: ExtensionArgs, pythonPlatforms: FlavorDomain<PythonPlatform>,
    cxxPlatforms: FlavorDomain<CxxPlatform>, baseModule: string): (r: Result<Choice, FlavorDomainError>)
    ensures (r.Success? && r.value.MakePlaceholder?) <==> target.flavors * LIBRARY_TYPE.Flavors() == {}
    ensures r.Success? && r.value.MakePlaceholder? ==> r.value.modulePath == ModulePath(baseModule, args, target)
    ensures r.Success? && r.value.Kind().Some? ==>
      target.flavors * LIBRARY_TYPE.Flavors() == {TypeFlavor(r.value.Kind().value)}
    ensures |target.flavors * LIBRARY_TYPE.Flavors()| > 1 ==> r == Failure(MultipleFlavors(LIBRARY_TYPE_NAME))
    ensures r.Success? && !r.value.MakePlaceholder? ==> Success(r.value.cxx) == cxxPlatforms.GetRequiredValue(target)
    ensures r.Success? && (r.value.BuildExtension? || r.value.BuildCompilationDatabase?) ==>
      Success(r.value.python) == pythonPlatforms.GetRequiredValue(target)
    // Each type flavor reaches its own builder once its platforms resolve.
    ensures (target.flavors * LIBRARY_TYPE.Flavors() == {TypeFlavor(SANDBOX_TREE)}
             && cxxPlatforms.GetRequiredValue(target).Success?) ==>
      r == Success(BuildSandboxTree(cxxPlatforms.GetRequiredValue(target).value))
    ensures (target.flavors * LIBRARY_TYPE.Flavors() == {TypeFlavor(EXTENSION)}
             && pythonPlatforms.GetRequiredValue(target).Success?
             && cxxPlatforms.GetRequiredValue(target).Success?) ==>
      r == Success(BuildExtension(pythonPlatforms.GetRequiredValue(target).value,
                                  cxxPlatforms.GetRequiredValue(target).value))
    ensures (target.flavors * LIBRARY_TYPE.Flavors() == {TypeFlavor(COMPILATION_DATABASE)}
             && pythonPlatforms.GetRequiredValue(target).Success?
             && cxxPlatforms.GetRequiredValue(target).Success?) ==>
      r == Success(BuildCompilationDatabase(pythonPlatforms.GetRequiredValue(target).value,
                                            cxxPlatforms.GetRequiredValue(target).value))
    // A failed platform lookup passes on its own error, the Python one first.
    ensures (target.flavors * LIBRARY_TYPE.Flavors() in {{TypeFlavor(EXTENSION)}, {TypeFlavor(COMPILATION_DATABASE)}}
             && pythonPlatforms.GetRequiredValue(target).Failure?) ==>
      r == Failure(pythonPlatforms.GetRequiredValue(target).error)
    ensures (target.flavors * LIBRARY_TYPE.Flavors() in {{TypeFlavor(EXTENSION)}, {TypeFlavor(COMPILATION_DATABASE)}}
             && pythonPlatforms.GetRequiredValue(target).Success?
             && cxxPlatforms.GetRequiredValue(target).Failure?) ==>
      r == Failure(cxxPlatforms.GetRequiredValue(target).error)
    ensures (target.flavors * LIBRARY_TYPE.Flavors() == {TypeFlavor(SANDBOX_TREE)}
             && cxxPlatforms.GetRequiredValue(target).Failure?) ==>
      r == Failure(cxxPlatforms.GetRequiredValue(target).error)
  {
    match LIBRARY_TYPE.GetValue(target)
    case Failure(e) => Failure(e)
    case Success(None) => Success(MakePlaceholder(ModulePath(baseModule, args, target)))
    case Success(Some(t)) =>
      TypeFlavorOfValue(target, t);
      match t
      case SANDBOX_TREE =>
        var cxx :- cxxPlatforms.GetRequiredValue(target);
        Success(BuildSandboxTree(cxx))
      case EXTENSION =>
        var python :- pythonPlatforms.GetRequiredValue(target);
        var cxx :- cxxPlatforms.GetRequiredValue(target);
        Success(BuildExtension(python, cxx))
      case COMPILATION_DATABASE =>
        var python :- pythonPlatforms.GetRequiredValue(target);
        var cxx :- cxxPlatforms.GetRequiredValue(target);
        Success(BuildCompilationDatabase(python, cxx))
  }

  /** The type `getValue` finds is the one whose flavor the target carries. */
  lemma TypeFlavorOfValue(target: BuildTarget, t: LibraryType)
    requires LIBRARY_TYPE.GetValue(target) == Success(Some(t))
    ensures target.flavors * LIBRARY_TYPE.Flavors() == {TypeFlavor(t)}
  {
    var i :| 0 <= i < |LIBRARY_TYPE.entries| && LIBRARY_TYPE.entries[i].0 in target.flavors
      && LIBRARY_TYPE.entries[i].1 == t;
    LibraryTypeEntries(i);
    var m := target.flavors * LIBRARY_TYPE.Flavors();
    assert TypeFlavor(t) in m;
    SingletonOf(m, TypeFlavor(t));
  }

  // ---------------------------------------------------------------------------
  // Platform deps

  /** `ImmutableSet.Builder.addAll`: appends the elements not yet present. */
  function AddAll(acc: seq<BuildRule>, xs: seq<BuildRule>): (r: seq<BuildRule>)
    ensures |acc| <= |r| && r[..|acc|] == acc
    decreases |xs|
  {
    if xs == [] then acc
    else
      var next := if xs[0] in acc then acc else acc + [xs[0]];
      var r := AddAll(next, xs[1..]);
      assert r[..|acc|] == r[..|next|][..|acc|];
      r
  }

  predicate NoDuplicates(rs: seq<BuildRule>) {
    forall i, j :: 0 <= i < j < |rs| ==> rs[i] != rs[j]
  }

  /** The builder keeps its elements distinct and holds exactly what was added. */
  lemma {:induction false} AddAllSpec(acc: seq<BuildRule>, xs: seq<BuildRule>)
    requires NoDuplicates(acc)
    ensures NoDuplicates(AddAll(acc, xs))
    ensures forall r :: r in AddAll(acc, xs) <==> r in acc || r in xs
    decreases |xs|
  {
    if xs != [] {
      var next := if xs[0] in acc then acc else acc + [xs[0]];
      assert NoDuplicates(next);
      AddAllSpec(next, xs[1..]);
      assert forall r :: r in xs <==> r == xs[0] || r in xs[1..];
    }
  }

  /** A platform-specific dep list: the targets of an entry whose pattern
      matches the Python platform's flavor. */
  datatype PatternDeps = PatternDeps(matches: string -> bool, targets: seq<BuildTarget>)

  /** `getMatchingValues(flavor)`, concatenated. */
  function MatchingTargets(platformDeps: seq<PatternDeps>, flavor: Flavor): (ts: seq<BuildTarget>)
    ensures forall t :: t in ts <==> exists i :: 0 <= i < |platformDeps| && platformDeps[i].matches(flavor) && t in platformDeps[i].targets
  {
    if platformDeps == [] then []
    else
      var rest := MatchingTargets(platformDeps[1..], flavor);
      assert forall i :: 1 <= i < |platformDeps| ==> platformDeps[i] == platformDeps[1..][i - 1];
      (if platformDeps[0].matches(flavor) then platformDeps[0].targets else []) + rest
  }

  /** `getAllRules` of the matching targets: one rule per target, in order. */
  function PlatformSpecificRules(platformDeps: seq<PatternDeps>, flavor: Flavor, getRule: BuildTarget -> BuildRule)
    : (rs: seq<BuildRule>)
    ensures forall t :: t in MatchingTargets(platformDeps, flavor) ==> getRule(t) in rs
    ensures forall r :: r in rs ==> exists t :: t in MatchingTargets(platformDeps, flavor) && r == getRule(t)
  {
    var specific := MatchingTargets(platformDeps, flavor);
    var rs := seq(|specific|, i requires 0 <= i < |specific| => getRule(specific[i]));
    assert forall t :: t in specific ==> getRule(t) in rs by {
      forall t | t in specific ensures getRule(t) in rs {
        var i :| 0 <= i < |specific| && specific[i] == t;
        assert rs[i] == getRule(t);
      }
    }
    assert forall r :: r in rs ==> exists t :: t in specific && r == getRule(t) by {
      forall r | r in rs ensures exists t :: t in specific && r == getRule(t) {
        var i :| 0 <= i < |rs| && rs[i] == r;
        assert specific[i] in specific;
      }
    }
    rs
  }

  /** The Python platform's C/C++ library rule, when it declares one. */
  function LibraryRules(python: PythonPlatform, getRule: BuildTarget -> BuildRule): (rs: seq<BuildRule>)
    ensures forall r :: r in rs <==> python.cxxLibrary.Some? && r == getRule(python.cxxLibrary.value)
  {
    if python.cxxLibrary.Some? then [getRule(python.cxxLibrary.value)] else []
  }

  /** The rules `getPlatformDeps` adds, in order: the declared deps, the
      platform-specific ones, then the Python C/C++ library if declared. */
  function PlatformDepsInput(
    declared: seq<BuildRule>, platformDeps: seq<PatternDeps>, python: PythonPlatform,
    getRule: BuildTarget -> BuildRule): seq<BuildRule>
  {
    declared + PlatformSpecificRules(platformDeps, python.flavor, getRule) + LibraryRules(python, getRule)
  }

  /** Adding two lists one after the other adds their concatenation. */
  lemma {:induction false} AddAllConcat(acc: seq<BuildRule>, a: seq<BuildRule>, b: seq<BuildRule>)
    ensures AddAll(AddAll(acc, a), b) == AddAll(acc, a + b)
    decreases |a|
  {
    if a == [] {
      assert a + b == b;
    } else {
      var next := if a[0] in acc then acc else acc + [a[0]];
      assert (a + b)[0] == a[0] && (a + b)[1..] == a[1..] + b;
      AddAllConcat(next, a[1..], b);
    }
  }

  /** What the platform deps hold: each rule once, and exactly the declared
      deps, the platform-specific targets' rules and the Python C/C++ library
      when declared. */
  lemma PlatformDepsContents(
    declared: seq<BuildRule>, platformDeps: seq<PatternDeps>, python: PythonPlatform,
    getRule: BuildTarget -> BuildRule)
    ensures var rules := AddAll([], PlatformDepsInput(declared, platformDeps, python, getRule));
      && NoDuplicates(rules)
      && (python.cxxLibrary.Some? ==> getRule(python.cxxLibrary.value) in rules)
      && (python.cxxLibrary.None? ==> forall r :: r in rules ==>
            r in declared || exists t :: t in MatchingTargets(platformDeps, python.flavor) && r == getRule(t))
      && (forall r :: r in declared ==> r in rules)
      && (forall t :: t in MatchingTargets(platformDeps, python.flavor) ==> getRule(t) in rules)
      && (forall r :: r in rules <==>
            || r in declared
            || (exists t :: t in MatchingTargets(platformDeps, python.flavor) && r == getRule(t))
            || (python.cxxLibrary.Some? && r == getRule(python.cxxLibrary.value)))
  {
    var specific := PlatformSpecificRules(platformDeps, python.flavor, getRule);
    var lib := LibraryRules(python, getRule);
    var input := declared + specific + lib;
    assert input == PlatformDepsInput(declared, platformDeps, python, getRule);
    AddAllSpec([], input);
    assert forall r :: r in input <==> r in declared || r in specific || r in lib;
  }

  /** `ImmutableSet.Builder.addAll`, element by element. */
  method BuilderAddAll(acc: seq<BuildRule>, xs: seq<BuildRule>) returns (rules: seq<BuildRule>)
    ensures rules == AddAll(acc, xs)
  {
    rules := acc;
    var i := 0;
    while i < |xs|
      invariant 0 <= i <= |xs|
      invariant AddAll(rules, xs[i..]) == AddAll(acc, xs)
    {
      assert xs[i..] == [xs[i]] + xs[i + 1..];
      if xs[i] !in rules {
        rules := rules + [xs[i]];
      }
      i := i + 1;
    }
  }

  /** `getPlatformDeps`: the declared deps, then the platform-specific ones,
      then the Python C/C++ library, into one insertion-ordered set. */
  method GetPlatformDeps(
    declared: seq<BuildRule>, platformDeps: seq<PatternDeps>, python: PythonPlatform,
    getRule: BuildTarget -> BuildRule) returns (rules: seq<BuildRule>)
    ensures rules == AddAll([], PlatformDepsInput(declared, platformDeps, python, getRule))
    ensures NoDuplicates(rules)
    ensures python.cxxLibrary.Some? ==> getRule(python.cxxLibrary.value) in rules
    ensures python.cxxLibrary.None? ==> forall r :: r in rules ==>
      r in declared || exists t :: t in MatchingTargets(platformDeps, python.flavor) && r == getRule(t)
    ensures forall r :: r in declared ==> r in rules
    ensures forall t :: t in MatchingTargets(platformDeps, python.flavor) ==> getRule(t) in rules
    ensures forall r :: r in rules <==>
      || r in declared
      || (exists t :: t in MatchingTargets(platformDeps, python.flavor) && r == getRule(t))
      || (python.cxxLibrary.Some? && r == getRule(python.cxxLibrary.value))
  {
    var specific := PlatformSpecificRules(platformDeps, python.flavor, getRule);
    rules := BuilderAddAll([], declared);
    rules := BuilderAddAll(rules, specific);
    if python.cxxLibrary.Some? {
      rules := BuilderAddAll(rules, [getRule(python.cxxLibrary.value)]);
    }
    AddAllConcat([], declared, specific);
    AddAllConcat([], declared + specific, LibraryRules(python, getRule));
    PlatformDepsContents(declared, platformDeps, python, getRule);
  }

  // ---------------------------------------------------------------------------
  // The placeholder rule

  /** `PythonPackageComponents.of`'s five arguments in order: modules,
      resources and native libraries by destination path, the multimap
      `of` takes fourth (empty here), and whether the package is zip-safe. */
  datatype PythonPackageComponents = PythonPackageComponents(
    modules: map<string, SourcePath>,
    resources: map<string, SourcePath>,
    nativeLibraries: map<string, SourcePath>,
    multimapEntries: multiset<(string, SourcePath)>,
    zipSafe: Option<bool>)

  /** The target of the extension built for a pair of platforms. */
  function ExtensionTarget(target: BuildTarget, python: PythonPlatform, cxx: CxxPlatform): (t: BuildTarget)
    ensures t.basePath == target.basePath && t.shortName == target.shortName
    ensures t.flavors == target.flavors + {python.flavor, cxx.flavor, SHARED_FLAVOR}
  {
    target.WithAppendedFlavors({python.flavor, cxx.flavor, SHARED_FLAVOR})
  }

  /** The rule `createBuildRule` returns for a target without a type flavor. */
  class CxxPythonExtensionPlaceholder {
    const buildTarget: BuildTarget
    const modulePath: string
    /** Every extension handed out so far (`implicitDepsForCaching`, a concurrent set). */
    var implicitDepsForCaching: set<BuildRule>

    constructor (buildTarget: BuildTarget, modulePath: string)
      ensures this.buildTarget == buildTarget && this.modulePath == modulePath
      ensures implicitDepsForCaching == {}
    {
      this.buildTarget := buildTarget;
      this.modulePath := modulePath;
      implicitDepsForCaching := {};
    }

    /** `getModule()`. */
    function GetModule(): (m: string)
      ensures m == modulePath
    {
      modulePath
    }

    /** `getExtension`: requires the shared-library rule for the platforms
        and remembers it; nothing recorded is ever dropped. */
    method GetExtension(python: PythonPlatform, cxx: CxxPlatform, requireRule: BuildTarget -> BuildRule)
      returns (extension: BuildRule)
      modifies this
      ensures extension == requireRule(ExtensionTarget(buildTarget, python, cxx))
      ensures implicitDepsForCaching == old(implicitDepsForCaching) + {extension}
      ensures old(implicitDepsForCaching) <= implicitDepsForCaching && extension in implicitDepsForCaching
    {
      extension := requireRule(buildTarget.WithAppendedFlavors({python.flavor, cxx.flavor, SHARED_FLAVOR}));
      implicitDepsForCaching := implicitDepsForCaching + {extension};
    }

    /** `getImplicitDepsForCaching()`: a sorted snapshot of the recorded set. */
    function GetImplicitDepsForCaching(): (rs: seq<BuildRule>)
      reads this
      ensures StrictlySorted(rs)
      ensures forall r :: r in rs <==> r in implicitDepsForCaching
      ensures |rs| == |implicitDepsForCaching|
    {
      SortedRules(implicitDepsForCaching)
    }

    /** `getPythonPackageComponents`: the extension's output under the module
        path, and nothing else; the package is not zip-safe. */
    method GetPythonPackageComponents(
      python: PythonPlatform, cxx: CxxPlatform, requireRule: BuildTarget -> BuildRule,
      outputOf: BuildRule -> SourcePath) returns (c: PythonPackageComponents)
      modifies this
      ensures var extension := requireRule(ExtensionTarget(buildTarget, python, cxx));
        && c.modules == map[modulePath := outputOf(extension)]
        && implicitDepsForCaching == old(implicitDepsForCaching) + {extension}
      ensures c.resources == map[] && c.nativeLibraries == map[] && c.multimapEntries == multiset{}
      ensures c.zipSafe == Some(false)
    {
      var extension := GetExtension(python, cxx, requireRule);
      var output := outputOf(extension);
      c := PythonPackageComponents(map[modulePath := output], map[], map[], multiset{}, Some(false));
    }
  }

  // ---------------------------------------------------------------------------
  // createBuildRule

  /** The rule builders this description hands off to. */
  datatype Builders = Builders(
    sandboxTree: (BuildTarget, CxxPlatform) -> BuildRule,
    extension: (BuildTarget, PythonPlatform, CxxPlatform) -> BuildRule,
    compilationDatabase: (BuildTarget, PythonPlatform, CxxPlatform) -> BuildRule)

  /** What `createBuildRule` returns: a rule from a builder, or a new placeholder. */
  datatype CreatedRule =
    | BuiltRule(rule: BuildRule)
    | NewPlaceholder(placeholder: CxxPythonExtensionPlaceholder)

  /** `createBuildRule`: the builder `Dispatch` picks, or a fresh placeholder
      with nothing recorded. PythonUtil.getBasePath is the input `getBasePath`. */
  method CreateBuildRule(
    target: BuildTarget, args: ExtensionArgs, pythonPlatforms: FlavorDomain<PythonPlatform>,
    cxxPlatforms: FlavorDomain<CxxPlatform>, builders: Builders,
    getBasePath: (BuildTarget, Option<string>) -> string) returns (r: Result<CreatedRule, FlavorDomainError>)
    ensures var d := Dispatch(target, args, pythonPlatforms, cxxPlatforms, getBasePath(target, args.baseModule));
      && (d.Failure? ==> r == Failure(d.error))
      && (d.Success? && d.value.BuildSandboxTree? ==>
            r == Success(BuiltRule(builders.sandboxTree(target, d.value.cxx))))
      && (d.Success? && d.value.BuildExtension? ==>
            r == Success(BuiltRule(builders.extension(target, d.value.python, d.value.cxx))))
      && (d.Success? && d.value.BuildCompilationDatabase? ==>
            r == Success(BuiltRule(builders.compilationDatabase(target, d.value.python, d.value.cxx))))
      && (d.Success? && d.value.MakePlaceholder? ==>
            && r.Success? && r.value.NewPlaceholder?
            && fresh(r.value.placeholder)
            && r.value.placeholder.buildTarget == target
            && r.value.placeholder.modulePath == d.value.modulePath
            && r.value.placeholder.implicitDepsForCaching == {})
  {
    var d := Dispatch(target, args, pythonPlatforms, cxxPlatforms, getBasePath(target, args.baseModule));
    if d.Failure? {
      return Failure(d.error);
    }
    match d.value
    case BuildSandboxTree(cxx) =>
      r := Success(BuiltRule(builders.sandboxTree(target, cxx)));
    case BuildExtension(python, cxx) =>
      r := Success(BuiltRule(builders.extension(target, python, cxx)));
    case BuildCompilationDatabase(python, cxx) =>
      r := Success(BuiltRule(builders.compilationDatabase(target, python, cxx)));
    case MakePlaceholder(modulePath) =>
      var p := new CxxPythonExtensionPlaceholder(target, modulePath);
      r := Success(NewPlaceholder(p));
  }
}
