/** Entities of the build graph that several rule descriptions share: targets,
    flavors, rules, source paths, and the paths built from them. */
module BuildRules {
  import opened Optional

  /** A flavor is named by its string, as `InternalFlavor.of` names it. */
  type Flavor = string

  /** A build target: its package path, short name and flavor set. */
  datatype BuildTarget = BuildTarget(basePath: string, shortName: string, flavors: set<Flavor>) {
    /** `BuildTarget.withAppendedFlavors`. */
    function WithAppendedFlavors(extra: set<Flavor>): (t: BuildTarget)
      ensures t.basePath == basePath && t.shortName == shortName
      ensures t.flavors == flavors + extra
    {
      BuildTarget(basePath, shortName, flavors + extra)
    }
  }

  /** A build rule, known only by its identity. Its natural order (`compareTo`,
      by build target) is the order of `id`; one id is one rule. */
  datatype BuildRule = BuildRule(id: int)

  /** A source path: a plain file of the repository, or a path owned by the
      rule of a target (`ExplicitBuildTargetSourcePath`). */
  datatype SourcePath =
    | PathSourcePath(relative: string)
    | ExplicitBuildTargetSourcePath(target: BuildTarget, path: string)

  /** The path separator of the file system being modelled. */
  const SEPARATOR: char := '/'

  /** `Path.resolve` for a relative, non-empty `name`: joins it under `dir`. */
  function Resolve(dir: string, name: string): (p: string)
    ensures dir != "" ==> p == dir + [SEPARATOR] + name
    ensures dir == "" ==> p == name
  {
    if dir == "" then name else dir + [SEPARATOR] + name
  }

  /** Distinct names under one directory are distinct paths. */
  lemma ResolveInjective(dir: string, a: string, b: string)
    requires Resolve(dir, a) == Resolve(dir, b)
    ensures a == b
  {
    if dir != "" {
      var k := |dir| + 1;
      assert (dir + [SEPARATOR] + a)[k..] == a;
      assert (dir + [SEPARATOR] + b)[k..] == b;
    }
  }

  /** `BuildableContext`: the artifacts a build step list records, in order. */
  class BuildableContext {
    var artifacts: seq<string>

    constructor ()
      ensures artifacts == []
    {
      artifacts := [];
    }

    /** `recordArtifact(p)`. */
    method RecordArtifact(p: string)
      modifies this
      ensures artifacts == old(artifacts) + [p]
    {
      artifacts := artifacts + [p];
    }
  }

  /** Strictly ascending by the natural order of rules: sorted, and no duplicates. */
  predicate StrictlySorted(rs: seq<BuildRule>) {
    forall i, j :: 0 <= i < j < |rs| ==> rs[i].id < rs[j].id
  }

  /** The least rule of a non-empty set. */
  function MinRule(s: set<BuildRule>): (m: BuildRule)
    requires s != {}
    ensures m in s && forall r :: r in s ==> m.id <= r.id
  {
    MinRuleExists(s);
    var m :| m in s && forall r :: r in s ==> m.id <= r.id;
    m
  }

  lemma MinRuleExists(s: set<BuildRule>)
    requires s != {}
    ensures exists m :: m in s && forall r :: r in s ==> m.id <= r.id
  {
    var x :| x in s;
    if s != {x} {
      var rest := s - {x};
      MinRuleExists(rest);
      var m :| m in rest && forall r :: r in rest ==> m.id <= r.id;
      if x.id < m.id {
        assert forall r :: r in s ==> x.id <= r.id;
      } else {
        assert forall r :: r in s ==> m.id <= r.id;
      }
    }
  }

  /** The elements of `s` as an `ImmutableSortedSet` in natural order lists them. */
  function SortedRules(s: set<BuildRule>): (rs: seq<BuildRule>)
    ensures StrictlySorted(rs)
    ensures forall r :: r in rs <==> r in s
    ensures |rs| == |s|
    decreases s
  {
    if s == {} then []
    else
      var m := MinRule(s);
      var rest := SortedRules(s - {m});
      PrependLeast(m, s, rest);
      [m] + rest
  }

  /** Putting the least rule of `s` in front of the sorted others keeps the
      list sorted. */
  lemma PrependLeast(m: BuildRule, s: set<BuildRule>, rest: seq<BuildRule>)
    requires m in s && forall r :: r in s ==> m.id <= r.id
    requires StrictlySorted(rest) && forall r :: r in rest <==> r in s - {m}
    ensures StrictlySorted([m] + rest)
  {
    forall j | 0 <= j < |rest| ensures m.id < rest[j].id {
      assert rest[j] in s - {m};
    }
  }
}
