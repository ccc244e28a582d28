/** `SwiftBuckConfig`: the typed view of the `[swift]` section of a Buck
    configuration. Flag strings are trimmed and split on single spaces;
    booleans fall back to a per-key default when the key is absent. */
module SwiftConfig {
  import opened Optional

  /** The configuration a view reads from: raw values by (section, key), and
      the parse `getBooleanValue` applies to a present value. */
  datatype BuckConfig = BuckConfig(values: map<(string, string), string>, parseBoolean: string -> bool) {
    /** `getValue(section, key)`: the raw value, if the key is present. */
    function GetValue(section: string, key: string): (r: Option<string>)
      ensures r.Some? <==> (section, key) in values
      ensures r.Some? ==> r.value == values[(section, key)]
    {
      if (section, key) in values then Some(values[(section, key)]) else None
    }

    /** `getBooleanValue(section, key, default)`. */
    function GetBooleanValue(section: string, key: string, default: bool): (b: bool)
      ensures (section, key) !in values ==> b == default
      ensures (section, key) in values ==> b == parseBoolean(values[(section, key)])
    {
      match GetValue(section, key)
      case None => default
      case Some(v) => parseBoolean(v)
    }
  }

  const SECTION_NAME: string := "swift"
  const COMPILER_FLAGS_NAME: string := "compiler_flags"
  const VERSION_NAME: string := "version"
  const COMPILE_FORCE_CACHE: string := "compile_force_cache"
  const USE_FILELIST: string := "use_filelist"
  const USE_MODULEWRAP: string := "use_modulewrap"
  const PROJECT_WMO: string := "project_wmo"
  const PROJECT_EMBED_RUNTIME: string := "project_embed_runtime"
  const PROJECT_ADD_AST_PATHS: string := "project_add_ast_paths"

  // ---------------------------------------------------------------------------
  // Trimming

  /** The characters `String.trim` strips: every code point up to the space. */
  predicate IsTrimmed(c: char) {
    c <= ' '
  }

  /** The scan from the front: the first index at or after `i` whose
      character is kept. */
  function TrimStartIndex(s: string, i: nat): (st: nat)
    requires i <= |s|
    ensures i <= st <= |s|
    ensures forall k :: i <= k < st ==> IsTrimmed(s[k])
    ensures st < |s| ==> !IsTrimmed(s[st])
    decreases |s| - i
  {
    if i < |s| && IsTrimmed(s[i]) then TrimStartIndex(s, i + 1) else i
  }

  /** The scan from the back: `len` shrinks while the character before it is
      trimmed, and never below `st`. */
  function TrimEndIndex(s: string, st: nat, len: nat): (e: nat)
    requires st <= len <= |s|
    ensures st <= e <= len
    ensures forall k :: e <= k < len ==> IsTrimmed(s[k])
    ensures st < e ==> !IsTrimmed(s[e - 1])
    decreases len
  {
    if st < len && IsTrimmed(s[len - 1]) then TrimEndIndex(s, st, len - 1) else len
  }

  /** `String.trim`: the longest infix with no trimmed character at either end. */
  function Trim(s: string): (t: string)
    ensures exists i, j ::
              && 0 <= i <= j <= |s| && t == s[i..j]
              && (forall k :: 0 <= k < i ==> IsTrimmed(s[k]))
              && (forall k :: j <= k < |s| ==> IsTrimmed(s[k]))
    ensures t != [] ==> !IsTrimmed(t[0]) && !IsTrimmed(t[|t| - 1])
  {
    var st := TrimStartIndex(s, 0);
    var len := TrimEndIndex(s, st, |s|);
    s[st..len]
  }

  /** Trimming twice trims no more than once. */
  lemma TrimIdempotent(s: string)
    ensures Trim(Trim(s)) == Trim(s)
  {
    var t := Trim(s);
    if t != [] {
      assert TrimStartIndex(t, 0) == 0;
      assert TrimEndIndex(t, 0, |t|) == |t|;
    }
  }

  // ---------------------------------------------------------------------------
  // Splitting on a single space

  /** The first space of `s`. */
  function IndexOfSpace(s: string): (k: nat)
    requires ' ' in s
    ensures k < |s| && s[k] == ' ' && ' ' !in s[..k]
  {
    if s[0] == ' ' then 0
    else
      var k := IndexOfSpace(s[1..]) + 1;
      assert s[..k] == [s[0]] + s[1..][..k - 1];
      k
  }

  /** `Splitter.on(" ").split(s)`: the pieces between single spaces, empty
      pieces included; an empty string is one empty piece. */
  function SplitOnSpace(s: string): (pieces: seq<string>)
    ensures |pieces| >= 1
    ensures forall i :: 0 <= i < |pieces| ==> ' ' !in pieces[i]
    decreases |s|
  {
    if ' ' !in s then [s]
    else
      var k := IndexOfSpace(s);
      [s[..k]] + SplitOnSpace(s[k + 1..])
  }

  /** `Joiner.on(sep).join(pieces)`. */
  function Join(pieces: seq<string>, sep: string): string {
    if pieces == [] then ""
    else if |pieces| == 1 then pieces[0]
    else pieces[0] + sep + Join(pieces[1..], sep)
  }

  /** The number of spaces in `s`. */
  function CountSpaces(s: string): nat {
    if s == [] then 0 else (if s[0] == ' ' then 1 else 0) + CountSpaces(s[1..])
  }

  lemma CountSpacesAppend(a: string, b: string)
    ensures CountSpaces(a + b) == CountSpaces(a) + CountSpaces(b)
  {
    if a == [] {
      assert a + b == b;
    } else {
      assert (a + b)[1..] == a[1..] + b;
      CountSpacesAppend(a[1..], b);
    }
  }

  lemma CountSpacesNone(s: string)
    requires ' ' !in s
    ensures CountSpaces(s) == 0
  {
    if s != [] {
      CountSpacesNone(s[1..]);
    }
  }

  /** Joining the pieces with a single space gives the string back. */
  lemma {:induction false} JoinSplit(s: string)
    ensures Join(SplitOnSpace(s), " ") == s
    decreases |s|
  {
    if ' ' in s {
      var k := IndexOfSpace(s);
      var rest := SplitOnSpace(s[k + 1..]);
      var pieces := SplitOnSpace(s);
      assert pieces == [s[..k]] + rest;
      assert |pieces| > 1 && pieces[0] == s[..k] && pieces[1..] == rest;
      assert Join(pieces, " ") == s[..k] + " " + Join(rest, " ");
      JoinSplit(s[k + 1..]);
      SpaceAt(s, k);
    }
  }

  /** A string is the part before a space, the space and the part after. */
  lemma SpaceAt(s: string, k: nat)
    requires k < |s| && s[k] == ' '
    ensures s == s[..k] + " " + s[k + 1..]
  {
  }

  /** There is one more piece than there are spaces: empty pieces are kept. */
  lemma {:induction false} SplitCount(s: string)
    ensures |SplitOnSpace(s)| == CountSpaces(s) + 1
    decreases |s|
  {
    if ' ' !in s {
      CountSpacesNone(s);
    } else {
      var k := IndexOfSpace(s);
      SplitCount(s[k + 1..]);
      assert s == s[..k] + ([' '] + s[k + 1..]);
      CountSpacesAppend(s[..k], [' '] + s[k + 1..]);
      CountSpacesAppend([' '], s[k + 1..]);
      CountSpacesNone(s[..k]);
    }
  }

  /** The first space after a space-free prefix is the one that ends it. */
  lemma FirstSpaceAfter(p: string, t: string)
    requires ' ' !in p
    ensures ' ' in p + " " + t
    ensures IndexOfSpace(p + " " + t) == |p|
    ensures (p + " " + t)[..|p|] == p && (p + " " + t)[|p| + 1..] == t
  {
    var s := p + " " + t;
    assert s[|p|] == ' ';
    assert s[..|p|] == p;
  }

  /** Splitting is also the inverse of joining: space-free pieces joined with
      single spaces split back into the same pieces. */
  lemma {:induction false} SplitJoin(pieces: seq<string>)
    requires |pieces| >= 1
    requires forall i :: 0 <= i < |pieces| ==> ' ' !in pieces[i]
    ensures SplitOnSpace(Join(pieces, " ")) == pieces
    decreases |pieces|
  {
    if |pieces| > 1 {
      var p, rest := pieces[0], pieces[1..];
      var tail := Join(rest, " ");
      var s := Join(pieces, " ");
      assert s == p + " " + tail;
      FirstSpaceAfter(p, tail);
      assert SplitOnSpace(s) == [p] + SplitOnSpace(tail);
      assert forall i :: 0 <= i < |rest| ==> rest[i] == pieces[i + 1];
      SplitJoin(rest);
      assert pieces == [p] + rest;
    }
  }

  // ---------------------------------------------------------------------------
  // The view

  datatype SwiftBuckConfig = SwiftBuckConfig(delegate: BuckConfig) {
    /** `getFlags(field)`: absent when the key is; otherwise the trimmed
        value split on single spaces. */
    function GetFlags(field: string): (r: Option<seq<string>>)
      ensures r.None? <==> (SECTION_NAME, field) !in delegate.values
      ensures r.Some? ==> r.value == SplitOnSpace(Trim(delegate.values[(SECTION_NAME, field)]))
      ensures r.Some? ==> Join(r.value, " ") == Trim(delegate.values[(SECTION_NAME, field)])
      ensures r.Some? ==> forall i :: 0 <= i < |r.value| ==> ' ' !in r.value[i]
      ensures r.Some? ==> |r.value| == CountSpaces(Trim(delegate.values[(SECTION_NAME, field)])) + 1
    {
      match delegate.GetValue(SECTION_NAME, field)
      case None => None
      case Some(v) =>
        JoinSplit(Trim(v));
        SplitCount(Trim(v));
        Some(SplitOnSpace(Trim(v)))
    }

    /** `getCompilerFlags()`. */
    function GetCompilerFlags(): (r: Option<seq<string>>)
      ensures r == GetFlags(COMPILER_FLAGS_NAME)
      ensures r.None? <==> (SECTION_NAME, COMPILER_FLAGS_NAME) !in delegate.values
    {
      GetFlags(COMPILER_FLAGS_NAME)
    }

    /** `getVersion()`: the raw value, untrimmed, when present. */
    function GetVersion(): (r: Option<string>)
      ensures r.None? <==> (SECTION_NAME, VERSION_NAME) !in delegate.values
      ensures r.Some? ==> r.value == delegate.values[(SECTION_NAME, VERSION_NAME)]
    {
      delegate.GetValue(SECTION_NAME, VERSION_NAME)
    }

    function GetCompileForceCache(): (b: bool)
      ensures (SECTION_NAME, COMPILE_FORCE_CACHE) !in delegate.values ==> !b
      ensures (SECTION_NAME, COMPILE_FORCE_CACHE) in delegate.values
              ==> b == delegate.parseBoolean(delegate.values[(SECTION_NAME, COMPILE_FORCE_CACHE)])
    {
      delegate.GetBooleanValue(SECTION_NAME, COMPILE_FORCE_CACHE, false)
    }

    function GetUseFileList(): (b: bool)
      ensures (SECTION_NAME, USE_FILELIST) !in delegate.values ==> !b
      ensures (SECTION_NAME, USE_FILELIST) in delegate.values
              ==> b == delegate.parseBoolean(delegate.values[(SECTION_NAME, USE_FILELIST)])
    {
      delegate.GetBooleanValue(SECTION_NAME, USE_FILELIST, false)
    }

    function GetUseModulewrap(): (b: bool)
      ensures (SECTION_NAME, USE_MODULEWRAP) !in delegate.values ==> !b
      ensures (SECTION_NAME, USE_MODULEWRAP) in delegate.values
              ==> b == delegate.parseBoolean(delegate.values[(SECTION_NAME, USE_MODULEWRAP)])
    {
      delegate.GetBooleanValue(SECTION_NAME, USE_MODULEWRAP, false)
    }

    /** Embedding the runtime is the one setting that is on by default. */
    function GetProjectEmbedRuntime(): (b: bool)
      ensures (SECTION_NAME, PROJECT_EMBED_RUNTIME) !in delegate.values ==> b
      ensures (SECTION_NAME, PROJECT_EMBED_RUNTIME) in delegate.values
              ==> b == delegate.parseBoolean(delegate.values[(SECTION_NAME, PROJECT_EMBED_RUNTIME)])
    {
      delegate.GetBooleanValue(SECTION_NAME, PROJECT_EMBED_RUNTIME, true)
    }

    function GetProjectWMO(): (b: bool)
      ensures (SECTION_NAME, PROJECT_WMO) !in delegate.values ==> !b
      ensures (SECTION_NAME, PROJECT_WMO) in delegate.values
              ==> b == delegate.parseBoolean(delegate.values[(SECTION_NAME, PROJECT_WMO)])
    {
      delegate.GetBooleanValue(SECTION_NAME, PROJECT_WMO, false)
    }

    function GetProjectAddASTPaths(): (b: bool)
      ensures (SECTION_NAME, PROJECT_ADD_AST_PATHS) !in delegate.values ==> !b
      ensures (SECTION_NAME, PROJECT_ADD_AST_PATHS) in delegate.values
              ==> b == delegate.parseBoolean(delegate.values[(SECTION_NAME, PROJECT_ADD_AST_PATHS)])
    {
      delegate.GetBooleanValue(SECTION_NAME, PROJECT_ADD_AST_PATHS, false)
    }
  }

  /** The view reads only its own section: values under other sections do
      not change any getter. */
  lemma OnlySwiftSectionMatters(c: BuckConfig, d: BuckConfig)
    requires c.parseBoolean == d.parseBoolean
    requires forall k :: (SECTION_NAME, k) in c.values <==> (SECTION_NAME, k) in d.values
    requires forall k :: (SECTION_NAME, k) in c.values ==> c.values[(SECTION_NAME, k)] == d.values[(SECTION_NAME, k)]
    ensures SwiftBuckConfig(c).GetCompilerFlags() == SwiftBuckConfig(d).GetCompilerFlags()
    ensures SwiftBuckConfig(c).GetVersion() == SwiftBuckConfig(d).GetVersion()
    ensures SwiftBuckConfig(c).GetCompileForceCache() == SwiftBuckConfig(d).GetCompileForceCache()
    ensures SwiftBuckConfig(c).GetUseFileList() == SwiftBuckConfig(d).GetUseFileList()
    ensures SwiftBuckConfig(c).GetUseModulewrap() == SwiftBuckConfig(d).GetUseModulewrap()
    ensures SwiftBuckConfig(c).GetProjectEmbedRuntime() == SwiftBuckConfig(d).GetProjectEmbedRuntime()
    ensures SwiftBuckConfig(c).GetProjectWMO() == SwiftBuckConfig(d).GetProjectWMO()
    ensures SwiftBuckConfig(c).GetProjectAddASTPaths() == SwiftBuckConfig(d).GetProjectAddASTPaths()
  {
  }
}
