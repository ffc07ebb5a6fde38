// Installing files at their targets, as a sequence of filesystem states. A file is the digest of its
// content. Every function that changes files returns the states it passes through, so a crash is
// any prefix of them; the last one is where an uninterrupted run ends.

module Installing {
  import opened Wrappers

  /** The parts of a path; the last is the file's name. */
  type Path = seq<string>

  predicate IsHex(s: string) {
    forall i :: 0 <= i < |s| ==> s[i] in "0123456789abcdef"
  }

  /** A content digest. */
  type Sha = s: string | IsHex(s)

  type Files = map<Path, Sha>

  datatype How = Renamed | Copied | Resumed | Already | Written

  datatype Installed = Installed(path: Path, sha256: Sha, how: How)

  datatype Code =
    | SourceMissing | SourceReplaced | SourceDigestMismatch | CopyVerifyFailed | Collision
    | NoTarget | EvidenceLost | FsError

  /** The states passed through, and what came of it. */
  datatype Run<T> = Run(steps: seq<Files>, result: Result<T, Code>)

  function End(f: Files, steps: seq<Files>): Files {
    if steps == [] then f else steps[|steps| - 1]
  }

  /** What the machine is like: which paths share a filesystem, what a copy writes, and what a copy
      may have written when a crash interrupts it. */
  datatype Env = Env(device: Path -> int, copied: Sha -> Sha, torn: Option<Sha>)

  /** Copies are faithful and are one step. */
  ghost predicate Exact(env: Env) {
    env.torn.None? && forall c :: env.copied(c) == c
  }

  // -- names -------------------------------------------------------------------------------------

  function WithName(p: Path, name: string): (r: Path)
    ensures r != [] && r[|r| - 1] == name
  {
    if p == [] then [name] else p[..|p| - 1] + [name]
  }

  function Name(p: Path): string {
    if p == [] then "" else p[|p| - 1]
  }

  function Parent(p: Path): Path {
    if p == [] then [] else p[..|p| - 1]
  }

  /** Where the last occurrence of a character is, or -1. */
  function LastIndex(s: string, c: char): (i: int)
    ensures -1 <= i < |s| && (i >= 0 ==> s[i] == c) && forall j :: i < j < |s| ==> s[j] != c
  {
    if s == [] then -1 else if s[|s| - 1] == c then |s| - 1 else LastIndex(s[..|s| - 1], c)
  }

  /** The digest without its algorithm prefix. */
  function Hex(sha256: string): string {
    sha256[LastIndex(sha256, ':') + 1..]
  }

  /** Where the extension of a name begins; a leading or trailing dot begins none. */
  function ExtensionAt(name: string): (i: nat)
    ensures i <= |name|
  {
    var dot := LastIndex(name, '.');
    if 0 < dot < |name| - 1 then dot else |name|
  }

  /** Where a file goes when its target holds another: the digest's first digits go before the extension. */
  function Suffixed(target: Path, sha256: string): Path {
    var name := Name(target);
    var short := if |Hex(sha256)| > 8 then Hex(sha256)[..8] else Hex(sha256);
    WithName(target, name[..ExtensionAt(name)] + "." + short + name[ExtensionAt(name)..])
  }

  /** A suffixed target is always another path in the same directory. */
  lemma SuffixedDiffers(target: Path, sha256: string)
    requires target != []
    ensures Suffixed(target, sha256) != target && Parent(Suffixed(target, sha256)) == Parent(target)
  {
    assert |Name(Suffixed(target, sha256))| > |Name(target)|;
  }

  lemma SuffixedSplits(target: Path, sha256: string)
    requires |Hex(sha256)| >= 8
    ensures var name, at, suffixed := Name(target), ExtensionAt(Name(target)), Name(Suffixed(target, sha256));
            && |suffixed| == |name| + 9 && suffixed[..at] == name[..at] && suffixed[at + 9..] == name[at..]
            && suffixed[at + 1..at + 9] == Hex(sha256)[..8]
  {
    hide ExtensionAt, Hex;
    var name, at := Name(target), ExtensionAt(Name(target));
    var short := Hex(sha256)[..8];
    if |Hex(sha256)| == 8 { assert short == Hex(sha256); }
    assert Name(Suffixed(target, sha256)) == name[..at] + "." + short + name[at..];
  }

  /** A suffixed name keeps the stem and the extension, and contents whose digests begin differently never share
      one. */
  lemma SuffixedTellsApart(target: Path, sha256: string, other: string)
    requires |Hex(sha256)| >= 8 && |Hex(other)| >= 8
    ensures Suffixed(target, sha256) == Suffixed(target, other) <==> Hex(sha256)[..8] == Hex(other)[..8]
    ensures var name, at, suffixed := Name(target), ExtensionAt(Name(target)), Name(Suffixed(target, sha256));
            |suffixed| == |name| + 9 && suffixed[..at] == name[..at] && suffixed[at + 9..] == name[at..]
  {
    SuffixedSplits(target, sha256);
    SuffixedSplits(target, other);
    hide ExtensionAt;
  }

  // -- one file ----------------------------------------------------------------------------------

  function Failed<T>(code: Code): Run<T> {
    Run([], Err(code))
  }

  function CopyOver(env: Env, f: Files, src: Path, dst: Path): Run<Installed>
    requires src in f
  {
    var digest := f[src];
    var copy := f[dst := env.copied(digest)];
    var torn := if env.torn.Some? then [f[dst := env.torn.value]] else [];
    if env.copied(digest) != digest then Run(torn + [copy, copy - {dst}], Err(CopyVerifyFailed))
    else Run(torn + [copy, copy - {src}], Ok(Installed(dst, digest, Copied)))
  }

  /** Install one file at its target. `expected` is None for a companion member. */
  function Install(env: Env, f: Files, src: Path, dst: Path, expected: Option<string>, suffix: bool): Run<Installed>
    decreases suffix
  {
    if dst in f then Resolve(env, f, src, dst, expected, suffix)
    else if src !in f then Failed(SourceMissing)
    else if expected.Some? && f[src] != expected.value then Failed(SourceDigestMismatch)
    else if env.device(src) == env.device(dst) then Run([(f - {src})[dst := f[src]]], Ok(Installed(dst, f[src], Renamed)))
    else CopyOver(env, f, src, dst)
  }

  /** The digest a collision suffix is made from. */
  function SuffixKey(f: Files, src: Path, dst: Path, expected: Option<string>): string
    requires dst in f
  {
    var known: Option<string> := if src in f then Some(f[src]) else expected;
    if known.Some? && known.value != "" then known.value else f[dst]
  }

  /** The target is taken: by this very file, by an earlier run's, or by a stranger. */
  function Resolve(env: Env, f: Files, src: Path, dst: Path, expected: Option<string>, suffix: bool): Run<Installed>
    requires dst in f
    decreases suffix, 0
  {
    if src in f && f[dst] == f[src] then Run([f - {src}], Ok(Installed(dst, f[dst], Resumed)))
    else if src !in f && (expected.None? || f[dst] == expected.value) then Run([], Ok(Installed(dst, f[dst], Already)))
    else
      var alternate := Suffixed(dst, SuffixKey(f, src, dst, expected));
      if suffix && alternate != dst then Install(env, f, src, alternate, expected, false) else Failed(Collision)
  }

  /** The path an installation really settles on: the target, or its suffixed sibling on a collision. */
  function Goal(f: Files, src: Path, dst: Path, expected: Option<string>, suffix: bool): Path {
    if dst !in f || !suffix then dst
    else if src in f && f[dst] == f[src] then dst
    else if src !in f && (expected.None? || f[dst] == expected.value) then dst
    else Suffixed(dst, SuffixKey(f, src, dst, expected))
  }

  /** The digest an installation expects is one, when it expects any. */
  predicate Expects(expected: Option<string>) {
    expected.Some? ==> IsHex(expected.value)
  }

  /** With its goal known, installing under `suffix` is installing under `fail`. */
  lemma InstallsAtGoal(env: Env, f: Files, src: Path, dst: Path, expected: Option<string>, suffix: bool)
    requires Expects(expected)
    ensures var goal := Goal(f, src, dst, expected, suffix);
            Lands(goal, dst) && Install(env, f, src, dst, expected, suffix) == Install(env, f, src, goal, expected, false)
  {
    hide Suffixed, CopyOver;
    var goal := Goal(f, src, dst, expected, suffix);
    if goal != dst {
      assert goal == Suffixed(dst, SuffixKey(f, src, dst, expected));
    }
  }

  // -- what one installation changes -------------------------------------------------------------

  /** A path a file bound for `dst` may end up at. */
  ghost predicate Lands(p: Path, dst: Path) {
    p == dst || exists key :: IsHex(key) && p == Suffixed(dst, key)
  }

  lemma LandsOnTarget(dst: Path)
    ensures Lands(dst, dst)
  {
  }

  /** The bundle's sources, and the records written beside it, are out of the way of this target. */
  ghost predicate Apart(sources: set<Path>, written: set<Path>, src: Path, dst: Path) {
    src in sources && sources !! written && forall p :: p in sources || p in written ==> !Lands(p, dst)
  }

  /** Time passing in a bundle: sources only disappear, and everything else stays as it was, apart
      from the records written beside the image. */
  ghost predicate Later(sources: set<Path>, written: set<Path>, f: Files, g: Files) {
    && (forall p :: p in sources && p in g ==> p in f && g[p] == f[p])
    && (forall p :: p !in sources && p !in written && p in f ==> p in g && g[p] == f[p])
  }

  lemma PlainIsLater(env: Env, f: Files, src: Path, goal: Path, expected: Option<string>, sources: set<Path>, written: set<Path>)
    requires src in sources && goal !in sources && goal !in written && src !in written
    ensures forall g :: g in Install(env, f, src, goal, expected, false).steps ==> Later(sources, written, f, g)
  {
  }

  /** Installing one file moves time forward, whatever copies and crashes do. */
  lemma InstallIsLater(env: Env, f: Files, src: Path, dst: Path, expected: Option<string>, suffix: bool,
                       sources: set<Path>, written: set<Path>)
    requires Expects(expected)
    requires Apart(sources, written, src, dst)
    ensures forall g :: g in Install(env, f, src, dst, expected, suffix).steps ==> Later(sources, written, f, g)
  {
    hide Install, Later, Suffixed, SuffixKey, Goal, Lands, IsHex;
    InstallsAtGoal(env, f, src, dst, expected, suffix);
    PlainIsLater(env, f, src, Goal(f, src, dst, expected, suffix), expected, sources, written);
  }

  // -- no evidence is lost -----------------------------------------------------------------------

  /** Some content is whole at the source, at its target, or at a suffixed sibling of the target. */
  ghost predicate Sheltered(g: Files, content: Sha, src: Path, dst: Path) {
    (src in g && g[src] == content) || exists p :: Lands(p, dst) && p in g && g[p] == content
  }

  /** Through every step of an installation, torn and corrupt copies included, what was at the source
      is whole somewhere. */
  lemma InstallShelters(env: Env, f: Files, src: Path, dst: Path, expected: Option<string>, suffix: bool,
                        sources: set<Path>, written: set<Path>)
    requires Expects(expected)
    requires Apart(sources, written, src, dst) && src in f
    ensures forall g :: g in Install(env, f, src, dst, expected, suffix).steps ==> Sheltered(g, f[src], src, dst)
  {
    hide Suffixed, SuffixKey, Goal, Lands;
    InstallsAtGoal(env, f, src, dst, expected, suffix);
    var goal := Goal(f, src, dst, expected, suffix);
    assert src != goal;
  }

  // -- an interrupted installation converges -----------------------------------------------------

  /** A present source is still the object the intent recorded. */
  predicate Recorded(f: Files, src: Path, expected: Option<string>) {
    expected.Some? && src in f ==> f[src] == expected.value
  }

  /** An installation that succeeded left its file at the reported path, and nothing at the source. */
  lemma Settled(env: Env, f: Files, src: Path, dst: Path, expected: Option<string>, suffix: bool,
                sources: set<Path>, written: set<Path>)
    requires Expects(expected)
    requires Apart(sources, written, src, dst) && Install(env, f, src, dst, expected, suffix).result.Ok?
    ensures var r := Install(env, f, src, dst, expected, suffix);
            var e := End(f, r.steps);
            var at := r.result.value.path;
            && src !in e && at in e && e[at] == r.result.value.sha256
            && at == Goal(f, src, dst, expected, suffix) && Lands(at, dst) && Later(sources, written, f, e)
            && (Recorded(f, src, expected) && expected.Some? ==> e[at] == expected.value)
  {
    hide Suffixed, SuffixKey, Goal, Lands;
    InstallsAtGoal(env, f, src, dst, expected, suffix);
    InstallIsLater(env, f, src, dst, expected, suffix, sources, written);
    var goal := Goal(f, src, dst, expected, suffix);
    assert src != goal;
  }

  /** Whether two runs report the same file in the same place. */
  predicate SameFile(a: Installed, b: Installed) {
    a.path == b.path && a.sha256 == b.sha256
  }

  /** Installing again, at any later moment, finds the file installed and changes nothing. It reports
      the same path, unless a member was moved aside by a collision. */
  lemma InstallsOnce(env: Env, f: Files, g: Files, src: Path, dst: Path, expected: Option<string>, suffix: bool,
                     sources: set<Path>, written: set<Path>)
    requires Expects(expected)
    requires Apart(sources, written, src, dst) && Recorded(f, src, expected)
    requires Install(env, f, src, dst, expected, suffix).result.Ok?
    requires Later(sources, written, End(f, Install(env, f, src, dst, expected, suffix).steps), g)
    ensures var first := Install(env, f, src, dst, expected, suffix);
            var again := Install(env, g, src, dst, expected, suffix);
            && again.steps == [] && again.result.Ok?
            && (expected.Some? || !suffix ==> SameFile(first.result.value, again.result.value))
  {
    hide Suffixed, Lands;
    Settled(env, f, src, dst, expected, suffix, sources, written);
    InstallsAtGoal(env, f, src, dst, expected, suffix);
    var goal := Goal(f, src, dst, expected, suffix);
    LandsOnTarget(dst);
    assert goal !in sources && goal !in written && dst !in sources && dst !in written;
    InstallsAtGoal(env, g, src, dst, expected, suffix);
  }

  /** Installing again from any state a crash may leave ends where the first run would have. */
  lemma InstallResumes(env: Env, f: Files, g: Files, src: Path, dst: Path, expected: Option<string>, suffix: bool,
                       sources: set<Path>, written: set<Path>)
    requires Expects(expected)
    requires Exact(env) && Apart(sources, written, src, dst) && Recorded(f, src, expected)
    requires g in Install(env, f, src, dst, expected, suffix).steps
    ensures var first := Install(env, f, src, dst, expected, suffix);
            var again := Install(env, g, src, dst, expected, suffix);
            && first.result.Ok? && again.result.Ok?
            && End(g, again.steps) == End(f, first.steps)
            && (expected.Some? || !suffix ==> SameFile(first.result.value, again.result.value))
  {
    hide Suffixed, Lands;
    var first := Install(env, f, src, dst, expected, suffix);
    InstallsAtGoal(env, f, src, dst, expected, suffix);
    var goal := Goal(f, src, dst, expected, suffix);
    if g == End(f, first.steps) {
      InstallsOnce(env, f, g, src, dst, expected, suffix, sources, written);
    } else {
      assert src in f && goal !in f && g == f[goal := f[src]];
      ResumesCopy(env, f, src, dst, expected, suffix, goal);
    }
  }

  /** A verified copy whose source was not removed yet. */
  lemma ResumesCopy(env: Env, f: Files, src: Path, dst: Path, expected: Option<string>, suffix: bool, goal: Path)
    requires Expects(expected)
    requires src in f && goal == Goal(f, src, dst, expected, suffix) && goal !in f && src != goal
    ensures var again := Install(env, f[goal := f[src]], src, dst, expected, suffix);
            again.steps == [f[goal := f[src]] - {src}] && again.result == Ok(Installed(goal, f[src], Resumed))
  {
    hide Suffixed;
    InstallsAtGoal(env, f[goal := f[src]], src, dst, expected, suffix);
    assert Goal(f[goal := f[src]], src, dst, expected, suffix) == goal;
  }
}
