// Who may mutate which directory: the check over all routes that decides whether a configuration is
// accepted, and what acceptance buys the completer.

module Roots {
  import opened Wrappers
  import opened Lifecycle
  import opened LedgerSpec
  import opened Installing
  import opened Planning

  /** A route as the check sees it. */
  datatype Route = Route(id: string, inputRoot: Path, policy: Policy)

  predicate Mutating(action: Action) {
    action != Retain
  }

  predicate Mutates(policy: Policy) {
    Mutating(policy.onSuccess) || Mutating(policy.onInvalidInput) || Mutating(policy.onOperationalFailure) || Mutating(policy.onPublishFailure)
  }

  // -- containment -------------------------------------------------------------------------------

  /** Each upward step takes back the component before it. The first component is never popped: it is
      the root of an absolute path. */
  function Folded(parts: Path): (folded: Path)
    ensures |folded| <= |parts| && (parts != [] ==> folded != [] && folded[0] == parts[0])
  {
    if |parts| <= 1 then parts
    else
      var front := Folded(parts[..|parts| - 1]);
      if parts[|parts| - 1] != ".." then front + [parts[|parts| - 1]]
      else if |front| > 1 then front[..|front| - 1]
      else front
  }

  method Tokens(parts: Path) returns (folded: Path)
    ensures folded == Folded(parts)
  {
    if parts == [] { return []; }
    folded := [parts[0]];
    for k := 1 to |parts|
      invariant folded == Folded(parts[..k])
    {
      assert parts[..k + 1][..k] == parts[..k];
      if parts[k] == ".." {
        if |folded| > 1 { folded := folded[..|folded| - 1]; }
      } else {
        folded := folded + [parts[k]];
      }
    }
    assert parts[..|parts|] == parts;
  }

  predicate Contains(parent: Path, child: Path) {
    Folded(parent) <= Folded(child)
  }

  predicate Overlaps(a: Path, b: Path) {
    Contains(a, b) || Contains(b, a)
  }

  predicate Plain(rel: Path) {
    forall k :: 0 <= k < |rel| ==> rel[k] != ".."
  }

  /** Going down from a directory by plain names folds to going down from where it folds to. */
  lemma {:induction false} FoldedBelow(dir: Path, rel: Path)
    requires dir != [] && Plain(rel)
    ensures Folded(dir + rel) == Folded(dir) + rel
    decreases |rel|
  {
    if rel == [] {
      assert dir + rel == dir && Folded(dir) + rel == Folded(dir);
    } else {
      var front, last := rel[..|rel| - 1], rel[|rel| - 1];
      FoldedBelow(dir, front);
      assert (dir + rel)[..|dir + rel| - 1] == dir + front;
      assert Folded(dir) + rel == Folded(dir) + front + [last];
    }
  }

  /** Folding leaves no upward step below the first component, so folding again changes nothing. */
  lemma {:induction false} FoldingIsDone(parts: Path)
    ensures Plain(Folded(parts)[if parts == [] then 0 else 1..]) && Folded(Folded(parts)) == Folded(parts)
    decreases |parts|
  {
    if |parts| > 1 {
      FoldingIsDone(parts[..|parts| - 1]);
    }
    if parts != [] {
      var f := Folded(parts);
      assert f == [f[0]] + f[1..];
      FoldedBelow([f[0]], f[1..]);
    }
  }

  /** An upward step undoes the step before it exactly when that step is not the first component: an
      absolute path is folded right, a relative path that climbs out of its first component keeps it. */
  lemma UpUndoesDown(dir: Path, name: string, rest: Path)
    requires name != ".." && Plain(rest)
    ensures Folded(dir + [name, ".."] + rest) == Folded(dir + rest) <==> dir != []
  {
    assert (dir + [name, ".."])[..|dir| + 1] == dir + [name];
    assert (dir + [name])[..|dir|] == dir;
    FoldedBelow(dir + [name, ".."], rest);
    if dir != [] {
      FoldedBelow(dir, rest);
    } else {
      assert Folded(dir + [name, ".."]) == [name];
      assert |Folded(dir + rest)| <= |rest|;
    }
  }

  // -- the check ---------------------------------------------------------------------------------

  datatype Refusal = OverlappingMutatingRoots | OutputInsideSourceRoot

  /** The roots the routes mutate, in order. */
  function Owned(routes: seq<Route>): seq<Path> {
    if routes == [] then []
    else
      var last := routes[|routes| - 1];
      Owned(routes[..|routes| - 1]) + if Mutates(last.policy) then [last.inputRoot] else []
  }

  function OutputDirs(policy: Policy): seq<Path> {
    (if policy.archiveDir.Some? then [policy.archiveDir.value] else []) +
    (if policy.failedDir.Some? then [policy.failedDir.value] else [])
  }

  /** The directories nothing may be fed back from. */
  function Protected(staging: Path, modelCache: Path, routes: seq<Route>): seq<Path> {
    if routes == [] then [staging, modelCache]
    else Protected(staging, modelCache, routes[..|routes| - 1]) + OutputDirs(routes[|routes| - 1].policy)
  }

  ghost predicate Disjoint(owned: seq<Path>) {
    forall i, j :: 0 <= i < j < |owned| ==> !Overlaps(owned[j], owned[i])
  }

  ghost predicate Outside(owned: seq<Path>, protected: seq<Path>) {
    forall i, j :: 0 <= i < |owned| && 0 <= j < |protected| ==> !Contains(owned[i], protected[j])
  }

  /** Gather the mutating roots, refusing the first that overlaps an earlier one. */
  method ClaimRoots(routes: seq<Route>) returns (owned: seq<Path>, ok: bool)
    ensures ok <==> Disjoint(Owned(routes))
    ensures ok ==> owned == Owned(routes)
  {
    owned := [];
    for k := 0 to |routes|
      invariant owned == Owned(routes[..k]) && Disjoint(owned)
    {
      assert routes[..k + 1][..k] == routes[..k];
      if Mutates(routes[k].policy) {
        var root := routes[k].inputRoot;
        OwnedPrefix(routes, k + 1);
        for i := 0 to |owned|
          invariant forall j :: 0 <= j < i ==> !Overlaps(root, owned[j])
        {
          if Overlaps(root, owned[i]) {
            assert Owned(routes[..k + 1]) == owned + [root];
            assert Owned(routes)[|owned|] == root && Owned(routes)[i] == owned[i];
            return owned, false;
          }
        }
        owned := owned + [root];
      }
    }
    assert routes[..|routes|] == routes;
    return owned, true;
  }

  lemma {:induction false} OwnedPrefix(routes: seq<Route>, k: nat)
    requires k <= |routes|
    ensures Owned(routes[..k]) <= Owned(routes)
    decreases |routes|
  {
    if k < |routes| {
      OwnedPrefix(routes[..|routes| - 1], k);
      assert routes[..|routes| - 1][..k] == routes[..k];
    } else {
      assert routes[..k] == routes;
    }
  }

  /** Accept a configuration, or say why not. */
  method CheckRoots(staging: Path, modelCache: Path, routes: seq<Route>) returns (r: Option<Refusal>)
    ensures r == Some(OverlappingMutatingRoots) <==> !Disjoint(Owned(routes))
    ensures r == Some(OutputInsideSourceRoot) <==>
      Disjoint(Owned(routes)) && !Outside(Owned(routes), Protected(staging, modelCache, routes))
  {
    var owned, ok := ClaimRoots(routes);
    if !ok { return Some(OverlappingMutatingRoots); }
    var protected := [staging, modelCache];
    for k := 0 to |routes|
      invariant protected == Protected(staging, modelCache, routes[..k])
    {
      assert routes[..k + 1][..k] == routes[..k];
      protected := protected + OutputDirs(routes[k].policy);
    }
    assert routes[..|routes|] == routes;
    for i := 0 to |owned|
      invariant forall m, j :: 0 <= m < i && 0 <= j < |protected| ==> !Contains(owned[m], protected[j])
    {
      for j := 0 to |protected|
        invariant forall n :: 0 <= n < j ==> !Contains(owned[i], protected[n])
      {
        if Contains(owned[i], protected[j]) { return Some(OutputInsideSourceRoot); }
      }
    }
    return None;
  }

  // -- what acceptance means ---------------------------------------------------------------------

  ghost predicate Accepted(staging: Path, modelCache: Path, routes: seq<Route>) {
    Disjoint(Owned(routes)) && Outside(Owned(routes), Protected(staging, modelCache, routes))
  }

  /** No path lies under two mutating roots. */
  lemma OneOwner(staging: Path, modelCache: Path, routes: seq<Route>, p: Path, i: nat, j: nat)
    requires Accepted(staging, modelCache, routes) && i < |Owned(routes)| && j < |Owned(routes)|
    requires Contains(Owned(routes)[i], p) && Contains(Owned(routes)[j], p)
    ensures i == j
  {
    var a, b := Folded(Owned(routes)[i]), Folded(Owned(routes)[j]);
    assert a <= b || b <= a;
  }

  lemma {:induction false} OutputsAreProtected(staging: Path, modelCache: Path, routes: seq<Route>, k: nat, dir: Path)
    requires k < |routes| && dir in OutputDirs(routes[k].policy)
    ensures dir in Protected(staging, modelCache, routes)
    decreases |routes|
  {
    if k < |routes| - 1 { OutputsAreProtected(staging, modelCache, routes[..|routes| - 1], k, dir); }
  }

  lemma {:induction false} MutatorsAreOwners(routes: seq<Route>, k: nat)
    requires k < |routes| && Mutates(routes[k].policy)
    ensures routes[k].inputRoot in Owned(routes)
    decreases |routes|
  {
    if k < |routes| - 1 { MutatorsAreOwners(routes[..|routes| - 1], k); }
  }

  /** A file comes to rest where it came from only when both directories are the same. */
  lemma LandsAtHome(root: Path, dir: Path, rel: Path)
    requires rel != [] && Lands(root + rel, dir + rel)
    ensures root == dir
  {
    hide Suffixed;
    if root + rel == dir + rel {
      SameTail(root, dir, rel);
    } else {
      var key :| IsHex(key) && root + rel == Suffixed(dir + rel, key);
      SuffixedDiffers(dir + rel, key);
      var front := rel[..|rel| - 1];
      assert Parent(root + rel) == root + front && Parent(dir + rel) == dir + front;
      SameTail(root, dir, front);
    }
  }

  /** For every accepted route and every safe relative path, the planned source is nowhere its file could
      come to rest: not at the planned target, and not at a suffixed one. Nor are source and target the same
      place once upward steps in the configured directories are folded out. */
  lemma TargetIsNotSource(staging: Path, modelCache: Path, routes: seq<Route>, k: nat,
                          job: Job, relative: string, sha256: string, members: seq<Path>)
    requires Accepted(staging, modelCache, routes) && k < |routes|
    requires routes[k].policy.sourceRoot == routes[k].inputRoot != []
    requires Plan(job, relative, sha256, routes[k].policy, members).Ok?
    ensures var intent := Plan(job, relative, sha256, routes[k].policy, members).value;
            intent.target.Some? ==> !Lands(intent.source, intent.target.value) && Folded(intent.target.value) != Folded(intent.source)
  {
    var policy := routes[k].policy;
    var intent := Plan(job, relative, sha256, policy, members).value;
    if intent.target.Some? {
      hide Lands, Folded;
      var rel := SafeRelative(relative).value;
      var dir := OutputDir(intent.action, policy).value;
      ActionIsConfigured(job.state, policy);
      MutatorsAreOwners(routes, k);
      OutputsAreProtected(staging, modelCache, routes, k, dir);
      assert !Contains(routes[k].inputRoot, dir);
      RootsDiffer(policy.sourceRoot, dir, rel);
    }
  }

  lemma RootsDiffer(root: Path, dir: Path, rel: Path)
    requires root != [] && dir != [] && rel != [] && Plain(rel) && !Contains(root, dir)
    ensures !Lands(root + rel, dir + rel) && Folded(dir + rel) != Folded(root + rel)
  {
    hide Lands;
    if Lands(root + rel, dir + rel) { LandsAtHome(root, dir, rel); }
    FoldedBelow(dir, rel);
    FoldedBelow(root, rel);
    if Folded(dir) + rel == Folded(root) + rel { SameTail(Folded(dir), Folded(root), rel); }
  }

  lemma ActionIsConfigured(state: JobState, policy: Policy)
    requires PolicyAction(state, policy).Ok? && Mutating(PolicyAction(state, policy).value)
    ensures Mutates(policy)
  {
  }

  lemma SameTail(a: Path, b: Path, tail: Path)
    requires a + tail == b + tail
    ensures a == b
  {
    assert |a| == |b|;
    assert a == (a + tail)[..|a|] && b == (b + tail)[..|b|];
  }

  /** The check looks for outputs inside sources only. With a source root inside an output directory, a
      planned target can fall back into the root it came from: exactly when the way from the output
      directory to the root begins the input's own relative path. */
  lemma FedBackExactly(root: Path, output: Path, rel: Path)
    requires root != [] && output != [] && Plain(rel) && !Contains(root, output)
    ensures Contains(root, output + rel) <==> Contains(output, root) && Folded(root)[|Folded(output)|..] <= rel
  {
    FoldedBelow(output, rel);
    FallsBelow(Folded(root), Folded(output), rel);
  }

  lemma FallsBelow(r: Path, o: Path, rel: Path)
    requires !(r <= o)
    ensures r <= o + rel <==> o <= r && r[|o|..] <= rel
  {
    var s := o + rel;
    if r <= s {
      assert r <= o || o <= r by { assert forall i :: 0 <= i < |r| && i < |o| ==> r[i] == s[i] == o[i]; }
      assert o == s[..|o|] == r[..|o|];
      assert r[|o|..] == s[|o|..|r|] == rel[..|r| - |o|];
    }
    if o <= r && r[|o|..] <= rel {
      assert r == o + r[|o|..];
    }
  }

  lemma PlainFolds(dir: Path)
    requires dir != [] && Plain(dir[1..])
    ensures Folded(dir) == dir
  {
    FoldedBelow([dir[0]], dir[1..]);
    assert dir == [dir[0]] + dir[1..];
  }

  /** One accepted configuration in which that happens: a root inside its own archive directory. */
  function NestedRoute(root: Path, archive: Path): Route {
    Route("r", root, Policy(root, Some(archive), None, Archive, Retain, Retain, Retain))
  }

  lemma NestedIsAccepted(root: Path, archive: Path, staging: Path, cache: Path)
    requires !Contains(root, staging) && !Contains(root, cache) && !Contains(root, archive)
    ensures Accepted(staging, cache, [NestedRoute(root, archive)])
  {
    hide Folded;
    var routes := [NestedRoute(root, archive)];
    var none: seq<Route> := [];
    assert routes[..0] == none;
    assert Owned(routes) == [] + [root] == [root];
    assert Protected(staging, cache, routes) == [staging, cache] + [archive];
  }

  lemma FedBackHappens()
    ensures var root, archive := ["/", "data", "in"], ["/", "data"];
            Accepted(["/", "staging"], ["/", "cache"], [NestedRoute(root, archive)]) && Contains(root, archive + ["in", "x"])
  {
    hide Folded, Accepted;
    var root, archive, staging, cache := ["/", "data", "in"], ["/", "data"], ["/", "staging"], ["/", "cache"];
    PlainFolds(root);
    PlainFolds(archive);
    PlainFolds(staging);
    PlainFolds(cache);
    assert staging[1] != root[1] && cache[1] != root[1];
    NestedIsAccepted(root, archive, staging, cache);
    assert root == archive + ["in"] && archive <= root && root[|archive|..] == ["in"] <= ["in", "x"];
    FedBackExactly(root, archive, ["in", "x"]);
  }
}
