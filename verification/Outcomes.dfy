// What a finished execution leaves on the disk, told without the steps it took: which paths are gone,
// what rests where, which records were written, and that nothing else changed.

module Outcomes {
  import opened Wrappers
  import opened LedgerSpec
  import opened Installing
  import opened Bundles
  import opened Crashes
  import opened Execution

  /** A path has what it had, or has nothing as before. */
  predicate Same(f: Files, e: Files, p: Path) {
    (p in e <==> p in f) && (p in f ==> e[p] == f[p])
  }

  /** Where a file bound for `dst` may come to rest: only a collision under `suffix` moves it aside. */
  ghost predicate Settles(p: Path, dst: Path, suffix: bool) {
    if suffix then Lands(p, dst) else p == dst
  }

  // -- one file ----------------------------------------------------------------------------------

  /** The k-th file of a bundle rests where the listing says, with the content it says: what the file held,
      unless it was gone or listed before. It lies aside only if other content has its target. */
  ghost predicate Rests(f: Files, e: Files, files: seq<Path>, k: nat, dst: Path, suffix: bool, at: Path, content: Sha)
    requires k < |files|
  {
    && Settles(at, dst, suffix) && at in e && e[at] == content && (at in f ==> f[at] == content)
    && (at != dst ==> dst in e && e[dst] != content)
    && (files[k] in f && files[k] !in files[..k] ==> content == f[files[k]])
  }

  /** An installation that succeeds takes the file from its source, puts it where it reports, and does
      nothing else. */
  lemma InstallEnds(env: Env, f: Files, src: Path, dst: Path, expected: Option<string>, suffix: bool, sources: set<Path>, written: set<Path>)
    requires Expects(expected)
    requires Apart(sources, written, src, dst) && Install(env, f, src, dst, expected, suffix).result.Ok?
    ensures var r := Install(env, f, src, dst, expected, suffix);
            var at, content := r.result.value.path, r.result.value.sha256;
            && End(f, r.steps) == (f - {src})[at := content] && Settles(at, dst, suffix) && at !in sources && at !in written
            && (at in f ==> f[at] == content) && (at != dst ==> dst in f && f[dst] != content)
            && (src in f ==> content == f[src]) && (src !in f ==> at in f)
            && (Recorded(f, src, expected) && expected.Some? ==> content == expected.value)
  {
    hide Suffixed, SuffixKey, Lands;
    InstallsAtGoal(env, f, src, dst, expected, suffix);
    var r, goal := Install(env, f, src, dst, expected, suffix), Goal(f, src, dst, expected, suffix);
    assert goal !in sources && goal !in written && src != goal;
    if src in f && goal in f {
      assert f - {src} == (f - {src})[goal := f[goal]];
    } else if src in f {
      assert f[goal := f[src]] - {src} == (f - {src})[goal := f[src]];
    } else {
      assert f == (f - {src})[goal := f[goal]];
    }
  }

  // -- several files -----------------------------------------------------------------------------

  /** Every file of a bundle has left its source and rests where the listing says; nothing else changed. */
  ghost predicate Gathered(f: Files, e: Files, files: seq<Path>, targets: seq<Path>, suffix: bool, listing: seq<(Path, Sha)>,
                           sources: set<Path>, written: set<Path>)
  {
    && |targets| == |files| == |listing|
    && (forall k :: 0 <= k < |files| ==> Rests(f, e, files, k, targets[k], suffix, listing[k].0, listing[k].1))
    && (forall k :: 0 <= k < |files| ==> listing[k].0 !in sources && listing[k].0 !in written)
    && (forall p :: p in files ==> p !in e)
    && (forall p :: p !in files && !Listed(listing, p) ==> Same(f, e, p))
  }

  predicate Listed(listing: seq<(Path, Sha)>, p: Path) {
    exists k :: 0 <= k < |listing| && listing[k].0 == p
  }

  lemma Remains(f: Files, e: Files, files: seq<Path>, targets: seq<Path>, suffix: bool, listing: seq<(Path, Sha)>,
                sources: set<Path>, written: set<Path>, p: Path)
    requires Gathered(f, e, files, targets, suffix, listing, sources, written) && p in f && p !in files
    ensures p in e && e[p] == f[p]
  {
    if Listed(listing, p) {
      var k :| 0 <= k < |listing| && listing[k].0 == p;
      assert Rests(f, e, files, k, targets[k], suffix, listing[k].0, listing[k].1);
    }
  }

  /** One file moved first, then the others: all of them are where they should be. */
  lemma OneMoreFirst(f: Files, e: Files, src: Path, dst: Path, at: Path, content: Sha, files: seq<Path>, targets: seq<Path>,
                     suffix: bool, listing: seq<(Path, Sha)>, sources: set<Path>, written: set<Path>)
    requires Gathered((f - {src})[at := content], e, files, targets, suffix, listing, sources, written)
    requires src in sources && (forall p :: p in files ==> p in sources) && dst !in sources
    requires Settles(at, dst, suffix) && at !in sources && at !in written
    requires at in f ==> f[at] == content
    requires at != dst ==> dst in f && f[dst] != content
    requires src in f ==> content == f[src]
    ensures Gathered(f, e, [src] + files, [dst] + targets, suffix, [(at, content)] + listing, sources, written)
  {
    hide Settles, Rests, Gathered;
    var middle := (f - {src})[at := content];
    var all, bound, listed := [src] + files, [dst] + targets, [(at, content)] + listing;
    Shape(middle, e, files, targets, suffix, listing, sources, written);
    FirstRests(f, e, src, dst, at, content, files, targets, suffix, listing, sources, written);
    forall k | 0 <= k < |all| ensures Rests(f, e, all, k, bound[k], suffix, listed[k].0, listed[k].1) {
      if k > 0 { StillRests(f, middle, e, src, at, content, files, k - 1, targets[k - 1], suffix, listing[k - 1].0, listing[k - 1].1, sources); }
    }
    forall p | p in all ensures p !in e {
      if p !in files { NotListed(middle, e, files, targets, suffix, listing, sources, written, p); }
    }
    forall p | p !in all && !Listed(listed, p) ensures Same(f, e, p) {
      assert listed[0].0 == at;
      StillListed(listing, (at, content), p);
      NotListed(middle, e, files, targets, suffix, listing, sources, written, p);
    }
    AsGathered(f, e, all, bound, suffix, listed, sources, written);
  }

  lemma StillListed(listing: seq<(Path, Sha)>, first: (Path, Sha), p: Path)
    ensures Listed(listing, p) ==> Listed([first] + listing, p)
  {
    if k :| 0 <= k < |listing| && listing[k].0 == p { assert ([first] + listing)[k + 1].0 == p; }
  }

  lemma Shape(f: Files, e: Files, files: seq<Path>, targets: seq<Path>, suffix: bool, listing: seq<(Path, Sha)>,
              sources: set<Path>, written: set<Path>)
    requires Gathered(f, e, files, targets, suffix, listing, sources, written)
    ensures |targets| == |files| == |listing|
    ensures forall k :: 0 <= k < |files| ==> Rests(f, e, files, k, targets[k], suffix, listing[k].0, listing[k].1)
    ensures forall k :: 0 <= k < |files| ==> listing[k].0 !in sources && listing[k].0 !in written
    ensures forall p :: p in files ==> p !in e
  {
  }

  lemma AsGathered(f: Files, e: Files, files: seq<Path>, targets: seq<Path>, suffix: bool, listing: seq<(Path, Sha)>,
                   sources: set<Path>, written: set<Path>)
    requires |targets| == |files| == |listing|
    requires forall k :: 0 <= k < |files| ==> Rests(f, e, files, k, targets[k], suffix, listing[k].0, listing[k].1)
    requires forall k :: 0 <= k < |files| ==> listing[k].0 !in sources && listing[k].0 !in written
    requires forall p :: p in files ==> p !in e
    requires forall p :: p !in files && !Listed(listing, p) ==> Same(f, e, p)
    ensures Gathered(f, e, files, targets, suffix, listing, sources, written)
  {
  }

  lemma NotListed(f: Files, e: Files, files: seq<Path>, targets: seq<Path>, suffix: bool, listing: seq<(Path, Sha)>,
                  sources: set<Path>, written: set<Path>, p: Path)
    requires Gathered(f, e, files, targets, suffix, listing, sources, written) && p !in files
    requires p in sources || !Listed(listing, p)
    ensures Same(f, e, p)
  {
  }

  lemma FirstRests(f: Files, e: Files, src: Path, dst: Path, at: Path, content: Sha, files: seq<Path>, targets: seq<Path>,
                   suffix: bool, listing: seq<(Path, Sha)>, sources: set<Path>, written: set<Path>)
    requires Gathered((f - {src})[at := content], e, files, targets, suffix, listing, sources, written)
    requires src in sources && (forall p :: p in files ==> p in sources) && dst !in sources
    requires Settles(at, dst, suffix) && at !in sources
    requires at in f ==> f[at] == content
    requires at != dst ==> dst in f && f[dst] != content
    requires src in f ==> content == f[src]
    ensures Rests(f, e, [src] + files, 0, dst, suffix, at, content)
  {
    hide Settles, Gathered;
    var middle := (f - {src})[at := content];
    Remains(middle, e, files, targets, suffix, listing, sources, written, at);
    if at != dst { Remains(middle, e, files, targets, suffix, listing, sources, written, dst); }
  }

  lemma StillRests(f: Files, middle: Files, e: Files, src: Path, first: Path, moved: Sha, files: seq<Path>, k: nat, dst: Path,
                   suffix: bool, at: Path, content: Sha, sources: set<Path>)
    requires k < |files| && Rests(middle, e, files, k, dst, suffix, at, content)
    requires middle == (f - {src})[first := moved] && (first in f ==> f[first] == moved)
    requires src in sources && first !in sources && at !in sources && files[k] in sources
    ensures Rests(f, e, [src] + files, k + 1, dst, suffix, at, content)
  {
    hide Settles;
    var all := [src] + files;
    assert all[k + 1] == files[k] && all[..k + 1] == [src] + files[..k];
  }

  // -- a bundle ----------------------------------------------------------------------------------

  /** A companion keeps its place under the image's directory, and two that differ there go to different places;
      one from elsewhere goes beside the image under its own name. The records lie beside the image too. */
  lemma PlacesBeside(source: Path, image: Path, rest: Path, other: Path, outside: Path)
    requires rest != []
    ensures MemberTarget(source, image, Parent(source) + rest) == Parent(image) + rest
    ensures MemberTarget(source, image, Parent(source) + rest) == MemberTarget(source, image, Parent(source) + other) ==> rest == other
    ensures !(Parent(source) <= outside) ==> MemberTarget(source, image, outside) == Parent(image) + [Name(outside)]
    ensures ErrorPath(image) == Parent(image) + [Name(image) + ".error.json"]
    ensures ManifestPath(image) == Parent(image) + [Name(image) + ".bundle.json"]
  {
    var own, theirs := Parent(source) + rest, Parent(source) + other;
    assert own[|Parent(source)|..] == rest && theirs[|Parent(source)|..] == other;
    assert (Parent(image) + rest)[|Parent(image)|..] == rest && (Parent(image) + other)[|Parent(image)|..] == other;
  }

  function Targets(source: Path, image: Path, members: seq<Path>): (targets: seq<Path>)
    ensures |targets| == |members| && forall k :: 0 <= k < |targets| ==> targets[k] == MemberTarget(source, image, members[k])
  {
    seq(|members|, k requires 0 <= k < |members| => MemberTarget(source, image, members[k]))
  }

  function Contents(installed: seq<Installed>): (listing: seq<(Path, Sha)>)
    ensures |listing| == |installed| && forall k :: 0 <= k < |listing| ==> listing[k] == (installed[k].path, installed[k].sha256)
  {
    seq(|installed|, k requires 0 <= k < |installed| => (installed[k].path, installed[k].sha256))
  }

  lemma OneMoreTarget(source: Path, image: Path, members: seq<Path>)
    requires members != []
    ensures Targets(source, image, members) == [MemberTarget(source, image, members[0])] + Targets(source, image, members[1..])
  {
    hide MemberTarget;
  }

  lemma OneMoreContent(first: Installed, rest: seq<Installed>)
    ensures Contents([first] + rest) == [(first.path, first.sha256)] + Contents(rest)
  {
  }

  lemma {:induction false} MembersEnd(env: Env, f: Files, source: Path, image: Path, members: seq<Path>, suffix: bool,
                                      sources: set<Path>, written: set<Path>)
    requires MembersApart(sources, written, source, image, members)
    requires MoveMembers(env, f, source, image, members, suffix).result.Ok?
    ensures var r := MoveMembers(env, f, source, image, members, suffix);
            Gathered(f, End(f, r.steps), members, Targets(source, image, members), suffix, Contents(r.result.value), sources, written)
    decreases |members|
  {
    hide Install, MemberTarget, Gathered, Lands, Targets, Contents, Apart, Settles;
    var r := MoveMembers(env, f, source, image, members, suffix);
    if members == [] {
      AsGathered(f, f, [], Targets(source, image, []), suffix, Contents([]), sources, written);
    } else {
      var dst, others := MemberTarget(source, image, members[0]), members[1..];
      InstallEnds(env, f, members[0], dst, None, suffix, sources, written);
      ApartIsDisjoint(sources, written, members[0], dst);
      var first := Install(env, f, members[0], dst, None, suffix);
      var middle := End(f, first.steps);
      var rest := MoveMembers(env, middle, source, image, others, suffix);
      MembersEnd(env, middle, source, image, others, suffix, sources, written);
      EndOfBoth(f, first.steps, rest.steps);
      SourcesOfMembers(sources, written, source, image, members);
      OneMoreFirst(f, End(middle, rest.steps), members[0], dst, first.result.value.path, first.result.value.sha256, others,
                   Targets(source, image, others), suffix, Contents(rest.result.value), sources, written);
      assert members == [members[0]] + others;
      OneMoreTarget(source, image, members);
      OneMoreContent(first.result.value, rest.result.value);
    }
  }

  lemma SourcesOfMembers(sources: set<Path>, written: set<Path>, source: Path, image: Path, members: seq<Path>)
    requires MembersApart(sources, written, source, image, members)
    ensures forall m :: m in members ==> m in sources
  {
  }

  /** An archived or quarantined bundle. The image and its members are gone from their sources and rest where
      the listing says, the image with the recorded content. A quarantine, and nothing else, leaves the error
      record beside the image; the manifest lies there exactly when there is more than one file to list.
      Every other path is as it was. */
  ghost predicate Delivered(f: Files, e: Files, source: Path, sha256: string, target: Path, members: seq<Path>,
                            quarantine: bool, suffix: bool, records: Records, listing: seq<(Path, Sha)>)
  {
    var files := [source] + members;
    |listing| == |files| &&
    var at := listing[0].0;
    var noted := listing + if quarantine then [(ErrorPath(at), records.error)] else [];
    && Rests(f, e, files, 0, target, suffix, at, listing[0].1)
    && (Recorded(f, source, Some(Hex(sha256))) ==> listing[0].1 == Hex(sha256))
    && (forall k :: 1 <= k < |files| ==> Rests(f, e, files, k, MemberTarget(source, at, files[k]), suffix, listing[k].0, listing[k].1))
    && (forall p :: p in files ==> p !in e)
    && (if quarantine then Holds(e, ErrorPath(at), records.error) else Same(f, e, ErrorPath(at)))
    && (if |noted| > 1 then Holds(e, ManifestPath(at), records.manifest(at, noted)) else Same(f, e, ManifestPath(at)))
    && (forall p :: p !in files && !Listed(listing, p) && p != ErrorPath(at) && p != ManifestPath(at) ==> Same(f, e, p))
  }

  predicate Holds(e: Files, p: Path, content: Sha) {
    p in e && e[p] == content
  }

  lemma RecordsDiffer(image: Path)
    ensures ErrorPath(image) != ManifestPath(image)
  {
    assert Name(ErrorPath(image)) == Name(image) + ".error.json" && Name(ManifestPath(image)) == Name(image) + ".bundle.json";
    assert |Name(image) + ".error.json"| != |Name(image) + ".bundle.json"|;
  }

  /** What sealing writes, by what is listed. */
  lemma SealEnds(f: Files, image: Path, installed: seq<Installed>, quarantine: bool, records: Records)
    requires installed != []
    ensures var e := End(f, Seal(f, image, installed, quarantine, records));
            var noted := Contents(installed) + if quarantine then [(ErrorPath(image), records.error)] else [];
            && (if quarantine then Holds(e, ErrorPath(image), records.error) else Same(f, e, ErrorPath(image)))
            && (if |noted| > 1 then Holds(e, ManifestPath(image), records.manifest(image, noted)) else Same(f, e, ManifestPath(image)))
            && (forall p :: p != ErrorPath(image) && p != ManifestPath(image) ==> Same(f, e, p))
  {
    hide ErrorPath, ManifestPath;
    RecordsDiffer(image);
    var note := Installed(ErrorPath(image), records.error, Written);
    var all := if quarantine then installed + [note] else installed;
    assert Listing(image, all) == Contents(installed) + if quarantine then [(ErrorPath(image), records.error)] else [];
  }

  lemma SameRests(f: Files, middle: Files, e: Files, files: seq<Path>, k: nat, dst: Path, suffix: bool, at: Path, content: Sha)
    requires k < |files| && Rests(f, middle, files, k, dst, suffix, at, content) && Same(middle, e, at) && Same(middle, e, dst)
    ensures Rests(f, e, files, k, dst, suffix, at, content)
  {
    hide Settles;
  }

  lemma SealedIsDelivered(f: Files, middle: Files, e: Files, source: Path, sha256: string, target: Path, members: seq<Path>,
                          quarantine: bool, suffix: bool, records: Records, listing: seq<(Path, Sha)>, sources: set<Path>)
    requires |listing| == 1 + |members|
    requires var at := listing[0].0;
             var written := WrittenBeside(at);
             var noted := listing + if quarantine then [(ErrorPath(at), records.error)] else [];
             && Gathered(f, middle, [source] + members, [target] + Targets(source, at, members), suffix, listing, sources, written)
             && sources !! written && (forall p :: p in [source] + members ==> p in sources)
             && target !in written && (forall m :: m in members ==> MemberTarget(source, at, m) !in written)
             && (if quarantine then Holds(e, ErrorPath(at), records.error) else Same(middle, e, ErrorPath(at)))
             && (if |noted| > 1 then Holds(e, ManifestPath(at), records.manifest(at, noted)) else Same(middle, e, ManifestPath(at)))
             && (forall p :: p != ErrorPath(at) && p != ManifestPath(at) ==> Same(middle, e, p))
    requires Recorded(f, source, Some(Hex(sha256))) ==> listing[0].1 == Hex(sha256)
    ensures Delivered(f, e, source, sha256, target, members, quarantine, suffix, records, listing)
  {
    hide ErrorPath, ManifestPath, MemberTarget, Rests, Settles, Recorded, Hex;
    var at := listing[0].0;
    var files, bound := [source] + members, [target] + Targets(source, at, members);
    forall k | 0 <= k < |files| ensures Rests(f, e, files, k, bound[k], suffix, listing[k].0, listing[k].1) {
      if k > 0 { assert members[k - 1] in members; }
      SameRests(f, middle, e, files, k, bound[k], suffix, listing[k].0, listing[k].1);
    }
    assert bound[0] == target && forall k :: 1 <= k < |files| ==> bound[k] == MemberTarget(source, at, files[k]);
    forall p ensures Listed(listing, p) ==> p !in WrittenBeside(at) {
      if Listed(listing, p) { var k :| 0 <= k < |listing| && listing[k].0 == p; }
    }
    assert Same(f, middle, ErrorPath(at)) && Same(f, middle, ManifestPath(at));
    forall p | p in files ensures p !in e {
      assert p in sources && p !in WrittenBeside(at);
      assert Same(middle, e, p);
    }
    forall p | p !in files && !Listed(listing, p) && p != ErrorPath(at) && p != ManifestPath(at) ensures Same(f, e, p) {
      assert Same(f, middle, p) && Same(middle, e, p);
    }
  }

  /** A bundle move that succeeds delivers its bundle, whatever the machine. */
  lemma BundleEnds(env: Env, f: Files, source: Path, sha256: string, target: Path, members: seq<Path>,
                   quarantine: bool, suffix: bool, records: Records) returns (listing: seq<(Path, Sha)>)
    requires IsHex(Hex(sha256)) && Clear(source, target, members)
    requires MoveBundle(env, f, source, sha256, Some(target), members, quarantine, suffix, records).result.Ok?
    ensures var run := MoveBundle(env, f, source, sha256, Some(target), members, quarantine, suffix, records);
            Delivered(f, End(f, run.steps), source, sha256, target, members, quarantine, suffix, records, listing)
  {
    hide Install, MoveMembers, Seal, Gathered, Delivered, Goal, Hex, MemberTarget, ErrorPath, ManifestPath, Lands, Recorded;
    hide Contents, Targets, SourcesOf, Apart, MembersApart, Settles, WrittenBeside;
    var sources, expected := SourcesOf(source, members), Some(Hex(sha256));
    InstallsAtGoal(env, f, source, target, expected, suffix);
    var at := ImagePath(f, source, sha256, target, suffix);
    var written := WrittenBeside(at);
    assert ClearOf(sources, written, source, target, at, members);
    Settled(env, f, source, target, expected, suffix, sources, written);
    InstallEnds(env, f, source, target, expected, suffix, sources, written);
    var image := Install(env, f, source, target, expected, suffix);
    var middle := End(f, image.steps);
    var moved := MoveMembers(env, middle, source, at, members, suffix);
    var gathered := End(middle, moved.steps);
    MembersEnd(env, middle, source, at, members, suffix, sources, written);
    Shape(middle, gathered, members, Targets(source, at, members), suffix, Contents(moved.result.value), sources, written);
    ApartIsDisjoint(sources, written, source, target);
    SourcesOfMembers(sources, written, source, at, members);
    OneMoreFirst(f, gathered, source, target, at, image.result.value.sha256, members, Targets(source, at, members), suffix,
                 Contents(moved.result.value), sources, written);
    var all := [image.result.value] + moved.result.value;
    listing := [(at, image.result.value.sha256)] + Contents(moved.result.value);
    OneMoreContent(image.result.value, moved.result.value);
    SealEnds(gathered, at, all, quarantine, records);
    MembersAreClear(sources, written, source, at, members);
    var sealing := Seal(gathered, at, all, quarantine, records);
    EndOfBoth(middle, moved.steps, sealing);
    EndOfBoth(f, image.steps, moved.steps + sealing);
    SealedIsDelivered(f, gathered, End(gathered, sealing), source, sha256, target, members, quarantine, suffix, records, listing, sources);
  }

  lemma MembersAreClear(sources: set<Path>, written: set<Path>, source: Path, image: Path, members: seq<Path>)
    requires MembersApart(sources, written, source, image, members)
    ensures forall m :: m in members ==> MemberTarget(source, image, m) !in written
  {
    hide MemberTarget;
    forall m | m in members ensures MemberTarget(source, image, m) !in written {
      ApartIsDisjoint(sources, written, m, MemberTarget(source, image, m));
    }
  }

  // -- the manifest tells that all arrived -------------------------------------------------------

  lemma InstallSparesRest(env: Env, f: Files, src: Path, dst: Path, expected: Option<string>, suffix: bool,
                          sources: set<Path>, written: set<Path>, p: Path)
    requires Expects(expected) && Apart(sources, written, src, dst) && p in written
    ensures forall g :: g in Install(env, f, src, dst, expected, suffix).steps ==> Same(f, g, p)
  {
    hide Install, Suffixed, SuffixKey, Lands, Goal, Same;
    InstallsAtGoal(env, f, src, dst, expected, suffix);
    PlainSparesRest(env, f, src, Goal(f, src, dst, expected, suffix), expected, p);
  }

  lemma PlainSparesRest(env: Env, f: Files, src: Path, goal: Path, expected: Option<string>, p: Path)
    requires p != src && p != goal
    ensures forall g :: g in Install(env, f, src, goal, expected, false).steps ==> Same(f, g, p)
  {
  }

  lemma SameAfterSame(f: Files, g: Files, h: Files, p: Path)
    requires Same(f, g, p) && Same(g, h, p)
    ensures Same(f, h, p)
  {
  }

  lemma {:induction false} MembersSpareRest(env: Env, f: Files, source: Path, image: Path, members: seq<Path>, suffix: bool,
                                            sources: set<Path>, written: set<Path>, p: Path)
    requires MembersApart(sources, written, source, image, members) && p in written
    ensures var r := MoveMembers(env, f, source, image, members, suffix);
            (forall g :: g in r.steps ==> Same(f, g, p)) && Same(f, End(f, r.steps), p)
    decreases |members|
  {
    hide Install, MemberTarget, Apart;
    if members != [] {
      var dst := MemberTarget(source, image, members[0]);
      InstallSparesRest(env, f, members[0], dst, None, suffix, sources, written, p);
      var first := Install(env, f, members[0], dst, None, suffix);
      if first.result.Ok? {
        var middle := End(f, first.steps);
        MembersSpareRest(env, middle, source, image, members[1..], suffix, sources, written, p);
        var rest := MoveMembers(env, middle, source, image, members[1..], suffix);
        EndOfBoth(f, first.steps, rest.steps);
        assert Same(f, middle, p);
        forall g | g in rest.steps ensures Same(f, g, p) { SameAfterSame(f, middle, g, p); }
      }
    }
  }

  lemma SealEndsInManifest(f: Files, g: Files, image: Path, installed: seq<Installed>, quarantine: bool, records: Records)
    requires g in Seal(f, image, installed, quarantine, records) && !Same(f, g, ManifestPath(image))
    ensures g == End(f, Seal(f, image, installed, quarantine, records))
  {
    hide ErrorPath, ManifestPath, Listing;
    RecordsDiffer(image);
  }

  /** A bundle manifest appears, or changes, only in the last step of a move that succeeds: whoever finds
      one finds the whole bundle. */
  lemma ManifestComesLast(env: Env, f: Files, g: Files, source: Path, sha256: string, target: Path, members: seq<Path>,
                          quarantine: bool, suffix: bool, records: Records)
    requires IsHex(Hex(sha256)) && Clear(source, target, members)
    requires g in MoveBundle(env, f, source, sha256, Some(target), members, quarantine, suffix, records).steps
    requires !Same(f, g, ManifestPath(ImagePath(f, source, sha256, target, suffix)))
    ensures var run := MoveBundle(env, f, source, sha256, Some(target), members, quarantine, suffix, records);
            run.result.Ok? && g == End(f, run.steps)
  {
    hide Install, MoveMembers, Seal, Goal, Hex, MemberTarget, ErrorPath, ManifestPath, Lands;
    var sources, expected := SourcesOf(source, members), Some(Hex(sha256));
    InstallsAtGoal(env, f, source, target, expected, suffix);
    var at := ImagePath(f, source, sha256, target, suffix);
    var written, p := WrittenBeside(at), ManifestPath(at);
    assert ClearOf(sources, written, source, target, at, members);
    InstallSparesRest(env, f, source, target, expected, suffix, sources, written, p);
    var image := Install(env, f, source, target, expected, suffix);
    Settled(env, f, source, target, expected, suffix, sources, written);
    var middle := End(f, image.steps);
    MembersSpareRest(env, middle, source, at, members, suffix, sources, written, p);
    var moved := MoveMembers(env, middle, source, at, members, suffix);
    assert g !in image.steps && Same(f, middle, p);
    assert g !in moved.steps by {
      if g in moved.steps { SameAfterSame(f, middle, g, p); }
    }
    var gathered, all := End(middle, moved.steps), [image.result.value] + moved.result.value;
    var sealing := Seal(gathered, at, all, quarantine, records);
    assert g in sealing && !Same(gathered, g, p) by {
      if Same(gathered, g, p) {
        SameAfterSame(f, middle, gathered, p);
        SameAfterSame(f, gathered, g, p);
      }
    }
    SealEndsInManifest(gathered, g, at, all, quarantine, records);
    EndOfBoth(middle, moved.steps, sealing);
    EndOfBoth(f, image.steps, moved.steps + sealing);
  }

  // -- when a move succeeds ----------------------------------------------------------------------

  ghost predicate Faithful(env: Env) {
    forall c :: env.copied(c) == c
  }

  /** A file goes where nothing is. */
  lemma FreeTargetTakes(env: Env, f: Files, src: Path, dst: Path, expected: Option<string>, suffix: bool)
    requires Faithful(env) && src in f && dst !in f && (expected.Some? ==> f[src] == expected.value)
    ensures var r := Install(env, f, src, dst, expected, suffix);
            r.result.Ok? && r.result.value.path == dst && End(f, r.steps) == (f - {src})[dst := f[src]]
  {
    assert src != dst;
    assert f[dst := f[src]] - {src} == (f - {src})[dst := f[src]];
  }

  /** Each companion is there, once, and its own place beside the image is free. */
  ghost predicate Placeable(f: Files, source: Path, image: Path, members: seq<Path>) {
    && (forall k :: 0 <= k < |members| ==> members[k] in f && MemberTarget(source, image, members[k]) !in f)
    && (forall i, j :: 0 <= i < j < |members| ==> members[i] != members[j])
    && (forall i, j :: 0 <= i < j < |members| ==> MemberTarget(source, image, members[i]) != MemberTarget(source, image, members[j]))
  }

  lemma {:induction false} MembersSucceed(env: Env, f: Files, source: Path, image: Path, members: seq<Path>, suffix: bool)
    requires Faithful(env) && Placeable(f, source, image, members)
    ensures MoveMembers(env, f, source, image, members, suffix).result.Ok?
    decreases |members|
  {
    hide Install, MemberTarget, Faithful;
    if members != [] {
      var dst, others := MemberTarget(source, image, members[0]), members[1..];
      FreeTargetTakes(env, f, members[0], dst, None, suffix);
      var middle := (f - {members[0]})[dst := f[members[0]]];
      assert Placeable(middle, source, image, others) by {
        assert forall k :: 0 <= k < |others| ==> others[k] == members[k + 1];
      }
      MembersSucceed(env, middle, source, image, others, suffix);
    }
  }

  /** Nothing is in the way: the image is the recorded object, its target and its companions' places are free. */
  ghost predicate Unobstructed(env: Env, f: Files, source: Path, sha256: string, target: Path, members: seq<Path>) {
    && Faithful(env) && source in f && f[source] == Hex(sha256) && target !in f && source !in members
    && Placeable((f - {source})[target := f[source]], source, target, members)
  }

  lemma UnobstructedMoves(env: Env, f: Files, source: Path, sha256: string, target: Path, members: seq<Path>,
                          quarantine: bool, suffix: bool, records: Records)
    requires Unobstructed(env, f, source, sha256, target, members)
    ensures MoveBundle(env, f, source, sha256, Some(target), members, quarantine, suffix, records).result.Ok?
  {
    hide Install, MemberTarget, Hex, Faithful, Placeable, Seal;
    FreeTargetTakes(env, f, source, target, Some(Hex(sha256)), suffix);
    MembersSucceed(env, (f - {source})[target := f[source]], source, target, members, suffix);
  }

  // -- deletion and retention --------------------------------------------------------------------

  /** A deletion succeeds exactly when the source is gone already, or is the recorded object and not one of
      its own members; one that succeeds on a source that is there takes it, its members and nothing else. */
  lemma DeletesExactly(f: Files, source: Path, sha256: string, members: seq<Path>)
    ensures var run := DeleteBundle(f, source, sha256, members);
            var e := End(f, run.steps);
            && (run.result.Ok? <==> source !in f || (f[source] == Hex(sha256) && source !in members))
            && (source !in f || f[source] != Hex(sha256) ==> e == f)
            && (source in f && run.result.Ok? ==> forall p :: if p == source || p in members then p !in e else Same(f, e, p))
  {
    hide RemoveMembers, Hex, Partway;
    RemovesMembers(f, members);
  }

  // -- any execution -----------------------------------------------------------------------------

  /** What executing an intent came to, by its verdict and the files before and after. */
  ghost predicate Executed(env: Env, f: Files, e: Files, intent: Intent, suffix: bool, records: Records, r: Result<(), Code>) {
    var source, members, recorded := intent.source, intent.members, Hex(intent.sha256);
    match intent.action
    case Retain => e == f && (r.Ok? <==> source in f && f[source] == recorded)
    case Delete =>
      && (r.Ok? <==> source !in f || (f[source] == recorded && source !in members))
      && (source !in f || f[source] != recorded ==> e == f)
      && (source in f && r.Ok? ==> forall p :: if p == source || p in members then p !in e else Same(f, e, p))
    case Archive => Moved(env, f, e, intent, false, suffix, records, r)
    case Quarantine => Moved(env, f, e, intent, true, suffix, records, r)
  }

  ghost predicate Moved(env: Env, f: Files, e: Files, intent: Intent, quarantine: bool, suffix: bool, records: Records, r: Result<(), Code>) {
    if intent.target.None? || (intent.source !in f && intent.target.value !in f) then r.Err? && e == f
    else
      && (Unobstructed(env, f, intent.source, intent.sha256, intent.target.value, intent.members) ==> r.Ok?)
      && (r.Ok? && IsHex(Hex(intent.sha256)) && Clear(intent.source, intent.target.value, intent.members) ==>
            exists listing :: Delivered(f, e, intent.source, intent.sha256, intent.target.value, intent.members,
                                        quarantine, suffix, records, listing))
  }

  lemma ExecutesAs(env: Env, f: Files, intent: Intent, suffix: bool, records: Records)
    ensures var run := Execute(env, f, intent, suffix, records);
            Executed(env, f, End(f, run.steps), intent, suffix, records, run.result)
  {
    hide DeleteBundle, Hex, Unobstructed, Clear, Delivered, MoveBundle, Moved;
    match intent.action
    case Retain =>
    case Delete => DeletesExactly(f, intent.source, intent.sha256, intent.members);
    case Archive => MovesAs(env, f, intent, false, suffix, records);
    case Quarantine => MovesAs(env, f, intent, true, suffix, records);
  }

  lemma MovesAs(env: Env, f: Files, intent: Intent, quarantine: bool, suffix: bool, records: Records)
    ensures var run := MoveBundle(env, f, intent.source, intent.sha256, intent.target, intent.members, quarantine, suffix, records);
            Moved(env, f, End(f, run.steps), intent, quarantine, suffix, records, run.result)
  {
    hide Install, Finish, Hex, Unobstructed, Clear, Delivered;
    var source, members := intent.source, intent.members;
    if intent.target.Some? && (source in f || intent.target.value in f) {
      var target := intent.target.value;
      if Unobstructed(env, f, source, intent.sha256, target, members) {
        UnobstructedMoves(env, f, source, intent.sha256, target, members, quarantine, suffix, records);
      }
      var run := MoveBundle(env, f, source, intent.sha256, Some(target), members, quarantine, suffix, records);
      if run.result.Ok? && IsHex(Hex(intent.sha256)) && Clear(source, target, members) {
        var listing := BundleEnds(env, f, source, intent.sha256, target, members, quarantine, suffix, records);
      }
    }
  }
}
