// Crashes. Wherever a bundle move, a deletion or a retention stops, running it again ends with the
// same files and the same verdict as if it had never stopped; and at no step is evidence lost.

module Crashes {
  import opened Wrappers
  import opened Installing
  import opened Bundles

  function SourcesOf(source: Path, members: seq<Path>): set<Path> {
    {source} + set m | m in members
  }

  function WrittenBeside(image: Path): set<Path> {
    {ErrorPath(image), ManifestPath(image)}
  }

  /** The bundle's sources, its possible targets and the records beside it keep out of each other's way. */
  ghost predicate Clear(source: Path, target: Path, members: seq<Path>) {
    forall image | Lands(image, target) ::
      ClearOf(SourcesOf(source, members), WrittenBeside(image), source, target, image, members)
  }

  ghost predicate ClearOf(sources: set<Path>, written: set<Path>, source: Path, target: Path, image: Path, members: seq<Path>) {
    Apart(sources, written, source, target) && MembersApart(sources, written, source, image, members)
  }

  ghost predicate MembersApart(sources: set<Path>, written: set<Path>, source: Path, image: Path, members: seq<Path>) {
    forall m :: m in members ==> Apart(sources, written, m, MemberTarget(source, image, m))
  }

  lemma LaterComposes(sources: set<Path>, written: set<Path>, f: Files, g: Files, h: Files)
    requires Later(sources, written, f, g) && Later(sources, written, g, h)
    ensures Later(sources, written, f, h)
  {
  }

  // -- members -----------------------------------------------------------------------------------

  lemma {:induction false} MembersAreLater(env: Env, f: Files, source: Path, image: Path, members: seq<Path>, suffix: bool,
                                           sources: set<Path>, written: set<Path>)
    requires MembersApart(sources, written, source, image, members)
    ensures var r := MoveMembers(env, f, source, image, members, suffix);
            (forall g :: g in r.steps ==> Later(sources, written, f, g)) && Later(sources, written, f, End(f, r.steps))
    decreases |members|
  {
    hide Install, MemberTarget, Apart;
    if members != [] {
      var dst := MemberTarget(source, image, members[0]);
      InstallIsLater(env, f, members[0], dst, None, suffix, sources, written);
      var first := Install(env, f, members[0], dst, None, suffix);
      if first.result.Ok? {
        var middle := End(f, first.steps);
        MembersAreLater(env, middle, source, image, members[1..], suffix, sources, written);
        var rest := MoveMembers(env, middle, source, image, members[1..], suffix);
        forall g | g in rest.steps ensures Later(sources, written, f, g) {
          LaterComposes(sources, written, f, middle, g);
        }
      }
    }
  }

  /** The same files in the same places; when `exactly` is false, only as many of them. */
  predicate SameFiles(a: seq<Installed>, b: seq<Installed>, exactly: bool) {
    |a| == |b| && (exactly ==> forall k :: 0 <= k < |a| ==> SameFile(a[k], b[k]))
  }

  lemma SameFileItself()
    ensures forall a :: SameFile(a, a)
  {
  }

  predicate SameOutcome(a: Result<seq<Installed>, Code>, b: Result<seq<Installed>, Code>, exactly: bool) {
    if a.Ok? then b.Ok? && SameFiles(a.value, b.value, exactly) else b == a
  }

  lemma {:induction false} MembersOnce(env: Env, f: Files, g: Files, source: Path, image: Path, members: seq<Path>, suffix: bool,
                                       sources: set<Path>, written: set<Path>)
    requires MembersApart(sources, written, source, image, members)
    requires MoveMembers(env, f, source, image, members, suffix).result.Ok?
    requires Later(sources, written, End(f, MoveMembers(env, f, source, image, members, suffix).steps), g)
    ensures var again := MoveMembers(env, g, source, image, members, suffix);
            again.steps == [] && SameOutcome(MoveMembers(env, f, source, image, members, suffix).result, again.result, !suffix)
    decreases |members|
  {
    hide Install, MemberTarget, Apart;
    if members != [] {
      var dst := MemberTarget(source, image, members[0]);
      var first := Install(env, f, members[0], dst, None, suffix);
      var middle := End(f, first.steps);
      var rest := MoveMembers(env, middle, source, image, members[1..], suffix);
      EndOfBoth(f, first.steps, rest.steps);
      MembersAreLater(env, middle, source, image, members[1..], suffix, sources, written);
      LaterComposes(sources, written, middle, End(middle, rest.steps), g);
      InstallsOnce(env, f, g, members[0], dst, None, suffix, sources, written);
      MembersOnce(env, middle, g, source, image, members[1..], suffix, sources, written);
    }
  }

  lemma {:induction false} MembersResume(env: Env, f: Files, g: Files, source: Path, image: Path, members: seq<Path>, suffix: bool,
                                         sources: set<Path>, written: set<Path>)
    requires Exact(env) && MembersApart(sources, written, source, image, members)
    requires g in MoveMembers(env, f, source, image, members, suffix).steps
    ensures var whole := MoveMembers(env, f, source, image, members, suffix);
            var again := MoveMembers(env, g, source, image, members, suffix);
            End(g, again.steps) == End(f, whole.steps) && SameOutcome(whole.result, again.result, !suffix)
    decreases |members|
  {
    hide Install, MemberTarget, Apart, Exact, SameFile, Later, SameOutcome;
    var dst := MemberTarget(source, image, members[0]);
    var first := Install(env, f, members[0], dst, None, suffix);
    if g in first.steps {
      FirstMemberResumes(env, f, g, source, image, members, suffix, sources, written);
    } else {
      var middle := End(f, first.steps);
      MembersAreLater(env, middle, source, image, members[1..], suffix, sources, written);
      InstallsOnce(env, f, g, members[0], dst, None, suffix, sources, written);
      MembersResume(env, middle, g, source, image, members[1..], suffix, sources, written);
      OtherMembersResume(env, f, g, source, image, members, suffix);
    }
  }

  /** With the first member installed already and the others resuming, the whole move resumes. */
  lemma OtherMembersResume(env: Env, f: Files, g: Files, source: Path, image: Path, members: seq<Path>, suffix: bool)
    requires members != []
    requires var first := Install(env, f, members[0], MemberTarget(source, image, members[0]), None, suffix);
             var again := Install(env, g, members[0], MemberTarget(source, image, members[0]), None, suffix);
             && first.result.Ok? && again.steps == [] && again.result.Ok?
             && (!suffix ==> SameFile(first.result.value, again.result.value))
             && var middle := End(f, first.steps);
                var rest := MoveMembers(env, middle, source, image, members[1..], suffix);
                var later := MoveMembers(env, g, source, image, members[1..], suffix);
                End(g, later.steps) == End(middle, rest.steps) && SameOutcome(rest.result, later.result, !suffix)
    ensures var whole := MoveMembers(env, f, source, image, members, suffix);
            var again := MoveMembers(env, g, source, image, members, suffix);
            End(g, again.steps) == End(f, whole.steps) && SameOutcome(whole.result, again.result, !suffix)
  {
    hide Install, MemberTarget, SameFile, SameFiles;
    var first := Install(env, f, members[0], MemberTarget(source, image, members[0]), None, suffix);
    var again := Install(env, g, members[0], MemberTarget(source, image, members[0]), None, suffix);
    var rest := MoveMembers(env, End(f, first.steps), source, image, members[1..], suffix);
    var later := MoveMembers(env, g, source, image, members[1..], suffix);
    EndOfBoth(f, first.steps, rest.steps);
    EndOfBoth(g, again.steps, later.steps);
    if rest.result.Ok? {
      OneMoreSameFile(first.result.value, again.result.value, rest.result.value, later.result.value, !suffix);
    }
  }

  lemma OneMoreSameFile(x: Installed, y: Installed, a: seq<Installed>, b: seq<Installed>, exactly: bool)
    requires SameFiles(a, b, exactly) && (exactly ==> SameFile(x, y))
    ensures SameFiles([x] + a, [y] + b, exactly)
  {
  }

  /** A move that stopped while its first member was being installed resumes. */
  lemma FirstMemberResumes(env: Env, f: Files, g: Files, source: Path, image: Path, members: seq<Path>, suffix: bool,
                           sources: set<Path>, written: set<Path>)
    requires Exact(env) && MembersApart(sources, written, source, image, members) && members != []
    requires g in Install(env, f, members[0], MemberTarget(source, image, members[0]), None, suffix).steps
    ensures var whole := MoveMembers(env, f, source, image, members, suffix);
            var again := MoveMembers(env, g, source, image, members, suffix);
            End(g, again.steps) == End(f, whole.steps) && SameOutcome(whole.result, again.result, !suffix)
  {
    hide Install, MemberTarget, Apart, Exact, SameFile, Later;
    SameFileItself();
    var dst := MemberTarget(source, image, members[0]);
    var first := Install(env, f, members[0], dst, None, suffix);
    InstallResumes(env, f, g, members[0], dst, None, suffix, sources, written);
    var again := Install(env, g, members[0], dst, None, suffix);
    var rest := MoveMembers(env, End(f, first.steps), source, image, members[1..], suffix);
    EndOfBoth(f, first.steps, rest.steps);
    EndOfBoth(g, again.steps, rest.steps);
  }

  lemma EndOfBoth(f: Files, a: seq<Files>, b: seq<Files>)
    ensures End(f, a + b) == End(End(f, a), b)
  {
  }

  // -- sealing -----------------------------------------------------------------------------------

  lemma SealIsLater(f: Files, image: Path, installed: seq<Installed>, quarantine: bool, records: Records, sources: set<Path>)
    requires sources !! WrittenBeside(image)
    ensures forall g :: g in Seal(f, image, installed, quarantine, records) ==> Later(sources, WrittenBeside(image), f, g)
  {
    hide ErrorPath, ManifestPath;
  }

  /** The same files, the manifest aside. */
  ghost predicate SameButManifest(f: Files, g: Files, image: Path, exactly: bool) {
    if exactly then f == g else f - {ManifestPath(image)} == g - {ManifestPath(image)}
  }

  lemma ListingOfSame(image: Path, a: seq<Installed>, b: seq<Installed>)
    requires SameFiles(a, b, true)
    ensures Listing(image, a) == Listing(image, b)
  {
  }

  /** Sealing the same bundle, from its end or from the middle of sealing it, ends the same way. */
  lemma SealAgain(f: Files, g: Files, image: Path, a: seq<Installed>, b: seq<Installed>, quarantine: bool, records: Records, exactly: bool)
    requires SameFiles(a, b, exactly) && |a| >= 1
    requires g == f || g in Seal(f, image, a, quarantine, records)
    ensures SameButManifest(End(f, Seal(f, image, a, quarantine, records)), End(g, Seal(g, image, b, quarantine, records)), image, exactly)
  {
    hide ErrorPath, ManifestPath, Listing;
    var note := Installed(ErrorPath(image), records.error, Written);
    if exactly {
      ListingOfSame(image, a, b);
      ListingOfSame(image, a + [note], b + [note]);
    }
  }

  lemma FinishIsLater(env: Env, f: Files, source: Path, image: Installed, members: seq<Path>, quarantine: bool,
                      suffix: bool, records: Records, sources: set<Path>)
    requires MembersApart(sources, WrittenBeside(image.path), source, image.path, members) && sources !! WrittenBeside(image.path)
    ensures forall g :: g in Finish(env, f, source, image, members, quarantine, suffix, records).steps ==>
              Later(sources, WrittenBeside(image.path), f, g)
  {
    hide MoveMembers, Seal, WrittenBeside, MembersApart;
    var written := WrittenBeside(image.path);
    MembersAreLater(env, f, source, image.path, members, suffix, sources, written);
    var moved := MoveMembers(env, f, source, image.path, members, suffix);
    if moved.result.Ok? {
      var e := End(f, moved.steps);
      SealIsLater(e, image.path, [image] + moved.result.value, quarantine, records, sources);
      forall g | g in Seal(e, image.path, [image] + moved.result.value, quarantine, records) ensures Later(sources, written, f, g) {
        LaterComposes(sources, written, f, e, g);
      }
    }
  }

  /** Finishing again, with the image reported in the same place, ends the same way. */
  lemma FinishResumes(env: Env, f: Files, g: Files, source: Path, image: Installed, again: Installed, members: seq<Path>,
                      quarantine: bool, suffix: bool, records: Records, sources: set<Path>)
    requires Exact(env) && SameFile(image, again)
    requires MembersApart(sources, WrittenBeside(image.path), source, image.path, members) && sources !! WrittenBeside(image.path)
    requires g == f || g in Finish(env, f, source, image, members, quarantine, suffix, records).steps
    ensures var first := Finish(env, f, source, image, members, quarantine, suffix, records);
            var second := Finish(env, g, source, again, members, quarantine, suffix, records);
            first.result == second.result && SameButManifest(End(f, first.steps), End(g, second.steps), image.path, !suffix)
  {
    hide MoveMembers, Seal, WrittenBeside, MembersApart, Exact;
    var at := image.path;
    var moved := MoveMembers(env, f, source, at, members, suffix);
    var e := End(f, moved.steps);
    var resumed := MoveMembers(env, g, source, at, members, suffix);
    if g in moved.steps {
      MembersResume(env, f, g, source, at, members, suffix, sources, WrittenBeside(at));
    }
    if moved.result.Err? {
    } else {
      var all := [image] + moved.result.value;
      var start := if g == f || g in moved.steps then e else g;
      if g != f && g !in moved.steps {
        SealIsLater(e, at, all, quarantine, records, sources);
        MembersOnce(env, f, g, source, at, members, suffix, sources, WrittenBeside(at));
      }
      assert End(g, resumed.steps) == start && resumed.result.Ok?;
      SealAgain(e, start, at, all, [again] + resumed.result.value, quarantine, records, !suffix);
      EndOfBoth(f, moved.steps, Seal(e, at, all, quarantine, records));
      EndOfBoth(g, resumed.steps, Seal(start, at, [again] + resumed.result.value, quarantine, records));
    }
  }

  // -- the whole bundle --------------------------------------------------------------------------

  /** Where the image of a bundle goes. */
  function ImagePath(f: Files, source: Path, sha256: string, target: Path, suffix: bool): Path {
    Goal(f, source, target, Some(Hex(sha256)), suffix)
  }

  lemma BundleIsLater(env: Env, f: Files, source: Path, sha256: string, target: Path, members: seq<Path>,
                      quarantine: bool, suffix: bool, records: Records)
    requires IsHex(Hex(sha256))
    requires Clear(source, target, members)
    ensures forall g :: g in MoveBundle(env, f, source, sha256, Some(target), members, quarantine, suffix, records).steps ==>
              Later(SourcesOf(source, members), WrittenBeside(ImagePath(f, source, sha256, target, suffix)), f, g)
  {
    hide Install, Finish, WrittenBeside, Goal, SourcesOf, Apart, MembersApart;
    var sources := SourcesOf(source, members);
    var image := Install(env, f, source, target, Some(Hex(sha256)), suffix);
    var at := ImagePath(f, source, sha256, target, suffix);
    InstallsAtGoal(env, f, source, target, Some(Hex(sha256)), suffix);
    assert ClearOf(sources, WrittenBeside(at), source, target, at, members);
    InstallIsLater(env, f, source, target, Some(Hex(sha256)), suffix, sources, WrittenBeside(at));
    if image.result.Ok? {
      Settled(env, f, source, target, Some(Hex(sha256)), suffix, sources, WrittenBeside(at));
      var e := End(f, image.steps);
      ApartIsDisjoint(sources, WrittenBeside(at), source, target);
      FinishIsLater(env, e, source, image.result.value, members, quarantine, suffix, records, sources);
      var rest := Finish(env, e, source, image.result.value, members, quarantine, suffix, records);
      forall g | g in rest.steps ensures Later(sources, WrittenBeside(at), f, g) {
        LaterComposes(sources, WrittenBeside(at), f, e, g);
      }
    }
  }

  lemma ApartIsDisjoint(sources: set<Path>, written: set<Path>, src: Path, dst: Path)
    requires Apart(sources, written, src, dst)
    ensures sources !! written && src in sources && dst !in sources && dst !in written
  {
    LandsOnTarget(dst);
  }

  lemma InstalledExisted(env: Env, f: Files, src: Path, dst: Path, expected: Option<string>, suffix: bool)
    requires Install(env, f, src, dst, expected, suffix).result.Ok?
    ensures src in f || dst in f
  {
  }

  /** With the image installed at the same path from the same point on, two bundle moves end alike. */
  lemma SameEnding(env: Env, f: Files, g: Files, source: Path, sha256: string, target: Path, members: seq<Path>,
                   quarantine: bool, suffix: bool, records: Records, e: Files, h: Files)
    requires IsHex(Hex(sha256))
    requires Exact(env) && Clear(source, target, members)
    requires var image := Install(env, f, source, target, Some(Hex(sha256)), suffix);
             var again := Install(env, g, source, target, Some(Hex(sha256)), suffix);
             && image.result.Ok? && again.result.Ok? && SameFile(image.result.value, again.result.value)
             && e == End(f, image.steps) && h == End(g, again.steps)
             && (h == e || h in Finish(env, e, source, image.result.value, members, quarantine, suffix, records).steps)
    ensures var first := MoveBundle(env, f, source, sha256, Some(target), members, quarantine, suffix, records);
            var second := MoveBundle(env, g, source, sha256, Some(target), members, quarantine, suffix, records);
            var at := ImagePath(f, source, sha256, target, suffix);
            && first.result == second.result && ImagePath(g, source, sha256, target, suffix) == at
            && SameButManifest(End(f, first.steps), End(g, second.steps), at, !suffix)
  {
    hide Install, Finish, WrittenBeside, SourcesOf, Apart, MembersApart, SameButManifest, Exact, Goal;
    var sources := SourcesOf(source, members);
    var expected := Some(Hex(sha256));
    var at := ImagePath(f, source, sha256, target, suffix);
    var image := Install(env, f, source, target, expected, suffix);
    var again := Install(env, g, source, target, expected, suffix);
    InstallsAtGoal(env, f, source, target, expected, suffix);
    assert ClearOf(sources, WrittenBeside(at), source, target, at, members);
    ApartIsDisjoint(sources, WrittenBeside(at), source, target);
    Settled(env, f, source, target, expected, suffix, sources, WrittenBeside(at));
    Settled(env, g, source, target, expected, suffix, sources, WrittenBeside(at));
    InstalledExisted(env, f, source, target, expected, suffix);
    InstalledExisted(env, g, source, target, expected, suffix);
    FinishResumes(env, e, h, source, image.result.value, again.result.value, members, quarantine, suffix, records, sources);
    EndOfBoth(f, image.steps, Finish(env, e, source, image.result.value, members, quarantine, suffix, records).steps);
    EndOfBoth(g, again.steps, Finish(env, h, source, again.result.value, members, quarantine, suffix, records).steps);
  }

  /** Wherever a bundle move stops, running it again ends with the same verdict and the same files at
      the same paths; under `suffix` the manifest alone may differ. */
  lemma BundleResumes(env: Env, f: Files, g: Files, source: Path, sha256: string, target: Path, members: seq<Path>,
                      quarantine: bool, suffix: bool, records: Records)
    requires IsHex(Hex(sha256))
    requires Exact(env) && Clear(source, target, members) && Recorded(f, source, Some(Hex(sha256)))
    requires g in MoveBundle(env, f, source, sha256, Some(target), members, quarantine, suffix, records).steps
    ensures var first := MoveBundle(env, f, source, sha256, Some(target), members, quarantine, suffix, records);
            var again := MoveBundle(env, g, source, sha256, Some(target), members, quarantine, suffix, records);
            var at := ImagePath(f, source, sha256, target, suffix);
            && first.result == again.result && ImagePath(g, source, sha256, target, suffix) == at
            && SameButManifest(End(f, first.steps), End(g, again.steps), at, !suffix)
  {
    hide Install, Finish, WrittenBeside, SourcesOf, Apart, MembersApart, SameButManifest, Exact, Goal;
    var sources := SourcesOf(source, members);
    var expected := Some(Hex(sha256));
    var at := ImagePath(f, source, sha256, target, suffix);
    InstallsAtGoal(env, f, source, target, expected, suffix);
    assert ClearOf(sources, WrittenBeside(at), source, target, at, members);
    var image := Install(env, f, source, target, expected, suffix);
    var e := End(f, image.steps);
    if g in image.steps {
      InstallResumes(env, f, g, source, target, expected, suffix, sources, WrittenBeside(at));
      SameEnding(env, f, g, source, sha256, target, members, quarantine, suffix, records, e, e);
    } else {
      Settled(env, f, source, target, expected, suffix, sources, WrittenBeside(at));
      ApartIsDisjoint(sources, WrittenBeside(at), source, target);
      FinishIsLater(env, e, source, image.result.value, members, quarantine, suffix, records, sources);
      InstallsOnce(env, f, g, source, target, expected, suffix, sources, WrittenBeside(at));
      SameEnding(env, f, g, source, sha256, target, members, quarantine, suffix, records, e, g);
    }
  }

  // -- no evidence is lost -----------------------------------------------------------------------

  /** An installation removes nothing but its source and overwrites nothing at all. */
  lemma InstallSpares(env: Env, f: Files, src: Path, dst: Path, expected: Option<string>, suffix: bool)
    requires Expects(expected)
    ensures forall g, p :: g in Install(env, f, src, dst, expected, suffix).steps && p in f && p != src ==> p in g && g[p] == f[p]
  {
    hide Suffixed, Goal, Lands;
    InstallsAtGoal(env, f, src, dst, expected, suffix);
  }

  lemma ShelterLasts(e: Files, g: Files, content: Sha, src: Path, dst: Path, sources: set<Path>, written: set<Path>)
    requires Sheltered(e, content, src, dst) && src !in e && Apart(sources, written, src, dst) && Later(sources, written, e, g)
    ensures Sheltered(g, content, src, dst)
  {
    hide Suffixed, Lands;
  }

  /** Once a file with something at its source is installed, that content rests at its target. */
  lemma RestsAtTarget(env: Env, f: Files, g: Files, src: Path, dst: Path, expected: Option<string>, suffix: bool,
                      sources: set<Path>, written: set<Path>)
    requires Expects(expected)
    requires Apart(sources, written, src, dst) && src in f && Install(env, f, src, dst, expected, suffix).result.Ok?
    requires Later(sources, written, End(f, Install(env, f, src, dst, expected, suffix).steps), g)
    ensures Sheltered(g, f[src], src, dst)
  {
    hide Suffixed, SuffixKey, Goal, Lands, Sheltered, Apart;
    Settled(env, f, src, dst, expected, suffix, sources, written);
    InstallShelters(env, f, src, dst, expected, suffix, sources, written);
    ShelterLasts(End(f, Install(env, f, src, dst, expected, suffix).steps), g, f[src], src, dst, sources, written);
  }

  /** What one state owes the members of a bundle. */
  ghost predicate AllSheltered(f: Files, g: Files, source: Path, image: Path, members: seq<Path>) {
    forall m :: m in members && m in f ==> Sheltered(g, f[m], m, MemberTarget(source, image, m))
  }

  lemma {:induction false} MembersShelter(env: Env, f: Files, g: Files, source: Path, image: Path, members: seq<Path>, suffix: bool,
                                          sources: set<Path>, written: set<Path>)
    requires MembersApart(sources, written, source, image, members)
    requires g in MoveMembers(env, f, source, image, members, suffix).steps
          || (MoveMembers(env, f, source, image, members, suffix).result.Ok?
              && Later(sources, written, End(f, MoveMembers(env, f, source, image, members, suffix).steps), g))
    ensures AllSheltered(f, g, source, image, members)
    decreases |members|
  {
    hide Install, MemberTarget, Apart, Sheltered, Later;
    if members != [] {
      var src, dst := members[0], MemberTarget(source, image, members[0]);
      var first := Install(env, f, src, dst, None, suffix);
      InstallSpares(env, f, src, dst, None, suffix);
      if src in f { InstallShelters(env, f, src, dst, None, suffix, sources, written); }
      if g in first.steps {
        forall m | m in members && m in f ensures Sheltered(g, f[m], m, MemberTarget(source, image, m)) {
          if m != src { StillThere(g, m, MemberTarget(source, image, m)); }
        }
      } else {
        MembersShelterRest(env, f, g, source, image, members, suffix, sources, written);
      }
    }
  }

  lemma StillThere(g: Files, src: Path, dst: Path)
    requires src in g
    ensures Sheltered(g, g[src], src, dst)
  {
  }

  lemma {:induction false} MembersShelterRest(env: Env, f: Files, g: Files, source: Path, image: Path, members: seq<Path>, suffix: bool,
                                              sources: set<Path>, written: set<Path>)
    requires MembersApart(sources, written, source, image, members) && members != []
    requires var first := Install(env, f, members[0], MemberTarget(source, image, members[0]), None, suffix);
             var rest := MoveMembers(env, End(f, first.steps), source, image, members[1..], suffix);
             first.result.Ok? && (g in rest.steps || (rest.result.Ok? && Later(sources, written, End(End(f, first.steps), rest.steps), g)))
    ensures AllSheltered(f, g, source, image, members)
    decreases |members|, 0
  {
    hide Install, MemberTarget, Apart, Sheltered, Later;
    var src, dst := members[0], MemberTarget(source, image, members[0]);
    var e := End(f, Install(env, f, src, dst, None, suffix).steps);
    MembersAreLater(env, e, source, image, members[1..], suffix, sources, written);
    if g !in MoveMembers(env, e, source, image, members[1..], suffix).steps {
      LaterComposes(sources, written, e, End(e, MoveMembers(env, e, source, image, members[1..], suffix).steps), g);
    }
    MembersShelter(env, e, g, source, image, members[1..], suffix, sources, written);
    InstallSpares(env, f, src, dst, None, suffix);
    if src in f { RestsAtTarget(env, f, g, src, dst, None, suffix, sources, written); }
    forall m | m in members && m in f ensures Sheltered(g, f[m], m, MemberTarget(source, image, m)) {
      if m != src { assert m in members[1..] && m in e && e[m] == f[m]; }
    }
  }

  lemma FinishShelters(env: Env, f: Files, g: Files, source: Path, image: Installed, members: seq<Path>,
                       quarantine: bool, suffix: bool, records: Records, sources: set<Path>)
    requires MembersApart(sources, WrittenBeside(image.path), source, image.path, members) && sources !! WrittenBeside(image.path)
    requires g in Finish(env, f, source, image, members, quarantine, suffix, records).steps
    ensures AllSheltered(f, g, source, image.path, members)
  {
    hide MoveMembers, Seal, WrittenBeside, MembersApart, AllSheltered;
    var moved := MoveMembers(env, f, source, image.path, members, suffix);
    if g !in moved.steps {
      SealIsLater(End(f, moved.steps), image.path, [image] + moved.result.value, quarantine, records, sources);
    }
    MembersShelter(env, f, g, source, image.path, members, suffix, sources, WrittenBeside(image.path));
  }

  /** Through every step of an archive or a quarantine, and whatever torn or corrupt copies do, what was
      at the image's source is whole at the source, at the target or at a suffixed target; so is what was
      at each companion; and what was at the target is still there. */
  lemma NoEvidenceLoss(env: Env, f: Files, g: Files, source: Path, sha256: string, target: Path, members: seq<Path>,
                       quarantine: bool, suffix: bool, records: Records)
    requires IsHex(Hex(sha256))
    requires Clear(source, target, members) && source !in members
    requires g in MoveBundle(env, f, source, sha256, Some(target), members, quarantine, suffix, records).steps
    ensures source in f ==> Sheltered(g, f[source], source, target)
    ensures target in f ==> target in g && g[target] == f[target]
    ensures AllSheltered(f, g, source, ImagePath(f, source, sha256, target, suffix), members)
  {
    hide Install, Finish, WrittenBeside, SourcesOf, Apart, MembersApart, Goal, Sheltered, MemberTarget;
    var sources := SourcesOf(source, members);
    var expected := Some(Hex(sha256));
    var at := ImagePath(f, source, sha256, target, suffix);
    InstallsAtGoal(env, f, source, target, expected, suffix);
    assert ClearOf(sources, WrittenBeside(at), source, target, at, members);
    ApartIsDisjoint(sources, WrittenBeside(at), source, target);
    BundleIsLater(env, f, source, sha256, target, members, quarantine, suffix, records);
    InstallSpares(env, f, source, target, expected, suffix);
    if source in f { InstallShelters(env, f, source, target, expected, suffix, sources, WrittenBeside(at)); }
    var image := Install(env, f, source, target, expected, suffix);
    if g in image.steps {
      forall m | m in members && m in f ensures Sheltered(g, f[m], m, MemberTarget(source, at, m)) {
        StillThere(g, m, MemberTarget(source, at, m));
      }
    } else {
      var e := End(f, image.steps);
      Settled(env, f, source, target, expected, suffix, sources, WrittenBeside(at));
      FinishIsLater(env, e, source, image.result.value, members, quarantine, suffix, records, sources);
      FinishShelters(env, e, g, source, image.result.value, members, quarantine, suffix, records, sources);
      if source in f { RestsAtTarget(env, f, g, source, target, expected, suffix, sources, WrittenBeside(at)); }
    }
  }

  /** Where a companion goes does not depend on whether a collision moved the image aside. */
  lemma SameMemberTarget(source: Path, image: Path, target: Path, member: Path)
    requires Lands(image, target)
    ensures MemberTarget(source, image, member) == MemberTarget(source, target, member)
  {
    assert Parent(image) == Parent(target);
  }

  lemma ShelterSurvives(f: Files, g: Files, content: Sha, src: Path, dst: Path, sources: set<Path>, written: set<Path>)
    requires Sheltered(f, content, src, dst) && Apart(sources, written, src, dst) && Later(sources, written, f, g)
    requires src in f ==> Sheltered(g, f[src], src, dst)
    ensures Sheltered(g, content, src, dst)
  {
    hide Suffixed, Lands;
  }

  /** What one interrupted run owes the content that was sheltered before it. */
  lemma StillSheltered(env: Env, f: Files, g: Files, source: Path, sha256: string, target: Path, members: seq<Path>,
                       quarantine: bool, suffix: bool, records: Records, content: Sha, src: Path)
    requires IsHex(Hex(sha256)) && Clear(source, target, members) && source !in members
    requires g in MoveBundle(env, f, source, sha256, Some(target), members, quarantine, suffix, records).steps
    requires src == source || src in members
    requires Sheltered(f, content, src, Resting(source, target, src))
    ensures Sheltered(g, content, src, Resting(source, target, src))
  {
    hide MoveBundle, Apart, Sheltered, Later, Goal, WrittenBeside, SourcesOf, MemberTarget;
    var at := ImagePath(f, source, sha256, target, suffix);
    NoEvidenceLoss(env, f, g, source, sha256, target, members, quarantine, suffix, records);
    BundleIsLater(env, f, source, sha256, target, members, quarantine, suffix, records);
    InstallsAtGoal(env, f, source, target, Some(Hex(sha256)), suffix);
    assert ClearOf(SourcesOf(source, members), WrittenBeside(at), source, target, at, members);
    if src != source { SameMemberTarget(source, at, target, src); }
    ShelterSurvives(f, g, content, src, Resting(source, target, src), SourcesOf(source, members), WrittenBeside(at));
  }

  /** Where a file of the bundle is bound for, collisions aside. */
  function Resting(source: Path, target: Path, src: Path): Path {
    if src == source then target else MemberTarget(source, target, src)
  }

  /** A chain of bundle moves cut short, on machines that may differ from one to the next. */
  ghost predicate MovesCutShort(envs: seq<Env>, source: Path, sha256: string, target: Path, members: seq<Path>,
                                quarantine: bool, suffix: bool, records: Records, states: seq<Files>) {
    |states| == |envs| + 1 && forall k :: 0 <= k < |envs| ==>
      states[k + 1] == states[k]
      || states[k + 1] in MoveBundle(envs[k], states[k], source, sha256, Some(target), members, quarantine, suffix, records).steps
  }

  /** From the moment the intent is stored, over any number of interrupted runs, torn and corrupt copies
      included, what was at the image's source and at each companion is whole at its source, at its target
      or at a suffixed target; and what was at the target is still there. */
  lemma {:induction false} EvidenceSurvives(envs: seq<Env>, source: Path, sha256: string, target: Path, members: seq<Path>,
                                            quarantine: bool, suffix: bool, records: Records, states: seq<Files>, n: nat)
    requires IsHex(Hex(sha256)) && Clear(source, target, members) && source !in members
    requires MovesCutShort(envs, source, sha256, target, members, quarantine, suffix, records, states) && n < |states|
    ensures forall src :: (src == source || src in members) && src in states[0] ==>
              Sheltered(states[n], states[0][src], src, Resting(source, target, src))
    ensures target in states[0] ==> target in states[n] && states[n][target] == states[0][target]
    decreases n
  {
    hide MoveBundle, Apart, Sheltered, Clear, Resting;
    if n == 0 {
      forall src | src in states[0] ensures Sheltered(states[0], states[0][src], src, Resting(source, target, src)) {
        StillThere(states[0], src, Resting(source, target, src));
      }
    } else {
      EvidenceSurvives(envs, source, sha256, target, members, quarantine, suffix, records, states, n - 1);
      var f, g := states[n - 1], states[n];
      if g != f {
        assert states[n - 1 + 1] == g;
        NoEvidenceLoss(envs[n - 1], f, g, source, sha256, target, members, quarantine, suffix, records);
        forall src | (src == source || src in members) && src in states[0]
          ensures Sheltered(g, states[0][src], src, Resting(source, target, src))
        {
          StillSheltered(envs[n - 1], f, g, source, sha256, target, members, quarantine, suffix, records, states[0][src], src);
        }
      }
    }
  }

  /** Evidence survives an installation exactly when the file is not already where it would settle: a
      source that is its own target, or the suffixed target of a collision, is taken for a resumed copy
      of itself and removed. The code does not check for it. */
  lemma SelfTargetDestroys(env: Env, f: Files, src: Path, dst: Path, expected: Option<string>, suffix: bool)
    requires Expects(expected) && src in f
    ensures var goal := Goal(f, src, dst, expected, suffix);
            var steps := Install(env, f, src, dst, expected, suffix).steps;
            && (goal != src <==> forall g :: g in steps ==> (src in g && g[src] == f[src]) || (goal in g && g[goal] == f[src]))
            && (goal == src ==> End(f, steps) == f - {src})
  {
    hide Suffixed, SuffixKey, Goal, Lands;
    InstallsAtGoal(env, f, src, dst, expected, suffix);
    if Goal(f, src, dst, expected, suffix) == src {
      assert f - {src} in Install(env, f, src, dst, expected, suffix).steps;
    }
  }

  /** A crash inside a copy is repaired by running again under `fail` exactly when the copy was whole: a
      torn target reads as a collision, and nothing moves until somebody removes it. */
  lemma TornCopyCollides(env: Env, f: Files, src: Path, dst: Path, expected: Option<string>, junk: Sha)
    requires src in f && dst !in f && src != dst && Recorded(f, src, expected)
    ensures var again := Install(env, f[dst := junk], src, dst, expected, false);
            && (again.result.Ok? <==> junk == f[src])
            && (again.result.Ok? ==> End(f[dst := junk], again.steps) == (f - {src})[dst := f[src]])
            && (again.result.Err? ==> again == Failed(Collision))
  {
  }

  /** Under `suffix` the run after the crash succeeds, but only a whole copy is taken for the file: a torn one
      stays at the target for good, and the file goes to the suffixed one. */
  lemma TornCopyIsLeft(env: Env, f: Files, src: Path, dst: Path, expected: Option<string>, junk: Sha)
    requires src in f && dst !in f && src != dst && Recorded(f, src, expected) && env.copied(f[src]) == f[src]
    requires var alternate := Suffixed(dst, SuffixKey(f[dst := junk], src, dst, expected)); alternate !in f && alternate != src
    ensures var again := Install(env, f[dst := junk], src, dst, expected, true);
            var e := End(f[dst := junk], again.steps);
            var at := if junk == f[src] then dst else Suffixed(dst, SuffixKey(f[dst := junk], src, dst, expected));
            && again.result.Ok? && again.result.value.path == at && (at == dst <==> junk == f[src])
            && src !in e && at in e && e[at] == f[src] && dst in e && e[dst] == junk
  {
    var torn := f[dst := junk];
    var alternate := Suffixed(dst, SuffixKey(torn, src, dst, expected));
    AlwaysAside(dst, SuffixKey(torn, src, dst, expected));
    hide Suffixed, SuffixKey, CopyOver, Recorded;
    if junk != f[src] {
      assert Install(env, torn, src, dst, expected, true) == Install(env, torn, src, alternate, expected, false);
      InstallsAfresh(env, torn, src, alternate, expected);
    }
  }

  lemma InstallsAfresh(env: Env, f: Files, src: Path, dst: Path, expected: Option<string>)
    requires src in f && dst !in f && src != dst && Recorded(f, src, expected) && env.copied(f[src]) == f[src]
    ensures var run := Install(env, f, src, dst, expected, false);
            run.result.Ok? && run.result.value.path == dst && End(f, run.steps) == (f - {src})[dst := f[src]]
  {
    assert f[dst := f[src]] - {src} == (f - {src})[dst := f[src]];
  }

  lemma AlwaysAside(target: Path, sha256: string)
    ensures Suffixed(target, sha256) != target
  {
    if target != [] { SuffixedDiffers(target, sha256); }
  }

  /** A member under `suffix` moves aside exactly when its target holds other content. */
  predicate MovesAside(f: Files, src: Path, dst: Path, suffix: bool) {
    suffix && src in f && dst in f && f[dst] != f[src]
  }

  lemma MovesAsideExactly(f: Files, src: Path, dst: Path, suffix: bool)
    ensures Goal(f, src, dst, None, suffix) != dst <==> MovesAside(f, src, dst, suffix)
  {
    if MovesAside(f, src, dst, suffix) && dst != [] { SuffixedDiffers(dst, SuffixKey(f, src, dst, None)); }
  }

  /** A member installed again, at any later moment, is reported in the same place exactly when it did not
      move aside; one that did is reported at the colliding file's path. That is the one way a manifest
      can differ. */
  lemma MovedAsideIsMisreported(env: Env, f: Files, g: Files, src: Path, dst: Path, suffix: bool, sources: set<Path>, written: set<Path>)
    requires Apart(sources, written, src, dst) && Install(env, f, src, dst, None, suffix).result.Ok?
    requires Later(sources, written, End(f, Install(env, f, src, dst, None, suffix).steps), g)
    ensures var first := Install(env, f, src, dst, None, suffix);
            var again := Install(env, g, src, dst, None, suffix);
            && again.result.Ok? && again.result.value.path == dst
            && (SameFile(first.result.value, again.result.value) <==> !MovesAside(f, src, dst, suffix))
  {
    hide Suffixed, Lands;
    Settled(env, f, src, dst, None, suffix, sources, written);
    InstallsAtGoal(env, f, src, dst, None, suffix);
    LandsOnTarget(dst);
    MovesAsideExactly(f, src, dst, suffix);
  }

  // -- deletion ----------------------------------------------------------------------------------

  function Without(f: Files, members: seq<Path>): Files {
    map p | p in f && p !in members :: f[p]
  }

  /** Some of the members are gone, and nothing else. */
  ghost predicate Partway(f: Files, g: Files, members: seq<Path>) {
    && (forall p :: p in g ==> p in f && g[p] == f[p])
    && (forall p :: p in f && p !in members ==> p in g)
  }

  lemma {:induction false} RemovesMembers(f: Files, members: seq<Path>)
    ensures End(f, RemoveMembers(f, members)) == Without(f, members)
    ensures forall g :: g in RemoveMembers(f, members) ==> Partway(f, g, members)
    decreases |members|
  {
    hide Partway;
    if members == [] {
      assert Without(f, members) == f;
    } else {
      var left := if members[0] in f then f - {members[0]} else f;
      RemovesMembers(left, members[1..]);
      OneMemberGone(f, left, members);
      forall g | g in RemoveMembers(left, members[1..]) ensures Partway(f, g, members) {
        LaterPartway(f, left, g, members);
      }
      RemoveSteps(f, left, members);
    }
  }

  lemma RemoveSteps(f: Files, left: Files, members: seq<Path>)
    requires members != [] && left == if members[0] in f then f - {members[0]} else f
    ensures RemoveMembers(f, members) == (if members[0] in f then [left] else []) + RemoveMembers(left, members[1..])
    ensures End(f, RemoveMembers(f, members)) == End(left, RemoveMembers(left, members[1..]))
  {
  }

  lemma OneMemberGone(f: Files, left: Files, members: seq<Path>)
    requires members != [] && left == if members[0] in f then f - {members[0]} else f
    ensures Partway(f, left, members) && Without(left, members[1..]) == Without(f, members)
  {
    assert forall p :: p in members <==> p == members[0] || p in members[1..];
  }

  lemma LaterPartway(f: Files, left: Files, g: Files, members: seq<Path>)
    requires members != [] && Partway(f, left, members) && Partway(left, g, members[1..])
    ensures Partway(f, g, members)
  {
  }

  /** A deletion of the recorded object takes its members first and itself last. */
  lemma DeleteShape(f: Files, source: Path, sha256: string, members: seq<Path>)
    requires source in f && f[source] == Hex(sha256) && source !in members
    ensures DeleteBundle(f, source, sha256, members) == Run(RemoveMembers(f, members) + [Without(f, members) - {source}], Ok(()))
  {
    hide RemoveMembers, Hex, Partway;
    RemovesMembers(f, members);
  }

  /** At every step of a deletion the source still holds the recorded object, or it is gone and so are
      all its members; nothing else is touched. */
  lemma DeletesSourceLast(f: Files, g: Files, source: Path, sha256: string, members: seq<Path>)
    requires g in DeleteBundle(f, source, sha256, members).steps
    ensures source in f && f[source] == Hex(sha256)
    ensures forall p :: p in f && p != source && p !in members ==> p in g && g[p] == f[p]
    ensures source !in members && source !in g ==> forall m :: m in members ==> m !in g
    ensures source in g ==> g[source] == f[source]
  {
    hide RemoveMembers, Hex;
    RemovesMembers(f, members);
  }

  lemma PartwayEndsTheSame(f: Files, g: Files, members: seq<Path>)
    requires Partway(f, g, members)
    ensures Without(g, members) == Without(f, members)
  {
  }

  /** Wherever a deletion stops, running it again ends with the same files and the same verdict. */
  lemma DeleteResumes(f: Files, g: Files, source: Path, sha256: string, members: seq<Path>)
    requires source !in members && g in DeleteBundle(f, source, sha256, members).steps
    ensures var first := DeleteBundle(f, source, sha256, members);
            var again := DeleteBundle(g, source, sha256, members);
            first.result == again.result && End(f, first.steps) == End(g, again.steps)
  {
    hide DeleteBundle, RemoveMembers, Hex, Without;
    DeletesSourceLast(f, g, source, sha256, members);
    DeleteShape(f, source, sha256, members);
    RemovesMembers(f, members);
    if g in RemoveMembers(f, members) {
      PartwayEndsTheSame(f, g, members);
      DeleteShape(g, source, sha256, members);
    } else {
      DeletedAlready(g, source, sha256, members);
    }
  }

  lemma DeletedAlready(g: Files, source: Path, sha256: string, members: seq<Path>)
    requires source !in g
    ensures DeleteBundle(g, source, sha256, members) == Run([], Ok(()))
  {
  }

  /** A deletion can be resumed wherever it stops exactly when the source is not listed among its own
      members: then the first run fails once the source is gone, and the next calls that success. */
  lemma SelfMemberDiverges(f: Files, source: Path, sha256: string, members: seq<Path>)
    requires source in f && f[source] == Hex(sha256)
    ensures var first := DeleteBundle(f, source, sha256, members);
            source !in members <==> forall g :: g in first.steps ==> DeleteBundle(g, source, sha256, members).result == first.result
  {
    RemovesMembers(f, members);
    var first := DeleteBundle(f, source, sha256, members);
    if source in members {
      assert End(f, first.steps) in first.steps;
    } else {
      forall g | g in first.steps ensures DeleteBundle(g, source, sha256, members).result == first.result {
        DeleteResumes(f, g, source, sha256, members);
      }
    }
  }
}
