// Moving an image and its companions: the image first, then each member, then the records written
// beside the image, the bundle manifest last. And the two actions that move nothing.

module Bundles {
  import opened Wrappers
  import opened Installing

  /** What is written beside an image: the quarantine error record and the bundle manifest. Their
      bytes are the digests given here; neither depends on anything but its arguments. */
  datatype Records = Records(error: Sha, manifest: (Path, seq<(Path, Sha)>) -> Sha)

  function ErrorPath(image: Path): Path {
    WithName(image, Name(image) + ".error.json")
  }

  function ManifestPath(image: Path): Path {
    WithName(image, Name(image) + ".bundle.json")
  }

  /** Where a companion goes: beside the image, keeping its place under the image's own directory. */
  function MemberTarget(source: Path, image: Path, member: Path): Path {
    if Parent(source) <= member then Parent(image) + member[|Parent(source)|..]
    else Parent(image) + [Name(member)]
  }

  // -- the members -------------------------------------------------------------------------------

  /** Install the members in order, stopping at the first that cannot be. */
  function MoveMembers(env: Env, f: Files, source: Path, image: Path, members: seq<Path>, suffix: bool): Run<seq<Installed>>
    decreases |members|
  {
    if members == [] then Run([], Ok([]))
    else
      var first := Install(env, f, members[0], MemberTarget(source, image, members[0]), None, suffix);
      if first.result.Err? then Run(first.steps, Err(first.result.error))
      else
        var rest := MoveMembers(env, End(f, first.steps), source, image, members[1..], suffix);
        Run(first.steps + rest.steps,
            if rest.result.Err? then rest.result else Ok([first.result.value] + rest.result.value))
  }

  function Listing(image: Path, installed: seq<Installed>): seq<(Path, Sha)> {
    seq(|installed|, k requires 0 <= k < |installed| => (installed[k].path, installed[k].sha256))
  }

  /** The error record of a quarantine, then the manifest of a bundle of more than one file. */
  function Seal(f: Files, image: Path, installed: seq<Installed>, quarantine: bool, records: Records): seq<Files> {
    var noted := f[ErrorPath(image) := records.error];
    var all := if quarantine then installed + [Installed(ErrorPath(image), records.error, Written)] else installed;
    var before := if quarantine then noted else f;
    (if quarantine then [noted] else []) +
    (if |all| > 1 then [before[ManifestPath(image) := records.manifest(image, Listing(image, all))]] else [])
  }

  /** Everything after the image itself is installed. */
  function Finish(env: Env, f: Files, source: Path, image: Installed, members: seq<Path>,
                  quarantine: bool, suffix: bool, records: Records): Run<()> {
    var moved := MoveMembers(env, f, source, image.path, members, suffix);
    if moved.result.Err? then Run(moved.steps, Err(moved.result.error))
    else Run(moved.steps + Seal(End(f, moved.steps), image.path, [image] + moved.result.value, quarantine, records), Ok(()))
  }

  /** A whole bundle: the image goes first, and nothing else is touched unless it arrives. */
  function MoveBundle(env: Env, f: Files, source: Path, sha256: string, target: Option<Path>, members: seq<Path>,
                      quarantine: bool, suffix: bool, records: Records): Run<()> {
    if target.None? then Failed(NoTarget)
    else if source !in f && target.value !in f then Failed(EvidenceLost)
    else
      var image := Install(env, f, source, target.value, Some(Hex(sha256)), suffix);
      if image.result.Err? then Run(image.steps, Err(image.result.error))
      else
        var rest := Finish(env, End(f, image.steps), source, image.result.value, members, quarantine, suffix, records);
        Run(image.steps + rest.steps, rest.result)
  }

  // -- deleting and retaining --------------------------------------------------------------------

  /** Remove those of the members that exist, in order. */
  function RemoveMembers(f: Files, members: seq<Path>): seq<Files>
    decreases |members|
  {
    if members == [] then []
    else if members[0] in f then [f - {members[0]}] + RemoveMembers(f - {members[0]}, members[1..])
    else RemoveMembers(f, members[1..])
  }

  /** Delete the source, last, if it is still the recorded object. A source listed among its own
      members is gone before its turn, which is a filesystem error. */
  function DeleteBundle(f: Files, source: Path, sha256: string, members: seq<Path>): Run<()> {
    if source !in f then Run([], Ok(()))
    else if f[source] != Hex(sha256) then Failed(SourceReplaced)
    else
      var steps := RemoveMembers(f, members);
      var left := End(f, steps);
      if source in left then Run(steps + [left - {source}], Ok(())) else Run(steps, Err(FsError))
  }

  function RetainInPlace(f: Files, source: Path, sha256: string): Run<()> {
    if source !in f then Failed(SourceMissing)
    else if f[source] != Hex(sha256) then Failed(SourceReplaced)
    else Run([], Ok(()))
  }
}
