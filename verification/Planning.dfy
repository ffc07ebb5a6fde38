// Turning a job's route-relative path into an intent: which action its state calls for, where its file
// goes, and why the paths of one bundle keep out of each other's way.

module Planning {
  import opened Wrappers
  import opened Lifecycle
  import opened LedgerSpec
  import opened Installing
  import opened Bundles
  import opened Crashes

  datatype PlanError = UnsafeRelativePath | EmptyParts | NoCompletionForState | CompletionDirMissing

  /** What a route does with each outcome, and where the files go. */
  datatype Policy = Policy(
    sourceRoot: Path, archiveDir: Option<Path>, failedDir: Option<Path>,
    onSuccess: Action, onInvalidInput: Action, onOperationalFailure: Action, onPublishFailure: Action)

  // -- relative paths ----------------------------------------------------------------------------

  function Slashed(text: string): (s: string)
    ensures |s| == |text| && forall i :: 0 <= i < |s| ==> s[i] == if text[i] == '\\' then '/' else text[i]
  {
    seq(|text|, i requires 0 <= i < |text| => if text[i] == '\\' then '/' else text[i])
  }

  /** What `strip` takes for white space. */
  predicate Blank(c: char) {
    || '\U{9}' <= c <= '\U{D}' || '\U{1C}' <= c <= ' ' || c == '\U{85}' || c == '\U{A0}' || c == '\U{1680}'
    || '\U{2000}' <= c <= '\U{200A}' || c == '\U{2028}' || c == '\U{2029}' || c == '\U{202F}' || c == '\U{205F}' || c == '\U{3000}'
  }

  function Stripped(text: string): string {
    if text != [] && Blank(text[0]) then Stripped(text[1..])
    else if text != [] && Blank(text[|text| - 1]) then Stripped(text[..|text| - 1])
    else text
  }

  /** The text up to each slash, and after the last. */
  function Split(text: string): (pieces: seq<string>)
    ensures forall k :: 0 <= k < |pieces| ==> '/' !in pieces[k]
  {
    var at := LastIndex(text, '/');
    if at < 0 then [text] else Split(text[..at]) + [text[at + 1..]]
  }

  /** A pure path drops empty pieces and single dots. */
  function Kept(pieces: seq<string>): (parts: Path)
    ensures forall k :: 0 <= k < |parts| ==> parts[k] in pieces && parts[k] != "" && parts[k] != "."
  {
    if pieces == [] then []
    else
      var front := Kept(pieces[..|pieces| - 1]);
      var last := pieces[|pieces| - 1];
      if last == "" || last == "." then front else front + [last]
  }

  /** Validate a route-relative path. A path of nothing but dots and separators has no first part to
      look at, which the code does not expect. */
  function SafeRelative(relative: string): (r: Result<Path, PlanError>)
    ensures r.Ok? ==> r.value != [] && forall k :: 0 <= k < |r.value| ==>
      r.value[k] != "" && r.value[k] != "." && r.value[k] != ".." && '/' !in r.value[k]
  {
    var text := Stripped(Slashed(relative));
    if text == "" || text[0] == '/' then Err(UnsafeRelativePath)
    else
      var parts := Kept(Split(text));
      if parts == [] then Err(EmptyParts)
      else if ':' in parts[0] || ".." in parts then Err(UnsafeRelativePath)
      else Ok(parts)
  }

  // -- the plan ----------------------------------------------------------------------------------

  function PolicyAction(state: JobState, policy: Policy): Result<Action, PlanError> {
    match state
    case Published => Ok(policy.onSuccess)
    case CleanupPending => Ok(policy.onSuccess)
    case CleanupFailed => Ok(policy.onSuccess)
    case InputInvalid => Ok(policy.onInvalidInput)
    case ProcessingExhausted => Ok(policy.onOperationalFailure)
    case PublishExhausted => Ok(policy.onPublishFailure)
    case _ => Err(NoCompletionForState)
  }

  function OutputDir(action: Action, policy: Policy): Option<Path> {
    if action == Archive then policy.archiveDir else if action == Quarantine then policy.failedDir else None
  }

  /** The intent a job in this state gets, or why it gets none. */
  function Plan(job: Job, relative: string, sha256: string, policy: Policy, members: seq<Path>): Result<Intent, PlanError> {
    var action := PolicyAction(job.state, policy);
    if action.Err? then Err(action.error)
    else
      var safe := SafeRelative(relative);
      if safe.Err? then Err(safe.error)
      else if action.value != Archive && action.value != Quarantine then
        Ok(Intent(job.id, action.value, policy.sourceRoot + safe.value, sha256, None, members))
      else
        var dir := OutputDir(action.value, policy);
        if dir.None? || dir.value == [] then Err(CompletionDirMissing)
        else Ok(Intent(job.id, action.value, policy.sourceRoot + safe.value, sha256, Some(dir.value + safe.value), members))
  }

  /** The planned source lies strictly inside the source root and the planned target strictly inside its
      output directory, under the same subtree; they are the same path exactly when the two directories are. */
  lemma PlanKeepsSubtree(job: Job, relative: string, sha256: string, policy: Policy, members: seq<Path>)
    requires Plan(job, relative, sha256, policy, members).Ok?
    ensures var intent := Plan(job, relative, sha256, policy, members).value;
            && policy.sourceRoot < intent.source
            && (intent.target.Some? ==>
                  OutputDir(intent.action, policy).Some?
                  && var dir := OutputDir(intent.action, policy).value;
                     && dir < intent.target.value
                     && intent.target.value[|dir|..] == intent.source[|policy.sourceRoot|..]
                     && (intent.target.value == intent.source <==> dir == policy.sourceRoot))
  {
    var intent := Plan(job, relative, sha256, policy, members).value;
    var rel := SafeRelative(relative).value;
    assert intent.source[|policy.sourceRoot|..] == rel;
    if intent.target.Some? {
      var dir := OutputDir(intent.action, policy).value;
      assert intent.target.value[|dir|..] == rel;
      if intent.target.value == intent.source {
        assert |dir| == |policy.sourceRoot|;
        assert dir == intent.target.value[..|dir|] == policy.sourceRoot;
      }
    }
  }

  /** The action is the one configured for how the job ended, and its files go where that action sends them. */
  lemma PlanFollowsPolicy(job: Job, relative: string, sha256: string, policy: Policy, members: seq<Path>)
    requires Plan(job, relative, sha256, policy, members).Ok?
    ensures var intent := Plan(job, relative, sha256, policy, members).value;
            && intent.id == job.id && intent.sha256 == sha256 && intent.members == members
            && (job.state in {Published, CleanupPending, CleanupFailed} ==> intent.action == policy.onSuccess)
            && (job.state == InputInvalid ==> intent.action == policy.onInvalidInput)
            && (job.state == ProcessingExhausted ==> intent.action == policy.onOperationalFailure)
            && (job.state == PublishExhausted ==> intent.action == policy.onPublishFailure)
            && (intent.action == Archive ==> intent.target.Some? && policy.archiveDir.Some? && policy.archiveDir.value < intent.target.value)
            && (intent.action == Quarantine ==> intent.target.Some? && policy.failedDir.Some? && policy.failedDir.value < intent.target.value)
            && (intent.action in {Delete, Retain} ==> intent.target.None?)
  {
  }

  /** Every state an intent can be stored in has an action. One more has: what is configured for a publication
      that was given up is planned, but no intent for it is ever stored. */
  lemma PlansWhatIsRecordable(db: Db, intent: Intent, now: int, policy: Policy)
    requires intent.id in db.jobs
    ensures PolicyAction(db.jobs[intent.id].state, policy).Ok?
      <==> RecordIntent(db, intent, now).Ok? || db.jobs[intent.id].state == PublishExhausted
    ensures db.jobs[intent.id].state == PublishExhausted ==> RecordIntent(db, intent, now) == Err(Illegal)
  {
  }

  // -- bundles that keep out of their own way ----------------------------------------------------

  /** The name ends in ".error.json" or ".bundle.json". */
  predicate NamesARecord(p: Path) {
    EndsWith(Name(p), ".error.json") || EndsWith(Name(p), ".bundle.json")
  }

  predicate EndsWith(s: string, tail: string) {
    |s| >= |tail| && s[|s| - |tail|..] == tail
  }

  lemma LastAt(s: string, n: nat)
    requires n < |s| && s[n] == '.' && forall j :: n < j < |s| ==> s[j] != '.'
    ensures LastIndex(s, '.') == n
  {
    hide LastIndex;
  }

  lemma AfterDot(u: string, v: string, j: nat)
    requires |u| < j < |u + "." + v|
    ensures (u + "." + v)[j] == v[j - |u| - 1]
  {
  }

  /** A name split at its last dot splits one way. */
  lemma LastDot(u: string, v: string)
    requires '.' !in v
    ensures LastIndex(u + "." + v, '.') == |u|
  {
    hide LastIndex;
    var s := u + "." + v;
    forall j | |u| < j < |s| ensures s[j] != '.' { AfterDot(u, v, j); }
    assert s[|u|] == '.';
    LastAt(s, |u|);
  }

  lemma SameSplit(u: string, v: string, w: string, x: string)
    requires '.' !in v && '.' !in x && u + "." + v == w + "." + x
    ensures u == w && v == x
  {
    hide LastIndex;
    LastDot(u, v);
    LastDot(w, x);
    var s := u + "." + v;
    assert s[..|u|] == u && s[|u| + 1..] == v;
    assert s == w + "." + x && (w + "." + x)[..|w|] == w && (w + "." + x)[|w| + 1..] == x;
  }

  /** A collision suffix is hexadecimal, so it never spells the name of a record. */
  lemma SuffixNeverNamesARecord(name: string, short: string, body: string, kind: string)
    requires IsHex(short) && kind in {"error", "bundle"}
    ensures name[..ExtensionAt(name)] + "." + short + name[ExtensionAt(name)..] != body + "." + kind + ".json"
  {
    hide LastIndex, IsHex;
    var at := ExtensionAt(name);
    var stem, extension := name[..at], name[at..];
    HexSpellsNothing(short);
    if stem + "." + short + extension == body + "." + kind + ".json" {
      assert body + "." + kind + ".json" == (body + "." + kind) + "." + "json";
      if at == |name| {
        assert stem + "." + short + extension == stem + "." + short;
        SameSplit(stem, short, body + "." + kind, "json");
      } else {
        var tail := extension[1..];
        assert extension == "." + tail && '.' !in tail;
        assert stem + "." + short + extension == (stem + "." + short) + "." + tail;
        SameSplit(stem + "." + short, tail, body + "." + kind, "json");
        SameSplit(stem, short, body, kind);
      }
    }
  }

  lemma HexSpellsNothing(s: string)
    requires IsHex(s)
    ensures '.' !in s && ':' !in s && s != "json" && s != "error" && s != "bundle"
  {
    if |s| > 1 { assert s[0] in "0123456789abcdef" && s[1] in "0123456789abcdef"; }
  }

  lemma LandsInside(p: Path, dst: Path, dir: Path)
    requires dir < dst && Lands(p, dst)
    ensures dir < p
  {
    hide ExtensionAt, Hex, IsHex;
    if p != dst {
      var key :| IsHex(key) && p == Suffixed(dst, key);
      assert p[..|p| - 1] == dst[..|dst| - 1];
    }
  }

  lemma MemberLandsInside(source: Path, image: Path, member: Path, dir: Path)
    requires dir < image && member != [] && member != Parent(source)
    ensures dir < MemberTarget(source, image, member) && Name(MemberTarget(source, image, member)) == Name(member)
  {
    assert dir <= Parent(image);
  }

  /** No file lands where a record is written, unless its own name is a record's. */
  lemma RecordStaysApart(image: Path, dst: Path)
    requires !NamesARecord(dst)
    ensures !Lands(ErrorPath(image), dst) && !Lands(ManifestPath(image), dst)
  {
    RecordNamed(ErrorPath(image), dst, Name(image), "error");
    RecordNamed(ManifestPath(image), dst, Name(image), "bundle");
  }

  lemma RecordNamed(w: Path, dst: Path, body: string, kind: string)
    requires !NamesARecord(dst) && kind in {"error", "bundle"} && Name(w) == body + "." + kind + ".json"
    ensures !Lands(w, dst)
  {
    hide ExtensionAt, LastIndex, IsHex, Suffixed, NamesARecord;
    RecordNameEnds(w, body, kind);
    forall key | IsHex(key) ensures w != Suffixed(dst, key) {
      SuffixedName(dst, key);
      SuffixNeverNamesARecord(Name(dst), if |key| > 8 then key[..8] else key, body, kind);
    }
  }

  lemma RecordNameEnds(w: Path, body: string, kind: string)
    requires kind in {"error", "bundle"} && Name(w) == body + "." + kind + ".json"
    ensures NamesARecord(w)
  {
    assert Name(w) == body + ("." + kind + ".json");
    assert Name(w)[|body|..] == "." + kind + ".json";
    assert kind == "error" ==> "." + kind + ".json" == ".error.json";
    assert kind == "bundle" ==> "." + kind + ".json" == ".bundle.json";
  }

  lemma SuffixedName(dst: Path, key: string)
    requires IsHex(key)
    ensures var short := if |key| > 8 then key[..8] else key;
            IsHex(short) && Name(Suffixed(dst, key)) == Name(dst)[..ExtensionAt(Name(dst))] + "." + short + Name(dst)[ExtensionAt(Name(dst))..]
  {
    hide ExtensionAt, LastIndex;
    HexHasNoPrefix(key);
  }

  lemma HexHasNoPrefix(key: string)
    requires IsHex(key)
    ensures Hex(key) == key && IsHex(if |key| > 8 then key[..8] else key)
  {
    HexSpellsNothing(key);
    assert key[0..] == key;
  }

  /** The hypothesis convergence and evidence rest on, from what a deployment can see: the files of the
      bundle lie outside the output directory, and none is named like a record. */
  lemma OutsideIsClear(source: Path, target: Path, members: seq<Path>, dir: Path)
    requires dir < target && !NamesARecord(target)
    requires forall p :: p in SourcesOf(source, members) ==> !(dir <= p)
    requires forall m :: m in members ==> m != [] && m != Parent(source) && !NamesARecord(m)
    ensures Clear(source, target, members)
  {
    hide Lands, ErrorPath, ManifestPath, MemberTarget, NamesARecord;
    forall image | Lands(image, target)
      ensures ClearOf(SourcesOf(source, members), WrittenBeside(image), source, target, image, members)
    {
      LandsInside(image, target, dir);
      RecordsInside(image, dir);
      KeepsApart(source, source, target, image, members, dir);
      forall m | m in members ensures Apart(SourcesOf(source, members), WrittenBeside(image), m, MemberTarget(source, image, m)) {
        MemberLandsInside(source, image, m, dir);
        SameNameSameRecord(m, MemberTarget(source, image, m));
        KeepsApart(m, source, MemberTarget(source, image, m), image, members, dir);
      }
    }
  }

  lemma SameNameSameRecord(a: Path, b: Path)
    requires Name(a) == Name(b)
    ensures NamesARecord(a) == NamesARecord(b)
  {
  }

  lemma RecordsInside(image: Path, dir: Path)
    requires dir < image
    ensures dir < ErrorPath(image) && dir < ManifestPath(image)
  {
    assert dir <= image[..|image| - 1];
  }

  lemma KeepsApart(src: Path, source: Path, dst: Path, image: Path, members: seq<Path>, dir: Path)
    requires dir < dst && !NamesARecord(dst) && src in SourcesOf(source, members)
    requires dir < ErrorPath(image) && dir < ManifestPath(image)
    requires forall p :: p in SourcesOf(source, members) ==> !(dir <= p)
    ensures Apart(SourcesOf(source, members), WrittenBeside(image), src, dst)
  {
    hide Lands, ErrorPath, ManifestPath, NamesARecord;
    RecordStaysApart(image, dst);
    forall p | p in SourcesOf(source, members) ensures !Lands(p, dst) {
      if Lands(p, dst) { LandsInside(p, dst, dir); }
    }
  }
}
