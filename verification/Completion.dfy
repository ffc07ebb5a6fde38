// The completer: it plans an intent from a job, stores it before the first file moves, executes it
// step by step against the disk, and records the verdict.

module Completion {
  import opened Wrappers
  import opened Lifecycle
  import opened LedgerSpec
  import opened LedgerStore
  import opened LedgerRuns
  import opened Installing
  import opened Bundles
  import opened Crashes
  import opened Execution
  import opened Outcomes

  // -- verdicts ----------------------------------------------------------------------------------

  /** The ledger once an execution has been judged. */
  function Concluded(db: Db, id: Id, ok: bool, observed: string, error: string): Db {
    Committed(db, if ok then CompleteCleanup(db, id, observed) else FailCleanup(db, id, error))
  }

  /** A stored intent leaves its job where it can be judged, now or after a crash. */
  lemma IntentIsStored(db: Db, intent: Intent, now: int)
    requires RecordIntent(db, intent, now).Ok?
    ensures var stored := RecordIntent(db, intent, now).value;
            && intent.id in stored.jobs && !Terminal(stored.jobs[intent.id].state)
            && intent.id in stored.intents && stored.intents[intent.id] == IntentRow(intent, None, now)
            && CompletingEdge(stored.jobs[intent.id].state).Some?
  {
  }

  /** Success, and nothing else, ends in a terminal state. */
  lemma OnlySuccessIsTerminal(db: Db, intent: Intent, now: int, ok: bool, observed: string, error: string)
    requires RecordIntent(db, intent, now).Ok?
    ensures var after := Concluded(RecordIntent(db, intent, now).value, intent.id, ok, observed, error);
            intent.id in after.jobs && (Terminal(after.jobs[intent.id].state) <==> ok)
  {
    IntentIsStored(db, intent, now);
    hide RecordIntent;
  }

  /** A failed execution can always be tried again. */
  lemma FailureIsRetryable(db: Db, intent: Intent, now: int, later: int, error: string)
    requires RecordIntent(db, intent, now).Ok?
    ensures RecordIntent(Concluded(RecordIntent(db, intent, now).value, intent.id, false, "", error), intent, later).Ok?
  {
  }

  lemma FailureOfJobs(a: Db, b: Db, id: Id, error: string)
    requires a.jobs == b.jobs && id in a.jobs
    ensures Committed(a, FailCleanup(a, id, error)).jobs == Committed(b, FailCleanup(b, id, error)).jobs
  {
  }

  lemma SuccessOfJobs(a: Db, b: Db, id: Id, seen: string, seenLater: string)
    requires a.jobs == b.jobs && id in a.jobs
    ensures Committed(a, CompleteCleanup(a, id, seen)).jobs == Committed(b, CompleteCleanup(b, id, seenLater)).jobs
  {
  }

  /** The verdict depends on the jobs alone. */
  lemma VerdictOfJobs(a: Db, b: Db, id: Id, ok: bool, seen: string, seenLater: string, error: string)
    requires a.jobs == b.jobs && id in a.jobs
    ensures Concluded(a, id, ok, seen, error).jobs == Concluded(b, id, ok, seenLater, error).jobs
  {
    hide FailCleanup, CompleteCleanup;
    if !ok {
      FailureOfJobs(a, b, id, error);
    } else {
      SuccessOfJobs(a, b, id, seen, seenLater);
    }
  }

  lemma StoringAgain(db: Db, intent: Intent, now: int, later: int)
    requires RecordIntent(db, intent, now).Ok?
    ensures var stored := RecordIntent(db, intent, now).value;
            RecordIntent(stored, intent, later).Ok? && RecordIntent(stored, intent, later).value.jobs == stored.jobs
  {
  }

  lemma StoredAnyTime(db: Db, intent: Intent, now: int, later: int)
    requires RecordIntent(db, intent, now).Ok?
    ensures RecordIntent(db, intent, later).Ok? && RecordIntent(db, intent, later).value.jobs == RecordIntent(db, intent, now).value.jobs
  {
  }

  // -- crashes -----------------------------------------------------------------------------------

  /** What survives a crash. */
  datatype Durable = Durable(db: Db, files: Files)

  /** A run from one durable state may be cut short at another: before it stored the intent, or after, at
      any step of the execution, the verdict not yet recorded. */
  ghost predicate CutShort(env: Env, intent: Intent, suffix: bool, records: Records, now: int, a: Durable, b: Durable) {
    || b == a
    || (RecordIntent(a.db, intent, now).Ok? && b.db == RecordIntent(a.db, intent, now).value
        && (b.files == a.files || b.files in Execute(env, a.files, intent, suffix, records).steps))
  }

  /** What an uninterrupted run comes to. */
  function Uninterrupted(env: Env, intent: Intent, suffix: bool, records: Records, now: int, observed: string, error: string, a: Durable): Durable
    requires RecordIntent(a.db, intent, now).Ok?
  {
    var run := Execute(env, a.files, intent, suffix, records);
    Durable(Concluded(RecordIntent(a.db, intent, now).value, intent.id, run.result.Ok?, observed, error), End(a.files, run.steps))
  }

  /** A chain of runs cut short, each at its own time, each going on from what the one before left. */
  ghost predicate Chain(env: Env, intent: Intent, suffix: bool, records: Records, times: seq<int>, states: seq<Durable>) {
    |states| == |times| + 1 && forall k :: 0 <= k < |times| ==> CutShort(env, intent, suffix, records, times[k], states[k], states[k + 1])
  }

  /** The same jobs in the same states, and the same files; under `suffix`, the manifest aside. */
  ghost predicate SameEnd(intent: Intent, image: Path, suffix: bool, a: Durable, b: Durable) {
    a.db.jobs == b.db.jobs && SameFinal(intent, image, suffix, a.files, b.files)
  }

  /** However often completion is cut short, and wherever, a reconciliation that is not ends with the files
      and the jobs that an uninterrupted apply would have ended with. */
  lemma {:induction false} ReconcileConverges(env: Env, intent: Intent, suffix: bool, records: Records, times: seq<int>, states: seq<Durable>,
                                              now: int, later: int, seen: string, seenLater: string, error: string)
    requires Chain(env, intent, suffix, records, times, states)
    requires RecordIntent(states[0].db, intent, now).Ok? && Fit(env, states[0].files, intent)
    ensures var last := states[|times|];
      && RecordIntent(last.db, intent, later).Ok? && Undecided(last.db, intent.id)
      && SameEnd(intent, ImageOf(states[0].files, intent, suffix), suffix,
                 Uninterrupted(env, intent, suffix, records, now, seen, error, states[0]),
                 Uninterrupted(env, intent, suffix, records, later, seenLater, error, last))
  {
    hide RecordIntent, Execute, Fit, ImageOf, SameFinal, Concluded;
    var last := states[|times|];
    ChainOfFiles(env, intent, suffix, records, times, states);
    ChainOfJobs(env, intent, suffix, records, times, states, now, later);
    IntentIsStored(states[0].db, intent, now);
    var ok := Execute(env, states[0].files, intent, suffix, records).result.Ok?;
    VerdictOfJobs(RecordIntent(states[0].db, intent, now).value, RecordIntent(last.db, intent, later).value, intent.id, ok, seen, seenLater, error);
    RecordableIsUndecided(last.db, intent, later);
  }

  /** Reconciling does not stop short at a job that is already settled. */
  predicate Undecided(db: Db, id: Id) {
    id in db.jobs && !Terminal(db.jobs[id].state)
  }

  lemma RecordableIsUndecided(db: Db, intent: Intent, now: int)
    requires RecordIntent(db, intent, now).Ok?
    ensures Undecided(db, intent.id)
  {
  }

  lemma {:induction false} ChainOfFiles(env: Env, intent: Intent, suffix: bool, records: Records, times: seq<int>, states: seq<Durable>)
    requires Chain(env, intent, suffix, records, times, states) && Fit(env, states[0].files, intent)
    ensures Converges(env, intent, suffix, records, states[0].files, states[|times|].files)
  {
    hide Execute, Fit, Converges, RecordIntent;
    var files := seq(|states|, k requires 0 <= k < |states| => states[k].files);
    forall k | 0 <= k < |files| - 1
      ensures files[k + 1] == files[k] || files[k + 1] in Execute(env, files[k], intent, suffix, records).steps
    {
      assert CutShort(env, intent, suffix, records, times[k], states[k], states[k + 1]);
    }
    CrashesConverge(env, intent, suffix, records, files);
  }

  lemma {:induction false} ChainOfJobs(env: Env, intent: Intent, suffix: bool, records: Records, times: seq<int>, states: seq<Durable>, now: int, later: int)
    requires Chain(env, intent, suffix, records, times, states) && RecordIntent(states[0].db, intent, now).Ok?
    ensures RecordIntent(states[|times|].db, intent, later).Ok?
    ensures RecordIntent(states[|times|].db, intent, later).value.jobs == RecordIntent(states[0].db, intent, now).value.jobs
    decreases |times|
  {
    hide RecordIntent, Execute;
    StoredAnyTime(states[0].db, intent, now, later);
    if times != [] {
      assert CutShort(env, intent, suffix, records, times[0], states[0], states[1]);
      StoredAnyTime(states[0].db, intent, now, times[0]);
      if states[1] != states[0] { StoringAgain(states[0].db, intent, times[0], now); }
      forall k | 0 <= k < |times[1..]| ensures CutShort(env, intent, suffix, records, times[1..][k], states[1..][k], states[1..][k + 1]) {
        assert CutShort(env, intent, suffix, records, times[k + 1], states[k + 1], states[k + 2]);
      }
      ChainOfJobs(env, intent, suffix, records, times[1..], states[1..], now, later);
    }
  }

  // -- the disk ----------------------------------------------------------------------------------

  class Disk {
    const env: Env
    var files: Files
    /** Every state the files have passed through. */
    ghost var history: seq<Files>

    constructor (env: Env, files: Files)
      ensures this.env == env && this.files == files && history == []
    {
      this.env, this.files, history := env, files, [];
    }

    /** What a run of steps leaves behind. */
    twostate predicate Took(steps: seq<Files>)
      reads this
    {
      files == End(old(files), steps) && history == old(history) + steps
    }

    /** Rename; false is the error that says the two paths are on different filesystems. */
    method Replace(src: Path, dst: Path) returns (ok: bool)
      requires src in files
      modifies this
      ensures ok == (env.device(src) == env.device(dst))
      ensures Took(if ok then [(old(files) - {src})[dst := old(files)[src]]] else [])
    {
      if env.device(src) != env.device(dst) { return false; }
      files := (files - {src})[dst := files[src]];
      history := history + [files];
      return true;
    }

    method Copy(src: Path, dst: Path)
      requires src in files
      modifies this
      ensures Took((if env.torn.Some? then [old(files)[dst := env.torn.value]] else []) + [old(files)[dst := env.copied(old(files)[src])]])
    {
      if env.torn.Some? { history := history + [files[dst := env.torn.value]]; }
      files := files[dst := env.copied(files[src])];
      history := history + [files];
    }

    /** Remove; false is the error that says there is no such file. */
    method Remove(p: Path) returns (ok: bool)
      modifies this
      ensures ok == (p in old(files)) && Took(if ok then [old(files) - {p}] else [])
    {
      if p !in files { return false; }
      files := files - {p};
      history := history + [files];
      return true;
    }

    method WriteBytes(p: Path, data: Sha)
      modifies this
      ensures Took([old(files)[p := data]])
    {
      files := files[p := data];
      history := history + [files];
    }
  }

  // -- the completer -----------------------------------------------------------------------------

  /** A ledger write, and how many file steps had been taken before it. */
  datatype Mark = Mark(db: Db, steps: nat)

  class Completer {
    const ledger: Ledger
    const disk: Disk
    const records: Records
    /** Every ledger write of this completer, placed among the file steps. */
    ghost var journal: seq<Mark>

    constructor (ledger: Ledger, disk: Disk, records: Records)
      ensures this.ledger == ledger && this.disk == disk && this.records == records && journal == []
    {
      this.ledger, this.disk, this.records, journal := ledger, disk, records, [];
    }

    /** Copy, verify the copy by digest, and only then remove the source. */
    method CopyVerifyRemove(src: Path, dst: Path) returns (r: Result<Installed, Code>)
      requires src in disk.files && dst !in disk.files
      modifies disk
      ensures var run := CopyOver(disk.env, old(disk.files), src, dst); r == run.result && disk.Took(run.steps)
    {
      var digest := disk.files[src];
      disk.Copy(src, dst);
      if disk.files[dst] != digest {
        var removed := disk.Remove(dst);
        return Err(CopyVerifyFailed);
      }
      var removed := disk.Remove(src);
      return Ok(Installed(dst, digest, Copied));
    }

    method Install(src: Path, dst: Path, expected: Option<string>, suffix: bool) returns (r: Result<Installed, Code>)
      modifies disk
      ensures var run := Installing.Install(disk.env, old(disk.files), src, dst, expected, suffix);
              r == run.result && disk.Took(run.steps)
      decreases suffix, 1
    {
      if dst in disk.files {
        r := ResolveExistingTarget(src, dst, expected, suffix);
        return;
      }
      if src !in disk.files { return Err(SourceMissing); }
      var digest := disk.files[src];
      if expected.Some? && digest != expected.value { return Err(SourceDigestMismatch); }
      var renamed := disk.Replace(src, dst);
      if renamed { return Ok(Installed(dst, digest, Renamed)); }
      r := CopyVerifyRemove(src, dst);
    }

    method ResolveExistingTarget(src: Path, dst: Path, expected: Option<string>, suffix: bool) returns (r: Result<Installed, Code>)
      requires dst in disk.files
      modifies disk
      ensures var run := Resolve(disk.env, old(disk.files), src, dst, expected, suffix);
              r == run.result && disk.Took(run.steps)
      decreases suffix, 0
    {
      hide Suffixed;
      var targetDigest := disk.files[dst];
      if src in disk.files && targetDigest == disk.files[src] {
        var removed := disk.Remove(src);
        return Ok(Installed(dst, targetDigest, Resumed));
      }
      if src !in disk.files && (expected.None? || targetDigest == expected.value) {
        return Ok(Installed(dst, targetDigest, Already));
      }
      if suffix {
        var alternate := Suffixed(dst, SuffixKey(disk.files, src, dst, expected));
        if alternate != dst {
          r := Install(src, alternate, expected, false);
          return;
        }
      }
      return Err(Collision);
    }

    /** A move of some members of which `done` steps are taken and the rest is still to come. */
    static ghost predicate Underway(whole: Run<seq<Installed>>, done: seq<Files>, installed: seq<Installed>, rest: Run<seq<Installed>>) {
      && whole.steps == done + rest.steps
      && (if rest.result.Err? then whole.result == rest.result
          else whole.result.Ok? && whole.result.value == installed + rest.result.value)
    }

    static lemma OneMoreMoved(env: Env, f: Files, source: Path, image: Path, members: seq<Path>, k: nat, suffix: bool,
                              whole: Run<seq<Installed>>, done: seq<Files>, installed: seq<Installed>)
      requires k < |members| && Underway(whole, done, installed, Bundles.MoveMembers(env, f, source, image, members[k..], suffix))
      ensures var first := Installing.Install(env, f, members[k], MemberTarget(source, image, members[k]), None, suffix);
              if first.result.Err? then whole == Run(done + first.steps, Err(first.result.error))
              else Underway(whole, done + first.steps, installed + [first.result.value],
                            Bundles.MoveMembers(env, End(f, first.steps), source, image, members[k + 1..], suffix))
    {
      hide Installing.Install, MemberTarget;
      assert members[k..][0] == members[k] && members[k..][1..] == members[k + 1..];
    }

    static lemma AllMoved(env: Env, f: Files, source: Path, image: Path, suffix: bool, whole: Run<seq<Installed>>,
                          done: seq<Files>, installed: seq<Installed>)
      requires Underway(whole, done, installed, Bundles.MoveMembers(env, f, source, image, [], suffix))
      ensures whole == Run(done, Ok(installed))
    {
      assert done + [] == done && installed + [] == installed;
    }

    /** Install the members beside the image, stopping at the first that cannot be. */
    method MoveMembers(source: Path, image: Path, members: seq<Path>, suffix: bool) returns (r: Result<seq<Installed>, Code>)
      modifies disk
      ensures var run := Bundles.MoveMembers(disk.env, old(disk.files), source, image, members, suffix);
              r == run.result && disk.Took(run.steps)
    {
      hide Installing.Install, Bundles.MoveMembers, MemberTarget, Underway;
      ghost var whole := Bundles.MoveMembers(disk.env, disk.files, source, image, members, suffix);
      var installed: seq<Installed> := [];
      ghost var done: seq<Files> := [];
      assert members[0..] == members;
      NoneMoved(whole);
      var k := 0;
      while k < |members|
        invariant k <= |members| && disk.Took(done)
        invariant Underway(whole, done, installed, Bundles.MoveMembers(disk.env, disk.files, source, image, members[k..], suffix))
      {
        OneMoreMoved(disk.env, disk.files, source, image, members, k, suffix, whole, done, installed);
        ghost var run := Installing.Install(disk.env, disk.files, members[k], MemberTarget(source, image, members[k]), None, suffix);
        EndOfBoth(old(disk.files), done, run.steps);
        var moved := Install(members[k], MemberTarget(source, image, members[k]), None, suffix);
        if moved.Err? { return Err(moved.error); }
        done, installed, k := done + run.steps, installed + [moved.value], k + 1;
      }
      assert members[k..] == [];
      AllMoved(disk.env, disk.files, source, image, suffix, whole, done, installed);
      return Ok(installed);
    }

    static lemma NoneMoved(whole: Run<seq<Installed>>)
      ensures Underway(whole, [], [], whole)
    {
      assert [] + whole.steps == whole.steps;
      if whole.result.Ok? { assert [] + whole.result.value == whole.result.value; }
    }

    /** Write the quarantine's error record, then the manifest of a bundle of more than one file. */
    method SealBundle(image: Path, installed: seq<Installed>, quarantine: bool)
      modifies disk
      ensures disk.Took(Seal(old(disk.files), image, installed, quarantine, records))
    {
      hide ErrorPath, ManifestPath, Listing;
      var all := installed;
      if quarantine {
        disk.WriteBytes(ErrorPath(image), records.error);
        all := all + [Installed(ErrorPath(image), records.error, Written)];
      }
      if |all| > 1 {
        disk.WriteBytes(ManifestPath(image), records.manifest(image, Listing(image, all)));
      }
    }

    /** Everything after the image itself is installed. */
    method FinishBundle(source: Path, image: Installed, members: seq<Path>, quarantine: bool, suffix: bool) returns (r: Result<(), Code>)
      modifies disk
      ensures var run := Finish(disk.env, old(disk.files), source, image, members, quarantine, suffix, records);
              r == run.result && disk.Took(run.steps)
    {
      hide Bundles.MoveMembers, Seal;
      ghost var first := Bundles.MoveMembers(disk.env, disk.files, source, image.path, members, suffix);
      var moved := MoveMembers(source, image.path, members, suffix);
      if moved.Err? { return Err(moved.error); }
      ghost var middle := disk.files;
      SealBundle(image.path, [image] + moved.value, quarantine);
      EndOfBoth(old(disk.files), first.steps, Seal(middle, image.path, [image] + moved.value, quarantine, records));
      return Ok(());
    }

    /** The bundle on the disk, with the steps and the outcome of the modelled one. */
    method MoveBundle(intent: Intent, suffix: bool) returns (r: Result<(), Code>)
      modifies disk
      ensures var run := Bundles.MoveBundle(disk.env, old(disk.files), intent.source, intent.sha256, intent.target, intent.members,
                                            intent.action == Quarantine, suffix, records);
              r == run.result && disk.Took(run.steps)
    {
      hide Installing.Install, Finish, Hex;
      if intent.target.None? { return Err(NoTarget); }
      if intent.source !in disk.files && intent.target.value !in disk.files { return Err(EvidenceLost); }
      ghost var first := Installing.Install(disk.env, disk.files, intent.source, intent.target.value, Some(Hex(intent.sha256)), suffix);
      var image := Install(intent.source, intent.target.value, Some(Hex(intent.sha256)), suffix);
      if image.Err? { return Err(image.error); }
      ghost var middle := disk.files;
      r := FinishBundle(intent.source, image.value, intent.members, intent.action == Quarantine, suffix);
      EndOfBoth(old(disk.files), first.steps,
                Finish(disk.env, middle, intent.source, image.value, intent.members, intent.action == Quarantine, suffix, records).steps);
    }

    /** Remove those of the members that exist. */
    method RemoveMembers(members: seq<Path>)
      modifies disk
      ensures disk.Took(Bundles.RemoveMembers(old(disk.files), members))
    {
      ghost var done: seq<Files> := [];
      var k := 0;
      while k < |members|
        invariant k <= |members| && disk.Took(done)
        invariant Bundles.RemoveMembers(old(disk.files), members) == done + Bundles.RemoveMembers(disk.files, members[k..])
      {
        assert members[k..][0] == members[k] && members[k..][1..] == members[k + 1..];
        if members[k] in disk.files {
          var removed := disk.Remove(members[k]);
          done := done + [disk.files];
        }
        k := k + 1;
      }
    }

    /** Delete the members, then the source, if the source is still the recorded object. */
    method Delete(intent: Intent) returns (r: Result<(), Code>)
      modifies disk
      ensures var run := DeleteBundle(old(disk.files), intent.source, intent.sha256, intent.members);
              r == run.result && disk.Took(run.steps)
    {
      hide Hex, Bundles.RemoveMembers;
      if intent.source !in disk.files { return Ok(()); }
      if disk.files[intent.source] != Hex(intent.sha256) { return Err(SourceReplaced); }
      RemoveMembers(intent.members);
      var removed := disk.Remove(intent.source);
      return if removed then Ok(()) else Err(FsError);
    }

    /** Perform the intent's mutation. */
    method Execute(intent: Intent, suffix: bool) returns (r: Result<(), Code>)
      modifies disk
      ensures var run := Execution.Execute(disk.env, old(disk.files), intent, suffix, records);
              r == run.result && disk.Took(run.steps)
      ensures Executed(disk.env, old(disk.files), disk.files, intent, suffix, records, r)
    {
      hide Bundles.MoveBundle, DeleteBundle, Hex, Executed;
      ExecutesAs(disk.env, disk.files, intent, suffix, records);
      match intent.action {
        case Retain =>
          if intent.source !in disk.files { return Err(SourceMissing); }
          if disk.files[intent.source] != Hex(intent.sha256) { return Err(SourceReplaced); }
          return Ok(());
        case Delete => r := Delete(intent);
        case Archive => r := MoveBundle(intent, suffix);
        case Quarantine => r := MoveBundle(intent, suffix);
      }
    }

    /** Store the intent. */
    method Record(intent: Intent, now: int) returns (ok: bool)
      modifies ledger, this`journal
      ensures match RecordIntent(old(ledger.View()), intent, now)
              case Err(_) => !ok && ledger.View() == old(ledger.View()) && journal == old(journal)
              case Ok(stored) => ok && ledger.View() == stored && journal == old(journal) + [Mark(stored, |disk.history|)]
    {
      var recorded := ledger.RecordCleanupIntent(intent, now);
      if recorded.Err? { return false; }
      journal := journal + [Mark(ledger.View(), |disk.history|)];
      return true;
    }

    /** Record what came of an execution. */
    method Conclude(id: Id, r: Result<(), Code>, observed: string, error: string)
      modifies ledger, this`journal
      ensures ledger.View() == Concluded(old(ledger.View()), id, r.Ok?, observed, error)
      ensures journal == old(journal) + [Mark(ledger.View(), |disk.history|)]
    {
      if r.Ok? {
        var done := ledger.CompleteCleanup(id, observed);
      } else {
        var failed := ledger.FailCleanup(id, error);
      }
      journal := journal + [Mark(ledger.View(), |disk.history|)];
    }

    /** One whole execution of an intent: stored before the first file step, judged after the last, and the files
        are what such an execution leaves behind. */
    twostate predicate Carried(stored: Db, intent: Intent, suffix: bool, observed: string, error: string, new r: Result<(), Code>)
      reads this, ledger, disk
    {
      var run := Execution.Execute(disk.env, old(disk.files), intent, suffix, records);
      && r == run.result && disk.Took(run.steps)
      && Executed(disk.env, old(disk.files), disk.files, intent, suffix, records, r)
      && ledger.View() == Concluded(stored, intent.id, run.result.Ok?, observed, error)
      && journal == old(journal) + [Mark(stored, |old(disk.history)|), Mark(ledger.View(), |old(disk.history)| + |run.steps|)]
    }

    /** Nothing was moved and nothing written. */
    twostate predicate Refused()
      reads this, ledger, disk
    {
      disk.Took([]) && ledger.View() == old(ledger.View()) && journal == old(journal)
    }

    /** A first attempt at an intent. When the ledger refuses to store it, the disk is left alone. */
    method Apply(intent: Intent, suffix: bool, now: int, observed: string, error: string) returns (r: Result<(), Code>)
      modifies ledger, disk, this`journal
      ensures match RecordIntent(old(ledger.View()), intent, now)
              case Err(_) => r.Err? && Refused()
              case Ok(stored) => Carried(stored, intent, suffix, observed, error, r)
    {
      hide RecordIntent, Execution.Execute, Executed, Concluded;
      var recorded := Record(intent, now);
      if !recorded { return Err(FsError); }
      r := Execute(intent, suffix);
      Conclude(intent.id, r, observed, error);
    }

    /** Decide a stored intent against what the filesystem shows. A settled job's files are not touched. */
    method Reconcile(intent: Intent, suffix: bool, now: int, observed: string, error: string) returns (r: Result<(), Code>)
      modifies ledger, disk, this`journal
      ensures var db := old(ledger.View());
              if intent.id in db.jobs && Terminal(db.jobs[intent.id].state) then r == Ok(()) && Refused()
              else match RecordIntent(db, intent, now)
              case Err(_) => r.Err? && Refused()
              case Ok(stored) => Carried(stored, intent, suffix, observed, error, r)
    {
      hide RecordIntent, Execution.Execute, Executed, Concluded;
      if intent.id in ledger.jobs && Terminal(ledger.jobs[intent.id].state) { return Ok(()); }
      var recorded := Record(intent, now);
      if !recorded { return Err(FsError); }
      r := Execute(intent, suffix);
      Conclude(intent.id, r, observed, error);
    }
  }
}
