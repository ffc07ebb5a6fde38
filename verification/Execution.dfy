// Executing a stored intent, and what any chain of interrupted executions comes to.

module Execution {
  import opened Wrappers
  import opened LedgerSpec
  import opened Installing
  import opened Bundles
  import opened Crashes

  /** What executing an intent does to the files. */
  function Execute(env: Env, f: Files, intent: Intent, suffix: bool, records: Records): Run<()> {
    match intent.action
    case Retain => RetainInPlace(f, intent.source, intent.sha256)
    case Delete => DeleteBundle(f, intent.source, intent.sha256, intent.members)
    case Archive => MoveBundle(env, f, intent.source, intent.sha256, intent.target, intent.members, false, suffix, records)
    case Quarantine => MoveBundle(env, f, intent.source, intent.sha256, intent.target, intent.members, true, suffix, records)
  }

  predicate Moves(intent: Intent) {
    (intent.action == Archive || intent.action == Quarantine) && intent.target.Some?
  }

  /** What convergence asks for: faithful one-step copies, a source that still holds the recorded object
      when it is there, and paths that keep out of each other's way. */
  ghost predicate Fit(env: Env, f: Files, intent: Intent) {
    && (Moves(intent) ==> Exact(env) && IsHex(Hex(intent.sha256)) && Clear(intent.source, intent.target.value, intent.members)
                          && Recorded(f, intent.source, Some(Hex(intent.sha256))))
    && (intent.action == Delete ==> intent.source !in intent.members)
  }

  /** The same files; under `suffix`, the manifest beside the image aside. */
  ghost predicate SameFinal(intent: Intent, image: Path, suffix: bool, a: Files, b: Files) {
    if Moves(intent) then SameButManifest(a, b, image, !suffix) else a == b
  }

  function ImageOf(f: Files, intent: Intent, suffix: bool): Path {
    if Moves(intent) then ImagePath(f, intent.source, intent.sha256, intent.target.value, suffix) else []
  }

  /** Executing from `g` ends with the same verdict and the same files as executing from `f`. */
  ghost predicate Converges(env: Env, intent: Intent, suffix: bool, records: Records, f: Files, g: Files) {
    var first := Execute(env, f, intent, suffix, records);
    var again := Execute(env, g, intent, suffix, records);
    && first.result == again.result && ImageOf(g, intent, suffix) == ImageOf(f, intent, suffix)
    && SameFinal(intent, ImageOf(f, intent, suffix), suffix, End(f, first.steps), End(g, again.steps))
  }

  lemma ExecuteResumes(env: Env, f: Files, g: Files, intent: Intent, suffix: bool, records: Records)
    requires Fit(env, f, intent) && g in Execute(env, f, intent, suffix, records).steps
    ensures Fit(env, g, intent) && Converges(env, intent, suffix, records, f, g)
  {
    hide MoveBundle, DeleteBundle, Clear, Exact, SameButManifest, ImagePath, Apart, WrittenBeside;
    if Moves(intent) {
      BundleResumes(env, f, g, intent.source, intent.sha256, intent.target.value, intent.members,
                    intent.action == Quarantine, suffix, records);
      BundleIsLater(env, f, intent.source, intent.sha256, intent.target.value, intent.members,
                    intent.action == Quarantine, suffix, records);
    } else if intent.action == Delete {
      DeleteResumes(f, g, intent.source, intent.sha256, intent.members);
    } else {
      NoTargetNoSteps(env, f, intent, suffix, records);
    }
  }

  lemma NoTargetNoSteps(env: Env, f: Files, intent: Intent, suffix: bool, records: Records)
    requires !Moves(intent) && intent.action != Delete
    ensures Execute(env, f, intent, suffix, records).steps == []
  {
  }

  /** A chain of interrupted runs: each starts where a crash left the one before it. */
  ghost predicate Interrupted(env: Env, intent: Intent, suffix: bool, records: Records, states: seq<Files>) {
    forall i :: 0 <= i < |states| - 1 ==>
      states[i + 1] == states[i] || states[i + 1] in Execute(env, states[i], intent, suffix, records).steps
  }

  /** However many runs are interrupted, wherever each stops, a final complete run ends with the files
      and the verdict the first would have had. */
  lemma {:induction false} CrashesConverge(env: Env, intent: Intent, suffix: bool, records: Records, states: seq<Files>)
    requires states != [] && Fit(env, states[0], intent) && Interrupted(env, intent, suffix, records, states)
    ensures Fit(env, states[|states| - 1], intent)
    ensures Converges(env, intent, suffix, records, states[0], states[|states| - 1])
    decreases |states|
  {
    hide Execute, Fit, ImageOf;
    if |states| > 1 {
      var front := states[..|states| - 1];
      CrashesConverge(env, intent, suffix, records, front);
      var f, g := states[|states| - 2], states[|states| - 1];
      assert Interrupted(env, intent, suffix, records, states);
      if g != f { ExecuteResumes(env, f, g, intent, suffix, records); }
    }
  }
}
