// What one executor cell holds, and how each request it serves changes that. Session building,
// decoding and inference are outcomes handed in from outside; which session answers is not.

module CellMain {
  import opened Residency

  datatype ErrorClass = Transient | Permanent | Contaminating

  /** What building, verifying and warming a session came to. */
  datatype LoadFate =
    | Builds(mib: nat, loadMs: real)
    | Raises(code: string, error: string, kind: ErrorClass, memoryPressure: bool)

  /** What running a resident session on one input came to. */
  datatype RunFate = Succeeds | Fails(code: string, kind: ErrorClass)

  datatype Reply =
    | Loaded(mib: nat, loadMs: real, context: nat)
    | LoadFailed(code: string, error: string, kind: ErrorClass, memoryPressure: bool)
    | Unloaded(freed: nat, wasResident: bool, expected: nat)
    | CellStats(resident: set<Digest>, free: nat, total: nat, context: nat)

  /** The answer to an Infer. */
  datatype Answer = Succeeded | Failed(code: string, kind: ErrorClass)

  const MODEL_NOT_RESIDENT := "MODEL_NOT_RESIDENT"

  datatype Session = Session(mib: nat, loadMs: real, hits: nat)

  /** A cell's state as a value: its sessions by digest, and its device context once established. */
  datatype Held = Held(sessions: map<Digest, Session>, established: bool, context: nat)

  const FRESH := Held(map[], false, 0)

  /** The first load on a cell establishes its context; later ones report none. */
  function WithContext(h: Held, measured: nat): Held {
    if h.established then h else h.(established := true, context := measured)
  }

  function AfterLoad(h: Held, digest: Digest, fate: LoadFate, measured: nat): (after: Held)
    ensures h.sessions.Keys <= after.sessions.Keys
  {
    if digest in h.sessions then h
    else if fate.Builds? then WithContext(h, measured).(sessions := h.sessions[digest := Session(fate.mib, fate.loadMs, 0)])
    else WithContext(h, measured)
  }

  function AfterUnload(h: Held, digest: Digest): Held {
    h.(sessions := h.sessions - {digest})
  }

  /** What an unload reports: `freed` is what the device gave back. */
  function UnloadReply(h: Held, digest: Digest, freed: nat): Reply {
    if digest in h.sessions then Unloaded(freed, true, h.sessions[digest].mib) else Unloaded(0, false, 0)
  }

  function AfterInfer(h: Held, digest: Digest, fate: RunFate): (after: Held)
    ensures after.sessions.Keys == h.sessions.Keys
  {
    if digest in h.sessions && fate.Succeeds?
    then h.(sessions := h.sessions[digest := h.sessions[digest].(hits := h.sessions[digest].hits + 1)]) else h
  }

  /** A job reaches a session only if its digest is resident. */
  function InferAnswer(h: Held, digest: Digest, fate: RunFate): Answer {
    if digest !in h.sessions then Failed(MODEL_NOT_RESIDENT, Transient)
    else match fate { case Succeeds => Succeeded case Fails(code, kind) => Failed(code, kind) }
  }

  function StatsReply(h: Held, free: nat, total: nat): Reply {
    CellStats(h.sessions.Keys, free, total, h.context)
  }

  class CellState {
    var sessions: map<Digest, Session>
    var established: bool
    var context: nat
    var inferences: nat

    constructor ()
      ensures View() == FRESH
    {
      sessions, established, context, inferences := map[], false, 0, 0;
    }

    function View(): Held
      reads this
    {
      Held(sessions, established, context)
    }

    /** Drop one session, if it is resident. */
    method Release(digest: Digest) returns (was: bool)
      modifies this`sessions
      ensures was == (digest in old(sessions)) && sessions == old(sessions) - {digest}
    {
      was := digest in sessions;
      sessions := sessions - {digest};
    }

    method HandleLoad(digest: Digest, fate: LoadFate, measured: nat) returns (reply: Reply)
      modifies this`sessions, this`established, this`context
      ensures View() == AfterLoad(old(View()), digest, fate, measured)
      ensures digest in sessions <==> reply.Loaded?
      ensures reply.Loaded? <==> digest in old(sessions) || fate.Builds?
      ensures sessions - {digest} == old(sessions) - {digest} && (digest in old(sessions) ==> View() == old(View()))
      ensures digest !in old(sessions) ==> established && context == if old(established) then old(context) else measured
      ensures reply.Loaded? && digest !in old(sessions) ==> reply.mib == fate.mib && reply.context == if old(established) then 0 else measured
      ensures reply.Loaded? ==> reply.mib == sessions[digest].mib
    {
      if digest in sessions {
        return Loaded(sessions[digest].mib, sessions[digest].loadMs, 0);
      }
      var added := 0;
      if !established {
        established, context, added := true, measured, measured;
      }
      match fate {
        case Raises(code, error, kind, pressure) => return LoadFailed(code, error, kind, pressure);
        case Builds(mib, ms) =>
          sessions := sessions[digest := Session(mib, ms, 0)];
          return Loaded(mib, ms, added);
      }
    }

    method HandleUnload(digest: Digest, freed: nat) returns (reply: Reply)
      modifies this`sessions
      ensures View() == AfterUnload(old(View()), digest) && reply == UnloadReply(old(View()), digest, freed)
      ensures digest !in sessions && sessions == old(sessions) - {digest} && reply.Unloaded?
      ensures if digest in old(sessions) then reply.wasResident && reply.freed == freed && reply.expected == old(sessions)[digest].mib
              else !reply.wasResident && reply.freed == 0
    {
      var expected := if digest in sessions then sessions[digest].mib else 0;
      var was := Release(digest);
      return if was then Unloaded(freed, true, expected) else Unloaded(0, false, 0);
    }

    method HandleInfer(digest: Digest, fate: RunFate) returns (answer: Answer)
      modifies this
      ensures View() == AfterInfer(old(View()), digest, fate) && answer == InferAnswer(old(View()), digest, fate)
      ensures sessions.Keys == old(sessions).Keys
      ensures answer == Succeeded <==> digest in sessions && fate.Succeeds?
      ensures digest !in sessions ==> answer == Failed(MODEL_NOT_RESIDENT, Transient)
      ensures digest in sessions && fate.Fails? ==> answer == Failed(fate.code, fate.kind)
      ensures inferences == old(inferences) + if answer == Succeeded then 1 else 0
    {
      if digest !in sessions {
        return Failed(MODEL_NOT_RESIDENT, Transient);
      }
      match fate {
        case Fails(code, kind) => return Failed(code, kind);
        case Succeeds =>
          sessions := sessions[digest := sessions[digest].(hits := sessions[digest].hits + 1)];
          inferences := inferences + 1;
          return Succeeded;
      }
    }

    method HandleStats(free: nat, total: nat) returns (reply: Reply)
      ensures reply == StatsReply(View(), free, total)
    {
      reply := CellStats(sessions.Keys, free, total, context);
    }

    method Close()
      modifies this`sessions
      ensures sessions == map[]
    {
      sessions := map[];
    }
  }
}
