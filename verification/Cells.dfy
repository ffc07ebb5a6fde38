// One executor cell's handle: the pipe to its child, the request in flight, and the flag that refuses
// further use. Requests are numbered in the order they are sent. Which answer a receive returns is the
// question; the handle's lock is not held while it waits.

module Cells {
  import opened Wrappers

  /** The handle, and what is on its pipe. Each start opens a fresh pipe; the old one is closed. */
  datatype Handle = Handle(
    epoch: nat, started: bool, alive: bool, open: bool, broken: bool,
    inFlight: Option<nat>, requests: seq<nat>, replies: seq<nat>, sent: nat)

  const NEW_HANDLE := Handle(0, false, false, false, false, None, [], [], 0)

  predicate IsAlive(h: Handle) {
    h.started && h.alive && !h.broken
  }

  function Started(h: Handle): Handle {
    if IsAlive(h) then h else Handle(h.epoch + 1, true, true, true, false, None, [], [], h.sent)
  }

  function Closed(h: Handle): Handle {
    h.(open := false, requests := [], replies := [])
  }

  function Stopped(h: Handle): Handle {
    if !h.started then Closed(h) else Closed(h).(started := false, alive := false, inFlight := None)
  }

  function Broken(h: Handle): Handle {
    h.(broken := true)
  }

  function Failed(h: Handle): Handle {
    h.(broken := true, inFlight := None)
  }

  datatype SendFate = Accepted | Dead | Busy

  /** Send one request; `rejected` is the pipe refusing it. */
  function SendTo(h: Handle, rejected: bool): (Handle, SendFate) {
    if h.broken || !h.started || !h.open then (h, Dead)
    else if h.inFlight.Some? then (h, Busy)
    else if !h.alive || rejected then (Broken(h), Dead)
    else (h.(requests := h.requests + [h.sent], inFlight := Some(h.sent), sent := h.sent + 1), Accepted)
  }

  /** The child answers one request, in order, or dies. What it already wrote can still be read. */
  function Served(h: Handle): Handle {
    if h.alive && h.open && h.requests != [] then h.(requests := h.requests[1..], replies := h.replies + [h.requests[0]]) else h
  }

  function Died(h: Handle): Handle {
    h.(alive := false)
  }

  /** What is on the pipe, in the order it will be read, is at most the answer to the latest request,
      and nothing at all unless that request is in flight or the handle is broken. */
  predicate Sound(h: Handle) {
    && (h.replies + h.requests == [] || (h.sent > 0 && h.replies + h.requests == [h.sent - 1]))
    && (h.inFlight.Some? ==> h.sent > 0 && h.inFlight.value == h.sent - 1)
    && (h.inFlight.None? && !h.broken ==> h.replies + h.requests == [])
    && (!h.open ==> h.replies + h.requests == [])
    && (h.started ==> h.epoch > 0)
    && (h.open ==> h.started)
  }

  /** A reply that can be read answers the latest request. */
  lemma NextReplyIsLatest(h: Handle)
    requires Sound(h) && h.replies != []
    ensures h.sent > 0 && h.replies == [h.sent - 1] && h.requests == []
    ensures Sound(h.(replies := h.replies[1..], inFlight := None))
  {
    assert (h.replies + h.requests)[0] == h.replies[0];
    assert |h.replies| == 1;
  }

  lemma StepsAreSound(h: Handle, rejected: bool)
    requires Sound(h)
    ensures Sound(Started(h)) && Sound(Stopped(h)) && Sound(Broken(h)) && Sound(Failed(h)) && Sound(Died(h))
    ensures Sound(SendTo(h, rejected).0) && Sound(Served(h))
  {
    if h.requests != [] {
      assert h.replies + h.requests == h.replies + [h.requests[0]] + h.requests[1..];
    }
  }

  // -- any number of threads ---------------------------------------------------------------------

  /** A receive waits on the pipe it found. It clears the flight in a step of its own, after it has read a
      reply, or after it has marked the handle broken. */
  datatype Waiter = Waiting(epoch: nat) | Holding(epoch: nat, reply: nat) | Failing(epoch: nat)

  datatype Scene = Scene(handle: Handle, waiters: map<nat, Waiter>)

  datatype Event =
    | Start | Stop | Break | Send(rejected: bool)
    | Serve | Die
    | Enter(thread: nat) | Read(thread: nat) | Return(thread: nat) | GiveUp(thread: nat) | Drop(thread: nat)

  predicate Enabled(s: Scene, e: Event) {
    match e
    case Enter(t) => t !in s.waiters && s.handle.inFlight.Some?
    case Read(t) => t in s.waiters && s.waiters[t] == Waiting(s.handle.epoch) && s.handle.open && s.handle.replies != []
    case Return(t) => t in s.waiters && s.waiters[t].Holding?
    case GiveUp(t) => t in s.waiters && s.waiters[t].Waiting?
    case Drop(t) => t in s.waiters && s.waiters[t].Failing?
    case _ => true
  }

  function Next(s: Scene, e: Event): Scene
    requires Enabled(s, e)
  {
    var h := s.handle;
    match e
    case Start => s.(handle := Started(h))
    case Stop => s.(handle := Stopped(h))
    case Break => s.(handle := Broken(h))
    case Send(rejected) => s.(handle := SendTo(h, rejected).0)
    case Serve => s.(handle := Served(h))
    case Die => s.(handle := Died(h))
    case Enter(t) => s.(waiters := s.waiters[t := Waiting(h.epoch)])
    case Read(t) => Scene(h.(replies := h.replies[1..]), s.waiters[t := Holding(h.epoch, h.replies[0])])
    case Return(t) => Scene(h.(inFlight := None), s.waiters - {t})
    case GiveUp(t) => Scene(Broken(h), s.waiters[t := Failing(s.waiters[t].epoch)])
    case Drop(t) => Scene(h.(inFlight := None), s.waiters - {t})
  }

  /** The reply about to be returned is the current child's, to the request most recently sent. */
  predicate Pairs(s: Scene, t: nat)
    requires t in s.waiters && s.waiters[t].Holding?
  {
    s.waiters[t].epoch == s.handle.epoch && s.handle.started && s.waiters[t].reply + 1 == s.handle.sent
  }

  /** The cell is stopped, restarted, or sent the next request. */
  predicate Breaks(s: Scene, e: Event) {
    e.Stop? || (e.Start? && !IsAlive(s.handle)) || (e.Send? && SendTo(s.handle, e.rejected).1 == Accepted)
  }

  /** Nothing restarts or stops the cell while a thread has yet to clear the flight: between its read and
      its return, or between marking the handle broken and dropping the request. */
  predicate Calm(s: Scene, e: Event) {
    (e.Stop? || (e.Start? && !IsAlive(s.handle))) ==> forall t :: t in s.waiters ==> s.waiters[t].Waiting?
  }

  predicate Orderly(s: Scene) {
    && Sound(s.handle)
    && (forall t :: t in s.waiters && s.waiters[t].Holding? ==>
          Pairs(s, t) && (s.handle.inFlight.Some? || s.handle.broken) && s.handle.replies + s.handle.requests == [])
    && (forall t :: t in s.waiters && s.waiters[t].Failing? ==> s.handle.broken)
    && (forall t, u :: t in s.waiters && u in s.waiters && s.waiters[t].Holding? && s.waiters[u].Holding? ==> t == u)
    && (s.handle.inFlight.Some? ==> s.handle.started)
  }

  lemma CalmStepIsOrderly(s: Scene, e: Event)
    requires Orderly(s) && Enabled(s, e) && Calm(s, e)
    ensures Orderly(Next(s, e))
  {
    match e
    case Start => RecycleIsOrderly(s, e);
    case Stop => RecycleIsOrderly(s, e);
    case Send(rejected) => SendIsOrderly(s, rejected);
    case Read(t) => ReadIsOrderly(s, t);
    case Return(t) => ClearIsOrderly(s, e);
    case Drop(t) => ClearIsOrderly(s, e);
    case Enter(_) => WaiterIsOrderly(s, e);
    case GiveUp(_) => WaiterIsOrderly(s, e);
    case _ => ChildIsOrderly(s, e);
  }

  lemma RecycleIsOrderly(s: Scene, e: Event)
    requires Orderly(s) && (e.Start? || e.Stop?) && Calm(s, e)
    ensures Orderly(Next(s, e))
  {
    hide Sound;
    StepsAreSound(s.handle, false);
  }

  lemma SendIsOrderly(s: Scene, rejected: bool)
    requires Orderly(s)
    ensures Orderly(Next(s, Send(rejected)))
  {
    hide Sound;
    StepsAreSound(s.handle, rejected);
  }

  lemma ChildIsOrderly(s: Scene, e: Event)
    requires Orderly(s) && (e.Break? || e.Serve? || e.Die?)
    ensures Orderly(Next(s, e))
  {
    hide Sound;
    StepsAreSound(s.handle, false);
  }

  lemma WaiterIsOrderly(s: Scene, e: Event)
    requires Orderly(s) && Enabled(s, e) && (e.Enter? || e.GiveUp?)
    ensures Orderly(Next(s, e))
  {
    hide Sound;
    StepsAreSound(s.handle, false);
  }

  lemma ReadIsOrderly(s: Scene, t: nat)
    requires Orderly(s) && Enabled(s, Read(t))
    ensures Orderly(Next(s, Read(t)))
  {
    NextReplyIsLatest(s.handle);
  }

  lemma ClearIsOrderly(s: Scene, e: Event)
    requires Orderly(s) && Enabled(s, e) && Clears(e)
    ensures Orderly(Next(s, e))
  {
    hide Sound;
    ClearsSafely(s.handle);
  }

  // -- clearing the flight -----------------------------------------------------------------------

  /** Whether clearing the flight now leaves nothing behind that could be read for another request. */
  predicate Harmless(h: Handle) {
    h.broken || h.replies + h.requests == []
  }

  /** The two steps that clear it without asking whose it is. */
  predicate Clears(e: Event) {
    e.Return? || e.Drop?
  }

  lemma ClearsSafely(h: Handle)
    requires Sound(h)
    ensures Sound(h.(inFlight := None)) <==> Harmless(h)
  {
  }

  lemma ReadIsSound(h: Handle)
    requires Sound(h) && h.replies != []
    ensures Sound(h.(replies := h.replies[1..]))
  {
    NextReplyIsLatest(h);
  }

  lemma StepIsSoundExactly(s: Scene, e: Event)
    requires Sound(s.handle) && Enabled(s, e)
    ensures Sound(Next(s, e).handle) <==> (Clears(e) ==> Harmless(s.handle))
  {
    hide Sound;
    StepsAreSound(s.handle, e.Send? && e.rejected);
    if Clears(e) { ClearsSafely(s.handle); }
    if e.Read? { ReadIsSound(s.handle); }
  }

  predicate Feasible(s: Scene, events: seq<Event>)
    decreases |events|
  {
    events == [] || (Enabled(s, events[0]) && Feasible(Next(s, events[0]), events[1..]))
  }

  predicate CalmRun(s: Scene, events: seq<Event>)
    requires Feasible(s, events)
    decreases |events|
  {
    events == [] || (Calm(s, events[0]) && CalmRun(Next(s, events[0]), events[1..]))
  }

  function After(s: Scene, events: seq<Event>): Scene
    requires Feasible(s, events)
    decreases |events|
  {
    if events == [] then s else After(Next(s, events[0]), events[1..])
  }

  /** Every clearing of the flight in a run is harmless when it comes. */
  predicate ClearsHarmlessly(s: Scene, events: seq<Event>)
    requires Feasible(s, events)
    decreases |events|
  {
    events == [] || ((Clears(events[0]) ==> Harmless(s.handle)) && ClearsHarmlessly(Next(s, events[0]), events[1..]))
  }

  /** The handle is sound at every point of a run. */
  predicate SoundThroughout(s: Scene, events: seq<Event>)
    requires Feasible(s, events)
    decreases |events|
  {
    Sound(s.handle) && (events == [] || SoundThroughout(Next(s, events[0]), events[1..]))
  }

  /** Over any run at all, recycles in any gap included, the handle stays sound exactly when no flight is
      cleared under another request. */
  lemma {:induction false} SoundExactly(s: Scene, events: seq<Event>)
    requires Sound(s.handle) && Feasible(s, events)
    ensures SoundThroughout(s, events) <==> ClearsHarmlessly(s, events)
    decreases |events|
  {
    hide Sound;
    if events != [] {
      StepIsSoundExactly(s, events[0]);
      if Sound(Next(s, events[0]).handle) {
        SoundExactly(Next(s, events[0]), events[1..]);
      } else {
        UnsoundFromHere(Next(s, events[0]), events[1..]);
      }
    }
  }

  lemma UnsoundFromHere(s: Scene, events: seq<Event>)
    requires !Sound(s.handle) && Feasible(s, events)
    ensures !SoundThroughout(s, events)
  {
  }

  /** While it is sound, whatever is read is the current child's reply to the latest request. */
  lemma ReadsTheLatest(s: Scene, t: nat)
    requires Sound(s.handle) && Enabled(s, Read(t))
    ensures t in Next(s, Read(t)).waiters && Next(s, Read(t)).waiters[t].Holding? && Pairs(Next(s, Read(t)), t)
  {
    NextReplyIsLatest(s.handle);
  }

  /** What a send, the child and another thread may do next. */
  function OneCall(u: nat): seq<Event> {
    [Send(false), Serve, Enter(u), Read(u)]
  }

  /** A flight cleared under another request is misread: the next call gets that request's answer. */
  lemma HarmfulClearMisreads(s: Scene, u: nat)
    requires Sound(s.handle) && !Harmless(s.handle) && s.handle.alive && u !in s.waiters
    ensures var cleared := s.(handle := s.handle.(inFlight := None));
      && Feasible(cleared, OneCall(u))
      && var last := After(cleared, OneCall(u));
         u in last.waiters && last.waiters[u].Holding? && Mispaired(last, u)
  {
    var cleared := s.(handle := s.handle.(inFlight := None));
    var a := Next(cleared, Send(false));
    var b := Next(a, Serve);
    var c := Next(b, Enter(u));
    OldReplyComesFirst(s.handle);
    var d := Next(c, Read(u));
    FourEvents(cleared, Send(false), Serve, Enter(u), Read(u));
  }

  lemma OldReplyComesFirst(h: Handle)
    requires Sound(h) && !Harmless(h) && h.alive
    ensures var b := Served(SendTo(h.(inFlight := None), false).0);
            b.replies != [] && b.replies[0] + 2 == b.sent && b.open && b.epoch == h.epoch && b.inFlight.Some?
  {
    if h.replies == [] {
      assert h.requests == [h.sent - 1] by { assert h.replies + h.requests == h.requests; }
    } else {
      NextReplyIsLatest(h);
    }
  }

  lemma FourEvents(s: Scene, e: Event, f: Event, g: Event, h: Event)
    requires Enabled(s, e) && Enabled(Next(s, e), f) && Enabled(Next(Next(s, e), f), g) && Enabled(Next(Next(Next(s, e), f), g), h)
    ensures Feasible(s, [e, f, g, h]) && After(s, [e, f, g, h]) == Next(Next(Next(Next(s, e), f), g), h)
  {
    hide Enabled, Next;
    var a := Next(s, e);
    var b := Next(a, f);
    var c := Next(b, g);
    OneMore(c, h, []);
    OneMore(b, g, [h]);
    OneMore(a, f, [g, h]);
    OneMore(s, e, [f, g, h]);
  }

  lemma OneMore(s: Scene, e: Event, rest: seq<Event>)
    requires Enabled(s, e) && Feasible(Next(s, e), rest)
    ensures Feasible(s, [e] + rest) && After(s, [e] + rest) == After(Next(s, e), rest)
    ensures rest == [] ==> After(s, [e] + rest) == Next(s, e)
  {
    hide Enabled, Next;
    assert ([e] + rest)[1..] == rest;
  }

  /** Over every calm run of slow children, late replies, deaths, missed deadlines and recycles, whatever a
      receive is about to return answers the latest request, and comes from the current child. */
  lemma {:induction false} LateRepliesAreNeverReturned(s: Scene, events: seq<Event>, t: nat)
    requires Orderly(s) && Feasible(s, events) && CalmRun(s, events)
    ensures var last := After(s, events);
            Orderly(last) && (t in last.waiters && last.waiters[t].Holding? ==> Pairs(last, t))
    decreases |events|
  {
    if events != [] {
      CalmStepIsOrderly(s, events[0]);
      LateRepliesAreNeverReturned(Next(s, events[0]), events[1..], t);
    }
  }

  /** Nothing in a run stops the cell, restarts it, or sends it the next request. */
  predicate Unbroken(s: Scene, events: seq<Event>)
    requires Feasible(s, events)
    decreases |events|
  {
    events == [] || (!Breaks(s, events[0]) && Unbroken(Next(s, events[0]), events[1..]))
  }

  /** A thread that holds a reply to an earlier request, or from an earlier child. */
  predicate Mispaired(s: Scene, t: nat)
    requires t in s.waiters && s.waiters[t].Holding?
  {
    var w := s.waiters[t];
    w.epoch <= s.handle.epoch && w.reply + 1 <= s.handle.sent && !Pairs(s, t)
  }

  lemma HoldingStays(s: Scene, e: Event, t: nat)
    requires Enabled(s, e) && t in s.waiters && s.waiters[t].Holding? && e != Return(t)
    ensures t in Next(s, e).waiters && Next(s, e).waiters[t] == s.waiters[t]
    ensures Mispaired(s, t) ==> Mispaired(Next(s, e), t)
    ensures Pairs(s, t) ==> if Breaks(s, e) then Mispaired(Next(s, e), t) else Pairs(Next(s, e), t)
  {
  }

  /** Over any run while a thread holds the reply to the latest request, it is still that at the end
      exactly when nothing stopped the cell, restarted it, or sent it the next request: what was mispaired
      once never pairs again. */
  lemma {:induction false} PairingBreaksExactly(s: Scene, events: seq<Event>, t: nat)
    requires Feasible(s, events) && t in s.waiters && s.waiters[t].Holding? && Return(t) !in events
    requires Pairs(s, t) || Mispaired(s, t)
    ensures var last := After(s, events);
            t in last.waiters && last.waiters[t] == s.waiters[t] && (Pairs(last, t) <==> Pairs(s, t) && Unbroken(s, events))
    decreases |events|
  {
    if events != [] {
      HoldingStays(s, events[0], t);
      PairingBreaksExactly(Next(s, events[0]), events[1..], t);
    }
  }

  /** One thread has read the reply to the only request so far, and has not returned. */
  const MID_RETURN := Scene(Handle(1, true, true, true, false, Some(0), [], [], 1), map[0 := Holding(1, 0)])

  const TO_MID_RETURN := [Start, Send(false), Enter(0), Serve, Read(0)]

  /** Any new handle can come to that. */
  lemma MidReturnIsReached()
    ensures Orderly(Scene(NEW_HANDLE, map[])) && Feasible(Scene(NEW_HANDLE, map[]), TO_MID_RETURN)
    ensures CalmRun(Scene(NEW_HANDLE, map[]), TO_MID_RETURN) && After(Scene(NEW_HANDLE, map[]), TO_MID_RETURN) == MID_RETURN
  {
    var s := Scene(NEW_HANDLE, map[]);
    var a := Next(s, Start);
    var b := Next(a, Send(false));
    var c := Next(b, Enter(0));
    var d := Next(c, Serve);
    var e := Next(d, Read(0));
    assert e == MID_RETURN;
    OneMoreEvent(d, Read(0), []);
    OneMoreEvent(c, Serve, [Read(0)]);
    OneMoreEvent(b, Enter(0), [Serve, Read(0)]);
    OneMoreEvent(a, Send(false), [Enter(0), Serve, Read(0)]);
    OneMoreEvent(s, Start, [Send(false), Enter(0), Serve, Read(0)]);
  }

  lemma OneMoreEvent(s: Scene, e: Event, rest: seq<Event>)
    requires Enabled(s, e) && Calm(s, e) && Feasible(Next(s, e), rest) && CalmRun(Next(s, e), rest)
    ensures Feasible(s, [e] + rest) && CalmRun(s, [e] + rest) && After(s, [e] + rest) == After(Next(s, e), rest)
  {
    hide Enabled, Next, Calm;
    OneMore(s, e, rest);
    assert ([e] + rest)[1..] == rest;
  }

  /** A recycle that lands in that gap does break the pairing: the old child's answer is returned after a
      new request went to the new child, and then that request's answer is read for the one after it. */
  lemma RecycleInTheGap()
    ensures Orderly(MID_RETURN) && Misread(MID_RETURN, 0, 1)
  {
    var a := Next(Next(Next(MID_RETURN, Stop), Start), Send(false));
    assert a.handle == Handle(2, true, true, true, false, Some(1), [1], [], 2);
    var b := Next(Next(Next(a, Return(0)), Send(false)), Serve);
    assert b.handle == Handle(2, true, true, true, false, Some(2), [2], [1], 3);
  }

  /** One thread has given up on the first child and has not dropped its request; the cell was recycled
      meanwhile, and the new child has a request of its own. */
  const MID_FAILURE := Scene(Handle(2, true, true, true, false, Some(1), [1], [], 2), map[0 := Failing(1)])

  const TO_MID_FAILURE := [Start, Send(false), Enter(0), GiveUp(0), Stop, Start, Send(false)]

  lemma MidFailureIsReached()
    ensures Feasible(Scene(NEW_HANDLE, map[]), TO_MID_FAILURE) && After(Scene(NEW_HANDLE, map[]), TO_MID_FAILURE) == MID_FAILURE
  {
    var s := Scene(NEW_HANDLE, map[]);
    var a := Next(s, Start);
    var b := Next(a, Send(false));
    var c := Next(b, Enter(0));
    var d := Next(c, GiveUp(0));
    var e := Next(d, Stop);
    var f := Next(e, Start);
    assert Next(f, Send(false)) == MID_FAILURE;
    OneMore(f, Send(false), []);
    OneMore(e, Start, [Send(false)]);
    OneMore(d, Stop, [Start, Send(false)]);
    OneMore(c, GiveUp(0), [Stop, Start, Send(false)]);
    OneMore(b, Enter(0), [GiveUp(0), Stop, Start, Send(false)]);
    OneMore(a, Send(false), [Enter(0), GiveUp(0), Stop, Start, Send(false)]);
    OneMore(s, Start, [Send(false), Enter(0), GiveUp(0), Stop, Start, Send(false)]);
  }

  /** A recycle that lands between the two halves of a failure breaks the pairing too, though no thread
      holds a reply: the request dropped is the new child's, and its answer is read for the next one. */
  lemma RecycleInTheFailure()
    ensures Enabled(MID_FAILURE, Drop(0)) && Sound(MID_FAILURE.handle) && !Harmless(MID_FAILURE.handle)
    ensures var dropped := Next(MID_FAILURE, Drop(0));
            Feasible(dropped, OneCall(1)) && var last := After(dropped, OneCall(1));
            1 in last.waiters && last.waiters[1].Holding? && Mispaired(last, 1)
  {
    var s := Scene(MID_FAILURE.handle, map[]);
    HarmfulClearMisreads(s, 1);
    assert Next(MID_FAILURE, Drop(0)) == s.(handle := s.handle.(inFlight := None));
  }

  /** A recycle and a send while thread `t` holds a reply, its return, and another send: thread `u` then
      reads the answer to an earlier request than the latest. */
  predicate Misread(s: Scene, t: nat, u: nat)
    requires t in s.waiters && s.waiters[t].Holding?
  {
    var a := Next(Next(Next(s, Stop), Start), Send(false));
    t in a.waiters && a.waiters[t].Holding? && !Pairs(a, t) &&
    var b := Next(Next(Next(a, Return(t)), Send(false)), Serve);
    Enabled(b, Enter(u)) && var c := Next(b, Enter(u));
    Enabled(c, Read(u)) && var d := Next(c, Read(u));
    d.waiters[u].Holding? && d.waiters[u].epoch == d.handle.epoch && d.waiters[u].reply + 1 < d.handle.sent
  }

  // -- the handle as an object -------------------------------------------------------------------

  datatype Received = Got(reply: nat) | CellDead | CellTimeout | NothingInFlight

  class ExecutorCell {
    var epoch: nat
    var started: bool
    var alive: bool
    var open: bool
    var broken: bool
    var inFlight: Option<nat>
    var requests: seq<nat>
    var replies: seq<nat>
    var sent: nat

    constructor ()
      ensures View() == NEW_HANDLE && Valid()
    {
      epoch, started, alive, open, broken, inFlight, requests, replies, sent := 0, false, false, false, false, None, [], [], 0;
    }

    function View(): Handle
      reads this
    {
      Handle(epoch, started, alive, open, broken, inFlight, requests, replies, sent)
    }

    ghost predicate Valid()
      reads this
    {
      Sound(View())
    }

    /** Spawn the child and open the pipe; a running cell is left alone. */
    method Start()
      modifies this
      ensures View() == Started(old(View()))
    {
      if started && alive && !broken { return; }
      epoch, started, alive, open, broken, inFlight, requests, replies := epoch + 1, true, true, true, false, None, [], [];
    }

    /** Make sure the child exits, and close the pipe. */
    method Stop()
      modifies this
      ensures View() == Stopped(old(View()))
    {
      CloseConn();
      if started {
        started, alive, inFlight := false, false, None;
      }
    }

    method CloseConn()
      modifies this`open, this`requests, this`replies
      ensures View() == Closed(old(View()))
    {
      open, requests, replies := false, [], [];
    }

    method MarkBroken()
      modifies this`broken
      ensures View() == Broken(old(View()))
    {
      broken := true;
    }

    /** A receive that gives up; both halves at once here. */
    method Fail()
      modifies this`broken, this`inFlight
      ensures View() == Failed(old(View()))
    {
      MarkBroken();
      inFlight := None;
    }

    /** Put a request on the pipe and number it; only one may be out. */
    method Send(rejected: bool) returns (fate: SendFate)
      modifies this
      ensures (View(), fate) == SendTo(old(View()), rejected)
    {
      if broken || !started || !open { return Dead; }
      if inFlight.Some? { return Busy; }
      if !alive || rejected {
        MarkBroken();
        return Dead;
      }
      requests, inFlight, sent := requests + [sent], Some(sent), sent + 1;
      return Accepted;
    }

    /** The child answers one request, if it can. */
    method Serve()
      modifies this`requests, this`replies
      ensures View() == Served(old(View()))
    {
      if alive && open && requests != [] { requests, replies := requests[1..], replies + [requests[0]]; }
    }

    /** The child works, or dies, and other threads use the handle. */
    method Interfere()
      requires Valid()
      modifies this
      ensures Valid() && epoch >= old(epoch)
    {
      hide Sound;
      var n: int, what: int, rejected: bool := *, *, *;
      while n > 0
        invariant Valid() && epoch >= old(epoch)
      {
        StepsAreSound(View(), rejected);
        if what == 0 { Serve(); }
        else if what == 1 { alive := false; }
        else if what == 2 { Stop(); }
        else if what == 3 { Start(); }
        else if what == 4 { MarkBroken(); }
        else { var fate := Send(rejected); }
        n, what, rejected := n - 1, *, *;
      }
    }

    /** Wait for the reply to the request in flight, on the pipe found on entry, polling until the
        deadline. A reply is read and the flight cleared in one step here. */
    method Receive(polls: nat) returns (r: Received)
      requires Valid()
      modifies this
      ensures Valid()
      ensures r.Got? ==> r.reply + 1 == sent && epoch == old(epoch) && inFlight.None?
      ensures r.CellDead? || r.CellTimeout? ==> broken && inFlight.None?
      ensures r.NothingInFlight? <==> old(inFlight).None?
    {
      hide Sound;
      if inFlight.None? { return NothingInFlight; }
      var pipe := epoch;
      var left := polls;
      while true
        invariant Valid() && epoch >= pipe
        decreases left
      {
        Interfere();
        StepsAreSound(View(), false);
        if epoch != pipe || !open {
          Fail();
          return CellDead;
        }
        if replies != [] {
          NextReplyIsLatest(View());
          var reply := replies[0];
          replies, inFlight := replies[1..], None;
          return Got(reply);
        }
        if !alive {
          Fail();
          return CellDead;
        }
        if left == 0 {
          Fail();
          return CellTimeout;
        }
        left := left - 1;
      }
    }
  }
}
